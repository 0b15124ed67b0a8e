/** `ClassUtils.isAssignable` and `ClassUtils.isAssignableToAll`: early-exit loops over a
    set of candidate classes, specified by the quantifiers they compute. */
module Assignability {
  import opened Classes
  import ClassHierarchy

  /** `cls` is non-null and some candidate is assignable from it. */
  ghost predicate AssignableToAny(w: World, cls: Option<ClassId>, classes: set<ClassId>)
    requires WellFormed(w) && (cls.Some? ==> cls.value in w)
  {
    cls.Some? && exists c :: c in classes && AssignableFrom(w, c, cls.value)
  }

  /** `cls` is non-null and every candidate is assignable from it. */
  ghost predicate AssignableToAll(w: World, cls: Option<ClassId>, classes: set<ClassId>)
    requires WellFormed(w) && (cls.Some? ==> cls.value in w)
  {
    cls.Some? && forall c :: c in classes ==> AssignableFrom(w, c, cls.value)
  }

  /** `isAssignable(cls, classes)`: false for a null class or an empty set, otherwise
      whether some candidate is assignable from `cls`. */
  method IsAssignable(w: World, cls: Option<ClassId>, classes: set<ClassId>) returns (r: bool)
    requires WellFormed(w) && (cls.Some? ==> cls.value in w)
    ensures cls.None? || classes == {} ==> !r
    ensures r <==> AssignableToAny(w, cls, classes)
  {
    if cls.None? || classes == {} {
      return false;
    }
    var rest := classes;
    while rest != {}
      invariant rest <= classes
      invariant forall c :: c in classes && c !in rest ==> !AssignableFrom(w, c, cls.value)
      decreases rest
    {
      var c :| c in rest;
      if AssignableFrom(w, c, cls.value) {
        return true;
      }
      rest := rest - {c};
    }
    return false;
  }

  /** `isAssignableToAll(cls, classes)`: false for a null class, otherwise whether every
      candidate is assignable from `cls`, so true for an empty set. */
  method IsAssignableToAll(w: World, cls: Option<ClassId>, classes: set<ClassId>) returns (r: bool)
    requires WellFormed(w) && (cls.Some? ==> cls.value in w)
    ensures cls.None? ==> !r
    ensures cls.Some? && classes == {} ==> r
    ensures r <==> AssignableToAll(w, cls, classes)
  {
    if cls.None? {
      return false;
    }
    var rest := classes;
    while rest != {}
      invariant rest <= classes
      invariant forall c :: c in classes && c !in rest ==> AssignableFrom(w, c, cls.value)
      decreases rest
    {
      var c :| c in rest;
      if !AssignableFrom(w, c, cls.value) {
        return false;
      }
      rest := rest - {c};
    }
    return true;
  }

  /** On a non-empty set, being assignable to all candidates implies being assignable to
      one; on the empty set the two disagree for every non-null class. */
  lemma AllImpliesAny(w: World, cls: Option<ClassId>, classes: set<ClassId>)
    requires WellFormed(w) && (cls.Some? ==> cls.value in w)
    ensures classes != {} && AssignableToAll(w, cls, classes) ==> AssignableToAny(w, cls, classes)
    ensures classes == {} ==> !AssignableToAny(w, cls, classes)
    ensures classes == {} ==> (AssignableToAll(w, cls, classes) <==> cls.Some?)
  {
    if classes != {} && AssignableToAll(w, cls, classes) {
      var c :| c in classes;
      assert AssignableFrom(w, c, cls.value);
    }
  }

  /** A class is assignable to any set that contains it, or one of its superclasses. */
  lemma AncestorInSet(w: World, cls: ClassId, classes: set<ClassId>, k: nat)
    requires WellFormed(w) && cls in w
    requires k < |ClassHierarchy.Chain(w, cls)| && ClassHierarchy.Chain(w, cls)[k] in classes
    ensures AssignableToAny(w, Some(cls), classes)
  {
    ClassHierarchy.ChainAssignable(w, cls, k);
  }

  /** What a class is assignable to, its subclasses and implementors are assignable to. */
  lemma SubtypeInherits(w: World, sub: ClassId, cls: ClassId, classes: set<ClassId>)
    requires WellFormed(w) && sub in w && cls in w
    requires AssignableFrom(w, cls, sub)
    ensures AssignableToAny(w, Some(cls), classes) ==> AssignableToAny(w, Some(sub), classes)
    ensures AssignableToAll(w, Some(cls), classes) ==> AssignableToAll(w, Some(sub), classes)
  {
    if AssignableToAny(w, Some(cls), classes) {
      var c :| c in classes && AssignableFrom(w, c, cls);
      AssignableTransitive(w, c, cls, sub);
    }
    if AssignableToAll(w, Some(cls), classes) {
      forall c | c in classes ensures AssignableFrom(w, c, sub) {
        AssignableTransitive(w, c, cls, sub);
      }
    }
  }
}
