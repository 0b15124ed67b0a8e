/** The runtime world that ClassUtils reflects over: class objects, their direct
    supertypes, the loader that defined each of them and the package each belongs to.
    Classes, loaders and threads are opaque identities; `None` stands for Java's `null`. */
module Classes {

  datatype Option<+T> = None | Some(value: T)

  /** The unchecked exceptions that the modelled operations throw. */
  datatype JavaException =
    | NullPointerException
    | NoSuchElementException
    | UnsupportedOperationException

  /** A value or the exception thrown instead of returning one. */
  datatype Result<+T> = Ok(value: T) | Err(error: JavaException)

  type ClassId = nat
  type LoaderId = nat

  /** What `Class` exposes about one loaded class.
      `loader` is `getClassLoader()` (`None`: the bootstrap loader),
      `packageName` is `getPackage().getName()` (`None`: `getPackage()` is null). */
  datatype ClassInfo = ClassInfo(
    superclass: Option<ClassId>,
    interfaces: set<ClassId>,
    loader: Option<LoaderId>,
    packageName: Option<string>)

  /** Every loaded class, by identity. */
  type World = map<ClassId, ClassInfo>

  /** A class's direct supertypes are loaded too, and were loaded before it, so they
      carry smaller identities. Any acyclic hierarchy admits such a numbering. */
  ghost predicate WellFormed(w: World) {
    forall c :: c in w ==>
      && (w[c].superclass.Some? ==> w[c].superclass.value in w && w[c].superclass.value < c)
      && (forall i :: i in w[c].interfaces ==> i in w && i < c)
  }

  /** `Class.getSuperclass()`. */
  function Superclass(w: World, c: ClassId): (s: Option<ClassId>)
    requires WellFormed(w) && c in w
    ensures s.Some? ==> s.value in w && s.value < c
  {
    w[c].superclass
  }

  /** `c.isAssignableFrom(cls)`: `c` is `cls` itself or one of its supertypes, reached
      through superclasses and implemented interfaces. */
  predicate AssignableFrom(w: World, c: ClassId, cls: ClassId)
    requires WellFormed(w) && cls in w
    decreases cls
  {
    || c == cls
    || (w[cls].superclass.Some? && AssignableFrom(w, c, w[cls].superclass.value))
    || (exists i :: i in w[cls].interfaces && AssignableFrom(w, c, i))
  }

  /** A supertype of a supertype is a supertype. */
  lemma {:induction false} AssignableTransitive(w: World, a: ClassId, b: ClassId, c: ClassId)
    requires WellFormed(w) && b in w && c in w
    requires AssignableFrom(w, a, b) && AssignableFrom(w, b, c)
    ensures AssignableFrom(w, a, c)
    decreases c
  {
    if b == c {
    } else if w[c].superclass.Some? && AssignableFrom(w, b, w[c].superclass.value) {
      AssignableTransitive(w, a, b, w[c].superclass.value);
    } else {
      var i :| i in w[c].interfaces && AssignableFrom(w, b, i);
      AssignableTransitive(w, a, b, i);
    }
  }

  /** Only a class itself or one with a smaller identity can be assignable from it:
      the relation is antisymmetric, so no two distinct classes are each other's supertype. */
  lemma {:induction false} AssignableFromOrdered(w: World, c: ClassId, cls: ClassId)
    requires WellFormed(w) && cls in w
    requires AssignableFrom(w, c, cls)
    ensures c <= cls
    ensures c != cls ==> !(c in w && AssignableFrom(w, cls, c))
    decreases cls
  {
    if c == cls {
    } else if w[cls].superclass.Some? && AssignableFrom(w, c, w[cls].superclass.value) {
      AssignableFromOrdered(w, c, w[cls].superclass.value);
    } else {
      var i :| i in w[cls].interfaces && AssignableFrom(w, c, i);
      AssignableFromOrdered(w, c, i);
    }
    if c != cls && c in w && AssignableFrom(w, cls, c) {
      AssignableFromOrdered(w, cls, c);
    }
  }
}
