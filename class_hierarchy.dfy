/** `ClassUtils.hierarchy(cls)`: an iterator over a class and its chain of superclasses,
    driven by one mutable cursor that follows `getSuperclass()` until it is null. */
module ClassHierarchy {
  import opened Classes

  /** The classes `hierarchy(c)` yields: `c`, its superclass, that class's superclass,
      and so on up to a class without one. */
  ghost function Chain(w: World, c: ClassId): (s: seq<ClassId>)
    requires WellFormed(w) && c in w
    ensures s != [] && s[0] == c
    ensures forall k :: 0 <= k < |s| ==> s[k] in w
    decreases c
  {
    match Superclass(w, c)
    case None => [c]
    case Some(p) => [c] + Chain(w, p)
  }

  /** Each yielded class after the first is the superclass of the one before it,
      and the last one has no superclass. */
  lemma {:induction false} ChainSteps(w: World, c: ClassId)
    requires WellFormed(w) && c in w
    ensures forall k :: 0 <= k < |Chain(w, c)| - 1 ==>
      Superclass(w, Chain(w, c)[k]) == Some(Chain(w, c)[k + 1])
    ensures Superclass(w, Chain(w, c)[|Chain(w, c)| - 1]) == None
    decreases c
  {
    match Superclass(w, c)
    case None =>
    case Some(p) =>
      ChainSteps(w, p);
      assert Chain(w, c) == [c] + Chain(w, p);
  }

  /** Conversely, a sequence that starts at `c`, steps along superclasses and ends at a
      class without one is exactly what the iterator yields. */
  lemma {:induction false} ChainUnique(w: World, c: ClassId, s: seq<ClassId>)
    requires WellFormed(w) && c in w
    requires s != [] && s[0] == c
    requires forall k :: 0 <= k < |s| ==> s[k] in w
    requires forall k :: 0 <= k < |s| - 1 ==> Superclass(w, s[k]) == Some(s[k + 1])
    requires Superclass(w, s[|s| - 1]) == None
    ensures s == Chain(w, c)
    decreases |s|
  {
    if |s| == 1 {
    } else {
      var p := s[1];
      assert Superclass(w, s[0]) == Some(p);
      var t := s[1..];
      assert forall k :: 0 <= k < |t| - 1 ==> Superclass(w, t[k]) == Some(t[k + 1]) by {
        forall k | 0 <= k < |t| - 1
          ensures Superclass(w, t[k]) == Some(t[k + 1])
        {
          assert t[k] == s[k + 1] && t[k + 1] == s[k + 2];
        }
      }
      ChainUnique(w, p, t);
      assert s == [c] + t;
    }
  }

  /** Identities strictly decrease along the chain: no class repeats, and a chain
      starting at `c` holds at most `c + 1` classes, so iteration terminates. */
  lemma {:induction false} ChainDecreasing(w: World, c: ClassId)
    requires WellFormed(w) && c in w
    ensures forall i, j :: 0 <= i < j < |Chain(w, c)| ==> Chain(w, c)[j] < Chain(w, c)[i]
    ensures forall k :: 0 <= k < |Chain(w, c)| ==> Chain(w, c)[k] <= c
    ensures |Chain(w, c)| <= c + 1
    decreases c
  {
    match Superclass(w, c)
    case None =>
    case Some(p) =>
      ChainDecreasing(w, p);
      var s := Chain(w, c);
      assert s == [c] + Chain(w, p);
      forall i, j | 0 <= i < j < |s| ensures s[j] < s[i] {
        assert s[j] == Chain(w, p)[j - 1];
        if i > 0 {
          assert s[i] == Chain(w, p)[i - 1];
        }
      }
  }

  /** Every class the iterator yields is a supertype of (assignable from) the first. */
  lemma {:induction false} ChainAssignable(w: World, c: ClassId, k: nat)
    requires WellFormed(w) && c in w
    requires k < |Chain(w, c)|
    ensures AssignableFrom(w, Chain(w, c)[k], c)
    decreases c
  {
    if k > 0 {
      var p := Superclass(w, c).value;
      assert Chain(w, c) == [c] + Chain(w, p);
      ChainAssignable(w, p, k - 1);
    }
  }

  /** The local class `ClassHierarchyIterator` inside `hierarchy`, whose field `_next`
      is `cursor` here. */
  class ClassHierarchyIterator {
    const world: World
    var cursor: Option<ClassId>

    ghost predicate Valid()
      reads this
    {
      WellFormed(world) && (cursor.Some? ==> cursor.value in world)
    }

    /** The classes still to be yielded. */
    ghost function Remaining(): seq<ClassId>
      reads this
      requires Valid()
    {
      match cursor
      case None => []
      case Some(c) => Chain(world, c)
    }

    /** The private constructor: `hierarchy` only ever passes it a non-null class. */
    constructor (w: World, cls: ClassId)
      requires WellFormed(w) && cls in w
      ensures Valid() && world == w
      ensures cursor == Some(cls) && Remaining() == Chain(w, cls)
    {
      world := w;
      cursor := Some(cls);
    }

    /** An iterator that is exhausted from the start, standing for `IteratorUtils.empty()`. */
    constructor Empty(w: World)
      requires WellFormed(w)
      ensures Valid() && world == w
      ensures cursor == None && Remaining() == []
    {
      world := w;
      cursor := None;
    }

    method HasNext() returns (b: bool)
      requires Valid()
      ensures b <==> cursor.Some?
      ensures b <==> Remaining() != []
    {
      b := cursor.Some?;
    }

    /** Yields the cursor and moves it to its superclass; on an exhausted iterator
        throws `NoSuchElementException` and leaves the cursor where it is. */
    method Next() returns (r: Result<ClassId>)
      requires Valid()
      modifies this
      ensures Valid()
      ensures old(cursor).None? ==> r == Err(NoSuchElementException) && cursor == old(cursor)
      ensures old(cursor).Some? ==>
        r == Ok(old(cursor).value) && cursor == Superclass(world, old(cursor).value)
      ensures old(Remaining()) == [] ==> r.Err? && Remaining() == []
      ensures old(Remaining()) != [] ==>
        r == Ok(old(Remaining())[0]) && Remaining() == old(Remaining())[1..]
    {
      var more := HasNext();
      if !more {
        return Err(NoSuchElementException);
      }
      var next := cursor.value;
      cursor := Superclass(world, next);
      r := Ok(next);
    }

    /** The iterator is read-only: `remove()` always throws and changes nothing. */
    method Remove() returns (e: JavaException)
      ensures e == UnsupportedOperationException
    {
      e := UnsupportedOperationException;
    }
  }

  /** `hierarchy(cls)`: an exhausted iterator for a null class, otherwise one that
      yields `cls` and then its superclasses. */
  method Hierarchy(w: World, cls: Option<ClassId>) returns (it: ClassHierarchyIterator)
    requires WellFormed(w) && (cls.Some? ==> cls.value in w)
    ensures fresh(it) && it.Valid() && it.world == w
    ensures cls.None? ==> it.Remaining() == []
    ensures cls.Some? ==> it.Remaining() == Chain(w, cls.value) && it.Remaining()[0] == cls.value
  {
    if cls.None? {
      it := new ClassHierarchyIterator.Empty(w);
      return;
    }
    it := new ClassHierarchyIterator(w, cls.value);
  }
}
