/**
 * The transform interner. Every transform frozen into a scene entity goes
 * through `Lookup`, which returns the handle of the one stored copy of that
 * value. The storage is an arena that only grows; a handle is an index into
 * it. The hash bucketing of pbrt's cache is abstracted to a search of the
 * stored values for an equal one: hashing is consistent with equality, so
 * the bucket of `t` holds every stored value equal to `t`.
 */
module Interning {
  import opened Util
  import opened SceneTypes

  /** No value is stored twice. */
  ghost predicate NoDuplicates<T>(s: seq<T>) {
    forall i, j :: 0 <= i < j < |s| ==> s[i] != s[j]
  }

  /** The first position at which `t` is stored. */
  function IndexOf<T(==)>(s: seq<T>, t: T): (i: Handle)
    requires t in s
    ensures i < |s| && s[i] == t
  {
    if s[0] == t then 0 else 1 + IndexOf(s[1..], t)
  }

  /** No earlier position holds `t`. */
  lemma {:induction false} IndexOfFirst<T>(s: seq<T>, t: T, k: nat)
    requires t in s && k < IndexOf(s, t)
    ensures s[k] != t
  {
    if k > 0 {
      IndexOfFirst(s[1..], t, k - 1);
    }
  }

  /** A position holding `t` with no earlier one is the first position. */
  lemma {:induction false} IndexOfAt<T>(s: seq<T>, t: T, i: nat)
    requires i < |s| && s[i] == t
    requires forall k :: 0 <= k < i ==> s[k] != t
    ensures IndexOf(s, t) == i
  {
    if i > 0 {
      assert s[1..][i - 1] == t;
      IndexOfAt(s[1..], t, i - 1);
    }
  }

  /** Without duplicates, a stored value has exactly one handle. */
  lemma IndexOfUnique<T>(s: seq<T>, t: T, k: nat)
    requires NoDuplicates(s) && k < |s| && s[k] == t
    ensures IndexOf(s, t) == k
  {
  }

  /** The storage after interning `t`. */
  function Interned<T(==)>(s: seq<T>, t: T): (r: seq<T>)
    ensures t in r
    ensures |s| <= |r| <= |s| + 1 && r[..|s|] == s
    ensures forall u :: u in s ==> u in r
    ensures t in s ==> r == s
  {
    if t in s then s else s + [t]
  }

  /** Interning keeps the storage free of duplicates. */
  lemma InternedNoDuplicates<T>(s: seq<T>, t: T)
    requires NoDuplicates(s)
    ensures NoDuplicates(Interned(s, t))
  {
    if t !in s {
      var r := s + [t];
      forall i, j | 0 <= i < j < |r|
        ensures r[i] != r[j]
      {
        if j == |s| {
          assert r[i] == s[i] && s[i] in s;
        }
      }
    }
  }

  /** Interning a value never changes the handle of a value stored before. */
  lemma InternedKeepsHandles<T>(s: seq<T>, t: T, u: T)
    requires u in s
    ensures u in Interned(s, t) && IndexOf(Interned(s, t), u) == IndexOf(s, u)
  {
    var r := Interned(s, t);
    var i := IndexOf(s, u);
    forall k | 0 <= k < i
      ensures r[k] != u
    {
      IndexOfFirst(s, u, k);
      assert r[k] == s[k];
    }
    IndexOfAt(r, u, i);
  }

  /** Interning is idempotent: a second lookup of the same value is a hit. */
  lemma InternedIdempotent<T>(s: seq<T>, t: T)
    ensures Interned(Interned(s, t), t) == Interned(s, t)
    ensures IndexOf(Interned(Interned(s, t), t), t) == IndexOf(Interned(s, t), t)
  {
  }

  class TransformCache<T(==)> {
    /** The interned transforms, in allocation order. */
    var stored: seq<T>

    ghost predicate Valid()
      reads this
    {
      NoDuplicates(stored)
    }

    constructor ()
      ensures Valid() && stored == []
    {
      stored := [];
    }

    /** Searches the stored transforms for one equal to `t`. */
    method Find(t: T) returns (h: Option<Handle>)
      requires Valid()
      ensures h.Some? ==> h.value < |stored| && stored[h.value] == t
      ensures h.None? <==> t !in stored
    {
      var i := 0;
      while i < |stored|
        invariant 0 <= i <= |stored|
        invariant t !in stored[..i]
      {
        if stored[i] == t {
          return Some(i);
        }
        assert stored[..i + 1] == stored[..i] + [stored[i]];
        i := i + 1;
      }
      assert stored[..i] == stored;
      return None;
    }

    /**
     * Returns the handle of the stored copy of `t`. On a hit the storage is
     * unchanged; on a miss exactly one entry, `t`, is appended.
     */
    method Lookup(t: T) returns (h: Handle)
      requires Valid()
      modifies this
      ensures Valid()
      ensures stored == Interned(old(stored), t)
      ensures h < |stored| && stored[h] == t && h == IndexOf(stored, t)
    {
      var found := Find(t);
      if found.Some? {
        IndexOfUnique(stored, t, found.value);
        return found.value;
      }
      InternedNoDuplicates(stored, t);
      stored := stored + [t];
      h := |stored| - 1;
      IndexOfUnique(stored, t, h);
    }
  }
}
