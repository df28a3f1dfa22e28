/**
  Release dispatch (telco/cleanups.go).

  A native object is released by `clean(obj, kind)`: the kind tag is looked up in a fixed
  table that names the release primitive to run. A nil pointer or a tag missing from the table
  makes `clean` do nothing. `freeCharArray` frees the elements of a C string array and then the
  array itself.

  The native side is seen only through the release primitives it is asked to run: a
  `HandleTable` logs every such action, and a handle's state (Live or Released) is derived from
  that log.
*/
module Cleanups {
  import opened Base

  /** The tag handed to `clean` (a Go string type), naming how an object is to be released. */
  datatype CleanupKind = CleanupKind(tag: string)

  const UnrefGError := CleanupKind("*GError")
  const UnrefTelco := CleanupKind("telco types")
  const UnrefGObject := CleanupKind("GObject*")

  /** The native release primitives: g_error_free, g_object_unref and C free. */
  datatype Primitive = GErrorFree | GObjectUnref | CFree

  /** The `cleanups` table. */
  const Table: map<CleanupKind, Primitive> :=
    map[UnrefGError := GErrorFree, UnrefTelco := GObjectUnref, UnrefGObject := GObjectUnref]

  /** An `unsafe.Pointer`: nil, or the address of a native object. */
  datatype Ptr<A> = Nil | At(addr: A)

  /** One call of a release primitive on a pointer. */
  datatype Action<A> = Action(primitive: Primitive, target: Ptr<A>)

  datatype HandleState = Live | Released

  /** The release strategy the table selects for a kind, if any. */
  function Strategy(kind: CleanupKind): (r: Option<Primitive>)
    ensures kind == UnrefGError ==> r == Some(GErrorFree)
    ensures kind == UnrefTelco || kind == UnrefGObject ==> r == Some(GObjectUnref)
    ensures kind != UnrefGError && kind != UnrefTelco && kind != UnrefGObject ==> r == None
  {
    if kind in Table then Some(Table[kind]) else None
  }

  /** What one `clean(obj, kind)` asks of the native side. */
  function Dispatch<A(==)>(obj: Ptr<A>, kind: CleanupKind): (r: seq<Action<A>>)
    ensures obj.Nil? ==> r == []
    ensures |r| == (if obj.At? && Strategy(kind).Some? then 1 else 0)
    ensures forall a :: a in r ==> a.target == obj && Some(a.primitive) == Strategy(kind)
  {
    match (obj, Strategy(kind))
    case (At(_), Some(fn)) => [Action(fn, obj)]
    case _ => []
  }

  /** How many release actions in a log target a pointer. */
  function ReleaseCount<A(==)>(acts: seq<Action<A>>, p: Ptr<A>): nat
  {
    if acts == [] then 0
    else (if acts[0].target == p then 1 else 0) + ReleaseCount(acts[1..], p)
  }

  /** A live handle becomes Released once some release action has targeted it. */
  function State<A(==)>(acts: seq<Action<A>>, p: Ptr<A>): HandleState
  {
    if ReleaseCount(acts, p) > 0 then Released else Live
  }

  /** The actions of freeing each pointer of a sequence, in order. */
  function Frees<A>(ps: seq<Ptr<A>>): (r: seq<Action<A>>)
    ensures |r| == |ps|
    ensures forall i :: 0 <= i < |ps| ==> r[i] == Action(CFree, ps[i])
  {
    seq(|ps|, i requires 0 <= i < |ps| => Action(CFree, ps[i]))
  }

  lemma {:induction false} ReleaseCountAppend<A>(a: seq<Action<A>>, b: seq<Action<A>>, p: Ptr<A>)
    ensures ReleaseCount(a + b, p) == ReleaseCount(a, p) + ReleaseCount(b, p)
  {
    if a != [] {
      assert (a + b)[0] == a[0];
      assert (a + b)[1..] == a[1..] + b;
      ReleaseCountAppend(a[1..], b, p);
    } else {
      assert a + b == b;
    }
  }

  /** `clean` on a non-nil pointer with a known kind performs exactly one release of that
      pointer, moves it to Released, and touches no other pointer. */
  lemma CleanReleasesOnce<A>(acts: seq<Action<A>>, obj: Ptr<A>, kind: CleanupKind)
    requires obj.At? && kind in Table
    ensures ReleaseCount(acts + Dispatch(obj, kind), obj) == ReleaseCount(acts, obj) + 1
    ensures State(acts + Dispatch(obj, kind), obj) == Released
    ensures forall q :: q != obj ==> ReleaseCount(acts + Dispatch(obj, kind), q) == ReleaseCount(acts, q)
  {
    var d := Dispatch(obj, kind);
    assert d == [Action(Table[kind], obj)];
    ReleaseCountAppend(acts, d, obj);
    assert ReleaseCount(d[1..], obj) == 0;
    forall q | q != obj
      ensures ReleaseCount(acts + d, q) == ReleaseCount(acts, q)
    {
      ReleaseCountAppend(acts, d, q);
      assert ReleaseCount(d[1..], q) == 0;
    }
  }

  /** Nothing records that a handle was released: a second `clean` of the same pointer
      releases it a second time. */
  lemma CleanTwiceReleasesTwice<A>(acts: seq<Action<A>>, obj: Ptr<A>, kind: CleanupKind)
    requires obj.At? && kind in Table
    ensures ReleaseCount(acts + Dispatch(obj, kind) + Dispatch(obj, kind), obj) == ReleaseCount(acts, obj) + 2
  {
    CleanReleasesOnce(acts, obj, kind);
    CleanReleasesOnce(acts + Dispatch(obj, kind), obj, kind);
  }

  /** Freeing a sequence frees each pointer as many times as it occurs in it: once each
      when the elements are distinct. */
  lemma {:induction false} FreesCount<A>(ps: seq<Ptr<A>>, p: Ptr<A>)
    ensures ReleaseCount(Frees(ps), p) == multiset(ps)[p]
  {
    if ps != [] {
      var rest := ps[1..];
      assert ps == [ps[0]] + rest;
      assert Frees(ps)[1..] == Frees(rest);
      FreesCount(rest, p);
      assert multiset(ps) == multiset{ps[0]} + multiset(rest);
    }
  }

  /** `freeCharArray` with distinct element pointers, none of them the container: every
      element and the container are freed exactly once. */
  lemma FreeCharArrayOnceEach<A>(arr: Ptr<A>, elems: seq<Ptr<A>>, p: Ptr<A>)
    requires forall i, j :: 0 <= i < j < |elems| ==> elems[i] != elems[j]
    requires arr !in elems
    requires p in elems || p == arr
    ensures ReleaseCount(Frees(elems) + [Action(CFree, arr)], p) == 1
  {
    ReleaseCountAppend(Frees(elems), [Action(CFree, arr)], p);
    FreesCount(elems, p);
    DistinctMultiplicity(elems, p);
  }

  lemma {:induction false} DistinctMultiplicity<A>(s: seq<Ptr<A>>, p: Ptr<A>)
    requires forall i, j :: 0 <= i < j < |s| ==> s[i] != s[j]
    ensures multiset(s)[p] == if p in s then 1 else 0
  {
    if s != [] {
      var rest := s[1..];
      assert s == [s[0]] + rest;
      assert multiset(s) == multiset{s[0]} + multiset(rest);
      DistinctMultiplicity(rest, p);
      assert s[0] !in rest by {
        forall j | 0 <= j < |rest| ensures rest[j] != s[0] {
          assert rest[j] == s[j + 1];
        }
      }
    }
  }

  /** The native heap as the release code sees it: the log of release primitives run. */
  class HandleTable<A(==)> {
    var actions: seq<Action<A>>

    constructor ()
      ensures actions == []
    {
      actions := [];
    }

    function StateOf(p: Ptr<A>): HandleState
      reads this
    {
      State(actions, p)
    }

    /** `clean`: a nil pointer or a kind missing from the table is a no-op; otherwise the
        table's primitive is run once on the pointer. */
    method Clean(obj: Ptr<A>, kind: CleanupKind)
      modifies this
      ensures actions == old(actions) + Dispatch(obj, kind)
      ensures obj.Nil? || kind !in Table ==> actions == old(actions)
      ensures obj.At? && kind in Table ==> StateOf(obj) == Released
    {
      if obj.At? {
        var fn := Strategy(kind);
        if fn.Some? {
          actions := actions + [Action(fn.value, obj)];
        }
      }
      if obj.At? && kind in Table {
        CleanReleasesOnce(old(actions), obj, kind);
      }
    }

    /** `freeCharArray`: frees elements 0 .. size-1 in index order, then the container. */
    method FreeCharArray(arr: Ptr<A>, elems: array<Ptr<A>>, size: int)
      requires size <= elems.Length
      modifies this
      ensures size <= 0 ==> actions == old(actions) + [Action(CFree, arr)]
      ensures size > 0 ==> actions == old(actions) + Frees(elems[..size]) + [Action(CFree, arr)]
    {
      var i := 0;
      while i < size
        invariant 0 <= i <= elems.Length
        invariant i <= if size < 0 then 0 else size
        invariant actions == old(actions) + Frees(elems[..i])
      {
        assert Frees(elems[..i + 1]) == Frees(elems[..i]) + [Action(CFree, elems[i])];
        actions := actions + [Action(CFree, elems[i])];
        i := i + 1;
      }
      assert size <= 0 ==> elems[..i] == [];
      actions := actions + [Action(CFree, arr)];
    }
  }
}
