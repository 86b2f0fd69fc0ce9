/** The handle table of pkg/cgo/handle.go: a fixed vector of 256 slots
    that hands out small integer tokens for Go values. The source is not
    thread-safe, so each compare-and-swap is the sequential "if the slot is
    empty, fill it". A panic of the source is a `Panicked`/`None` outcome. */
module Handles {
  import opened SdkTypes

  /** The largest value a handle can hold (handle.go:54). */
  const MaxHandle: nat := 255
  /** Number of extra full passes NewHandle makes before it panics (handle.go:58). */
  const MaxNewHandleRounds: nat := 20

  /** A value-level view of the vector of slots. */
  type Table<T> = seq<Option<T>>

  /** The shape every reachable table has: 256 slots, slot 0 never used. */
  predicate WellFormed<T>(s: Table<T>) {
    |s| == MaxHandle + 1 && s[0].None?
  }

  predicate AllEmpty<T>(s: Table<T>) {
    forall i :: 0 <= i < |s| ==> s[i].None?
  }

  function EmptyTable<T>(): (s: Table<T>)
    ensures WellFormed(s) && AllEmpty(s)
  {
    seq(MaxHandle + 1, _ => None)
  }

  datatype NewHandleResult = Issued(h: nat) | Exhausted

  /** The lowest empty slot in [from, MaxHandle], if any. */
  function FirstFree<T>(s: Table<T>, from: nat): (r: Option<nat>)
    requires |s| == MaxHandle + 1 && from >= 1
    ensures r.Some? ==> from <= r.value <= MaxHandle && s[r.value].None?
    ensures r.Some? ==> forall j :: from <= j < r.value ==> s[j].Some?
    ensures r.None? ==> forall j :: from <= j <= MaxHandle ==> s[j].Some?
    decreases MaxHandle + 1 - from
  {
    if from > MaxHandle then None
    else if s[from].None? then Some(from)
    else FirstFree(s, from + 1)
  }

  /** NewHandle run sequentially, as a function of the table before the call. */
  function Register<T>(s: Table<T>, v: T): (r: (NewHandleResult, Table<T>))
    requires WellFormed(s)
  {
    match FirstFree(s, 1)
    case Some(h) => (Issued(h), s[h := Some(v)])
    case None => (Exhausted, s)
  }

  /** Handle.Value: None where the source panics. */
  function Lookup<T>(s: Table<T>, h: nat): (r: Option<T>)
  {
    if h >= |s| || s[h].None? then None else s[h]
  }

  /** Handle.Delete: None where the source panics, else the new table. */
  function Revoke<T>(s: Table<T>, h: nat): (r: Option<Table<T>>)
  {
    if h >= |s| || s[h].None? then None else Some(s[h := None])
  }

  /** Number of live handles. */
  function LiveCount<T>(s: Table<T>): (c: nat)
    ensures c <= |s|
  {
    if s == [] then 0 else LiveCount(s[..|s| - 1]) + (if s[|s| - 1].Some? then 1 else 0)
  }

  class HandleTable<T> {
    /** handles [MaxHandle + 1]unsafe.Pointer (handle.go:62) */
    const slots: array<Option<T>>

    ghost predicate Valid()
      reads this, slots
    {
      WellFormed(slots[..])
    }

    /** Package initialisation: the init function calls resetHandles. */
    constructor ()
      ensures Valid() && fresh(slots)
      ensures AllEmpty(slots[..])
    {
      slots := new Option<T>[MaxHandle + 1](_ => None);
    }

    /** NewHandle (handle.go:86-111). `probes` counts compare-and-swap
        attempts; `Exhausted` is the panic of line 109. */
    method NewHandle(v: T) returns (r: NewHandleResult, probes: nat)
      requires Valid()
      modifies slots
      ensures Valid()
      ensures (r, slots[..]) == Register(old(slots[..]), v)
      ensures r.Exhausted? ==> probes == (MaxNewHandleRounds + 1) * MaxHandle
    {
      var rounds := 0;
      var h := 1;
      probes := 0;
      while true
        invariant 1 <= h <= MaxHandle && 0 <= rounds <= MaxNewHandleRounds
        invariant slots[..] == old(slots[..])
        invariant forall j :: 1 <= j < h ==> slots[j].Some?
        invariant rounds > 0 ==> forall j :: 1 <= j <= MaxHandle ==> slots[j].Some?
        invariant probes == rounds * MaxHandle + (h - 1)
        decreases MaxNewHandleRounds - rounds, MaxHandle - h
      {
        probes := probes + 1;
        if slots[h].None? {
          slots[h] := Some(v);
          r := Issued(h);
          return;
        }
        if h < MaxHandle {
          h := h + 1;
          continue;
        }
        // back to the start of the vector: h = 0, then h++
        h := 1;
        if rounds < MaxNewHandleRounds {
          rounds := rounds + 1;
          continue;
        }
        r := Exhausted;
        return;
      }
    }

    /** Handle.Value (handle.go:117-122); None is the panic of line 119. */
    function Value(h: nat): (r: Option<T>)
      requires Valid()
      reads this, slots
      ensures r.None? <==> h > MaxHandle || slots[h].None?
      ensures r.Some? ==> slots[h] == Some(r.value)
      ensures r == Lookup(slots[..], h)
    {
      if h > MaxHandle || slots[h].None? then None else slots[h]
    }

    /** Handle.Delete (handle.go:130-135); `ok` is false on the panic of line 132. */
    method Delete(h: nat) returns (ok: bool)
      requires Valid()
      modifies slots
      ensures Valid()
      ensures ok <==> Revoke(old(slots[..]), h).Some?
      ensures ok ==> slots[..] == Revoke(old(slots[..]), h).value
      ensures !ok ==> slots[..] == old(slots[..])
    {
      if h > MaxHandle || slots[h].None? {
        return false;
      }
      slots[h] := None;
      return true;
    }

    /** resetHandles (handle.go:137-141). */
    method ResetHandles()
      requires Valid()
      modifies slots
      ensures Valid() && AllEmpty(slots[..])
    {
      var i := 0;
      while i <= MaxHandle
        invariant 0 <= i <= MaxHandle + 1 == slots.Length
        invariant forall j :: 0 <= j < i ==> slots[j].None?
      {
        slots[i] := None;
        i := i + 1;
      }
    }
  }

  // ---------------------------------------------------------------------
  // Properties of the sequential table

  /** A new handle is never 0 and never above MaxHandle, and slot h was empty. */
  lemma RegisterInRange<T>(s: Table<T>, v: T)
    requires WellFormed(s)
    ensures Register(s, v).0.Issued? ==> 1 <= Register(s, v).0.h <= MaxHandle
    ensures Register(s, v).0.Issued? ==> s[Register(s, v).0.h].None?
    ensures WellFormed(Register(s, v).1)
  {
  }

  /** NewHandle fills the lowest empty slot >= 1 and changes no other slot. */
  lemma RegisterFillsLowest<T>(s: Table<T>, v: T, j: nat)
    requires WellFormed(s) && Register(s, v).0.Issued? && j <= MaxHandle
    ensures var h := Register(s, v).0.h;
      (1 <= j < h ==> s[j].Some?) &&
      (j != h ==> Register(s, v).1[j] == s[j]) &&
      Register(s, v).1[h] == Some(v)
  {
  }

  /** Value(NewHandle(v)) == v. */
  lemma ValueOfNewHandle<T>(s: Table<T>, v: T)
    requires WellFormed(s) && Register(s, v).0.Issued?
    ensures Lookup(Register(s, v).1, Register(s, v).0.h) == Some(v)
  {
  }

  /** Registering the same value twice yields two distinct handles, both live. */
  lemma RegisterTwiceDistinct<T>(s: Table<T>, v: T)
    requires WellFormed(s)
    requires Register(s, v).0.Issued? && Register(Register(s, v).1, v).0.Issued?
    ensures var h1 := Register(s, v).0.h;
      var t1 := Register(s, v).1;
      var h2 := Register(t1, v).0.h;
      var t2 := Register(t1, v).1;
      h1 != h2 && Lookup(t2, h1) == Some(v) && Lookup(t2, h2) == Some(v)
  {
    RegisterInRange(s, v);
    RegisterInRange(Register(s, v).1, v);
  }

  /** Handle 0 always panics, for Value and for Delete. */
  lemma ZeroHandleIsInvalid<T>(s: Table<T>)
    requires WellFormed(s)
    ensures Lookup(s, 0).None? && Revoke(s, 0).None?
  {
  }

  /** Delete empties exactly slot h; after it Value(h) and Delete(h) panic. */
  lemma RevokeClears<T>(s: Table<T>, h: nat)
    requires WellFormed(s) && Revoke(s, h).Some?
    ensures WellFormed(Revoke(s, h).value)
    ensures Lookup(Revoke(s, h).value, h).None? && Revoke(Revoke(s, h).value, h).None?
    ensures forall j :: 0 <= j < |s| && j != h ==> Revoke(s, h).value[j] == s[j]
  {
  }

  lemma {:induction false} LiveCountAllFull<T>(s: Table<T>, k: nat)
    requires k <= |s|
    requires forall j :: 0 <= j < k ==> s[j].Some?
    ensures LiveCount(s[..k]) == k
  {
    if k > 0 {
      assert s[..k][..k - 1] == s[..k - 1];
      LiveCountAllFull(s, k - 1);
    }
  }

  /** With fewer than MaxHandle live handles NewHandle never panics. */
  lemma NeverExhaustedBelowCapacity<T>(s: Table<T>, v: T)
    requires WellFormed(s) && LiveCount(s) < MaxHandle
    ensures Register(s, v).0.Issued?
  {
    if FirstFree(s, 1).None? {
      // every slot but 0 is live, so LiveCount(s) == MaxHandle
      var rest := s[1..];
      assert forall j :: 0 <= j < |rest| ==> rest[j].Some?;
      LiveCountAllFull(rest, |rest|);
      assert rest[..|rest|] == rest;
      LiveCountFirst(s);
      assert false;
    }
  }

  lemma {:induction false} LiveCountFirst<T>(s: Table<T>)
    requires |s| >= 1
    ensures LiveCount(s) == LiveCount(s[1..]) + (if s[0].Some? then 1 else 0)
  {
    if |s| == 1 {
      assert s[1..] == [];
      assert s[..0] == [];
    } else {
      assert s[..|s| - 1][1..] == s[1..][..|s| - 2];
      LiveCountFirst(s[..|s| - 1]);
    }
  }

  // ---------------------------------------------------------------------
  // Capacity: a sequence of registrations from an empty table

  /** Registers every value of vs in order; None once one panics. */
  function RegisterAll<T>(s: Table<T>, vs: seq<T>): (r: Option<(seq<nat>, Table<T>)>)
    requires WellFormed(s)
    ensures r.Some? ==> WellFormed(r.value.1) && |r.value.0| == |vs|
    decreases |vs|
  {
    if vs == [] then Some(([], s))
    else
      var (res, s1) := Register(s, vs[0]);
      match res
      case Exhausted => None
      case Issued(h) =>
        match RegisterAll(s1, vs[1..])
        case None => None
        case Some((hs, s2)) => Some(([h] + hs, s2))
  }

  /** The table holding vs[i] in slot i + 1 for i < |vs| and nothing else. */
  function Filled<T>(vs: seq<T>): (s: Table<T>)
    requires |vs| <= MaxHandle
    ensures WellFormed(s)
  {
    seq(MaxHandle + 1, i requires 0 <= i <= MaxHandle =>
      if 1 <= i <= |vs| then Some(vs[i - 1]) else None)
  }

  function Range(lo: nat, n: nat): (r: seq<nat>)
    ensures |r| == n && forall i :: 0 <= i < n ==> r[i] == lo + i
    decreases n
  {
    if n == 0 then [] else [lo] + Range(lo + 1, n - 1)
  }

  lemma {:induction false} RegisterAllFromFilled<T>(done: seq<T>, vs: seq<T>)
    requires |done| + |vs| <= MaxHandle
    ensures RegisterAll(Filled(done), vs) == Some((Range(|done| + 1, |vs|), Filled(done + vs)))
    decreases |vs|
  {
    if vs == [] {
      assert done + vs == done;
    } else {
      RegisterAllFromFilled(done + [vs[0]], vs[1..]);
      RegisterAllFromFilledStep(done, vs);
    }
  }

  /** The inductive step of RegisterAllFromFilled. */
  lemma RegisterAllFromFilledStep<T>(done: seq<T>, vs: seq<T>)
    requires |vs| > 0 && |done| + |vs| <= MaxHandle
    requires RegisterAll(Filled(done + [vs[0]]), vs[1..]) ==
      Some((Range(|done| + 2, |vs| - 1), Filled(done + [vs[0]] + vs[1..])))
    ensures RegisterAll(Filled(done), vs) == Some((Range(|done| + 1, |vs|), Filled(done + vs)))
  {
    var h := |done| + 1;
    var done' := done + [vs[0]];
    RegisterFilled(done, vs[0]);
    AppendFirst(done, vs);
    assert Range(h, |vs|) == [h] + Range(h + 1, |vs| - 1);
    RegisterAllCons(Filled(done), vs, h, Filled(done'), Range(h + 1, |vs| - 1), Filled(done + vs));
  }

  lemma AppendFirst<T>(done: seq<T>, vs: seq<T>)
    requires |vs| > 0
    ensures done + [vs[0]] + vs[1..] == done + vs
  {
    assert vs == [vs[0]] + vs[1..];
  }

  /** RegisterAll after a first registration that issued h. */
  lemma RegisterAllCons<T>(s: Table<T>, vs: seq<T>, h: nat, s1: Table<T>, hs: seq<nat>, s2: Table<T>)
    requires WellFormed(s) && |vs| > 0
    requires Register(s, vs[0]) == (Issued(h), s1)
    requires WellFormed(s1) && RegisterAll(s1, vs[1..]) == Some((hs, s2))
    ensures RegisterAll(s, vs) == Some(([h] + hs, s2))
  {
  }

  /** Registering on a densely filled table takes the next slot. */
  lemma RegisterFilled<T>(done: seq<T>, v: T)
    requires |done| < MaxHandle
    ensures Register(Filled(done), v) == (Issued(|done| + 1), Filled(done + [v]))
  {
    var s := Filled(done);
    var h := |done| + 1;
    assert s[h].None?;
    assert forall j :: 1 <= j < h ==> s[j].Some?;
    FirstFreeIsLowest(s, 1, h);
    assert s[h := Some(v)] == Filled(done + [v]);
  }

  lemma {:induction false} FirstFreeIsLowest<T>(s: Table<T>, from: nat, h: nat)
    requires |s| == MaxHandle + 1 && 1 <= from <= h <= MaxHandle
    requires s[h].None? && forall j :: from <= j < h ==> s[j].Some?
    ensures FirstFree(s, from) == Some(h)
    decreases h - from
  {
    if from < h {
      FirstFreeIsLowest(s, from + 1, h);
    }
  }

  /** Capacity bound (handle_test.go:115-148): from an empty table, MaxHandle
      registrations succeed with tokens 1, 2, ..., MaxHandle, and one more panics. */
  lemma CapacityBound<T>(vs: seq<T>, extra: T)
    requires |vs| == MaxHandle
    ensures RegisterAll(EmptyTable<T>(), vs) == Some((Range(1, MaxHandle), Filled(vs)))
    ensures RegisterAll(EmptyTable<T>(), vs + [extra]).None?
  {
    EmptyIsFilled<T>();
    RegisterAllFromFilled<T>([], vs);
    assert [] + vs == vs;
    FilledToCapacity(vs);
    RegisterAllThenFull(EmptyTable<T>(), vs, extra);
  }

  lemma EmptyIsFilled<T>()
    ensures Filled<T>([]) == EmptyTable<T>()
  {
    assert forall i :: 0 <= i < MaxHandle + 1 ==> Filled<T>([])[i] == EmptyTable<T>()[i];
  }

  /** A table filled with MaxHandle values has no free slot. */
  lemma FilledToCapacity<T>(vs: seq<T>)
    requires |vs| == MaxHandle
    ensures FirstFree(Filled(vs), 1).None?
  {
    var s := Filled(vs);
    if FirstFree(s, 1).Some? {
      assert false;
    }
  }

  lemma {:induction false} RegisterAllThenFull<T>(s: Table<T>, vs: seq<T>, extra: T)
    requires WellFormed(s) && RegisterAll(s, vs).Some?
    requires FirstFree(RegisterAll(s, vs).value.1, 1).None?
    ensures RegisterAll(s, vs + [extra]).None?
    decreases |vs|
  {
    if vs == [] {
      assert vs + [extra] == [extra];
    } else {
      assert (vs + [extra])[0] == vs[0];
      assert (vs + [extra])[1..] == vs[1..] + [extra];
      RegisterAllThenFull(Register(s, vs[0]).1, vs[1..], extra);
    }
  }

  /** Deleting every issued handle returns the table to all-empty
      (handle_test.go:59-72). */
  lemma DeleteAllIssued<T>(vs: seq<T>)
    requires |vs| <= MaxHandle
    ensures RevokeAll(Filled(vs), Range(1, |vs|)) == Some(EmptyTable<T>())
  {
    assert Filled(vs) == FilledFrom(vs, 1);
    RevokeAllFrom(vs, 1);
  }

  /** Deletes every handle of hs in order; None once one panics. */
  function RevokeAll<T>(s: Table<T>, hs: seq<nat>): (r: Option<Table<T>>)
    decreases |hs|
  {
    if hs == [] then Some(s)
    else match Revoke(s, hs[0])
      case None => None
      case Some(s1) => RevokeAll(s1, hs[1..])
  }

  /** The table whose slots lo..|vs| hold vs[lo-1..] and nothing else. */
  function FilledFrom<T>(vs: seq<T>, lo: nat): (s: Table<T>)
    requires |vs| <= MaxHandle && lo >= 1
    ensures WellFormed(s)
  {
    seq(MaxHandle + 1, i requires 0 <= i <= MaxHandle =>
      if lo <= i <= |vs| then Some(vs[i - 1]) else None)
  }

  lemma {:induction false} RevokeAllFrom<T>(vs: seq<T>, lo: nat)
    requires |vs| <= MaxHandle && 1 <= lo <= |vs| + 1
    ensures RevokeAll(FilledFrom(vs, lo), Range(lo, |vs| + 1 - lo)) == Some(EmptyTable<T>())
    decreases |vs| + 1 - lo
  {
    if lo == |vs| + 1 {
      assert FilledFrom(vs, lo) == EmptyTable<T>();
    } else {
      var s := FilledFrom(vs, lo);
      assert s[lo] == Some(vs[lo - 1]);
      assert s[lo := None] == FilledFrom(vs, lo + 1);
      var r := Range(lo, |vs| + 1 - lo);
      assert r[1..] == Range(lo + 1, |vs| + 1 - (lo + 1));
      RevokeAllFrom(vs, lo + 1);
    }
  }
}
