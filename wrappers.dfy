/** wrappers/wrappers.go: the older extraction wrappers. Unlike the version
    in pkg/sdk/symbols/extract, the extractors receive an io.ReadSeeker over
    the event data (a root-package bytesReadWriter), and the synchronous
    path builds ONE reader for all fields of a call: each extractor starts
    where the previous one left the cursor. */
module Wrappers {
  import opened SdkTypes
  import opened CEvent
  import opened CExtract
  import Bytes
  import ES = ExtractSymbols

  /** PluginExtractStrFunc of this package, without the opaque plugin state.
      The reader argument is the event data together with the reader's
      cursor; the extractor reports the cursor it leaves behind:
      (evtnum, data, cursor, ts, field, arg) -> (present, value, cursor'). */
  type StrReader = (int, seq<byte>, int, int, string, string) -> (bool, string, int)
  /** PluginExtractU64Func of this package, in the same form. */
  type U64Reader = (int, seq<byte>, int, int, string, string) -> (bool, int, int)

  /** One field dispatched with the shared reader at cursor c: the new
      slots and the cursor the extractor leaves. A nil extractor (None)
      leaves both alone. */
  function Dispatch(q: ES.Request, ev: ES.EventView, c: int, strF: Option<StrReader>,
                    u64F: Option<U64Reader>, before: ES.Answer): (r: (ES.Answer, int))
    ensures q.ftype != ParamTypeCharBuf && q.ftype != ParamTypeUint64 ==> r == (before, c)
    ensures q.ftype == ParamTypeCharBuf && strF.Some? ==>
      var (present, s, c') := strF.value(ev.evtnum, ev.data, c, ev.ts, q.field, q.arg);
      && r.0.present == present && r.1 == c'
      && (r.0.resStr.Some? <==> r.0.present)
      && (r.0.present ==> r.0.resStr == Some(s))
      && r.0.resU64 == before.resU64
    ensures q.ftype == ParamTypeUint64 && u64F.Some? ==>
      var (present, v, c') := u64F.value(ev.evtnum, ev.data, c, ev.ts, q.field, q.arg);
      && r.0.present == present && r.1 == c'
      && r.0.resStr == before.resStr
      && (r.0.present ==> r.0.resU64 == v)
      && (!r.0.present ==> r.0.resU64 == before.resU64)
  {
    if q.ftype == ParamTypeCharBuf && strF.Some? then
      var (present, s, c') := strF.value(ev.evtnum, ev.data, c, ev.ts, q.field, q.arg);
      (before.(present := present, resStr := if present then Some(s) else None), c')
    else if q.ftype == ParamTypeUint64 && u64F.Some? then
      var (present, v, c') := u64F.value(ev.evtnum, ev.data, c, ev.ts, q.field, q.arg);
      (before.(present := present, resU64 := if present then v else before.resU64), c')
    else
      (before, c)
  }

  /** The fields of one synchronous call dispatched in order over one
      reader that starts at cursor c0: the answers, and the final cursor. */
  function Sweep(qs: seq<ES.Request>, ev: ES.EventView, c0: int, strF: Option<StrReader>,
                 u64F: Option<U64Reader>, before: seq<ES.Answer>): (r: (seq<ES.Answer>, int))
    requires |before| == |qs|
    ensures |r.0| == |qs|
    decreases |qs|
  {
    if |qs| == 0 then ([], c0)
    else
      var n := |qs| - 1;
      var (prev, c) := Sweep(qs[..n], ev, c0, strF, u64F, before[..n]);
      var (a, c') := Dispatch(qs[n], ev, c, strF, u64F, before[n]);
      (prev + [a], c')
  }

  /** No rewind: the i-th field is answered from the cursor that the first
      i fields left, not from the start of the data. */
  lemma {:induction false} SweepNoRewind(qs: seq<ES.Request>, ev: ES.EventView, c0: int,
                                         strF: Option<StrReader>, u64F: Option<U64Reader>,
                                         before: seq<ES.Answer>, i: nat)
    requires |before| == |qs| && i < |qs|
    ensures Sweep(qs, ev, c0, strF, u64F, before).0[i] ==
      Dispatch(qs[i], ev, Sweep(qs[..i], ev, c0, strF, u64F, before[..i]).1,
               strF, u64F, before[i]).0
    decreases |qs|
  {
    var n := |qs| - 1;
    if i < n {
      SweepNoRewind(qs[..n], ev, c0, strF, u64F, before[..n], i);
      assert qs[..n][..i] == qs[..i];
      assert before[..n][..i] == before[..i];
    } else {
      assert qs[..i] == qs[..n];
      assert before[..i] == before[..n];
    }
  }

  /** An extractor of the pkg/sdk/symbols/extract kind used through a
      reader: it ignores the cursor and leaves it where it was. */
  function CursorFreeStr(s: Option<ES.StrExtractor>): Option<StrReader>
  {
    if s.None? then None
    else Some((e: int, d: seq<byte>, c: int, t: int, f: string, a: string) =>
      (s.value(e, d, t, f, a).0, s.value(e, d, t, f, a).1, c))
  }

  function CursorFreeU64(u: Option<ES.U64Extractor>): Option<U64Reader>
  {
    if u.None? then None
    else Some((e: int, d: seq<byte>, c: int, t: int, f: string, a: string) =>
      (u.value(e, d, t, f, a).0, u.value(e, d, t, f, a).1, c))
  }

  /** With extractors that do not move the cursor, the shared reader makes
      no difference: every field gets the answer the cursor-free wrappers of
      pkg/sdk/symbols/extract give it, and the cursor stays put. */
  lemma {:induction false} CursorFreeSweepAgrees(qs: seq<ES.Request>, ev: ES.EventView, c0: int,
                                                 s: Option<ES.StrExtractor>,
                                                 u: Option<ES.U64Extractor>,
                                                 before: seq<ES.Answer>)
    requires |before| == |qs|
    ensures Sweep(qs, ev, c0, CursorFreeStr(s), CursorFreeU64(u), before).1 == c0
    ensures forall i :: 0 <= i < |qs| ==>
      Sweep(qs, ev, c0, CursorFreeStr(s), CursorFreeU64(u), before).0[i] ==
      ES.FieldAnswer(qs[i], ev, s, u, before[i])
    decreases |qs|
  {
    if |qs| > 0 {
      var n := |qs| - 1;
      CursorFreeSweepAgrees(qs[..n], ev, c0, s, u, before[..n]);
    }
  }

  /** Two identical string requests in one call get different answers when
      the extractor reports where the cursor stands and moves it. */
  lemma SharedCursorSeparatesEqualRequests()
    ensures var q := ES.Request("evt.pos", "", ParamTypeCharBuf);
      var pos: StrReader := (e: int, d: seq<byte>, c: int, t: int, f: string, a: string) =>
        (true, if c == 0 then "start" else "moved", c + 1);
      var r := Sweep([q, q], ES.EventView(0, [], 0), 0, Some(pos), None,
                     [ES.Answer(false, None, 0), ES.Answer(false, None, 0)]);
      r.0[0].resStr == Some("start") && r.0[1].resStr == Some("moved") && r.1 == 2
  {
    var q := ES.Request("evt.pos", "", ParamTypeCharBuf);
    var pos: StrReader := (e: int, d: seq<byte>, c: int, t: int, f: string, a: string) =>
      (true, if c == 0 then "start" else "moved", c + 1);
    var b := ES.Answer(false, None, 0);
    var ev := ES.EventView(0, [], 0);
    assert [q][..0] == [] && [b][..0] == [];
    assert Sweep([q][..0], ev, 0, Some(pos), None, [b][..0]) == ([], 0);
    assert pos(0, [], 0, 0, "evt.pos", "") == (true, "start", 1);
    assert Dispatch(q, ev, 0, Some(pos), None, b) == (b.(present := true, resStr := Some("start")), 1);
    var first := b.(present := true, resStr := Some("start"));
    assert Sweep([q], ev, 0, Some(pos), None, [b]) == ([] + [first], 1);
    assert [] + [first] == [first];
    assert [q, q][..1] == [q] && [b, b][..1] == [b];
  }

  function RequestsOf(flds: array<ExtractField>, n: nat): (qs: seq<ES.Request>)
    requires n <= flds.Length
    reads flds
    ensures |qs| == n && forall j :: 0 <= j < n ==> qs[j] == ES.RequestOf(flds[j])
  {
    seq(n, j requires 0 <= j < n reads flds => ES.RequestOf(flds[j]))
  }

  function AnswersOf(flds: array<ExtractField>, n: nat): (ans: seq<ES.Answer>)
    requires n <= flds.Length
    reads flds, set j | 0 <= j < n :: flds[j]
    ensures |ans| == n && forall j :: 0 <= j < n ==> ans[j] == ES.AnswerOf(flds[j])
  {
    seq(n, j requires 0 <= j < n reads flds, set k | 0 <= k < n :: flds[k] => ES.AnswerOf(flds[j]))
  }

  /** Extending the fields of a call by one more: the new field is
      dispatched from the cursor the earlier fields left. */
  lemma SweepExtend(qs: seq<ES.Request>, ev: ES.EventView, c0: int, strF: Option<StrReader>,
                    u64F: Option<U64Reader>, before: seq<ES.Answer>, i: nat)
    requires |before| == |qs| && i < |qs|
    ensures var p := Sweep(qs[..i], ev, c0, strF, u64F, before[..i]);
      var d := Dispatch(qs[i], ev, p.1, strF, u64F, before[i]);
      Sweep(qs[..i + 1], ev, c0, strF, u64F, before[..i + 1]) == (p.0 + [d.0], d.1)
  {
    assert qs[..i + 1][..i] == qs[..i];
    assert before[..i + 1][..i] == before[..i];
  }

  /** The loop body of wrapExtractFuncs for one field: the extractor of the
      field's type runs with the shared reader at cursor c. */
  method AnswerField(f: ExtractField, ev: ES.EventView, c: int, strF: StrReader, u64F: U64Reader)
    returns (c': int)
    modifies f
    ensures (ES.AnswerOf(f), c') == Dispatch(ES.RequestOf(f), ev, c, Some(strF), Some(u64F), old(ES.AnswerOf(f)))
  {
    c' := c;
    if f.ftype == ParamTypeCharBuf {
      var (present, s, moved) := strF(ev.evtnum, ev.data, c, ev.ts, f.field, f.arg);
      f.fieldPresent := present;
      if present {
        f.resStr := Some(s);
      } else {
        f.resStr := None;
      }
      c' := moved;
    } else if f.ftype == ParamTypeUint64 {
      var (present, v, moved) := u64F(ev.evtnum, ev.data, c, ev.ts, f.field, f.arg);
      f.fieldPresent := present;
      if present {
        f.resU64 := v;
      }
      c' := moved;
    }
  }

  /** The answers below i are what the sweep of the first i requests
      answered, those from i on are still the old ones, and c is the
      cursor the sweep left. */
  ghost predicate SweptUpTo(cur: seq<ES.Answer>, i: nat, qs: seq<ES.Request>, ev: ES.EventView,
                            strF: StrReader, u64F: U64Reader, before: seq<ES.Answer>, c: int)
    requires i <= |qs| == |before| == |cur|
  {
    var p := Sweep(qs[..i], ev, 0, Some(strF), Some(u64F), before[..i]);
    && c == p.1
    && cur[..i] == p.0
    && cur[i..] == before[i..]
  }

  /** Answering field i with the cursor the sweep left extends the sweep. */
  lemma SweptStep(cur: seq<ES.Answer>, i: nat, qs: seq<ES.Request>, ev: ES.EventView,
                  strF: StrReader, u64F: U64Reader, before: seq<ES.Answer>, c: int)
    requires i < |qs| == |before| == |cur|
    requires SweptUpTo(cur, i, qs, ev, strF, u64F, before, c)
    ensures var d := Dispatch(qs[i], ev, c, Some(strF), Some(u64F), cur[i]);
      SweptUpTo(cur[i := d.0], i + 1, qs, ev, strF, u64F, before, d.1)
  {
    SweepExtend(qs, ev, 0, Some(strF), Some(u64F), before, i);
    var d := Dispatch(qs[i], ev, c, Some(strF), Some(u64F), cur[i]);
    assert cur[i] == before[i] by {
      assert cur[i..][0] == before[i..][0];
    }
    assert cur[i := d.0][..i + 1] == cur[..i] + [d.0];
    assert cur[i := d.0][i + 1..] == cur[i + 1..] == cur[i..][1..];
  }

  /** The loop of wrapExtractFuncs: the fields in order, over one reader
      that starts at offset 0. */
  method SweepFields(ev: ES.EventView, numFields: nat, flds: array<ExtractField>, strF: StrReader, u64F: U64Reader)
    requires numFields <= flds.Length
    requires forall i, j :: 0 <= i < j < numFields ==> flds[i] != flds[j]
    modifies set i | 0 <= i < numFields :: flds[i]
    ensures AnswersOf(flds, numFields) ==
      Sweep(RequestsOf(flds, numFields), ev, 0, Some(strF), Some(u64F), old(AnswersOf(flds, numFields))).0
  {
    ghost var qs := RequestsOf(flds, numFields);
    ghost var before := AnswersOf(flds, numFields);
    var c := 0;
    var i := 0;
    while i < numFields
      invariant 0 <= i <= numFields
      invariant RequestsOf(flds, numFields) == qs
      invariant SweptUpTo(AnswersOf(flds, numFields), i, qs, ev, strF, u64F, before, c)
    {
      ghost var now := AnswersOf(flds, numFields);
      SweptStep(now, i, qs, ev, strF, u64F, before, c);
      c := AnswerField(flds[i], ev, c, strF, u64F);
      assert AnswersOf(flds, numFields) == now[i := ES.AnswerOf(flds[i])];
      i := i + 1;
    }
    assert qs[..numFields] == qs;
    assert before[..numFields] == before;
  }

  /** wrapExtractFuncs: builds one reader over the event data, then answers
      the fields in order over it and returns SUCCESS. Building the reader
      fails only for a negative length, which an unsigned datalen never
      has; that path returns FAILURE before any field is touched. */
  method WrapExtractFuncs(evt: SsPluginEvent, numFields: nat, flds: array<ExtractField>,
                          strF: StrReader, u64F: U64Reader) returns (rc: int)
    requires IsInt64(evt.datalen) && evt.datalen <= evt.data.Length
    requires numFields <= flds.Length && IsUint32(numFields)
    requires forall i, j :: 0 <= i < j < numFields ==> flds[i] != flds[j]
    modifies set i | 0 <= i < numFields :: flds[i]
    ensures rc == SSPluginSuccess || rc == SSPluginFailure
    ensures rc == SSPluginFailure <==> evt.datalen < 0
    ensures rc == SSPluginFailure ==> AnswersOf(flds, numFields) == old(AnswersOf(flds, numFields))
    ensures evt.datalen >= 0 ==>
      AnswersOf(flds, numFields) ==
      Sweep(RequestsOf(flds, numFields), ES.ViewOf(evt), 0, Some(strF), Some(u64F),
            old(AnswersOf(flds, numFields))).0
  {
    var view := Bytes.NewBytesReadWriter(evt.data, evt.datalen);
    if view.Err? {
      return SSPluginFailure;
    }
    SweepFields(ES.ViewOf(evt), numFields, flds, strF, u64F);
    rc := SSPluginSuccess;
  }

  /** The package variables extractStrFunc and extractU64Func. */
  class ReaderRegistry {
    var strFunc: Option<StrReader>
    var u64Func: Option<U64Reader>

    constructor Empty()
      ensures strFunc.None? && u64Func.None?
    {
      strFunc := None;
      u64Func := None;
    }

    /** RegisterExtractors stores both functions, nil ones included. */
    method RegisterExtractors(s: Option<StrReader>, u: Option<U64Reader>)
      modifies this
      ensures strFunc == s && u64Func == u
    {
      strFunc := s;
      u64Func := u;
    }

    /** plugin_extract_fields_sync: FAILURE with no field touched unless
        both extractors are registered, otherwise wrapExtractFuncs. */
    method PluginExtractFieldsSync(evt: SsPluginEvent, numFields: nat, flds: array<ExtractField>)
      returns (rc: int)
      requires IsInt64(evt.datalen) && evt.datalen <= evt.data.Length
      requires numFields <= flds.Length && IsUint32(numFields)
      requires forall i, j :: 0 <= i < j < numFields ==> flds[i] != flds[j]
      modifies set i | 0 <= i < numFields :: flds[i]
      ensures rc == SSPluginSuccess || rc == SSPluginFailure
      ensures rc == SSPluginSuccess <==> strFunc.Some? && u64Func.Some? && evt.datalen >= 0
      ensures rc == SSPluginFailure ==> AnswersOf(flds, numFields) == old(AnswersOf(flds, numFields))
      ensures rc == SSPluginSuccess ==>
        AnswersOf(flds, numFields) ==
        Sweep(RequestsOf(flds, numFields), ES.ViewOf(evt), 0, strFunc, u64Func,
              old(AnswersOf(flds, numFields))).0
    {
      if strFunc.None? || u64Func.None? {
        return SSPluginFailure;
      }
      rc := WrapExtractFuncs(evt, numFields, flds, strFunc.value, u64Func.value);
    }
  }

  /** One iteration of the goroutine RegisterAsyncExtractors starts: a fresh
      reader per request (so the extractor starts at cursor 0), then the
      same dispatch and codes as the pkg/sdk/symbols/extract loop. A reader
      that cannot be built (negative length) gives FAILURE and leaves the
      field alone. */
  method ServeAsyncRequest(info: ES.AsyncInfo, strF: Option<StrReader>, u64F: Option<U64Reader>)
    requires IsInt64(info.evt.datalen) && info.evt.datalen <= info.evt.data.Length
    modifies info`rc, info.field
    ensures info.evt.datalen < 0 ==>
      info.rc == SSPluginFailure && ES.AnswerOf(info.field) == old(ES.AnswerOf(info.field))
    ensures info.evt.datalen >= 0 ==>
      && info.rc == ES.AsyncCode(info.field.ftype, strF, u64F)
      && ES.AnswerOf(info.field) ==
         Dispatch(ES.RequestOf(info.field), ES.ViewOf(info.evt), 0, strF, u64F, old(ES.AnswerOf(info.field))).0
  {
    info.rc := SSPluginSuccess;
    var view := Bytes.NewBytesReadWriter(info.evt.data, info.evt.datalen);
    if view.Err? {
      info.rc := SSPluginFailure;
      return;
    }
    var ev := ES.ViewOf(info.evt);
    var c := view.value.offset;
    var f := info.field;
    if f.ftype == ParamTypeCharBuf {
      if strF.Some? {
        var (present, s, _) := strF.value(ev.evtnum, ev.data, c, ev.ts, f.field, f.arg);
        f.fieldPresent := present;
        if present {
          f.resStr := Some(s);
        } else {
          f.resStr := None;
        }
      } else {
        info.rc := SSPluginNotSupported;
      }
    } else if f.ftype == ParamTypeUint64 {
      if u64F.Some? {
        var (present, v, _) := u64F.value(ev.evtnum, ev.data, c, ev.ts, f.field, f.arg);
        f.fieldPresent := present;
        if present {
          f.resU64 := v;
        }
      } else {
        info.rc := SSPluginNotSupported;
      }
    } else {
      info.rc := SSPluginNotSupported;
    }
  }
}
