/** pkg/sdk/symbols/extract/extract.go: the extraction wrappers that hand
    each requested field of an event to the plugin's string or uint64
    extractor, the registration of those extractors, the body of the
    asynchronous extraction loop, and the NextBatch helper that collects
    events from a Next function. The file builds against the root sdk
    package, so the batch bound is the root MaxNextBatchEvents. */
module ExtractSymbols {
  import opened SdkTypes
  import opened CEvent
  import opened CExtract
  import RootEvents

  /** PluginExtractStrFunc without the opaque plugin state:
      (evtnum, data, ts, field, arg) -> (present, value). */
  type StrExtractor = (int, seq<byte>, int, string, string) -> (bool, string)
  /** PluginExtractU64Func without the opaque plugin state. */
  type U64Extractor = (int, seq<byte>, int, string, string) -> (bool, int)

  /** What an extractor sees of an event: GoBytes copies datalen bytes. */
  datatype EventView = EventView(evtnum: int, data: seq<byte>, ts: int)

  /** The request half of an ss_plugin_extract_field. */
  datatype Request = Request(field: string, arg: string, ftype: int)

  /** The answer half of an ss_plugin_extract_field. */
  datatype Answer = Answer(present: bool, resStr: Option<string>, resU64: int)

  function ViewOf(evt: SsPluginEvent): EventView
    reads evt, evt.data
    requires 0 <= evt.datalen <= evt.data.Length
  {
    EventView(evt.evtnum, evt.data[..evt.datalen], evt.ts)
  }

  function RequestOf(f: ExtractField): Request
  {
    Request(f.field, f.arg, f.ftype)
  }

  function AnswerOf(f: ExtractField): Answer
    reads f
  {
    Answer(f.fieldPresent, f.resStr, f.resU64)
  }

  /** The slots of one field after it was dispatched on its type. An
      extractor that is None (a nil Go func) leaves the field alone, as
      the asynchronous loop does; the synchronous path only runs with
      both extractors present. */
  function FieldAnswer(q: Request, ev: EventView, strF: Option<StrExtractor>,
                       u64F: Option<U64Extractor>, before: Answer): (a: Answer)
    ensures q.ftype != ParamTypeCharBuf && q.ftype != ParamTypeUint64 ==> a == before
    ensures q.ftype == ParamTypeCharBuf && strF.Some? ==>
      && a.present == strF.value(ev.evtnum, ev.data, ev.ts, q.field, q.arg).0
      && (a.resStr.Some? <==> a.present)
      && (a.present ==> a.resStr == Some(strF.value(ev.evtnum, ev.data, ev.ts, q.field, q.arg).1))
      && a.resU64 == before.resU64
    ensures q.ftype == ParamTypeUint64 && u64F.Some? ==>
      && a.present == u64F.value(ev.evtnum, ev.data, ev.ts, q.field, q.arg).0
      && a.resStr == before.resStr
      && (a.present ==> a.resU64 == u64F.value(ev.evtnum, ev.data, ev.ts, q.field, q.arg).1)
      && (!a.present ==> a.resU64 == before.resU64)
  {
    if q.ftype == ParamTypeCharBuf && strF.Some? then
      var (present, s) := strF.value(ev.evtnum, ev.data, ev.ts, q.field, q.arg);
      before.(present := present, resStr := if present then Some(s) else None)
    else if q.ftype == ParamTypeUint64 && u64F.Some? then
      var (present, v) := u64F.value(ev.evtnum, ev.data, ev.ts, q.field, q.arg);
      before.(present := present, resU64 := if present then v else before.resU64)
    else
      before
  }

  /** Asking for the same field of the same event again leaves the slots as
      the first answer left them: the answer does not depend on what the
      slots held before, except for res_u64 of an absent field. */
  lemma FieldAnswerIdempotent(q: Request, ev: EventView, strF: Option<StrExtractor>,
                              u64F: Option<U64Extractor>, before: Answer)
    ensures var once := FieldAnswer(q, ev, strF, u64F, before);
      FieldAnswer(q, ev, strF, u64F, once) == once
  {
  }

  /** The code the asynchronous loop reports for one request, given which
      extractors it captured. */
  function AsyncCode<S, U>(ftype: int, strF: Option<S>, u64F: Option<U>): (rc: int)
    ensures rc == SSPluginSuccess || rc == SSPluginNotSupported
    ensures rc == SSPluginSuccess <==>
      (ftype == ParamTypeCharBuf && strF.Some?) || (ftype == ParamTypeUint64 && u64F.Some?)
  {
    if ftype == ParamTypeCharBuf then
      (if strF.Some? then SSPluginSuccess else SSPluginNotSupported)
    else if ftype == ParamTypeUint64 then
      (if u64F.Some? then SSPluginSuccess else SSPluginNotSupported)
    else
      SSPluginNotSupported
  }

  /** A request the asynchronous loop answers NOT_SUPPORTED leaves the
      field's slots untouched. */
  lemma UnsupportedLeavesField(q: Request, ev: EventView, strF: Option<StrExtractor>,
                               u64F: Option<U64Extractor>, before: Answer)
    requires AsyncCode(q.ftype, strF, u64F) != SSPluginSuccess
    ensures FieldAnswer(q, ev, strF, u64F, before) == before
  {
  }

  /** wrapExtractFuncs: each of the first numFields fields is answered from
      its own request and the event, independently of every other field;
      the result is always SUCCESS. The C array holds distinct records. */
  method WrapExtractFuncs(evt: SsPluginEvent, numFields: nat, flds: array<ExtractField>,
                          strF: StrExtractor, u64F: U64Extractor) returns (rc: int)
    requires evt.Valid() && evt.datalen <= evt.data.Length
    requires numFields <= flds.Length && IsUint32(numFields)
    requires forall i, j :: 0 <= i < j < numFields ==> flds[i] != flds[j]
    modifies set i | 0 <= i < numFields :: flds[i]
    ensures rc == SSPluginSuccess
    ensures forall i :: 0 <= i < numFields ==>
      AnswerOf(flds[i]) == FieldAnswer(RequestOf(flds[i]), ViewOf(evt), Some(strF), Some(u64F),
                                       old(AnswerOf(flds[i])))
  {
    var ev := ViewOf(evt);
    var i := 0;
    while i < numFields
      invariant 0 <= i <= numFields
      invariant ev == ViewOf(evt)
      invariant forall j :: 0 <= j < i ==>
        AnswerOf(flds[j]) == FieldAnswer(RequestOf(flds[j]), ev, Some(strF), Some(u64F),
                                         old(AnswerOf(flds[j])))
      invariant forall j :: i <= j < numFields ==> AnswerOf(flds[j]) == old(AnswerOf(flds[j]))
    {
      var f := flds[i];
      if f.ftype == ParamTypeCharBuf {
        var (present, s) := strF(ev.evtnum, ev.data, ev.ts, f.field, f.arg);
        f.fieldPresent := present;
        if present {
          f.resStr := Some(s);
        } else {
          f.resStr := None;
        }
      } else if f.ftype == ParamTypeUint64 {
        var (present, v) := u64F(ev.evtnum, ev.data, ev.ts, f.field, f.arg);
        f.fieldPresent := present;
        if present {
          f.resU64 := v;
        }
      }
      i := i + 1;
    }
    rc := SSPluginSuccess;
  }

  /** The package variables extractStrFunc and extractU64Func. */
  class ExtractorRegistry {
    var strFunc: Option<StrExtractor>
    var u64Func: Option<U64Extractor>

    constructor Empty()
      ensures strFunc.None? && u64Func.None?
    {
      strFunc := None;
      u64Func := None;
    }

    /** RegisterExtractors stores both functions, nil ones included. */
    method RegisterExtractors(s: Option<StrExtractor>, u: Option<U64Extractor>)
      modifies this
      ensures strFunc == s && u64Func == u
    {
      strFunc := s;
      u64Func := u;
    }

    /** plugin_extract_fields_sync: FAILURE with no field touched unless
        both extractors are registered, otherwise wrapExtractFuncs. */
    method PluginExtractFieldsSync(evt: SsPluginEvent, numFields: nat, flds: array<ExtractField>)
      returns (rc: int)
      requires evt.Valid() && evt.datalen <= evt.data.Length
      requires numFields <= flds.Length && IsUint32(numFields)
      requires forall i, j :: 0 <= i < j < numFields ==> flds[i] != flds[j]
      modifies set i | 0 <= i < numFields :: flds[i]
      ensures rc == SSPluginSuccess || rc == SSPluginFailure
      ensures rc == SSPluginSuccess <==> strFunc.Some? && u64Func.Some?
      ensures rc == SSPluginFailure ==>
        forall i :: 0 <= i < numFields ==> AnswerOf(flds[i]) == old(AnswerOf(flds[i]))
      ensures rc == SSPluginSuccess ==>
        forall i :: 0 <= i < numFields ==>
          AnswerOf(flds[i]) == FieldAnswer(RequestOf(flds[i]), ViewOf(evt), strFunc, u64Func,
                                           old(AnswerOf(flds[i])))
    {
      if strFunc.None? || u64Func.None? {
        return SSPluginFailure;
      }
      rc := WrapExtractFuncs(evt, numFields, flds, strFunc.value, u64Func.value);
    }
  }

  /** async_extractor_info: the request slot shared with the C side. */
  class AsyncInfo {
    const evt: SsPluginEvent
    const field: ExtractField
    var rc: int

    constructor Post(evt: SsPluginEvent, field: ExtractField)
      ensures this.evt == evt && this.field == field && rc == SSPluginSuccess
    {
      this.evt := evt;
      this.field := field;
      rc := SSPluginSuccess;
    }
  }

  /** One iteration of the goroutine RegisterAsyncExtractors starts, with
      the extractors it captured: rc is SUCCESS unless the field type is
      unknown or its extractor is nil, and the field is answered as the
      synchronous path answers it. */
  method ServeAsyncRequest(info: AsyncInfo, strF: Option<StrExtractor>, u64F: Option<U64Extractor>)
    requires info.evt.Valid() && info.evt.datalen <= info.evt.data.Length
    modifies info`rc, info.field
    ensures info.rc == AsyncCode(info.field.ftype, strF, u64F)
    ensures AnswerOf(info.field) ==
      FieldAnswer(RequestOf(info.field), ViewOf(info.evt), strF, u64F, old(AnswerOf(info.field)))
  {
    info.rc := SSPluginSuccess;
    var ev := ViewOf(info.evt);
    var f := info.field;
    if f.ftype == ParamTypeCharBuf {
      if strF.Some? {
        var (present, s) := strF.value(ev.evtnum, ev.data, ev.ts, f.field, f.arg);
        f.fieldPresent := present;
        if present {
          f.resStr := Some(s);
        } else {
          f.resStr := None;
        }
      } else {
        info.rc := SSPluginNotSupported;
      }
    } else if f.ftype == ParamTypeUint64 {
      if u64F.Some? {
        var (present, v) := u64F.value(ev.evtnum, ev.data, ev.ts, f.field, f.arg);
        f.fieldPresent := present;
        if present {
          f.resU64 := v;
        }
      } else {
        info.rc := SSPluginNotSupported;
      }
    } else {
      info.rc := SSPluginNotSupported;
    }
  }

  /** NextBatch: nextf(k) is the reply of the k-th call to the plugin's Next
      function. The batch is the longest run of SUCCESS replies, capped at
      MaxNextBatchEvents; a closing Timeout or EOF after at least one event
      is reported as SUCCESS. */
  method NextBatch<E>(nextf: nat -> (E, int)) returns (evts: seq<E>, res: int)
    ensures |evts| <= RootEvents.MaxNextBatchEvents
    ensures forall i :: 0 <= i < |evts| ==> nextf(i).1 == SSPluginSuccess && evts[i] == nextf(i).0
    ensures |evts| == RootEvents.MaxNextBatchEvents ==> res == SSPluginSuccess
    ensures |evts| < RootEvents.MaxNextBatchEvents ==>
      var last := nextf(|evts|).1;
      && last != SSPluginSuccess
      && res == (if (last == SSPluginTimeout || last == SSPluginEOF) && |evts| > 0
                 then SSPluginSuccess else last)
  {
    res := SSPluginSuccess;
    evts := [];
    while |evts| < RootEvents.MaxNextBatchEvents
      invariant |evts| <= RootEvents.MaxNextBatchEvents
      invariant forall i :: 0 <= i < |evts| ==> nextf(i).1 == SSPluginSuccess && evts[i] == nextf(i).0
      invariant res == SSPluginSuccess
    {
      var evt;
      evt, res := nextf(|evts|).0, nextf(|evts|).1;
      if res == SSPluginSuccess {
        evts := evts + [evt];
      } else {
        break;
      }
    }
    if (res == SSPluginTimeout || res == SSPluginEOF) && |evts| > 0 {
      res := SSPluginSuccess;
    }
  }
}
