/** The event writers and readers of pkg/sdk (pkg/sdk/event.go): the same
    `ss_plugin_event` records as the root package, accessed through the
    pkg/ptr buffer. The limits MaxNextBatchEvents and MaxEvtSize are
    declared in pkg/sdk/sdk.go, which is not part of this model, so they are
    parameters here. */
module PkgEvent {
  import opened SdkTypes
  import opened CEvent
  import PtrBuffer

  datatype Limits = Limits(maxNextBatchEvents: nat, maxEvtSize: nat)

  class EventWriter {
    const data: PtrBuffer.BytesReadWriter
    const dataSize: int
    const evt: SsPluginEvent

    ghost predicate Valid()
      reads this, data, evt
    {
      data.Valid() && evt.Valid() &&
      data.buffer == evt.data && data.capacity == dataSize && 0 <= dataSize
    }

    constructor Make(data: PtrBuffer.BytesReadWriter, dataSize: int, evt: SsPluginEvent)
      ensures this.data == data && this.dataSize == dataSize && this.evt == evt
    {
      this.data := data;
      this.dataSize := dataSize;
      this.evt := evt;
    }

    /** The writer is positioned for a fresh event: the whole payload is
        writable and datalen equals the bytes accepted so far. */
    ghost predicate Writing()
      reads this, data, evt
    {
      Valid() && data.len == dataSize && evt.datalen == data.offset <= dataSize
    }

    /** Writer (pkg/sdk/event.go:227-232): clears the event. */
    method Writer() returns (w: EventWriter)
      requires Valid()
      modifies data, evt
      ensures Valid() && w == this && Writing()
      ensures data.len == dataSize && data.offset == 0 && evt.datalen == 0
      ensures evt.ts == old(evt.ts) && evt.evtnum == old(evt.evtnum)
    {
      data.SetLen(dataSize);
      var pos, serr := data.Seek(0, SeekStart);
      evt.datalen := 0;
      return this;
    }

    /** Write (pkg/sdk/event.go:234-241): datalen grows by n, as a uint32,
        only when the buffer accepted every byte. */
    method Write(p: seq<byte>) returns (n: nat, err: Option<GoError>)
      requires Valid()
      modifies data, evt, evt.data
      ensures Valid() && data.len == old(data.len)
      ensures evt.ts == old(evt.ts) && evt.evtnum == old(evt.evtnum)
      ensures n == (if old(data.offset) >= data.len then 0 else PtrBuffer.Min(|p|, data.len - old(data.offset)))
      ensures data.offset == old(data.offset) + n
      ensures err == (if n < |p| then Some(ErrShortWrite) else None)
      ensures evt.datalen == (if err.None? then (old(evt.datalen) + n) % Pow32 else old(evt.datalen))
      ensures forall j :: 0 <= j < evt.data.Length ==>
        evt.data[j] == if old(data.offset) <= j < old(data.offset) + n
                       then p[j - old(data.offset)] else old(evt.data[j])
    {
      n, err := data.Write(p);
      if err.Some? {
        return;
      }
      evt.datalen := (evt.datalen + n) % Pow32;
    }

    /** SetTimestamp (pkg/sdk/event.go:243-245) writes ts only. */
    method SetTimestamp(value: int)
      requires Valid() && IsUint64(value)
      modifies evt
      ensures Valid() && evt.ts == value
      ensures evt.datalen == old(evt.datalen) && evt.evtnum == old(evt.evtnum)
    {
      evt.ts := value;
    }
  }

  class EventWriters {
    const evts: seq<EventWriter>
    /** Whether Free has released the records' C memory. */
    var freed: bool

    constructor Make(evts: seq<EventWriter>)
      ensures this.evts == evts && !freed
    {
      this.evts := evts;
      freed := false;
    }

    /** Free (pkg/sdk/event.go:192-197): releases every record and the
        array; the writers themselves are not otherwise changed. */
    method Free()
      modifies this
      ensures freed
    {
      freed := true;
    }

    /** Len (pkg/sdk/event.go:188-190). */
    function Len(): (n: nat)
      ensures n == |evts|
    {
      |evts|
    }

    /** Get (pkg/sdk/event.go:184-186); an index outside 0..Len()-1 is a
        runtime panic, reported as None. */
    function Get(eventIndex: int): (e: Option<EventWriter>)
      ensures e.Some? <==> 0 <= eventIndex < Len()
      ensures e.Some? ==> e.value == evts[eventIndex]
    {
      if 0 <= eventIndex < |evts| then Some(evts[eventIndex]) else None
    }

    /** Every record is valid and no two share an object or a buffer. */
    ghost predicate Valid()
      reads this, set e | e in evts, set e | e in evts :: e.data, set e | e in evts :: e.evt
    {
      (forall i :: 0 <= i < |evts| ==> evts[i].Valid()) &&
      (forall i, j :: 0 <= i < j < |evts| ==>
        evts[i] != evts[j] && evts[i].data != evts[j].data &&
        evts[i].evt != evts[j].evt && evts[i].evt.data != evts[j].evt.data)
    }

    /** Everything a batch may change. */
    ghost function Repr(): set<object>
      reads this
    {
      (set e | e in evts :: e.data as object) + (set e | e in evts :: e.evt as object) +
      (set e | e in evts :: e.evt.data as object)
    }
  }

  /** newEventWriter (pkg/sdk/event.go:209-225). */
  method NewEventWriter(dataSize: int) returns (e: EventWriter)
    requires 0 <= dataSize
    ensures fresh(e) && fresh(e.data) && fresh(e.evt) && fresh(e.evt.data)
    ensures e.Valid() && e.dataSize == dataSize
    ensures e.evt.datalen == 0 && e.evt.ts == MaxUint64
  {
    var mem := new byte[dataSize];
    var evt := new SsPluginEvent.Init(mem);
    var brw := PtrBuffer.NewBytesReadWriter(Some(mem), dataSize, dataSize);
    assert brw.Ok?;
    e := new EventWriter.Make(brw.value, dataSize, evt);
  }

  /** NewEventWriters (pkg/sdk/event.go:161-182). */
  method NewEventWriters(limits: Limits, size: int, dataSize: int) returns (r: Result<EventWriters, GoError>)
    ensures r.Err? <==> size < 1 || size > limits.maxNextBatchEvents || dataSize < 0 || dataSize > limits.maxEvtSize
    ensures r.Err? && (size < 1 || size > limits.maxNextBatchEvents) ==> r.error == InvalidSize(size)
    ensures r.Err? && 1 <= size <= limits.maxNextBatchEvents ==> r.error == InvalidDataSize(dataSize)
    ensures r.Ok? ==> fresh(r.value) && r.value.Valid() && r.value.Len() == size && !r.value.freed
    ensures r.Ok? ==> fresh(r.value.Repr())
    ensures r.Ok? ==> forall i :: 0 <= i < |r.value.evts| ==>
      r.value.evts[i].dataSize == dataSize &&
      r.value.evts[i].evt.datalen == 0 && r.value.evts[i].evt.ts == MaxUint64
  {
    if size < 1 || size > limits.maxNextBatchEvents {
      return Err(InvalidSize(size));
    }
    if dataSize < 0 || dataSize > limits.maxEvtSize {
      return Err(InvalidDataSize(dataSize));
    }
    var evts: seq<EventWriter> := [];
    while |evts| < size
      invariant |evts| <= size
      invariant forall i :: 0 <= i < |evts| ==>
        && fresh(evts[i]) && fresh(evts[i].data) && fresh(evts[i].evt) && fresh(evts[i].evt.data)
        && evts[i].Valid() && evts[i].dataSize == dataSize
        && evts[i].evt.datalen == 0 && evts[i].evt.ts == MaxUint64
      invariant forall i, j :: 0 <= i < j < |evts| ==>
        evts[i] != evts[j] && evts[i].data != evts[j].data &&
        evts[i].evt != evts[j].evt && evts[i].evt.data != evts[j].evt.data
    {
      var e := NewEventWriter(dataSize);
      evts := evts + [e];
    }
    var ws := new EventWriters.Make(evts);
    return Ok(ws);
  }

  // ---------------------------------------------------------------------
  // The read side: eventReader is the address of a C record.

  /** EventNum (pkg/sdk/event.go:268-270). */
  function EventNum(e: SsPluginEvent): (r: int)
    reads e
    ensures r == e.evtnum
  {
    e.evtnum
  }

  /** Timestamp (pkg/sdk/event.go:264-266). */
  function Timestamp(e: SsPluginEvent): (r: int)
    reads e
    ensures r == e.ts
  {
    e.ts
  }

  /** Reader (pkg/sdk/event.go:258-262): a fresh buffer over exactly
      datalen bytes of the payload. The construction error is discarded in
      the source; it cannot occur for a record whose payload holds datalen
      bytes. */
  method Reader(e: SsPluginEvent) returns (r: PtrBuffer.BytesReadWriter)
    requires e.Valid() && e.datalen <= e.data.Length
    ensures fresh(r) && r.Valid() && r.buffer == e.data
    ensures r.len == e.datalen && r.capacity == e.datalen && r.offset == 0
  {
    var brw := PtrBuffer.NewBytesReadWriter(Some(e.data), e.datalen, e.datalen);
    assert brw.Ok?;
    r := brw.value;
  }

  /** The scenario of pkg/sdk/event_test.go:105-143: k one-byte writes
      after Writer() all succeed, and a reader over the record then reads
      back exactly those k bytes. */
  method WriteBytesThenRead(w: EventWriter, b: byte, k: nat) returns (back: seq<byte>)
    requires w.Valid() && k <= w.dataSize < Pow32
    modifies w.data, w.evt, w.evt.data
    ensures w.Valid() && w.evt.datalen == k
    ensures back == seq(k, _ => b)
  {
    var ww := w.Writer();
    var i := 0;
    while i < k
      invariant 0 <= i <= k
      invariant w.Writing() && w.data.offset == i
      invariant forall j :: 0 <= j < i ==> w.evt.data[j] == b
    {
      var n, err := ww.Write([b]);
      assert n == 1 && err.None?;
      i := i + 1;
    }
    var r := Reader(w.evt);
    var buf := new byte[k];
    var m, rerr := r.Read(buf);
    back := buf[..m];
  }
}
