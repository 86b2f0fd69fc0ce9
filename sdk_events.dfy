/** The event list of the root `sdk` package (sdk.go): a fixed number of
    `ss_plugin_event` records, each with a payload buffer of `dataSize`
    bytes accessed through a bytes.go cursor. `datalen` counts the bytes
    written since the last `Writer()`, and `Reader()` exposes exactly that
    many bytes. */
module RootEvents {
  import opened SdkTypes
  import opened CEvent
  import opened Bytes

  const MaxEvtSize: nat := 65635
  const MaxNextBatchEvents: nat := 512

  class PluginEvent {
    /** The cursor over the record's payload. */
    const data: BytesReadWriter
    const dataSize: int
    const evt: SsPluginEvent

    ghost predicate Valid()
      reads this, data, evt
    {
      data.Valid() && evt.Valid() &&
      data.alias == evt.data && data.aliasLen == dataSize && 0 <= dataSize
    }

    constructor Make(data: BytesReadWriter, dataSize: int, evt: SsPluginEvent)
      ensures this.data == data && this.dataSize == dataSize && this.evt == evt
    {
      this.data := data;
      this.dataSize := dataSize;
      this.evt := evt;
    }

    /** Writer (sdk.go:333-338): the whole payload becomes writable from
        position 0, and the recorded length drops to 0. */
    method Writer() returns (w: PluginEvent)
      requires Valid()
      modifies data, evt
      ensures Valid() && w == this
      ensures data.size == dataSize && data.offset == 0 && evt.datalen == 0
      ensures evt.ts == old(evt.ts) && evt.evtnum == old(evt.evtnum)
    {
      data.SetSize(dataSize);
      RewindAgrees(data.offset, dataSize);
      var pos, serr := data.Seek(0, SeekStart);
      evt.datalen := 0;
      return this;
    }

    /** Write (sdk.go:340-347): datalen grows, as a uint32, by the count of
        a write that succeeded; a short write stores its bytes but leaves
        datalen alone. */
    method Write(p: seq<byte>) returns (n: nat, err: Option<GoError>, panicked: bool)
      requires Valid()
      modifies data, evt, evt.data
      ensures Valid() && data.size == old(data.size)
      ensures evt.ts == old(evt.ts) && evt.evtnum == old(evt.evtnum)
      ensures var k := ReadCount(old(data.offset), old(data.size), |p|);
        panicked <==> k > 0 && old(data.offset) + k > dataSize
      ensures !panicked ==>
        && n == ReadCount(old(data.offset), old(data.size), |p|)
        && data.offset == old(data.offset) + n
        && (forall j :: 0 <= j < evt.data.Length ==>
              evt.data[j] == if old(data.offset) <= j < old(data.offset) + n
                             then p[j - old(data.offset)] else old(evt.data[j]))
        && err == (if n < |p| then Some(ErrShortWrite) else None)
        && evt.datalen == (if err.None? then (old(evt.datalen) + n) % Pow32 else old(evt.datalen))
      ensures panicked ==> evt.datalen == old(evt.datalen)
    {
      n, err, panicked := data.Write(p);
      if panicked || err.Some? {
        return;
      }
      evt.datalen := (evt.datalen + n) % Pow32;
    }

    /** Reader (sdk.go:327-331): the cursor covers exactly datalen bytes
        from position 0. */
    method Reader() returns (r: BytesReadWriter)
      requires Valid()
      modifies data
      ensures Valid() && r == data
      ensures data.size == evt.datalen && data.offset == 0
    {
      data.SetSize(evt.datalen);
      RewindAgrees(data.offset, evt.datalen);
      var pos, serr := data.Seek(0, SeekStart);
      return data;
    }

    /** SetTimestamp (sdk.go:349-351) writes ts and nothing else. */
    method SetTimestamp(value: int)
      requires Valid() && IsUint64(value)
      modifies evt
      ensures Valid() && evt.ts == value
      ensures evt.datalen == old(evt.datalen) && evt.evtnum == old(evt.evtnum)
    {
      evt.ts := value;
    }
  }

  /** Get (sdk.go:289-291): indexing the Go slice; an index outside
      0..Len()-1 is a runtime panic, reported as None. */
  function Get(p: seq<PluginEvent>, eventIndex: int): (e: Option<PluginEvent>)
    ensures e.Some? <==> 0 <= eventIndex < |p|
    ensures e.Some? ==> e.value == p[eventIndex]
  {
    if 0 <= eventIndex < |p| then Some(p[eventIndex]) else None
  }

  /** Len (sdk.go:293-295): the length of the Go slice, which is exactly
      the range of indices Get accepts. */
  function Len(p: seq<PluginEvent>): (n: nat)
    ensures forall i: int :: Get(p, i).Some? <==> 0 <= i < n
  {
    |p|
  }

  /** The records of a list are separate: no two events share a cursor,
      a C record or a payload buffer. */
  ghost predicate Disjoint(p: seq<PluginEvent>)
    reads set e | e in p
  {
    forall i, j :: 0 <= i < j < |p| ==>
      p[i] != p[j] && p[i].data != p[j].data && p[i].evt != p[j].evt && p[i].evt.data != p[j].evt.data
  }

  /** newPluginEvent (sdk.go:308-325): a record with timestamp MaxUint64,
      datalen 0 and a fresh payload of dataSize bytes. */
  method NewPluginEvent(dataSize: int) returns (e: PluginEvent)
    requires 0 <= dataSize <= MaxInt64
    ensures fresh(e) && fresh(e.data) && fresh(e.evt) && fresh(e.evt.data)
    ensures e.Valid() && e.dataSize == dataSize
    ensures e.evt.datalen == 0 && e.evt.ts == MaxUint64
    ensures e.data.offset == 0 && e.data.size == dataSize
  {
    var mem := new byte[dataSize];
    var evt := new SsPluginEvent.Init(mem);
    var brw := NewBytesReadWriter(mem, dataSize);
    assert brw.Ok?;
    e := new PluginEvent.Make(brw.value, dataSize, evt);
  }

  /** NewPluginEvents (sdk.go:268-287): size must lie in
      1..MaxNextBatchEvents and dataSize must not be negative; the list
      then holds size fresh, empty records. */
  method NewPluginEvents(size: int, dataSize: int) returns (r: Result<seq<PluginEvent>, GoError>)
    requires IsInt64(size) && IsInt64(dataSize)
    ensures r.Err? <==> size < 1 || size > MaxNextBatchEvents || dataSize < 0
    ensures r.Err? && (size < 1 || size > MaxNextBatchEvents) ==> r.error == InvalidSize(size)
    ensures r.Err? && 1 <= size <= MaxNextBatchEvents ==> r.error == InvalidDataSize(dataSize)
    ensures r.Ok? ==> |r.value| == size && Disjoint(r.value)
    ensures r.Ok? ==> forall i :: 0 <= i < |r.value| ==>
      && fresh(r.value[i]) && fresh(r.value[i].data) && fresh(r.value[i].evt) && fresh(r.value[i].evt.data)
      && r.value[i].Valid() && r.value[i].dataSize == dataSize
      && r.value[i].evt.datalen == 0 && r.value[i].evt.ts == MaxUint64
  {
    if size < 1 || size > MaxNextBatchEvents {
      return Err(InvalidSize(size));
    }
    if dataSize < 0 || dataSize > MaxInt64 {
      return Err(InvalidDataSize(dataSize));
    }
    var evts: seq<PluginEvent> := [];
    while |evts| < size
      invariant |evts| <= size
      invariant Disjoint(evts)
      invariant forall i :: 0 <= i < |evts| ==>
        && fresh(evts[i]) && fresh(evts[i].data) && fresh(evts[i].evt) && fresh(evts[i].evt.data)
        && evts[i].Valid() && evts[i].dataSize == dataSize
        && evts[i].evt.datalen == 0 && evts[i].evt.ts == MaxUint64
    {
      var e := NewPluginEvent(dataSize);
      evts := evts + [e];
    }
    return Ok(evts);
  }

  /** The bytes of a sequence of writes, in the order they were made. */
  function Concat(ps: seq<seq<byte>>): (r: seq<byte>)
    decreases |ps|
  {
    if ps == [] then [] else Concat(ps[..|ps| - 1]) + ps[|ps| - 1]
  }

  /** The writes before the i-th one hold no more bytes than all of them. */
  lemma {:induction false} ConcatPrefix(ps: seq<seq<byte>>, i: nat)
    requires i <= |ps|
    ensures |Concat(ps[..i])| <= |Concat(ps)|
    decreases |ps|
  {
    if i < |ps| {
      var q := ps[..|ps| - 1];
      assert q[..i] == ps[..i];
      ConcatPrefix(q, i);
    } else {
      assert ps[..i] == ps;
    }
  }

  /** One more write appends its bytes. */
  lemma ConcatStep(ps: seq<seq<byte>>, i: nat)
    requires i < |ps|
    ensures Concat(ps[..i + 1]) == Concat(ps[..i]) + ps[i]
  {
    assert ps[..i + 1][..i] == ps[..i];
  }

  /** The promise of sdk.go:145-164: after Writer(), a sequence of writes
      that together fit the payload all succeed, datalen is their total,
      and reading the record back gives their bytes in order, and nothing
      more. */
  method WriteThenRead(e: PluginEvent, ps: seq<seq<byte>>) returns (got: seq<byte>, err: Option<GoError>)
    requires e.Valid() && |Concat(ps)| <= e.dataSize && |Concat(ps)| < Pow32
    modifies e.data, e.evt, e.evt.data
    ensures e.Valid() && e.evt.datalen == |Concat(ps)|
    ensures got == Concat(ps) && err == None
  {
    var w := e.Writer();
    var i := 0;
    ConcatPrefix(ps, 0);
    while i < |ps|
      invariant 0 <= i <= |ps| && e.Valid()
      invariant e.data.size == e.dataSize
      invariant e.data.offset == e.evt.datalen == |Concat(ps[..i])| <= |Concat(ps)|
      invariant e.evt.data[..e.data.offset] == Concat(ps[..i])
    {
      ConcatPrefix(ps, i + 1);
      ConcatStep(ps, i);
      ghost var before := e.evt.data[..e.data.offset];
      var n, werr, wpanicked := w.Write(ps[i]);
      assert n == |ps[i]| && werr.None? && !wpanicked;
      assert e.evt.data[..e.data.offset] == before + ps[i] by {
        assert forall j :: 0 <= j < e.data.offset ==> e.evt.data[..e.data.offset][j] == (before + ps[i])[j];
      }
      i := i + 1;
    }
    assert ps[..|ps|] == ps;
    var r := e.Reader();
    var buf := new byte[e.evt.datalen];
    var m: nat, rpanicked: bool;
    m, err, rpanicked := r.Read(buf);
    got := buf[..m];
  }
}
