/** The scripts of pkg/sdk/symbols/read/read_test.go, run through both
    paths: the Go path calls the reader once per read with the caller's
    length, the C path refills its 64 KiB buffer. On each script the two
    report the same codes and the same bytes when the C path starts from a
    zeroed g_states slot. In the test binary only TestReadRegular's C run
    does: every run gets plugin-state handle 1, and slot 1 keeps what the
    previous C run left (`ReusedSlotAsWritten`). */
module ReadScripts {
  import opened SdkTypes
  import opened ReadGo
  import opened ReadC
  import opened Handles

  /** The state of the test reader `sampleRead` (read_test.go:29-33). */
  datatype Sample = Sample(data: seq<byte>, err: Option<GoError>)

  /** sampleRead.Read (read_test.go:35-55): a set error is returned with no
      bytes; otherwise up to len bytes are handed over, and ErrEOF comes
      with the last of them. */
  function SampleRead(s: Sample, len: nat): (r: ReadReply<Sample>)
    ensures |r.data| <= len
    ensures s.err.Some? ==> r == ReadReply(s, [], s.err)
    ensures s.err.None? ==> r.data + r.next.data == s.data && r.next.err.None?
    ensures s.err.None? ==> (r.err.Some? <==> r.next.data == []) && (r.err.Some? ==> r.err.value == ErrEOF)
  {
    if s.err.Some? then ReadReply(s, [], s.err)
    else
      var n := Min(len, |s.data|);
      var rest := s.data[n..];
      assert s.data[..n] + rest == s.data;
      ReadReply(Sample(rest, None), s.data[..n], if rest == [] then Some(ErrEOF) else None)
  }

  /** The test reader never makes the C loop spin. */
  lemma SampleProgressing()
    ensures Progressing(SampleRead) && Bounded(SampleRead)
  {
    forall s: Sample ensures |SampleRead(s, MaxBufSize).data| > 0 || SampleRead(s, MaxBufSize).err.Some? {
      if s.err.None? && s.data != [] {
        assert |SampleRead(s, MaxBufSize).data| == Min(MaxBufSize, |s.data|);
      }
    }
  }

  /** One plugin_read call through the C middleware with the test reader. */
  function CCall(st: Buffered<Sample>, n: nat): (r: Chunk<Sample>)
    ensures |r.out| <= n
    ensures |r.out| < n ==> r.st.pending == [] && r.st.lastRc != SSPluginSuccess
  {
    SampleProgressing();
    PluginReadSpec(SampleRead, st, n)
  }

  /** One _plugin_read_go call with the test reader. */
  function GoCall(s: Sample, n: nat): (r: GoOutcome<Sample>)
    ensures |r.data| <= n
  {
    GoRead(SampleRead, s, n)
  }

  /** TestReadRegular (read_test.go:92-103): 1000 bytes read 600 at a time
      give SUCCESS 600, EOF 400, EOF 0 on both paths. */
  lemma RegularScript(d: seq<byte>)
    requires |d| == 1000
    ensures var g1 := GoCall(Sample(d, None), 600);
      var g2 := GoCall(g1.next, 600);
      var g3 := GoCall(g2.next, 600);
      && g1 == GoOutcome(SSPluginSuccess, d[..600], Sample(d[600..], None))
      && g2.rc == SSPluginEOF && g2.data == d[600..]
      && g3.rc == SSPluginEOF && g3.data == []
    ensures var c1 := CCall(Initial(Sample(d, None)), 600);
      var c2 := CCall(c1.st, 600);
      var c3 := CCall(c2.st, 600);
      && c1.st.lastRc == SSPluginSuccess && c1.out == d[..600]
      && c2.st.lastRc == SSPluginEOF && c2.out == d[600..]
      && c3.st.lastRc == SSPluginEOF && c3.out == []
  {
    SampleProgressing();
    var c1 := CCall(Initial(Sample(d, None)), 600);
    var st := Initial(Sample(d, None));
    var a := Step(SampleRead, st, 600);
    assert a.st == Buffered(d[600..], SSPluginEOF, Sample([], None));
    FillUnroll(SampleRead, st, 600);
    assert c1.st == Buffered(d[600..], SSPluginSuccess, Sample([], None)) && c1.out == d[..600];
    var c2 := CCall(c1.st, 600);
    var b := Step(SampleRead, c1.st, 600);
    assert b.st == Buffered([], SSPluginSuccess, Sample([], None)) && b.out == d[600..];
    FillUnroll(SampleRead, c1.st, 600);
    var b2 := Step(SampleRead, b.st, 200);
    assert b2.st == Buffered([], SSPluginEOF, Sample([], None)) && b2.out == [];
    FillUnroll(SampleRead, b.st, 200);
    assert c2.st == Buffered([], SSPluginEOF, Sample([], None)) && c2.out == d[600..];
  }

  /** TestReadUnsufficient (read_test.go:105-114): 20 bytes asked of a
      10-byte stream give EOF with the 10 bytes on both paths. */
  lemma UnsufficientScript(d: seq<byte>)
    requires |d| == 10
    ensures GoCall(Sample(d, None), 20) == GoOutcome(SSPluginEOF, d, Sample([], None))
    ensures var c := CCall(Initial(Sample(d, None)), 20); c.st.lastRc == SSPluginEOF && c.out == d
  {
    SampleProgressing();
    var st := Initial(Sample(d, None));
    var a := Step(SampleRead, st, 20);
    assert a.st == Buffered([], SSPluginEOF, Sample([], None)) && a.out == d;
    FillUnroll(SampleRead, st, 20);
  }

  /** TestReadTimeout (read_test.go:143-156): while the reader times out
      both paths report TIMEOUT with no bytes, and each call asks the
      reader again; once the error is cleared, 10 bytes come with EOF. */
  lemma TimeoutScript(d: seq<byte>)
    requires |d| == 10
    ensures var s := Sample(d, Some(ErrTimeout));
      && GoCall(s, 20) == GoOutcome(SSPluginTimeout, [], s)
      && GoCall(s, 40) == GoOutcome(SSPluginTimeout, [], s)
      && GoCall(Sample(d, None), 10) == GoOutcome(SSPluginEOF, d, Sample([], None))
    ensures var c1 := CCall(Initial(Sample(d, Some(ErrTimeout))), 20);
      var c2 := CCall(c1.st, 40);
      var c3 := CCall(c2.st.(reader := Sample(d, None)), 10);
      && c1.st.lastRc == SSPluginTimeout && c1.out == [] && c1.fetched == []
      && c2.st.lastRc == SSPluginTimeout && c2.out == []
      && c3.st.lastRc == SSPluginEOF && c3.out == d
  {
    SampleProgressing();
    var s := Sample(d, Some(ErrTimeout));
    var st := Initial(s);
    var a := Step(SampleRead, st, 20);
    assert a.st == Buffered([], SSPluginTimeout, s) && a.out == [];
    FillUnroll(SampleRead, st, 20);
    var c1 := CCall(st, 20);
    assert c1.st == Buffered([], SSPluginTimeout, s);
    var b := Step(SampleRead, Initial(s), 40);
    assert b.st == Buffered([], SSPluginTimeout, s) && b.out == [];
    FillUnroll(SampleRead, Initial(s), 40);
    var c2 := CCall(c1.st, 40);
    assert c2.st == Buffered([], SSPluginTimeout, s);
    var st3 := Buffered([], SSPluginSuccess, Sample(d, None));
    var e := Step(SampleRead, st3, 10);
    assert e.st == Buffered([], SSPluginEOF, Sample([], None)) && e.out == d;
    FillUnroll(SampleRead, st3, 10);
  }

  /** TestReadStressBuffering (read_test.go:116-129), Go path: 128 KiB
      read as 80 KiB, 60 KiB, 40 KiB gives SUCCESS 80 KiB, EOF 48 KiB,
      EOF 0. */
  lemma StressScriptGo(d: seq<byte>)
    requires |d| == 128 * 1024
    ensures var g1 := GoCall(Sample(d, None), 80 * 1024);
      var g2 := GoCall(g1.next, 60 * 1024);
      var g3 := GoCall(g2.next, 40 * 1024);
      && g1.rc == SSPluginSuccess && g1.data == d[..80 * 1024]
      && g2.rc == SSPluginEOF && g2.data == d[80 * 1024..]
      && g3.rc == SSPluginEOF && g3.data == []
  {
    SampleProgressing();
  }

  /** The same script on the C path, which refills its 64 KiB buffer
      twice during the first call. */
  lemma StressScriptC(d: seq<byte>)
    requires |d| == 128 * 1024
    ensures var c1 := CCall(Initial(Sample(d, None)), 80 * 1024);
      var c2 := CCall(c1.st, 60 * 1024);
      var c3 := CCall(c2.st, 40 * 1024);
      && c1.st.lastRc == SSPluginSuccess && c1.out == d[..80 * 1024]
      && c2.st.lastRc == SSPluginEOF && c2.out == d[80 * 1024..]
      && c3.st.lastRc == SSPluginEOF && c3.out == []
  {
    StressFirstCallC(d);
    StressSecondCallC(d[80 * 1024..]);
  }

  /** The first call of the stress script: two refills of 64 KiB, and
      the 48 KiB of the second that were not asked for stay buffered. */
  lemma StressFirstCallC(d: seq<byte>)
    requires |d| == 128 * 1024
    ensures CCall(Initial(Sample(d, None)), 80 * 1024) ==
      Chunk(d[..80 * 1024], d, Buffered(d[80 * 1024..], SSPluginSuccess, Sample([], None)))
  {
    SampleProgressing();
    StressFirstRefill(d);
    StressSecondRefill(d);
    assert d[..MaxBufSize] + d[MaxBufSize..80 * 1024] == d[..80 * 1024];
    assert d[..MaxBufSize] + d[MaxBufSize..] == d;
  }

  /** The first pass of the first call: a full 64 KiB refill, all of it
      handed over. */
  lemma StressFirstRefill(d: seq<byte>)
    requires |d| == 128 * 1024
    ensures (SampleProgressing();
      Fill(SampleRead, Initial(Sample(d, None)), 80 * 1024) ==
      Prepend(d[..MaxBufSize], d[..MaxBufSize],
        Fill(SampleRead, Buffered([], SSPluginSuccess, Sample(d[MaxBufSize..], None)), 16 * 1024)))
  {
    SampleProgressing();
    var st := Initial(Sample(d, None));
    var a1 := Step(SampleRead, st, 80 * 1024);
    assert a1.st == Buffered([], SSPluginSuccess, Sample(d[MaxBufSize..], None)) && a1.out == d[..MaxBufSize];
    FillUnroll(SampleRead, st, 80 * 1024);
  }

  /** The second pass: the refill takes the last 64 KiB with EOF, 16 KiB
      are handed over and 48 KiB stay buffered. */
  lemma StressSecondRefill(d: seq<byte>)
    requires |d| == 128 * 1024
    ensures (SampleProgressing();
      Fill(SampleRead, Buffered([], SSPluginSuccess, Sample(d[MaxBufSize..], None)), 16 * 1024) ==
      Chunk(d[MaxBufSize..80 * 1024], d[MaxBufSize..], Buffered(d[80 * 1024..], SSPluginEOF, Sample([], None))))
  {
    SampleProgressing();
    var st := Buffered([], SSPluginSuccess, Sample(d[MaxBufSize..], None));
    var a2 := Step(SampleRead, st, 16 * 1024);
    assert a2.st == Buffered(d[80 * 1024..], SSPluginEOF, Sample([], None)) && a2.out == d[MaxBufSize..80 * 1024];
    FillUnroll(SampleRead, st, 16 * 1024);
    assert a2.out + [] == a2.out && a2.fetched + [] == a2.fetched;
  }

  /** The second and third calls: the 48 KiB still buffered come out with
      EOF, after which nothing more does. */
  lemma StressSecondCallC(rest: seq<byte>)
    requires |rest| == 48 * 1024
    ensures var c2 := CCall(Buffered(rest, SSPluginSuccess, Sample([], None)), 60 * 1024);
      var c3 := CCall(c2.st, 40 * 1024);
      && c2.st.lastRc == SSPluginEOF && c2.out == rest
      && c3.st.lastRc == SSPluginEOF && c3.out == []
  {
    var st := Buffered(rest, SSPluginSuccess, Sample([], None));
    DrainBuffered(rest);
    CCallOfFill(st, 60 * 1024);
    CCallAfterEOF(40 * 1024);
  }

  /** The loop of the second call: the buffered bytes, then an EOF refill. */
  lemma DrainBuffered(rest: seq<byte>)
    requires |rest| == 48 * 1024
    ensures (SampleProgressing();
      Fill(SampleRead, Buffered(rest, SSPluginSuccess, Sample([], None)), 60 * 1024) ==
      Chunk(rest, [], Buffered([], SSPluginEOF, Sample([], None))))
  {
    DrainPending(rest);
    RefillAtEOF();
    assert rest + [] == rest;
  }

  /** The first pass hands over all 48 KiB buffered. */
  lemma DrainPending(rest: seq<byte>)
    requires |rest| == 48 * 1024
    ensures (SampleProgressing();
      Fill(SampleRead, Buffered(rest, SSPluginSuccess, Sample([], None)), 60 * 1024) ==
      Prepend(rest, [], Fill(SampleRead, Buffered([], SSPluginSuccess, Sample([], None)), 12 * 1024)))
  {
    SampleProgressing();
    var st := Buffered(rest, SSPluginSuccess, Sample([], None));
    var b1 := Step(SampleRead, st, 60 * 1024);
    assert b1.st == Buffered([], SSPluginSuccess, Sample([], None)) && b1.out == rest && b1.fetched == [];
    FillUnroll(SampleRead, st, 60 * 1024);
  }

  /** The refill after the buffer ran dry meets EOF at once. */
  lemma RefillAtEOF()
    ensures (SampleProgressing();
      Fill(SampleRead, Buffered([], SSPluginSuccess, Sample([], None)), 12 * 1024) ==
      Chunk([], [], Buffered([], SSPluginEOF, Sample([], None))))
  {
    SampleProgressing();
    var st := Buffered([], SSPluginSuccess, Sample([], None));
    var b2 := Step(SampleRead, st, 12 * 1024);
    assert b2.st == Buffered([], SSPluginEOF, Sample([], None)) && b2.out == [] && b2.fetched == [];
    FillUnroll(SampleRead, st, 12 * 1024);
  }

  /** A call after EOF with nothing buffered returns nothing. */
  lemma CCallAfterEOF(n: nat)
    ensures CCall(Buffered([], SSPluginEOF, Sample([], None)), n) == Chunk([], [], Buffered([], SSPluginEOF, Sample([], None)))
  {
  }

  /** A call from a state without a remembered TIMEOUT whose loop ends
      with nothing buffered reports the loop's own return code. */
  lemma CCallOfFill(st: Buffered<Sample>, n: nat)
    requires st.lastRc != SSPluginTimeout
    ensures (SampleProgressing();
      Fill(SampleRead, st, n).st.pending == [] ==> CCall(st, n) == Fill(SampleRead, st, n))
  {
    SampleProgressing();
    assert st.(lastRc := st.lastRc) == st;
  }

  // ---------------------------------------------------------------------
  // The scripts in sequence: one g_states slot shared by every C run
  // ---------------------------------------------------------------------

  /** Each run of doUnitTest (read.go:65-123) creates its handle with
      cgo.NewHandle and deletes it when the run ends, so on a table with no
      live handle every run gets handle 1, and leaves the table empty. */
  lemma HandleOneEachRun<T>(v: T)
    ensures Register(EmptyTable<T>(), v).0 == Issued(1)
    ensures Revoke(Register(EmptyTable<T>(), v).1, 1) == Some(EmptyTable<T>())
  {
    var s := EmptyTable<T>();
    assert FirstFree(s, 1) == Some(1);
    assert s[1 := Some(v)][1 := None] == s;
  }

  /** One plugin_read call with the test reader on slot, the g_states
      entry of plugin-state handle 1, whose state is st: it answers with
      the chunk c that `CCall` gives. */
  method SlotCall(slot: InstanceBuffer, ghost st: Buffered<Sample>, reader: Sample, n: nat, ghost c: Chunk<Sample>)
    returns (rc: int, nread: nat, next: Sample)
    requires slot.Valid() && st == Buffered(slot.Pending(), slot.lastRc, reader) && c == CCall(st, n)
    modifies slot`bufPtr, slot`bufSize, slot`lastRc, slot.buf
    ensures slot.Valid()
    ensures rc == c.st.lastRc && nread == |c.out|
    ensures Buffered(slot.Pending(), slot.lastRc, next) == c.st
  {
    SampleProgressing();
    var out := new byte[n];
    rc, nread, next := slot.Read(SampleRead, reader, out, n);
  }

  /** RegularScript's C calls counted: 600 and 400 bytes, and the third
      call leaves nothing buffered and EOF remembered. */
  lemma RegularCounts(d: seq<byte>)
    requires |d| == 1000
    ensures var c1 := CCall(Initial(Sample(d, None)), 600);
      var c2 := CCall(c1.st, 600);
      var c3 := CCall(c2.st, 600);
      && c1.st.lastRc == SSPluginSuccess && |c1.out| == 600
      && c2.st.lastRc == SSPluginEOF && |c2.out| == 400
      && c3.st.lastRc == SSPluginEOF && c3.out == [] && c3.st.pending == []
  {
    RegularScript(d);
  }

  /** The chunks of RegularScript's three C calls of n = 600 bytes, named. */
  lemma RegularChunks(d: seq<byte>, n: nat) returns (c1: Chunk<Sample>, c2: Chunk<Sample>, c3: Chunk<Sample>)
    requires |d| == 1000 && n == 600
    ensures c1 == CCall(Initial(Sample(d, None)), n) && c2 == CCall(c1.st, n) && c3 == CCall(c2.st, n)
    ensures c1.st.lastRc == SSPluginSuccess && |c1.out| == 600
    ensures c2.st.lastRc == SSPluginEOF && |c2.out| == 400
    ensures c3.st.lastRc == SSPluginEOF && c3.out == [] && c3.st.pending == []
  {
    RegularCounts(d);
    c1 := CCall(Initial(Sample(d, None)), n);
    c2 := CCall(c1.st, n);
    c3 := CCall(c2.st, n);
  }

  /** The C run of TestReadRegular (read_test.go:92-103) on slot, zeroed
      as g_states is at program start: the three calls report SUCCESS 600,
      EOF 400, EOF 0, and leave the slot with nothing buffered and EOF
      remembered. */
  method RegularOnSlot(slot: InstanceBuffer, d: seq<byte>) returns (rcs: seq<int>, nreads: seq<nat>)
    requires slot.Valid() && |d| == 1000
    requires slot.Pending() == [] && slot.lastRc == SSPluginSuccess
    modifies slot`bufPtr, slot`bufSize, slot`lastRc, slot.buf
    ensures slot.Valid()
    ensures rcs == [SSPluginSuccess, SSPluginEOF, SSPluginEOF] && nreads == [600, 400, 0]
    ensures slot.Pending() == [] && slot.lastRc == SSPluginEOF
  {
    var n := 600;
    ghost var c1, c2, c3 := RegularChunks(d, n);
    var rc1, n1, r1 := SlotCall(slot, Initial(Sample(d, None)), Sample(d, None), n, c1);
    var rc2, n2, r2 := SlotCall(slot, c1.st, r1, n, c2);
    var rc3, n3, r3 := SlotCall(slot, c2.st, r2, n, c3);
    rcs, nreads := [rc1, rc2, rc3], [n1, n2, n3];
  }

  /** As written: TestReadUnsufficient's C run (read_test.go:105-114) on
      the slot TestReadRegular's C run used. The slot still remembers EOF
      with nothing buffered, so plugin_read stops at read.c:80-83 before
      calling the reader: EOF with no bytes, where the test expects the
      10 bytes. */
  method ReusedSlotAsWritten(slot: InstanceBuffer, d: seq<byte>, e: seq<byte>) returns (rc: int, nread: nat)
    requires slot.Valid() && |d| == 1000 && |e| == 10
    requires slot.Pending() == [] && slot.lastRc == SSPluginSuccess
    modifies slot`bufPtr, slot`bufSize, slot`lastRc, slot.buf
    ensures rc == SSPluginEOF && nread == 0
  {
    var rcs, nreads := RegularOnSlot(slot, d);
    var next;
    ghost var st := Buffered([], SSPluginEOF, Sample(e, None));
    rc, nread, next := SlotCall(slot, st, Sample(e, None), 20, CCall(st, 20));
  }

  /** Corrected: the slot reset for the new plugin state before the same
      run gives what the test expects, EOF with the 10 bytes, because the
      reset slot is the `Initial` state every script above starts from. */
  method ReusedSlotReset(slot: InstanceBuffer, d: seq<byte>, e: seq<byte>) returns (rc: int, nread: nat)
    requires slot.Valid() && |d| == 1000 && |e| == 10
    requires slot.Pending() == [] && slot.lastRc == SSPluginSuccess
    modifies slot`bufPtr, slot`bufSize, slot`lastRc, slot.buf
    ensures rc == SSPluginEOF && nread == 10
  {
    var rcs, nreads := RegularOnSlot(slot, d);
    slot.Reset();
    UnsufficientScript(e);
    var next;
    ghost var st := Initial(Sample(e, None));
    rc, nread, next := SlotCall(slot, st, Sample(e, None), 20, CCall(st, 20));
  }
}
