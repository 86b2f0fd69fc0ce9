/** The C read middleware (pkg/sdk/symbols/read/read.c): each instance
    keeps a 64 KiB buffer, refilled by one `_plugin_read_go` call at a
    time, and the result code of the last refill, so that the Go reader is
    called as rarely as possible. The buffer is indexed by the plugin-state
    handle. */
module ReadC {
  import opened SdkTypes
  import opened ReadGo
  import Handles

  /** MAX_BUF_SIZE (read.c:28). */
  const MaxBufSize: nat := 65536
  /** MAX_INSTANCES (read.c:31). */
  const MaxInstances: nat := 32

  function Min(a: nat, b: nat): nat { if a <= b then a else b }

  /** One instance's buffering state as values: the bytes from buf_ptr on
      that are still to be delivered, last_rc, and the Go reader's state. */
  datatype Buffered<S> = Buffered(pending: seq<byte>, lastRc: int, reader: S)

  /** The zero-initialised state of g_states (read.c:46). */
  function Initial<S>(reader: S): (st: Buffered<S>)
    ensures st.pending == [] && st.lastRc == SSPluginSuccess
  {
    Buffered([], 0, reader)
  }

  /** Every refill hands over bytes or reports a code other than SUCCESS;
      without this the loop of read.c:72-99 need not terminate. */
  ghost predicate Progressing<S(!new)>(read: (S, nat) -> ReadReply<S>)
  {
    forall s :: |read(s, MaxBufSize).data| > 0 || read(s, MaxBufSize).err.Some?
  }

  /** What a stretch of the loop produced: the bytes copied out, the bytes
      the Go reader delivered meanwhile, and the state it left behind. */
  datatype Chunk<S> = Chunk(out: seq<byte>, fetched: seq<byte>, st: Buffered<S>)

  /** A refill (read.c:86-88): a fresh buffer filled by one Go call. */
  function Refill<S>(read: (S, nat) -> ReadReply<S>, st: Buffered<S>): (r: Buffered<S>)
  {
    var g := GoRead(read, st.reader, MaxBufSize);
    Buffered(g.data, g.rc, g.next)
  }

  /** The Go reader never reports more than the 64 KiB it is offered. */
  ghost predicate Bounded<S(!new)>(read: (S, nat) -> ReadReply<S>)
  {
    forall s :: |read(s, MaxBufSize).data| <= MaxBufSize
  }

  /** One pass of the loop body of read.c:72-99 with n > 0 bytes wanted,
      when the loop does not break. */
  function Step<S(!new)>(read: (S, nat) -> ReadReply<S>, st: Buffered<S>, n: nat): (c: Chunk<S>)
    requires n > 0 && (st.pending != [] || st.lastRc == SSPluginSuccess)
    ensures c.out + c.st.pending == st.pending + c.fetched
    ensures |c.out| <= n && (|c.out| < n ==> c.st.pending == [])
    ensures st.pending != [] ==> |c.out| > 0
    ensures Progressing(read) && |c.out| == 0 ==> c.st.lastRc != SSPluginSuccess
    ensures st.lastRc != SSPluginSuccess ==> c.fetched == [] && c.st.lastRc == st.lastRc && c.st.reader == st.reader
    ensures Bounded(read) && |st.pending| <= MaxBufSize ==> |c.st.pending| <= MaxBufSize
  {
    var st1 := if st.pending == [] then Refill(read, st) else st;
    var fetched := if st.pending == [] then st1.pending else [];
    var k := Min(|st1.pending|, n);
    assert st1.pending[..k] + st1.pending[k..] == st1.pending;
    Chunk(st1.pending[..k], fetched, st1.(pending := st1.pending[k..]))
  }

  /** The whole loop of read.c:72-99: it stops once n bytes are out, or
      when the buffer is empty and the last refill did not succeed. */
  function Fill<S(!new)>(read: (S, nat) -> ReadReply<S>, st: Buffered<S>, n: nat): (r: Chunk<S>)
    requires Progressing(read)
    ensures |r.out| <= n
    decreases n, if st.lastRc == SSPluginSuccess then 1 else 0
  {
    if n == 0 || (st.pending == [] && st.lastRc != SSPluginSuccess) then Chunk([], [], st)
    else
      var c := Step(read, st, n);
      var rest := Fill(read, c.st, n - |c.out|);
      Chunk(c.out + rest.out, c.fetched + rest.fetched, rest.st)
  }

  /** Bytes come out in the order the Go reader delivered them: what was
      copied out followed by what is still buffered is what was buffered
      followed by what the refills fetched. */
  lemma {:induction false} FillInOrder<S(!new)>(read: (S, nat) -> ReadReply<S>, st: Buffered<S>, n: nat)
    requires Progressing(read)
    ensures var r := Fill(read, st, n); r.out + r.st.pending == st.pending + r.fetched
    decreases n, if st.lastRc == SSPluginSuccess then 1 else 0
  {
    if n == 0 || (st.pending == [] && st.lastRc != SSPluginSuccess) {
    } else {
      var c := Step(read, st, n);
      var rest := Fill(read, c.st, n - |c.out|);
      FillInOrder(read, c.st, n - |c.out|);
      SpliceInOrder(c.out, c.st.pending, c.fetched, rest.out, rest.st.pending, rest.fetched, st.pending);
    }
  }

  /** A stretch of the loop followed by the rest of it. */
  function Prepend<S>(out: seq<byte>, fetched: seq<byte>, rest: Chunk<S>): (r: Chunk<S>)
    ensures r.st == rest.st && |r.out| == |out| + |rest.out|
  {
    Chunk(out + rest.out, fetched + rest.fetched, rest.st)
  }

  /** One pass of the loop, then the remaining loop, is the loop. */
  lemma FillUnroll<S(!new)>(read: (S, nat) -> ReadReply<S>, st: Buffered<S>, n: nat)
    requires Progressing(read) && n > 0 && (st.pending != [] || st.lastRc == SSPluginSuccess)
    ensures var c := Step(read, st, n);
      Fill(read, st, n) == Prepend(c.out, c.fetched, Fill(read, c.st, n - |c.out|))
  {
  }

  lemma PrependPrepend<S>(o1: seq<byte>, f1: seq<byte>, o2: seq<byte>, f2: seq<byte>, rest: Chunk<S>)
    ensures Prepend(o1, f1, Prepend(o2, f2, rest)) == Prepend(o1 + o2, f1 + f2, rest)
  {
    assert o1 + (o2 + rest.out) == (o1 + o2) + rest.out;
    assert f1 + (f2 + rest.fetched) == (f1 + f2) + rest.fetched;
  }

  /** The loop's account after some passes: the whole loop from st0 with
      n wanted yields `done` and `fetched`, then what the loop from `cur`
      with m wanted yields. */
  ghost predicate Accounted<S(!new)>(read: (S, nat) -> ReadReply<S>, st0: Buffered<S>, n: nat,
                                     done: seq<byte>, fetched: seq<byte>, cur: Buffered<S>, m: nat)
    requires Progressing(read)
  {
    Fill(read, st0, n) == Prepend(done, fetched, Fill(read, cur, m))
  }

  /** One more pass keeps the account. */
  lemma AccountedStep<S(!new)>(read: (S, nat) -> ReadReply<S>, st0: Buffered<S>, n: nat,
                               done: seq<byte>, fetched: seq<byte>, cur: Buffered<S>, m: nat, c: Chunk<S>)
    requires Progressing(read) && m > 0 && (cur.pending != [] || cur.lastRc == SSPluginSuccess)
    requires Accounted(read, st0, n, done, fetched, cur, m)
    requires c == Step(read, cur, m)
    ensures Accounted(read, st0, n, done + c.out, fetched + c.fetched, c.st, m - |c.out|)
  {
    FillUnroll(read, cur, m);
    PrependPrepend(done, fetched, c.out, c.fetched, Fill(read, c.st, m - |c.out|));
  }

  /** A pass that hands over nothing found the buffer empty and left a
      code other than SUCCESS. */
  lemma StepStalls<S(!new)>(read: (S, nat) -> ReadReply<S>, cur: Buffered<S>, m: nat, cur': Buffered<S>, k: nat)
    requires Progressing(read) && m > 0 && (cur.pending != [] || cur.lastRc == SSPluginSuccess)
    requires cur' == Step(read, cur, m).st && k == |Step(read, cur, m).out|
    ensures k == 0 ==> cur.pending == [] && cur'.lastRc != SSPluginSuccess
  {
  }

  /** When the loop stops, its account says it produced exactly what is
      already out and left the buffering state as it stands. */
  lemma AccountedDone<S(!new)>(read: (S, nat) -> ReadReply<S>, st0: Buffered<S>, n: nat,
                               done: seq<byte>, fetched: seq<byte>, cur: Buffered<S>, m: nat)
    requires Progressing(read) && Accounted(read, st0, n, done, fetched, cur, m)
    requires m == 0 || (cur.pending == [] && cur.lastRc != SSPluginSuccess)
    ensures Fill(read, st0, n).out == done && Fill(read, st0, n).st == cur
  {
    assert done + [] == done;
  }

  /** Two stretches of the loop that each keep the order keep it together. */
  lemma SpliceInOrder(o1: seq<byte>, p1: seq<byte>, f1: seq<byte>, o2: seq<byte>, p2: seq<byte>, f2: seq<byte>, p0: seq<byte>)
    requires o1 + p1 == p0 + f1 && o2 + p2 == p1 + f2
    ensures (o1 + o2) + p2 == p0 + (f1 + f2)
  {
    calc {
      (o1 + o2) + p2;
      o1 + (o2 + p2);
      o1 + (p1 + f2);
      (o1 + p1) + f2;
      (p0 + f1) + f2;
      p0 + (f1 + f2);
    }
  }

  /** The loop delivers fewer than n bytes only when the buffer ran dry
      and the last refill reported something other than SUCCESS. */
  lemma {:induction false} FillShortOnlyOnError<S(!new)>(read: (S, nat) -> ReadReply<S>, st: Buffered<S>, n: nat)
    requires Progressing(read)
    ensures var r := Fill(read, st, n);
      |r.out| < n ==> r.st.pending == [] && r.st.lastRc != SSPluginSuccess
    decreases n, if st.lastRc == SSPluginSuccess then 1 else 0
  {
    if n == 0 || (st.pending == [] && st.lastRc != SSPluginSuccess) {
    } else {
      var c := Step(read, st, n);
      FillShortOnlyOnError(read, c.st, n - |c.out|);
    }
  }

  /** Once a refill has failed, the loop never calls the Go reader again
      and keeps the remembered code. */
  lemma {:induction false} FillSticky<S(!new)>(read: (S, nat) -> ReadReply<S>, st: Buffered<S>, n: nat)
    requires Progressing(read)
    ensures var r := Fill(read, st, n);
      st.lastRc != SSPluginSuccess ==> r.fetched == [] && r.st.lastRc == st.lastRc && r.st.reader == st.reader
    decreases n
  {
    if n == 0 || st.lastRc == SSPluginSuccess || st.pending == [] {
    } else {
      var c := Step(read, st, n);
      FillSticky(read, c.st, n - |c.out|);
    }
  }

  /** buf_ptr and buf_size stay inside the 64 KiB buffer (read.c:86-98),
      provided the Go reader reports at most what it was offered. */
  lemma {:induction false} FillBounded<S(!new)>(read: (S, nat) -> ReadReply<S>, st: Buffered<S>, n: nat)
    requires Progressing(read) && Bounded(read) && |st.pending| <= MaxBufSize
    ensures |Fill(read, st, n).st.pending| <= MaxBufSize
    decreases n, if st.lastRc == SSPluginSuccess then 1 else 0
  {
    if n == 0 || (st.pending == [] && st.lastRc != SSPluginSuccess) {
    } else {
      var c := Step(read, st, n);
      FillBounded(read, c.st, n - |c.out|);
    }
  }

  /** plugin_read (read.c:59-111) on the buffering state: TIMEOUT is
      forgotten on entry (line 69), the loop runs, and a pending EOF or
      TIMEOUT is reported as SUCCESS while bytes remain (lines 105-108).
      The returned code is the new last_rc. */
  function PluginReadSpec<S(!new)>(read: (S, nat) -> ReadReply<S>, st: Buffered<S>, n: nat): (r: Chunk<S>)
    requires Progressing(read)
    ensures |r.out| <= n
    ensures r.st.lastRc == SSPluginSuccess ==> |r.out| == n
    ensures |r.out| < n ==> r.st.pending == [] && r.st.lastRc != SSPluginSuccess
    ensures r.st.pending != [] ==> r.st.lastRc != SSPluginEOF && r.st.lastRc != SSPluginTimeout
    ensures r.out + r.st.pending == st.pending + r.fetched
    ensures st.lastRc != SSPluginSuccess && st.lastRc != SSPluginTimeout && st.pending == [] ==>
      r.out == [] && r.fetched == [] && r.st == st
  {
    var st0 := st.(lastRc := if st.lastRc == SSPluginTimeout then SSPluginSuccess else st.lastRc);
    var f := Fill(read, st0, n);
    FillInOrder(read, st0, n);
    FillShortOnlyOnError(read, st0, n);
    FillSticky(read, st0, n);
    var rc := if |f.st.pending| > 0 && (f.st.lastRc == SSPluginEOF || f.st.lastRc == SSPluginTimeout)
              then SSPluginSuccess else f.st.lastRc;
    Chunk(f.out, f.fetched, f.st.(lastRc := rc))
  }

  /** A TIMEOUT remembered from the previous call makes no difference
      (read.c:69): the next call behaves as from a clean state and reads
      again, whereas a remembered EOF stops it before any Go call. */
  lemma TimeoutForgotten<S(!new)>(read: (S, nat) -> ReadReply<S>, st: Buffered<S>, n: nat)
    requires Progressing(read) && st.lastRc == SSPluginTimeout
    ensures PluginReadSpec(read, st, n) == PluginReadSpec(read, st.(lastRc := SSPluginSuccess), n)
  {
  }

  /** A refill that hands over no bytes and reports SUCCESS leaves the
      loop exactly where it was, with the same n: the loop of read.c:72-99
      spins forever on such a reader. */
  lemma ZeroByteSuccessSpins<S(!new)>(read: (S, nat) -> ReadReply<S>, s: S, n: nat)
    requires n > 0 && read(s, MaxBufSize) == ReadReply(s, [], None)
    ensures Step(read, Buffered([], SSPluginSuccess, s), n) == Chunk([], [], Buffered([], SSPluginSuccess, s))
  {
  }

  /** g_states has MAX_INSTANCES slots, indexed 0..31 by the plugin-state
      handle (read.c:46, read.c:64), but handles go up to 255: already the
      32nd handle issued from an empty table, handle 32, is past the end. */
  lemma HandlesOutrunInstances<T>(vs: seq<T>)
    requires |vs| == MaxInstances
    ensures var r := Handles.RegisterAll(Handles.EmptyTable<T>(), vs);
      r.Some? && r.value.0[MaxInstances - 1] == MaxInstances
  {
    Handles.EmptyIsFilled<T>();
    Handles.RegisterAllFromFilled<T>([], vs);
  }

  /** Copying the first k pending bytes to position at of o yields o2. */
  lemma CopiedOut(o: seq<byte>, o2: seq<byte>, p: seq<byte>, at: nat, k: nat)
    requires |o2| == |o| && at + k <= |o| && k <= |p|
    requires forall j :: 0 <= j < |o| ==> o2[j] == if at <= j < at + k then p[j - at] else o[j]
    ensures o2[..at + k] == o[..at] + p[..k]
    ensures o2[at + k..] == o[at + k..]
  {
    assert o2[..at + k] == o[..at] + p[..k] by {
      assert forall j :: 0 <= j < at + k ==> o2[..at + k][j] == (o[..at] + p[..k])[j];
    }
  }

  // ---------------------------------------------------------------------
  // The C state and the loop itself

  /** read_instance_state_t (read.c:34-39); buf_ptr is an index into buf. */
  class InstanceBuffer {
    const buf: array<byte>
    var bufPtr: nat
    var bufSize: nat
    var lastRc: int

    ghost predicate Valid()
      reads this`bufPtr, this`bufSize
    {
      buf.Length == MaxBufSize && bufPtr + bufSize <= MaxBufSize
    }

    /** The bytes still to be delivered. */
    ghost function Pending(): seq<byte>
      requires Valid()
      reads this`bufPtr, this`bufSize, buf
    {
      buf[bufPtr..bufPtr + bufSize]
    }

    /** read.c:86-88: the buffer restarts at buf[0] and holds what the Go
        call delivered; last_rc is its code. */
    method Refill(data: seq<byte>, rc: int)
      requires Valid() && |data| <= MaxBufSize
      modifies this`bufPtr, this`bufSize, this`lastRc, buf
      ensures Valid() && Pending() == data && lastRc == rc
    {
      bufSize := 0;
      bufPtr := 0;
      forall j | 0 <= j < |data| {
        buf[j] := data[j];
      }
      bufSize := |data|;
      lastRc := rc;
    }

    /** read.c:92-98: k buffered bytes are copied to out[at..at + k) and
        leave the buffer. */
    method Flush(out: array<byte>, at: nat, k: nat)
      requires Valid() && k <= bufSize && at + k <= out.Length && out != buf
      modifies this`bufPtr, this`bufSize, out
      ensures Valid()
      ensures Pending() == old(Pending())[k..]
      ensures out[..at + k] == old(out[..at]) + old(Pending())[..k]
      ensures out[at + k..] == old(out[at + k..])
    {
      ghost var p := Pending();
      ghost var o := out[..];
      forall j | 0 <= j < k {
        out[at + j] := buf[bufPtr + j];
      }
      CopiedOut(o, out[..], p, at, k);
      bufPtr := bufPtr + k;
      bufSize := bufSize - k;
    }

    /** The loop of read.c:72-99: copy up to n bytes into out, refilling
        from the Go reader whenever the buffer is empty and the last code
        was SUCCESS. */
    method Drain<S(!new)>(read: (S, nat) -> ReadReply<S>, reader: S, out: array<byte>, n: nat)
      returns (nread: nat, next: S)
      requires Valid() && Progressing(read) && Bounded(read) && n <= out.Length && out != buf
      modifies this`bufPtr, this`bufSize, this`lastRc, buf, out
      ensures Valid() && nread <= n
      ensures var r := Fill(read, Buffered(old(Pending()), old(lastRc), reader), n);
        out[..nread] == r.out && r.st == Buffered(Pending(), lastRc, next)
      ensures out[nread..] == old(out[nread..])
    {
      ghost var st0 := Buffered(Pending(), lastRc, reader);
      ghost var fetched: seq<byte> := [];
      ghost var orig := out[..];
      next := reader;
      nread := 0;
      assert Accounted(read, st0, n, out[..0], fetched, st0, n) by {
        var f := Fill(read, st0, n);
        assert out[..0] == [];
        assert [] + f.out == f.out && [] + f.fetched == f.fetched;
      }
      var m: nat := n;
      while m > 0 && (bufSize > 0 || lastRc == SSPluginSuccess)
        invariant Valid() && nread + m == n
        invariant Accounted(read, st0, n, out[..nread], fetched, Buffered(Pending(), lastRc, next), m)
        invariant Untouched(out, orig, nread)
        decreases m, if lastRc == SSPluginSuccess then 1 else 0
      {
        nread, m, next, fetched := Advance(read, next, out, nread, m, st0, n, fetched, orig);
      }
      AccountedDone(read, st0, n, out[..nread], fetched, Buffered(Pending(), lastRc, next), m);
      assert out[nread..] == orig[nread..] == old(out[..])[nread..];
    }

    /** One pass of the loop, keeping the loop's account: what the whole
        loop produces is what is already out, then what the rest produces. */
    method Advance<S(!new)>(read: (S, nat) -> ReadReply<S>, reader: S, out: array<byte>, at: nat, m: nat,
                            ghost st0: Buffered<S>, ghost n: nat, ghost fetched: seq<byte>, ghost orig: seq<byte>)
      returns (at': nat, m': nat, next: S, ghost fetched': seq<byte>)
      requires Valid() && Progressing(read) && Bounded(read) && m > 0 && at + m <= out.Length && out != buf
      requires bufSize > 0 || lastRc == SSPluginSuccess
      requires Accounted(read, st0, n, out[..at], fetched, Buffered(Pending(), lastRc, reader), m)
      requires Untouched(out, orig, at)
      modifies this`bufPtr, this`bufSize, this`lastRc, buf, out
      ensures Valid() && at' + m' == at + m && m' <= m
      ensures m' == m ==> old(bufSize) == 0 && lastRc != SSPluginSuccess
      ensures Accounted(read, st0, n, out[..at'], fetched', Buffered(Pending(), lastRc, next), m')
      ensures Untouched(out, orig, at')
    {
      ghost var cur := Buffered(Pending(), lastRc, reader);
      assert |cur.pending| == bufSize;
      ghost var before := out[..at];
      ghost var c := Step(read, cur, m);
      var k;
      k, next := Pass(read, reader, out, at, m, orig);
      fetched' := fetched + c.fetched;
      at', m' := at + k, m - k;
      AccountedStep(read, st0, n, before, fetched, cur, m, c);
      assert out[..at'] == before + c.out && Buffered(Pending(), lastRc, next) == c.st;
      StepStalls(read, cur, m, c.st, k);
    }

    /** Everything of out from index `from` on is still as in orig. */
    ghost predicate Untouched(out: array<byte>, orig: seq<byte>, from: nat)
      reads out
    {
      |orig| == out.Length && from <= out.Length && out[from..] == orig[from..]
    }

    /** One pass of the loop body (read.c:75-98). */
    method Pass<S(!new)>(read: (S, nat) -> ReadReply<S>, reader: S, out: array<byte>, at: nat, m: nat,
                         ghost orig: seq<byte>)
      returns (k: nat, next: S)
      requires Valid() && Bounded(read) && m > 0 && at + m <= out.Length && out != buf
      requires bufSize > 0 || lastRc == SSPluginSuccess
      requires Untouched(out, orig, at)
      modifies this`bufPtr, this`bufSize, this`lastRc, buf, out
      ensures var c := Step(read, Buffered(old(Pending()), old(lastRc), reader), m);
        && Valid() && k == |c.out| && c.st == Buffered(Pending(), lastRc, next)
        && out[..at + k] == old(out[..at]) + c.out && Untouched(out, orig, at + k)
    {
      ghost var cur := Buffered(Pending(), lastRc, reader);
      next := reader;
      if bufSize == 0 {
        var reply := read(reader, MaxBufSize);
        Refill(reply.data, ReadCode(reply.err));
        next := reply.next;
      }
      k := Min(bufSize, m);
      ghost var c := Step(read, cur, m);
      assert c.out == Pending()[..k] && c.st == Buffered(Pending()[k..], lastRc, next);
      ghost var o := out[..];
      Flush(out, at, k);
      assert out[at + k..] == o[at + k..] == o[at..][k..];
    }

    /** The body of plugin_read (read.c:66-110) on this instance's state. */
    method Read<S(!new)>(read: (S, nat) -> ReadReply<S>, reader: S, out: array<byte>, n: nat)
      returns (rc: int, nread: nat, next: S)
      requires Valid() && Progressing(read) && Bounded(read) && n <= out.Length && out != buf
      modifies this`bufPtr, this`bufSize, this`lastRc, buf, out
      ensures Valid()
      ensures var r := PluginReadSpec(read, Buffered(old(Pending()), old(lastRc), reader), n);
        && nread == |r.out| && out[..nread] == r.out
        && rc == r.st.lastRc && lastRc == rc
        && Pending() == r.st.pending && next == r.st.reader
      ensures nread <= n && out[nread..] == old(out[nread..])
    {
      ghost var st := Buffered(Pending(), lastRc, reader);
      ForgetTimeout();
      ghost var st1 := Buffered(Pending(), lastRc, reader);
      assert st1 == st.(lastRc := if st.lastRc == SSPluginTimeout then SSPluginSuccess else st.lastRc);
      ghost var f := Fill(read, st1, n);
      nread, next := Drain(read, reader, out, n);
      assert f.st == Buffered(Pending(), lastRc, next);
      rc := ReportBuffered();
      PluginReadSpecOfFill(read, st, n, f, rc);
    }

    /** read.c:69: a TIMEOUT of the previous call is forgotten. */
    method ForgetTimeout()
      modifies this`lastRc
      ensures lastRc == if old(lastRc) == SSPluginTimeout then SSPluginSuccess else old(lastRc)
    {
      if lastRc == SSPluginTimeout {
        lastRc := SSPluginSuccess;
      }
    }

    /** read.c:105-110: while bytes stay buffered an EOF or TIMEOUT is
        reported, and remembered, as SUCCESS. */
    method ReportBuffered() returns (rc: int)
      modifies this`lastRc
      ensures rc == lastRc
      ensures lastRc == if bufSize > 0 && (old(lastRc) == SSPluginEOF || old(lastRc) == SSPluginTimeout)
                        then SSPluginSuccess else old(lastRc)
    {
      if bufSize > 0 && (lastRc == SSPluginEOF || lastRc == SSPluginTimeout) {
        lastRc := SSPluginSuccess;
      }
      rc := lastRc;
    }

    /** The zero state of read.c:46 restored on a slot already in use.
        read.c never does this: a slot keeps whatever its previous plugin
        state left, even after the handle indexing it is deleted and
        issued again. This is the reset a new plugin state needs. */
    method Reset()
      requires Valid()
      modifies this`bufPtr, this`bufSize, this`lastRc
      ensures Valid() && Pending() == [] && lastRc == SSPluginSuccess
    {
      bufPtr := 0;
      bufSize := 0;
      lastRc := SSPluginSuccess;
    }

    constructor Zero()
      ensures Valid() && fresh(buf) && bufPtr == 0 && bufSize == 0 && lastRc == SSPluginSuccess
    {
      buf := new byte[MaxBufSize];
      bufPtr := 0;
      bufSize := 0;
      lastRc := SSPluginSuccess;
    }
  }

  /** g_states (read.c:46). */
  class ReadStates {
    const states: array<InstanceBuffer>

    ghost predicate Valid()
      reads this, states, set i | 0 <= i < states.Length :: states[i]
    {
      states.Length == MaxInstances &&
      (forall i :: 0 <= i < MaxInstances ==> states[i].Valid())
    }
  }

  /** plugin_read (read.c:59-111) for plugin-state handle s, which must be
      below MAX_INSTANCES. The Go reader of instance h is `read`, in state
      `reader` before the call and `next` after it. */
  method PluginRead<S(!new)>(g: ReadStates, s: nat, read: (S, nat) -> ReadReply<S>, reader: S,
                             out: array<byte>, n: nat)
    returns (rc: int, nread: nat, next: S)
    requires g.Valid() && s < MaxInstances && Progressing(read) && Bounded(read)
    requires n <= out.Length && out != g.states[s].buf
    modifies g.states[s], g.states[s].buf, out
    ensures g.states[s].Valid()
    ensures var r := PluginReadSpec(read, Buffered(old(g.states[s].Pending()), old(g.states[s].lastRc), reader), n);
      && nread == |r.out| && out[..nread] == r.out
      && rc == r.st.lastRc && g.states[s].lastRc == rc
      && g.states[s].Pending() == r.st.pending && next == r.st.reader
    ensures nread <= n && out[nread..] == old(out[nread..])
  {
    rc, nread, next := g.states[s].Read(read, reader, out, n);
  }

  /** PluginReadSpec spelled out: the loop from the state with a TIMEOUT
      forgotten, then the code adjusted while bytes stay buffered. */
  lemma PluginReadSpecOfFill<S(!new)>(read: (S, nat) -> ReadReply<S>, st: Buffered<S>, n: nat,
                                      f: Chunk<S>, rc: int)
    requires Progressing(read)
    requires f == Fill(read, st.(lastRc := if st.lastRc == SSPluginTimeout then SSPluginSuccess else st.lastRc), n)
    requires rc == if |f.st.pending| > 0 && (f.st.lastRc == SSPluginEOF || f.st.lastRc == SSPluginTimeout)
                   then SSPluginSuccess else f.st.lastRc
    ensures PluginReadSpec(read, st, n) == Chunk(f.out, f.fetched, f.st.(lastRc := rc))
  {
  }

}
