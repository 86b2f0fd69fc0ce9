/** The Go half of the read symbol (pkg/sdk/symbols/read/read.go): it calls
    the instance's sdk.Reader, reports the byte count as a uint32 and maps
    the error onto a plugin result code. The Reader is user code: its
    answer to one call is the parameter `reply`, and a reader across calls
    is a state-passing function. */
module ReadGo {
  import opened SdkTypes
  import opened Handles
  import opened GoObjects

  /** The result code for the error a Reader returned
      (pkg/sdk/symbols/read/read.go:47-58). */
  function ReadCode(err: Option<GoError>): (rc: int)
    ensures rc == SSPluginSuccess <==> err.None?
    ensures rc == SSPluginEOF <==> err == Some(IoEOF) || err == Some(ErrEOF)
    ensures rc == SSPluginTimeout <==> err == Some(ErrTimeout)
    ensures rc == SSPluginFailure <==> err.Some? && err.value !in {IoEOF, ErrEOF, ErrTimeout}
  {
    match err
    case None => SSPluginSuccess
    case Some(e) =>
      if e == IoEOF || e == ErrEOF then SSPluginEOF
      else if e == ErrTimeout then SSPluginTimeout
      else SSPluginFailure
  }

  /** One call of a Reader: the bytes it put at the front of the slice and
      the error, plus the reader's state afterwards. */
  datatype ReadReply<S> = ReadReply(next: S, data: seq<byte>, err: Option<GoError>)

  /** An io.Reader never reports more bytes than the slice holds. */
  ghost predicate WellBehaved<S(!new)>(read: (S, nat) -> ReadReply<S>)
  {
    forall s, len :: |read(s, len).data| <= len
  }

  /** The observable outcome of `_plugin_read_go` for one reply: the code,
      *nread, and the reader's next state. */
  datatype GoOutcome<S> = GoOutcome(rc: int, data: seq<byte>, next: S)

  /** _plugin_read_go as a function of the reader (read.go:44-59). */
  function GoRead<S>(read: (S, nat) -> ReadReply<S>, s: S, len: nat): (o: GoOutcome<S>)
  {
    var r := read(s, len);
    GoOutcome(ReadCode(r.err), r.data, r.next)
  }

  /** _plugin_read_go (pkg/sdk/symbols/read/read.go:44-59) over the handle
      table. `panicked` is set by an invalid handle, an instance value that
      is not an sdk.Reader, and a failure whose plugin state is not an
      sdk.LastError. `n` and `err` are what the instance's Read returned. */
  method PluginReadGo(table: HandleTable<GoObject?>, pState: nat, iState: nat, n: int, err: Option<GoError>)
    returns (rc: int, nread: int, panicked: bool)
    requires table.Valid() && 0 <= n
    modifies (if table.Value(pState).Some? then {table.Value(pState).value} else {})`lastErr
    ensures var inst := table.Value(iState);
      var called := inst.Some? && inst.value != null && Reader in inst.value.caps && table.Value(pState).Some?;
      && (!called ==> panicked && nread == 0)
      && (called ==> nread == n % Pow32)
      && (called && !panicked ==> rc == ReadCode(err))
      && (called ==> (panicked <==>
            ReadCode(err) == SSPluginFailure &&
            (table.Value(pState).value == null || LastError !in table.Value(pState).value.caps)))
    ensures var ps := table.Value(pState);
      ps.Some? && ps.value != null ==>
        ps.value.lastErr == if !panicked && rc == SSPluginFailure then err else old(ps.value.lastErr)
  {
    nread := 0;
    rc := 0;
    var inst := table.Value(iState);
    if inst.None? || inst.value == null || Reader !in inst.value.caps {
      return rc, nread, true;
    }
    var ps := table.Value(pState);
    if ps.None? {
      return rc, nread, true;
    }
    nread := n % Pow32;
    rc := ReadCode(err);
    panicked := false;
    if rc == SSPluginFailure {
      var ok := SetLastError(ps.value, err.value);
      panicked := !ok;
    }
  }
}
