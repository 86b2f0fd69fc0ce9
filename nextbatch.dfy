/** The next_batch symbol (pkg/sdk/symbols/nextbatch/nextbatch.go): it
    asks the instance for a batch, preferring sdk.NextBatcher over
    sdk.Nexter, and maps the outcome onto a result code and the two
    out-parameters. What the user's NextBatch or Next returns is a
    parameter: `batch` for NextBatch, `nextErr` for Next. */
module NextBatch {
  import opened SdkTypes
  import opened Handles
  import opened GoObjects
  import PkgEvent
  import ReadGo

  /** The result code of next_batch (nextbatch.go:61-73). Unlike the read
      symbol, io.EOF is not recognised here and counts as a failure. */
  function BatchCode(err: Option<GoError>): (rc: int)
    ensures rc == SSPluginSuccess <==> err.None?
    ensures rc == SSPluginEOF <==> err == Some(ErrEOF)
    ensures rc == SSPluginTimeout <==> err == Some(ErrTimeout)
    ensures rc == SSPluginFailure <==> err.Some? && err.value != ErrEOF && err.value != ErrTimeout
  {
    match err
    case None => SSPluginSuccess
    case Some(e) =>
      if e == ErrEOF then SSPluginEOF
      else if e == ErrTimeout then SSPluginTimeout
      else SSPluginFailure
  }

  /** The two mappings agree except on io.EOF. */
  lemma BatchCodeVersusReadCode(err: Option<GoError>)
    ensures BatchCode(err) == ReadGo.ReadCode(err) <==> err != Some(IoEOF)
  {
  }

  /** The count and error of the batch (nextbatch.go:49-57): NextBatch's
      answer when the instance has it, otherwise one event exactly when
      Next succeeded. */
  function Dispatch(caps: set<Capability>, batch: (int, Option<GoError>), nextErr: Option<GoError>): (r: (int, Option<GoError>))
    ensures NextBatcher in caps ==> r == batch
    ensures NextBatcher !in caps ==> r.1 == nextErr && (r.0 == 1 <==> nextErr.None?) && (r.0 == 0 <==> nextErr.Some?)
  {
    if NextBatcher in caps then batch
    else (if nextErr.None? then 1 else 0, nextErr)
  }

  /** Whether the call reaches the user's NextBatch or Next without a
      runtime panic: the instance must be an sdk.Events and, without
      NextBatch, an sdk.Nexter; the plugin-state handle must be valid and
      hold a non-nil value, since it is asserted to sdk.PluginState. */
  predicate Reaches(inst: Option<GoObject?>, ps: Option<GoObject?>)
  {
    && inst.Some? && inst.value != null && Events in inst.value.caps
    && (NextBatcher in inst.value.caps || Nexter in inst.value.caps)
    && ps.Some? && ps.value != null
  }

  /** plugin_next_batch (nextbatch.go:42-74). `retEvts` is the batch whose
      array is handed back, None for NULL. */
  method PluginNextBatch(table: HandleTable<GoObject?>, pState: nat, iState: nat,
                         batch: (int, Option<GoError>), nextErr: Option<GoError>)
    returns (rc: int, nevts: int, retEvts: Option<PkgEvent.EventWriters>, panicked: bool)
    requires table.Valid()
    modifies (if table.Value(pState).Some? then {table.Value(pState).value} else {})`lastErr
    ensures var inst := table.Value(iState);
      var ps := table.Value(pState);
      && (!Reaches(inst, ps) || inst.value.events.None? ==> panicked)
      && (Reaches(inst, ps) && inst.value.events.Some? ==>
            var (n, err) := Dispatch(inst.value.caps, batch, nextErr);
            && (panicked <==> BatchCode(err) == SSPluginFailure && LastError !in ps.value.caps)
            && (!panicked ==> rc == BatchCode(err))
            && (!panicked && rc != SSPluginFailure ==> nevts == n % Pow32 && retEvts == inst.value.events)
            && (!panicked && rc == SSPluginFailure ==> nevts == 0 && retEvts.None?)
            && ps.value.lastErr == (if rc == SSPluginFailure && !panicked then err else old(ps.value.lastErr)))
    ensures var ps := table.Value(pState);
      panicked && ps.Some? && ps.value != null ==> ps.value.lastErr == old(ps.value.lastErr)
  {
    rc, nevts, retEvts := 0, 0, None;
    var inst := table.Value(iState);
    if inst.None? || inst.value == null || Events !in inst.value.caps {
      return rc, nevts, retEvts, true;
    }
    var events := inst.value.events;
    var ps := table.Value(pState);
    if ps.None? || ps.value == null || (NextBatcher !in inst.value.caps && Nexter !in inst.value.caps) {
      return rc, nevts, retEvts, true;
    }
    if events.None? {
      // Get(0) or ArrayPtr() on a nil sdk.EventWriters
      return rc, nevts, retEvts, true;
    }
    var (n, err) := Dispatch(inst.value.caps, batch, nextErr);
    nevts := n % Pow32;
    retEvts := events;
    rc := BatchCode(err);
    panicked := false;
    if rc == SSPluginFailure {
      nevts := 0;
      retEvts := None;
      var ok := SetLastError(ps.value, err.value);
      panicked := !ok;
    }
  }
}
