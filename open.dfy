/** pkg/sdk/symbols/open/open.go: plugin_open runs the registered open
    callback and hands the framework a handle to the instance state, or
    records the error on the plugin state; plugin_close tears an instance
    down. The callback is user code: what it answers is a parameter of
    PluginOpen. The batch size limits come from pkg/sdk, which is not part
    of this model, so they are a parameter too. */
module Open {
  import opened SdkTypes
  import opened Handles
  import opened GoObjects
  import PkgEvent

  /** The value behind a handle, when there is a non-nil one. */
  function Target(table: HandleTable<GoObject?>, h: nat): (o: GoObject?)
    requires table.Valid()
    reads table, table.slots
    ensures o != null ==> table.Value(h) == Some(o)
    ensures o == null ==> table.Value(h).None? || table.Value(h) == Some(null)
  {
    if table.Value(h).Some? then table.Value(h).value else null
  }

  /** Whether plugin_open allocates an event batch for the instance: the
      callback succeeded and the instance implements Events with a nil
      batch. */
  predicate NeedsBatch(replyState: GoObject?, replyErr: Option<GoError>)
    reads replyState
  {
    replyErr.None? && replyState != null && Events in replyState.caps && replyState.events.None?
  }

  /** The error plugin_open reports: the callback's, else that of the batch
      allocation (which fails only for a batch size below one). */
  function OpenError(limits: PkgEvent.Limits, replyErr: Option<GoError>, needsBatch: bool): (e: Option<GoError>)
    ensures e.None? <==> replyErr.None? && !(needsBatch && limits.maxNextBatchEvents < 1)
  {
    if replyErr.Some? then replyErr
    else if needsBatch && limits.maxNextBatchEvents < 1 then Some(InvalidSize(limits.maxNextBatchEvents))
    else None
  }

  /** open.go:47-58: the callback's error, else the allocation of the
      instance's batch when it needs one, which fails only for a batch
      size below one. */
  method AllocateBatch(limits: PkgEvent.Limits, replyState: GoObject?, replyErr: Option<GoError>)
    returns (err: Option<GoError>)
    modifies (if replyState != null then {replyState} else {})`events
    ensures err == OpenError(limits, replyErr, old(NeedsBatch(replyState, replyErr)))
    ensures old(NeedsBatch(replyState, replyErr)) && limits.maxNextBatchEvents >= 1 ==>
      replyState.events.Some? &&
      var w := replyState.events.value;
      && fresh(w) && w.Valid() && !w.freed
      && w.Len() == limits.maxNextBatchEvents
      && (forall i :: 0 <= i < |w.evts| ==> w.evts[i].dataSize == limits.maxEvtSize)
    ensures replyState != null && !(old(NeedsBatch(replyState, replyErr)) && limits.maxNextBatchEvents >= 1) ==>
      replyState.events == old(replyState.events)
  {
    err := replyErr;
    if err.None? && replyState != null && Events in replyState.caps && replyState.events.None? {
      var events := PkgEvent.NewEventWriters(limits, limits.maxNextBatchEvents, limits.maxEvtSize);
      if events.Ok? {
        replyState.events := Some(events.value);
      } else {
        err := Some(events.error);
      }
    }
  }

  class OpenSymbols {
    /** onOpenFn: None until SetOnOpen; a user function told apart by id. */
    var onOpen: Option<nat>

    constructor ()
      ensures onOpen.None?
    {
      onOpen := None;
    }

    /** SetOnOpen: a nil function (None) panics and changes nothing. */
    method SetOnOpen(fn: Option<nat>) returns (panicked: bool)
      modifies this`onOpen
      ensures panicked <==> fn.None?
      ensures onOpen == if panicked then old(onOpen) else fn
    {
      if fn.None? {
        return true;
      }
      onOpen := fn;
      return false;
    }

    /** plugin_open. Panics when no callback was set. On an error the
        plugin state's last error is set (a panic when it has no
        LastError), rc is FAILURE and 0 is returned with no handle issued;
        otherwise rc is SUCCESS and a new handle (a panic when the table is
        full) holds the instance state, nil included, after a batch of maxNextBatchEvents records of
        maxEvtSize bytes was given to an instance that needed one. */
    method PluginOpen(table: HandleTable<GoObject?>, limits: PkgEvent.Limits, plgState: nat, params: string,
                      replyState: GoObject?, replyErr: Option<GoError>)
      returns (panicked: bool, r: nat, rc: int)
      requires table.Valid()
      modifies table.slots
      modifies (if Target(table, plgState) != null then {Target(table, plgState)} else {})`lastErr
      modifies (if replyState != null then {replyState} else {})`events
      ensures table.Valid()
      ensures onOpen.None? ==> panicked && table.slots[..] == old(table.slots[..])
      ensures onOpen.Some? ==>
        var err := OpenError(limits, replyErr, old(NeedsBatch(replyState, replyErr)));
        var ps := old(Target(table, plgState));
        && (err.Some? ==>
              && r == 0 && rc == SSPluginFailure && table.slots[..] == old(table.slots[..])
              && (panicked <==> ps == null || LastError !in ps.caps)
              && (!panicked ==> ps.lastErr == err))
        && (err.None? ==>
              && rc == SSPluginSuccess
              && table.slots[..] == Register(old(table.slots[..]), replyState).1
              && (panicked <==> Register(old(table.slots[..]), replyState).0.Exhausted?)
              && (!panicked ==> Register(old(table.slots[..]), replyState).0 == Issued(r)))
      ensures onOpen.Some? && old(NeedsBatch(replyState, replyErr)) && limits.maxNextBatchEvents >= 1 ==>
        replyState.events.Some? &&
        var w := replyState.events.value;
        && fresh(w) && w.Valid() && !w.freed
        && w.Len() == limits.maxNextBatchEvents
        && (forall i :: 0 <= i < |w.evts| ==> w.evts[i].dataSize == limits.maxEvtSize)
      ensures replyState != null && !(onOpen.Some? && old(NeedsBatch(replyState, replyErr))) ==>
        replyState.events == old(replyState.events)
    {
      if onOpen.None? {
        return true, 0, SSPluginFailure;
      }
      ghost var ps := Target(table, plgState);
      ghost var slots := table.slots[..];
      var err := AllocateBatch(limits, replyState, replyErr);
      assert Target(table, plgState) == ps && table.slots[..] == slots;
      panicked, r, rc := Answer(table, plgState, replyState, err);
    }
  }

  /** open.go:59-66: an error goes to the plugin state's LastError and
      yields FAILURE; otherwise the instance state gets a new handle. */
  method Answer(table: HandleTable<GoObject?>, plgState: nat, replyState: GoObject?, err: Option<GoError>)
    returns (panicked: bool, r: nat, rc: int)
    requires table.Valid()
    modifies table.slots
    modifies (if Target(table, plgState) != null then {Target(table, plgState)} else {})`lastErr
    ensures table.Valid()
    ensures var ps := old(Target(table, plgState));
      err.Some? ==>
        && r == 0 && rc == SSPluginFailure && table.slots[..] == old(table.slots[..])
        && (panicked <==> ps == null || LastError !in ps.caps)
        && (!panicked ==> ps.lastErr == err)
    ensures err.None? ==>
      && rc == SSPluginSuccess
      && table.slots[..] == Register(old(table.slots[..]), replyState).1
      && (panicked <==> Register(old(table.slots[..]), replyState).0.Exhausted?)
      && (!panicked ==> Register(old(table.slots[..]), replyState).0 == Issued(r))
  {
    if err.Some? {
      var ps := Target(table, plgState);
      var ok := SetLastError(ps, err.value);
      return !ok, 0, SSPluginFailure;
    }
    var h, probes := table.NewHandle(replyState);
    if h.Exhausted? {
      return true, 0, SSPluginSuccess;
    }
    return false, h.h, SSPluginSuccess;
  }

  /** What plugin_close may change through the instance behind h. */
  ghost function CloseFootprint(table: HandleTable<GoObject?>, h: nat): set<object>
    requires table.Valid()
    reads table, table.slots, if Target(table, h) != null then {Target(table, h)} else {}
  {
    var o := Target(table, h);
    if o == null then {}
    else {o as object} + (if o.events.Some? then {o.events.value as object} else {})
  }

  /** plugin_close. Instance handle 0 is ignored. Otherwise the user's
      Close runs when implemented, the batch is freed when the instance
      implements Events, and the handle is deleted. `panicked` covers a
      handle with no value and an Events() that is nil. */
  method PluginClose(table: HandleTable<GoObject?>, plgState: nat, iState: nat) returns (panicked: bool)
    requires table.Valid()
    modifies table.slots, CloseFootprint(table, iState)
    ensures table.Valid()
    ensures iState == 0 ==> !panicked && table.slots[..] == old(table.slots[..])
    ensures iState != 0 && old(table.Value(iState)).None? ==>
      panicked && table.slots[..] == old(table.slots[..])
    ensures iState != 0 && old(table.Value(iState)) == Some(null) ==>
      !panicked && table.slots[..] == Revoke(old(table.slots[..]), iState).value
    ensures var o := old(Target(table, iState));
      iState != 0 && o != null ==>
        && o.closeCalls == old(o.closeCalls) + (if Closer in o.caps then 1 else 0)
        && (panicked <==> Events in o.caps && o.events.None?)
        && (panicked ==> table.slots[..] == old(table.slots[..]))
        && (!panicked ==> table.slots[..] == Revoke(old(table.slots[..]), iState).value)
        && (!panicked && Events in o.caps ==> o.events.value.freed)
  {
    if iState == 0 {
      return false;
    }
    var v := table.Value(iState);
    if v.None? {
      return true;
    }
    var o := v.value;
    if o != null {
      if Closer in o.caps {
        o.closeCalls := o.closeCalls + 1;
      }
      if Events in o.caps {
        if o.events.None? {
          return true;
        }
        o.events.value.Free();
      }
    }
    var ok := table.Delete(iState);
    return false;
  }
}
