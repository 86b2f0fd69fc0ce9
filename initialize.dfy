/** pkg/sdk/symbols/initialize/initialize.go: plugin_init runs the
    registered init callback and always hands the framework a handle to a
    plugin state; plugin_destroy tears that state down. The callback is
    user code: what it answers is a parameter of PluginInit. */
module Initialize {
  import opened SdkTypes
  import opened Handles
  import opened GoObjects
  import ExtractPool

  /** The value of the package variable onInitFn. */
  datatype InitFn =
    | DefaultInit              // the package default: a fresh baseInit, no error
    | UserInit(id: nat)        // a user function, told apart by id; its answer is a parameter
    | PluginSelf(p: GoObject)  // the closure extractor.Register installs: p with p.Init's error

  /** The error the callback answers with, given the user's answer. */
  function InitError(fn: InitFn, replyErr: Option<GoError>): (e: Option<GoError>)
    ensures fn.DefaultInit? ==> e.None?
    ensures !fn.DefaultInit? ==> e == replyErr
  {
    if fn.DefaultInit? then None else replyErr
  }

  /** What PluginInit may change in the state the callback returned. */
  function InitTarget(fn: InitFn, replyState: GoObject?): set<GoObject>
  {
    match fn
    case DefaultInit => {}
    case UserInit(_) => if replyState != null then {replyState} else {}
    case PluginSelf(p) => {p}
  }

  class InitSymbols {
    var onInit: InitFn

    constructor ()
      ensures onInit == DefaultInit
    {
      onInit := DefaultInit;
    }

    /** SetOnInit: a nil function (None) panics and changes nothing. */
    method SetOnInit(fn: Option<InitFn>) returns (panicked: bool)
      modifies this`onInit
      ensures panicked <==> fn.None?
      ensures panicked ==> onInit == old(onInit)
      ensures !panicked ==> onInit == fn.value
    {
      if fn.None? {
        return true;
      }
      onInit := fn.value;
      return false;
    }

    /** plugin_init. On a callback error the handle holds a fresh baseInit
        carrying that error and rc is FAILURE; otherwise it holds exactly
        the returned state (nil included), which receives a new extract
        request pool when it has the interface and no pool yet. A handle
        is requested in both cases. */
    method PluginInit(table: HandleTable<GoObject?>, config: string, replyState: GoObject?, replyErr: Option<GoError>)
      returns (h: NewHandleResult, rc: int, state: GoObject?)
      requires table.Valid()
      modifies table.slots, InitTarget(onInit, replyState)`pool
      ensures table.Valid()
      ensures (h, table.slots[..]) == Register(old(table.slots[..]), state)
      ensures h.Issued? ==> table.Value(h.h) == Some(state)
      ensures var err := InitError(onInit, replyErr);
        && (rc == SSPluginFailure <==> err.Some?)
        && (rc == SSPluginSuccess <==> err.None?)
        && (err.Some? ==> state != null && fresh(state) && state.caps == BaseInitCaps && state.lastErr == err)
        && (err.None? && onInit.UserInit? ==> state == replyState)
        && (err.None? && onInit.PluginSelf? ==> state == onInit.p)
        && (onInit.DefaultInit? ==> state != null && fresh(state) && state.caps == BaseInitCaps && state.lastErr.None?)
      ensures forall o :: o in InitTarget(onInit, replyState) ==>
        if InitError(onInit, replyErr).None? && o == state && ExtractRequests in o.caps && old(o.pool).None?
        then o.pool.Some? && fresh(o.pool.value) && o.pool.value.Valid() && o.pool.value.reqs == map[]
        else o.pool == old(o.pool)
    {
      var err: Option<GoError>;
      if onInit.DefaultInit? {
        state := new GoObject.New(BaseInitCaps);
        err := None;
      } else if onInit.UserInit? {
        state, err := replyState, replyErr;
      } else {
        state, err := onInit.p, replyErr;
      }
      if err.Some? {
        state := new GoObject.New(BaseInitCaps);
        state.lastErr := err;
        rc := SSPluginFailure;
      } else {
        if state != null && ExtractRequests in state.caps && state.pool.None? {
          var pool := new ExtractPool.ExtractRequestPool.New();
          state.pool := Some(pool);
        }
        rc := SSPluginSuccess;
      }
      var probes;
      h, probes := table.NewHandle(state);
      if h.Issued? {
        ValueOfNewHandle(old(table.slots[..]), state);
      }
    }
  }

  /** The value behind a handle, when there is a non-nil one. */
  function Target(table: HandleTable<GoObject?>, h: nat): (o: GoObject?)
    requires table.Valid()
    reads table, table.slots
    ensures o != null ==> table.Value(h) == Some(o)
  {
    if h != 0 && table.Value(h).Some? then table.Value(h).value else null
  }

  /** What plugin_destroy may change through the state behind h. */
  ghost function DestroyFootprint(table: HandleTable<GoObject?>, h: nat): set<object>
    requires table.Valid()
    reads table, table.slots, if Target(table, h) != null then {Target(table, h)} else {},
      if Target(table, h) != null && Target(table, h).pool.Some? then {Target(table, h).pool.value} else {}
  {
    var o := Target(table, h);
    if o == null then {} else o.Footprint()
  }

  /** The teardown plugin_destroy applies to a non-nil state: Destroy
      when implemented, then the pool and the three string buffers when
      their interfaces are implemented; a nil ExtractRequests() panics
      before the buffers are freed. */
  method Teardown(o: GoObject) returns (panicked: bool)
    requires o.Valid()
    modifies o.Footprint()
    ensures o.pool == old(o.pool)
    ensures o.destroyCalls == old(o.destroyCalls) + (if Destroyer in o.caps then 1 else 0)
    ensures panicked <==> ExtractRequests in o.caps && o.pool.None?
    ensures !panicked && ExtractRequests in o.caps ==>
      forall k :: k in o.pool.value.reqs ==> o.pool.value.reqs[k].strBuf.value == ""
    ensures !panicked && LastErrorBuffer in o.caps ==> o.lastErrBuf.value == "" && !o.lastErrBuf.held
    ensures !panicked && StringerBuffer in o.caps ==> o.stringerBuf.value == "" && !o.stringerBuf.held
    ensures !panicked && ProgressBuffer in o.caps ==> o.progressBuf.value == "" && !o.progressBuf.held
  {
    if Destroyer in o.caps {
      o.destroyCalls := o.destroyCalls + 1;
    }
    if ExtractRequests in o.caps {
      if o.pool.None? {
        return true;
      }
      o.pool.value.Free();
    }
    FreeBuffers(o);
    return false;
  }

  /** The three string buffers of a state are freed when their interfaces
      are implemented; a buffer shared with the request pool is left empty
      or as it was. */
  method FreeBuffers(o: GoObject)
    modifies o.lastErrBuf, o.stringerBuf, o.progressBuf
    ensures LastErrorBuffer in o.caps ==> o.lastErrBuf.value == "" && !o.lastErrBuf.held
    ensures StringerBuffer in o.caps ==> o.stringerBuf.value == "" && !o.stringerBuf.held
    ensures ProgressBuffer in o.caps ==> o.progressBuf.value == "" && !o.progressBuf.held
    ensures forall b :: b in {o.lastErrBuf, o.stringerBuf, o.progressBuf} ==> b.value == "" || b.value == old(b.value)
  {
    if LastErrorBuffer in o.caps {
      o.lastErrBuf.Free();
    }
    if StringerBuffer in o.caps {
      o.stringerBuf.Free();
    }
    if ProgressBuffer in o.caps {
      o.progressBuf.Free();
    }
  }

  /** plugin_destroy. Handle 0 is ignored; otherwise the state behind the
      handle is torn down and the handle deleted. `panicked` covers a
      handle with no value and a torn-down state that panicked. */
  method PluginDestroy(table: HandleTable<GoObject?>, pState: nat) returns (panicked: bool, ghost o: GoObject?)
    requires table.Valid()
    requires Target(table, pState) != null ==> Target(table, pState).Valid()
    modifies table.slots, DestroyFootprint(table, pState)
    ensures table.Valid()
    ensures o == old(Target(table, pState))
    ensures pState == 0 ==> !panicked && table.slots[..] == old(table.slots[..])
    ensures pState != 0 && old(table.Value(pState)).None? ==>
      panicked && table.slots[..] == old(table.slots[..])
    ensures o == null && pState != 0 && old(table.Value(pState)).Some? ==>
      !panicked && table.slots[..] == Revoke(old(table.slots[..]), pState).value
    ensures o != null ==>
      && o.destroyCalls == old(o.destroyCalls) + (if Destroyer in o.caps then 1 else 0)
      && (panicked <==> ExtractRequests in o.caps && o.pool.None?)
      && (panicked ==> table.slots[..] == old(table.slots[..]))
      && (!panicked ==> table.slots[..] == Revoke(old(table.slots[..]), pState).value)
    ensures o != null && !panicked ==>
      && (ExtractRequests in o.caps ==>
            forall k :: k in o.pool.value.reqs ==> o.pool.value.reqs[k].strBuf.value == "")
      && (LastErrorBuffer in o.caps ==> o.lastErrBuf.value == "" && !o.lastErrBuf.held)
      && (StringerBuffer in o.caps ==> o.stringerBuf.value == "" && !o.stringerBuf.held)
      && (ProgressBuffer in o.caps ==> o.progressBuf.value == "" && !o.progressBuf.held)
  {
    o := Target(table, pState);
    if pState == 0 {
      return false, o;
    }
    var v := table.Value(pState);
    if v.None? {
      return true, o;
    }
    if v.value != null {
      panicked := Teardown(v.value);
      if panicked {
        return;
      }
    }
    var ok := table.Delete(pState);
    panicked := false;
  }
}
