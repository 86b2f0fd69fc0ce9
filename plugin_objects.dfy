/** The Go values the lifecycle symbols keep behind handles: plugin states
    and instance states. Which optional SDK interfaces a value implements
    is fixed by its dynamic type, so it is a constant set of capabilities;
    a type assertion to an interface the value lacks is a runtime panic.
    A nil interface value is the null reference. */
module GoObjects {
  import opened SdkTypes
  import opened StringBuffers
  import PkgEvent
  import ExtractPool

  datatype Capability =
    | LastError          // sdk.LastError
    | LastErrorBuffer    // sdk.LastErrorBuffer
    | StringerBuffer     // sdk.StringerBuffer
    | ProgressBuffer     // sdk.ProgressBuffer
    | Reader             // sdk.Reader
    | Nexter             // sdk.Nexter
    | NextBatcher        // sdk.NextBatcher
    | Events             // sdk.Events
    | ExtractRequests    // sdk.ExtractRequests
    | Destroyer          // sdk.Destroyer
    | Closer             // sdk.Closer

  class GoObject {
    const caps: set<Capability>
    var lastErr: Option<GoError>
    const lastErrBuf: StringBuffer
    const stringerBuf: StringBuffer
    const progressBuf: StringBuffer
    /** Events(); None is a nil sdk.EventWriters. */
    var events: Option<PkgEvent.EventWriters>
    /** ExtractRequests(); None is a nil pool. */
    var pool: Option<ExtractPool.ExtractRequestPool>
    /** How many times the user's Destroy and Close ran. */
    var destroyCalls: nat
    var closeCalls: nat

    constructor New(caps: set<Capability>)
      ensures this.caps == caps && lastErr.None? && events.None? && pool.None?
      ensures destroyCalls == 0 && closeCalls == 0
      ensures fresh(lastErrBuf) && fresh(stringerBuf) && fresh(progressBuf)
    {
      this.caps := caps;
      lastErr := None;
      lastErrBuf := new StringBuffer.Empty();
      stringerBuf := new StringBuffer.Empty();
      progressBuf := new StringBuffer.Empty();
      events := None;
      pool := None;
      destroyCalls := 0;
      closeCalls := 0;
    }

    ghost predicate Valid()
      reads this, if pool.Some? then {pool.value} else {}
    {
      pool.Some? ==> pool.value.Valid()
    }

    /** What the teardown symbols may change through this value. */
    ghost function Footprint(): set<object>
      reads this, if pool.Some? then {pool.value} else {}
    {
      {this, lastErrBuf, stringerBuf, progressBuf}
      + (if pool.Some? then pool.value.Buffers() else {})
      + (if events.Some? then {events.value as object} else {})
    }
  }

  /** The capabilities of `baseInit` (pkg/sdk/symbols/initialize/initialize.go:29-44). */
  const BaseInitCaps: set<Capability> := {LastError, LastErrorBuffer}

  /** `v.(sdk.LastError).SetLastError(err)` on a handle's value; false is
      the panic of a nil value or one without the interface. */
  method SetLastError(o: GoObject?, err: GoError) returns (ok: bool)
    modifies (if o != null then {o} else {})`lastErr
    ensures ok <==> o != null && LastError in o.caps
    ensures ok ==> o.lastErr == Some(err)
    ensures o != null && !ok ==> o.lastErr == old(o.lastErr)
  {
    if o == null || LastError !in o.caps {
      return false;
    }
    o.lastErr := Some(err);
    return true;
  }
}
