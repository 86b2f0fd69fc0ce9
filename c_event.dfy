/** The C record `ss_plugin_event` shared by the plugin framework and the
    Go side: an event number, a data pointer, the data length and a
    timestamp. Both event lists (sdk.go and pkg/sdk/event.go) fill it. */
module CEvent {
  import opened SdkTypes

  class SsPluginEvent {
    var evtnum: int
    /** The malloc'ed payload buffer `data` points to. */
    const data: array<byte>
    /** uint32_t datalen */
    var datalen: int
    /** uint64_t ts */
    var ts: int

    ghost predicate Valid()
      reads this
    {
      IsUint32(datalen) && IsUint64(ts) && IsUint64(evtnum)
    }

    /** The initialisation both newPluginEvent and newEventWriter perform
        on a malloc'ed record: timestamp MaxUint64, no data. Neither writes
        evtnum, so it holds whatever 64-bit value the allocation left. */
    constructor Init(data: array<byte>)
      ensures Valid() && this.data == data
      ensures datalen == 0 && ts == MaxUint64
    {
      this.data := data;
      datalen := 0;
      ts := MaxUint64;
      var leftover: int :| IsUint64(leftover);
      evtnum := leftover;
    }
  }
}
