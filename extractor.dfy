/** pkg/sdk/plugins/extractor/extractor.go: Register, called once by an
    extractor plugin, decides the plugin type, copies the plugin's Info into
    the info symbols and installs an init callback that answers the plugin
    itself. The package variable `registered` is a field of Registration;
    the info symbols and the init symbol are passed in, since they are
    package variables of other packages. */
module Extractor {
  import opened SdkTypes
  import opened GoObjects
  import opened Handles
  import opened Info
  import opened Initialize

  /** plugins.Info as the plugin's Info() answers it. */
  datatype PluginInfo = PluginInfo(id: int, name: string, description: string, eventSource: string,
                                   contact: string, version: string, requiredAPIVersion: string,
                                   extractEventSources: seq<string>)

  /** The plugin type Register leaves behind, None for a type set earlier
      that it does not accept. A source plugin keeps its type. */
  function TypeAfterRegister(t: int): (r: Option<int>)
    ensures r.None? <==> t != 0 && t != TypeSourcePlugin && t != TypeExtractorPlugin
    ensures r.Some? ==> r.value == TypeExtractorPlugin || r.value == TypeSourcePlugin
    ensures r.Some? && t != 0 ==> r.value == t
  {
    if t == 0 then Some(TypeExtractorPlugin)
    else if t == TypeExtractorPlugin || t == TypeSourcePlugin then Some(t)
    else None
  }

  /** Why Register panicked. */
  datatype RegisterPanic = AlreadyRegistered | UnsupportedType | RequiredVersion(v: VersionPanic)

  /** The panic Register raises, if any, in the order of its checks. */
  function RegisterOutcome(registered: bool, t: int, apiVer: string, sdkVer: string): (r: Option<RegisterPanic>)
    ensures registered ==> r == Some(AlreadyRegistered)
    ensures !registered && TypeAfterRegister(t).None? ==> r == Some(UnsupportedType)
    ensures !registered && TypeAfterRegister(t).Some? ==>
      (r.None? <==> CheckRequiredVersion(apiVer, sdkVer).None?)
    ensures r.Some? && r.value.RequiredVersion? ==> Some(r.value.v) == CheckRequiredVersion(apiVer, sdkVer)
  {
    if registered then Some(AlreadyRegistered)
    else if TypeAfterRegister(t).None? then Some(UnsupportedType)
    else
      var v := CheckRequiredVersion(apiVer, sdkVer);
      if v.Some? then Some(RequiredVersion(v.value)) else None
  }

  /** The contents of the info string buffers, for stating what Register
      leaves alone. */
  ghost function Buffers(info: Registry): seq<(string, bool)>
    reads info, info.name, info.description, info.eventSource, info.contact, info.version,
      info.requiredAPIVersion, info.extractEventSources
  {
    [(info.name.value, info.name.held), (info.description.value, info.description.held),
     (info.eventSource.value, info.eventSource.held), (info.contact.value, info.contact.held),
     (info.version.value, info.version.held), (info.requiredAPIVersion.value, info.requiredAPIVersion.held),
     (info.extractEventSources.value, info.extractEventSources.held)]
  }

  /** extractor.go:52-57: the identity fields of Info go into the info
      symbols, touching neither the required API version nor the extract
      event sources. */
  method SetIdentity(info: Registry, i: PluginInfo)
    requires IsUint32(i.id) && info.Valid()
    modifies info`id, info.name, info.description, info.eventSource, info.contact, info.version
    ensures info.PluginGetId() == i.id
    ensures info.PluginGetName() == Some(i.name)
    ensures info.PluginGetDescription() == Some(i.description)
    ensures info.PluginGetEventSource() == Some(i.eventSource)
    ensures info.PluginGetContact() == Some(i.contact)
    ensures info.PluginGetVersion() == Some(i.version)
  {
    info.SetId(i.id);
    info.SetName(i.name);
    info.SetDescription(i.description);
    info.SetEventSource(i.eventSource);
    info.SetContact(i.contact);
    info.SetVersion(i.version);
  }

  class Registration {
    /** The package variable `registered`. */
    var registered: bool

    constructor ()
      ensures !registered
    {
      registered := false;
    }

    /** Register. Panics when called a second time, or when a type other
        than source or extractor was set; both before touching anything.
        Otherwise it fixes the type, writes the Info fields in order and
        may still panic in SetRequiredAPIVersion, which leaves the extract
        event sources and the init callback as they were. Only a Register
        that does not panic installs the callback and sets the flag. */
    method Register(p: GoObject, i: PluginInfo, info: Registry, init: InitSymbols) returns (panicked: Option<RegisterPanic>)
      requires IsUint32(i.id)
      requires info.Valid()
      modifies this`registered, info`pType, info`id, info.name, info.description, info.eventSource,
        info.contact, info.version, info.requiredAPIVersion, info.extractEventSources, init`onInit
      ensures panicked == RegisterOutcome(old(registered), old(info.pType), i.requiredAPIVersion, info.sdkRequiredVersion)
      ensures registered <==> old(registered) || panicked.None?
      ensures panicked == Some(AlreadyRegistered) || panicked == Some(UnsupportedType) ==>
        && info.pType == old(info.pType) && info.id == old(info.id)
        && Buffers(info) == old(Buffers(info)) && init.onInit == old(init.onInit)
      ensures panicked.None? || panicked.value.RequiredVersion? ==>
        && Some(info.PluginGetType()) == TypeAfterRegister(old(info.pType))
        && info.PluginGetId() == i.id
        && info.PluginGetName() == Some(i.name)
        && info.PluginGetDescription() == Some(i.description)
        && info.PluginGetEventSource() == Some(i.eventSource)
        && info.PluginGetContact() == Some(i.contact)
        && info.PluginGetVersion() == Some(i.version)
      ensures panicked.Some? && panicked.value.RequiredVersion? ==>
        && info.requiredAPIVersion.value == old(info.requiredAPIVersion.value)
        && info.extractEventSources.value == old(info.extractEventSources.value)
        && init.onInit == old(init.onInit)
      ensures panicked.None? ==>
        && info.PluginGetRequiredApiVersion() ==
             Some(if i.requiredAPIVersion == "" then info.sdkRequiredVersion else i.requiredAPIVersion)
        && info.extractEventSources.value == SourcesText(i.extractEventSources)
        && init.onInit == PluginSelf(p)
    {
      if registered {
        return Some(AlreadyRegistered);
      }
      var t := info.PluginGetType();
      if t == 0 {
        info.SetType(TypeExtractorPlugin);
      } else if t != TypeExtractorPlugin && t != TypeSourcePlugin {
        return Some(UnsupportedType);
      }
      SetIdentity(info, i);
      var v := info.SetRequiredAPIVersion(i.requiredAPIVersion);
      if v.Some? {
        return Some(RequiredVersion(v.value));
      }
      info.SetExtractEventSources(i.extractEventSources);
      var initPanicked := init.SetOnInit(Some(PluginSelf(p)));
      registered := true;
      return None;
    }
  }

  /** A second Register panics whatever the first did. */
  method RegisterTwice(sdkVer: string, p: GoObject, i: PluginInfo) returns (first: Option<RegisterPanic>, second: Option<RegisterPanic>)
    requires IsUint32(i.id)
    ensures first == RegisterOutcome(false, 0, i.requiredAPIVersion, sdkVer)
    ensures first.None? ==> second == Some(AlreadyRegistered)
    ensures first.Some? ==> second == first
  {
    var reg := new Registration();
    var info := new Registry.New(sdkVer);
    var init := new InitSymbols();
    first := reg.Register(p, i, info, init);
    second := reg.Register(p, i, info, init);
  }

  /** A source plugin that registered first keeps its type: the extractor
      Register neither panics on it nor overwrites it. */
  method SourceKeepsPriority(sdkVer: string, p: GoObject, i: PluginInfo) returns (panicked: Option<RegisterPanic>, t: int)
    requires IsUint32(i.id)
    ensures panicked.None? <==> CheckRequiredVersion(i.requiredAPIVersion, sdkVer).None?
    ensures panicked.Some? ==> panicked == Some(RequiredVersion(CheckRequiredVersion(i.requiredAPIVersion, sdkVer).value))
    ensures t == TypeSourcePlugin
  {
    var reg := new Registration();
    var info := new Registry.New(sdkVer);
    var init := new InitSymbols();
    info.SetType(TypeSourcePlugin);
    panicked := reg.Register(p, i, info, init);
    t := info.PluginGetType();
  }

  /** A Register on fresh package state that passes the version check
      installs the plugin itself as the init callback. */
  method RegisterFresh(sdkVer: string, p: GoObject, i: PluginInfo) returns (panicked: Option<RegisterPanic>, init: InitSymbols)
    requires IsUint32(i.id)
    requires CheckRequiredVersion(i.requiredAPIVersion, sdkVer).None?
    ensures panicked.None? && fresh(init) && init.onInit == PluginSelf(p)
  {
    var reg := new Registration();
    var info := new Registry.New(sdkVer);
    init := new InitSymbols();
    panicked := reg.Register(p, i, info, init);
  }

  /** After Register, plugin_init hands the framework the plugin itself
      when its Init succeeds, and a fresh state carrying Init's error
      otherwise. */
  method RegisterThenInit(sdkVer: string, p: GoObject, i: PluginInfo, config: string, initErr: Option<GoError>)
    returns (panicked: Option<RegisterPanic>, h: NewHandleResult, rc: int, state: GoObject?)
    requires IsUint32(i.id)
    requires CheckRequiredVersion(i.requiredAPIVersion, sdkVer).None?
    modifies p`pool
    ensures panicked.None?
    ensures h == Issued(1)
    ensures initErr.None? ==> rc == SSPluginSuccess && state == p
    ensures initErr.Some? ==> rc == SSPluginFailure && state != null && state != p && state.lastErr == initErr
  {
    var init;
    panicked, init := RegisterFresh(sdkVer, p, i);
    var table := new HandleTable<GoObject?>();
    FirstFreeIsLowest(table.slots[..], 1, 1);
    h, rc, state := init.PluginInit(table, config, null, initErr);
  }
}
