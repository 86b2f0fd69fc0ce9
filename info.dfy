/** pkg/sdk/symbols/info/info.go: the plugin's identity strings kept in C
    string buffers for the framework's getters, the required API version
    check, and the JSON list of event sources an extractor accepts. The
    SDK's own required API version comes from a C header that is not part
    of this model; it is a constructor argument here. */
module Info {
  import opened SdkTypes
  import opened StringBuffers

  // ---------------------------------------------------------------------
  // strings.Split on '.' and byte-wise string order
  // ---------------------------------------------------------------------

  /** strings.Split(s, "."). */
  function Split(s: string): (parts: seq<string>)
    ensures |parts| >= 1
    decreases |s|
  {
    if |s| == 0 then [""]
    else if s[0] == '.' then [""] + Split(s[1..])
    else
      var rest := Split(s[1..]);
      [[s[0]] + rest[0]] + rest[1..]
  }

  /** strings.Join(parts, "."). */
  function Join(parts: seq<string>): string
    requires |parts| >= 1
    decreases |parts|
  {
    if |parts| == 1 then parts[0] else parts[0] + "." + Join(parts[1..])
  }

  function Dots(s: string): nat
  {
    if |s| == 0 then 0 else (if s[0] == '.' then 1 else 0) + Dots(s[1..])
  }

  /** Split and Join are inverse, no part holds a '.', and there is one
      part more than there are dots. */
  lemma SplitJoin(s: string)
    ensures Join(Split(s)) == s
    ensures |Split(s)| == Dots(s) + 1
    ensures forall i, j :: 0 <= i < |Split(s)| && 0 <= j < |Split(s)[i]| ==> Split(s)[i][j] != '.'
  {
    JoinSplit(s);
    SplitCount(s);
    SplitNoDot(s);
  }

  lemma {:induction false} JoinSplit(s: string)
    ensures Join(Split(s)) == s
    decreases |s|
  {
    if |s| > 0 {
      JoinSplit(s[1..]);
      var rest := Split(s[1..]);
      if s[0] == '.' {
        assert Split(s)[1..] == rest;
      } else if |rest| == 1 {
        assert Join(Split(s)) == [s[0]] + rest[0];
      } else {
        assert Split(s)[1..] == rest[1..];
        assert Join(rest) == rest[0] + "." + Join(rest[1..]);
      }
    }
  }

  lemma {:induction false} SplitCount(s: string)
    ensures |Split(s)| == Dots(s) + 1
    decreases |s|
  {
    if |s| > 0 {
      SplitCount(s[1..]);
    }
  }

  lemma {:induction false} SplitNoDot(s: string)
    ensures forall i, j :: 0 <= i < |Split(s)| && 0 <= j < |Split(s)[i]| ==> Split(s)[i][j] != '.'
    decreases |s|
  {
    if |s| > 0 {
      SplitNoDot(s[1..]);
      var rest := Split(s[1..]);
      if s[0] != '.' {
        forall i, j | 0 <= i < |Split(s)| && 0 <= j < |Split(s)[i]|
          ensures Split(s)[i][j] != '.'
        {
          if i == 0 && j > 0 {
            assert Split(s)[0][j] == rest[0][j - 1];
          } else if i > 0 {
            assert Split(s)[i] == rest[i];
          }
        }
      }
    }
  }

  /** Go's `<` on strings: byte-wise lexicographic order, which on code
      points agrees with the order of their UTF-8 encodings. */
  predicate Less(a: string, b: string)
    decreases |a|
  {
    if |b| == 0 then false
    else if |a| == 0 then true
    else if a[0] != b[0] then a[0] < b[0]
    else Less(a[1..], b[1..])
  }

  lemma {:induction false} LessIrreflexive(a: string)
    ensures !Less(a, a)
    decreases |a|
  {
    if |a| > 0 {
      LessIrreflexive(a[1..]);
    }
  }

  /** Version components are compared as strings, not numbers: "10"
      orders before "9". */
  lemma TenOrdersBeforeNine()
    ensures Less("10", "9") && !Less("9", "10")
  {
  }

  // ---------------------------------------------------------------------
  // Required API version
  // ---------------------------------------------------------------------

  datatype Version = Version(major: string, minor: string, patch: string)

  /** splitVersionString: None is the "Incorrect format" panic. */
  function SplitVersion(v: string): (r: Option<Version>)
    ensures r.Some? <==> Dots(v) == 2
    ensures r.Some? ==> Join([r.value.major, r.value.minor, r.value.patch]) == v
  {
    SplitJoin(v);
    var parts := Split(v);
    if |parts| != 3 then None
    else
      assert Join(parts) == Join([parts[0], parts[1], parts[2]]) by {
        assert parts == [parts[0], parts[1], parts[2]];
      }
      Some(Version(parts[0], parts[1], parts[2]))
  }

  /** The panics SetRequiredAPIVersion can raise. */
  datatype VersionPanic = IncorrectFormat | MajorMismatch | MinorTooHigh | PatchTooHigh

  /** Whether the plugin may require apiVer from an SDK that requires
      sdkVer: the empty string is always accepted; otherwise both must be
      X.Y.Z, the majors equal, the plugin's minor not above the SDK's, and
      with equal minors the plugin's patch not above the SDK's. */
  function CheckRequiredVersion(apiVer: string, sdkVer: string): (r: Option<VersionPanic>)
    ensures apiVer == "" ==> r.None?
    ensures apiVer != "" && (Dots(apiVer) != 2 || Dots(sdkVer) != 2) ==> r == Some(IncorrectFormat)
    ensures apiVer != "" && Dots(apiVer) == 2 && Dots(sdkVer) == 2 ==>
      var p := SplitVersion(apiVer).value;
      var s := SplitVersion(sdkVer).value;
      (r.None? <==>
        s.major == p.major && !Less(s.minor, p.minor) && !(s.minor == p.minor && Less(s.patch, p.patch)))
  {
    if apiVer == "" then None
    else
      match (SplitVersion(apiVer), SplitVersion(sdkVer))
      case (None, _) => Some(IncorrectFormat)
      case (_, None) => Some(IncorrectFormat)
      case (Some(p), Some(s)) =>
        if s.major != p.major then Some(MajorMismatch)
        else if Less(s.minor, p.minor) then Some(MinorTooHigh)
        else if s.minor == p.minor && Less(s.patch, p.patch) then Some(PatchTooHigh)
        else None
  }

  /** Requiring exactly the SDK's own version is accepted. */
  lemma SdkVersionAccepted(sdkVer: string)
    requires Dots(sdkVer) == 2
    ensures CheckRequiredVersion(sdkVer, sdkVer).None?
  {
    var s := SplitVersion(sdkVer).value;
    LessIrreflexive(s.minor);
    LessIrreflexive(s.patch);
  }

  /** A plugin minor of 10 passes against an SDK minor of 9, because the
      components are compared as strings. */
  lemma StringOrderAcceptsHigherMinor()
    ensures CheckRequiredVersion("3.10.0", "3.9.0").None?
  {
    SplitVersionOfLiterals();
    assert !Less("9", "10");
  }

  lemma SplitVersionOfLiterals()
    ensures SplitVersion("3.10.0") == Some(Version("3", "10", "0"))
    ensures SplitVersion("3.9.0") == Some(Version("3", "9", "0"))
  {
    assert "3.10.0" == "3" + "." + "10" + "." + "0";
    SplitVersionThree("3", "10", "0");
    assert "3.9.0" == "3" + "." + "9" + "." + "0";
    SplitVersionThree("3", "9", "0");
  }

  /** A version written a.b.c with dot-free parts splits into them. */
  lemma SplitVersionThree(a: string, b: string, c: string)
    requires DotFree(a) && DotFree(b) && DotFree(c)
    ensures SplitVersion(a + "." + b + "." + c) == Some(Version(a, b, c))
  {
    SplitThree(a, b, c);
  }

  predicate DotFree(a: string)
  {
    forall j :: 0 <= j < |a| ==> a[j] != '.'
  }

  /** Three dot-free parts joined by dots split back into those parts. */
  lemma SplitThree(a: string, b: string, c: string)
    requires DotFree(a) && DotFree(b) && DotFree(c)
    ensures Split(a + "." + b + "." + c) == [a, b, c]
  {
    assert a + "." + b + "." + c == a + "." + (b + "." + c);
    SplitAfterPart(a, b + "." + c);
    SplitAfterPart(b, c);
    SplitPart(c);
  }

  /** A dot-free part before a dot becomes the first part. */
  lemma {:induction false} SplitAfterPart(a: string, rest: string)
    requires DotFree(a)
    ensures Split(a + "." + rest) == [a] + Split(rest)
    decreases |a|
  {
    var s := a + "." + rest;
    if |a| == 0 {
      assert s[0] == '.' && s[1..] == rest;
    } else {
      assert s[0] == a[0] && s[1..] == a[1..] + "." + rest;
      SplitAfterPart(a[1..], rest);
      assert [a[0]] + a[1..] == a;
    }
  }

  /** A dot-free string is one part. */
  lemma {:induction false} SplitPart(a: string)
    requires DotFree(a)
    ensures Split(a) == [a]
    decreases |a|
  {
    if |a| > 0 {
      SplitPart(a[1..]);
      assert [a[0]] + a[1..] == a;
    }
  }

  // ---------------------------------------------------------------------
  // JSON encoding of the extract event sources
  // ---------------------------------------------------------------------

  function HexDigit(d: int): char
    requires 0 <= d < 16
  {
    if d < 10 then '0' + d as char else 'a' + (d - 10) as char
  }

  /** How encoding/json writes one character inside a string, with its
      default HTML-safe escaping (Go 1.22 and later, which write \b and \f
      for U+0008 and U+000C). */
  function EscapeChar(c: char): string
  {
    if c == '"' then "\\\""
    else if c == '\\' then "\\\\"
    else if c == '\n' then "\\n"
    else if c == '\r' then "\\r"
    else if c == '\t' then "\\t"
    else if c == '\U{0008}' then "\\b"
    else if c == '\U{000C}' then "\\f"
    else if c < ' ' || c == '<' || c == '>' || c == '&' then
      "\\u00" + [HexDigit(c as int / 16), HexDigit(c as int % 16)]
    else if c == '\U{2028}' then "\\u2028"
    else if c == '\U{2029}' then "\\u2029"
    else [c]
  }

  function Escape(s: string): string
  {
    if |s| == 0 then "" else EscapeChar(s[0]) + Escape(s[1..])
  }

  function JsonString(s: string): string
  {
    "\"" + Escape(s) + "\""
  }

  function JsonElements(xs: seq<string>): string
    requires |xs| >= 1
  {
    if |xs| == 1 then JsonString(xs[0]) else JsonString(xs[0]) + "," + JsonElements(xs[1..])
  }

  /** json.Marshal of a non-empty []string. */
  function JsonArray(xs: seq<string>): (j: string)
    requires |xs| >= 1
    ensures |j| >= 4 && j[0] == '[' && j[1] == '"' && j[|j| - 1] == ']'
  {
    var body := JsonElements(xs);
    assert body[0] == '"';
    "[" + body + "]"
  }

  /** The string SetExtractEventSources stores. */
  function SourcesText(sources: seq<string>): (t: string)
    ensures t == "[]" <==> |sources| == 0
  {
    if |sources| == 0 then "[]" else JsonArray(sources)
  }

  // ---------------------------------------------------------------------
  // The info registry
  // ---------------------------------------------------------------------

  /** The package variables of info.go. */
  class Registry {
    /** PLUGIN_API_VERSION_STR, the version the SDK itself requires. */
    const sdkRequiredVersion: string
    var pType: int
    var id: int
    const name: StringBuffer
    const description: StringBuffer
    const contact: StringBuffer
    const version: StringBuffer
    const requiredAPIVersion: StringBuffer
    const eventSource: StringBuffer
    const extractEventSources: StringBuffer

    /** The seven symbols own seven distinct buffers. */
    ghost predicate Valid()
      reads this
    {
      && name != description && name != eventSource && name != contact && name != version
      && name != requiredAPIVersion && name != extractEventSources
      && description != eventSource && description != contact && description != version
      && description != requiredAPIVersion && description != extractEventSources
      && eventSource != contact && eventSource != version && eventSource != requiredAPIVersion
      && eventSource != extractEventSources
      && contact != version && contact != requiredAPIVersion && contact != extractEventSources
      && version != requiredAPIVersion && version != extractEventSources
      && requiredAPIVersion != extractEventSources
    }

    constructor New(sdkRequiredVersion: string)
      ensures Valid()
      ensures this.sdkRequiredVersion == sdkRequiredVersion && pType == 0 && id == 0
      ensures fresh(name) && fresh(description) && fresh(contact) && fresh(version)
      ensures fresh(requiredAPIVersion) && fresh(eventSource) && fresh(extractEventSources)
      ensures name.value == "" && !name.held
      ensures description.value == "" && !description.held
      ensures contact.value == "" && !contact.held
      ensures version.value == "" && !version.held
      ensures requiredAPIVersion.value == "" && !requiredAPIVersion.held
      ensures eventSource.value == "" && !eventSource.held
      ensures extractEventSources.value == "" && !extractEventSources.held
    {
      this.sdkRequiredVersion := sdkRequiredVersion;
      pType := 0;
      id := 0;
      name := new StringBuffer.Empty();
      description := new StringBuffer.Empty();
      contact := new StringBuffer.Empty();
      version := new StringBuffer.Empty();
      requiredAPIVersion := new StringBuffer.Empty();
      eventSource := new StringBuffer.Empty();
      extractEventSources := new StringBuffer.Empty();
    }

    function PluginGetType(): int
      reads this
    {
      pType
    }

    method SetType(t: int)
      requires IsUint32(t)
      modifies this`pType
      ensures PluginGetType() == t
    {
      pType := t;
    }

    function PluginGetId(): int
      reads this
    {
      id
    }

    method SetId(id: int)
      requires IsUint32(id)
      modifies this`id
      ensures PluginGetId() == id
    {
      this.id := id;
    }

    function PluginGetName(): Option<string>
      reads name
    {
      name.CharPtr()
    }

    method SetName(s: string)
      modifies name
      ensures PluginGetName() == Some(s)
    {
      name.Write(s);
    }

    function PluginGetDescription(): Option<string>
      reads description
    {
      description.CharPtr()
    }

    method SetDescription(s: string)
      modifies description
      ensures PluginGetDescription() == Some(s)
    {
      description.Write(s);
    }

    function PluginGetContact(): Option<string>
      reads contact
    {
      contact.CharPtr()
    }

    method SetContact(s: string)
      modifies contact
      ensures PluginGetContact() == Some(s)
    {
      contact.Write(s);
    }

    function PluginGetVersion(): Option<string>
      reads version
    {
      version.CharPtr()
    }

    method SetVersion(s: string)
      modifies version
      ensures PluginGetVersion() == Some(s)
    {
      version.Write(s);
    }

    function PluginGetEventSource(): Option<string>
      reads eventSource
    {
      eventSource.CharPtr()
    }

    method SetEventSource(s: string)
      modifies eventSource
      ensures PluginGetEventSource() == Some(s)
    {
      eventSource.Write(s);
    }

    /** plugin_get_required_api_version: the SDK's version while none (or
        the empty string) was set. */
    function PluginGetRequiredApiVersion(): (r: Option<string>)
      reads requiredAPIVersion
      ensures requiredAPIVersion.value == "" ==> r == Some(sdkRequiredVersion)
      ensures requiredAPIVersion.value != "" && requiredAPIVersion.held ==>
        r == Some(requiredAPIVersion.value)
    {
      if requiredAPIVersion.value == "" then Some(sdkRequiredVersion) else requiredAPIVersion.CharPtr()
    }

    /** SetRequiredAPIVersion: panics as CheckRequiredVersion says, before
        storing anything; otherwise stores the string verbatim. */
    method SetRequiredAPIVersion(apiVer: string) returns (panicked: Option<VersionPanic>)
      modifies requiredAPIVersion
      ensures panicked == CheckRequiredVersion(apiVer, sdkRequiredVersion)
      ensures panicked.Some? ==> requiredAPIVersion.value == old(requiredAPIVersion.value) &&
                                 requiredAPIVersion.held == old(requiredAPIVersion.held)
      ensures panicked.None? ==> requiredAPIVersion.value == apiVer && requiredAPIVersion.held
      ensures panicked.None? ==>
        PluginGetRequiredApiVersion() == Some(if apiVer == "" then sdkRequiredVersion else apiVer)
    {
      if apiVer != "" {
        var plugin := SplitVersion(apiVer);
        if plugin.None? {
          return Some(IncorrectFormat);
        }
        var sdk := SplitVersion(sdkRequiredVersion);
        if sdk.None? {
          return Some(IncorrectFormat);
        }
        var p, s := plugin.value, sdk.value;
        if s.major != p.major {
          return Some(MajorMismatch);
        }
        if Less(s.minor, p.minor) {
          return Some(MinorTooHigh);
        }
        if s.minor == p.minor && Less(s.patch, p.patch) {
          return Some(PatchTooHigh);
        }
      }
      requiredAPIVersion.Write(apiVer);
      return None;
    }

    /** SetExtractEventSources: "[]" for an empty list, the JSON array
        otherwise (json.Marshal cannot fail on a []string). */
    method SetExtractEventSources(sources: seq<string>)
      modifies extractEventSources
      ensures extractEventSources.value == SourcesText(sources) && extractEventSources.held
    {
      if |sources| == 0 {
        extractEventSources.Write("[]");
      } else {
        extractEventSources.Write(JsonArray(sources));
      }
    }

    /** plugin_get_extract_event_sources: stores "[]" first when nothing
        was set, so it never answers a nil pointer. */
    method PluginGetExtractEventSources() returns (r: Option<string>)
      modifies extractEventSources
      ensures old(extractEventSources.value) == "" ==> r == Some("[]")
      ensures old(extractEventSources.value) != "" && old(extractEventSources.held) ==>
        r == Some(old(extractEventSources.value))
    {
      if extractEventSources.value == "" {
        extractEventSources.Write("[]");
      }
      r := extractEventSources.CharPtr();
    }
  }

  /** The getter answers "[]" after a set exactly when the list set was
      empty, and "[]" when nothing was set. */
  method ExtractSourcesRoundTrip(sdkVer: string, sources: seq<string>) returns (before: Option<string>, after: Option<string>)
    ensures before == Some("[]")
    ensures after == Some(SourcesText(sources))
    ensures after == Some("[]") <==> |sources| == 0
  {
    var info := new Registry.New(sdkVer);
    before := info.PluginGetExtractEventSources();
    info.SetExtractEventSources(sources);
    after := info.PluginGetExtractEventSources();
  }
}
