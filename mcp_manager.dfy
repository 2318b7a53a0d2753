/** `MCPManager`: normalises an MCP source (a dict, or the path of a YAML
    file holding one) into a map from server name to a typed record.
    The whole call fails, with nothing returned, as soon as one entry is
    rejected; entries are visited in the dict's insertion order, so the
    error reported is that of the first rejected entry. */
module McpManager {
  import opened Wrappers
  import opened McpModels

  /** One entry of the source dict: a mapping of fields, or another value. */
  datatype RawEntry = Mapping(fields: Fields) | NotMapping

  /** A Python dict, as its items in insertion order. */
  type Entries = seq<(string, RawEntry)>

  /** What the manager's `mcp` attribute can hold: what the caller passed,
      or, after loading, whatever the YAML file contained. */
  datatype McpSource =
    | NoSource                     // None
    | Inline(entries: Entries)     // a dict
    | PathText(path: string)       // a str naming a YAML file
    | PathObject(path: string)     // a pathlib.Path
    | NonDictValue(truthy: bool)   // a list, a scalar or None read from YAML

  /** Python truthiness of the source: an empty dict or an empty string is
      false, a Path object is always true. */
  predicate Truthy(src: McpSource) {
    match src
    case NoSource => false
    case Inline(es) => es != []
    case PathText(p) => p != ""
    case PathObject(_) => true
    case NonDictValue(t) => t
  }

  datatype McpRecord = Stdio(stdio: StdioMcp) | Http(http: StreamableHttpMcp)

  /** The record carries the tag it was dispatched on. */
  predicate Tagged(r: McpRecord) {
    match r
    case Stdio(s) => s.transport == StdioTag
    case Http(h) => h.transport == StreamableHttpTag
  }

  /** Why `config_mcp` failed; every cause surfaces as a RuntimeError. */
  datatype ConfigError =
    | LoadFailed(reason: string)
    | NotAMapping
    | EntryNotMapping(name: string)
    | MissingTransport(name: string)
    | UnsupportedTransport(name: string, tag: RawValue)
    | InvalidRecord(name: string)

  /** `load_yaml_file`, which may fail (missing file, bad YAML). */
  type Loader = string -> Result<McpSource, string>

  /** One loop iteration: dispatch on the `transport` tag and construct. */
  function BuildRecord(name: string, entry: RawEntry): (r: Result<McpRecord, ConfigError>)
    ensures entry.NotMapping? ==> r == Err(EntryNotMapping(name))
    ensures entry.Mapping? && "transport" !in entry.fields ==> r == Err(MissingTransport(name))
    ensures entry.Mapping? && "transport" in entry.fields && entry.fields["transport"] == Str(StdioTag) ==>
              r == (if ValidateStdio(entry.fields).Some? then Ok(Stdio(ValidateStdio(entry.fields).value))
                    else Err(InvalidRecord(name)))
    ensures entry.Mapping? && "transport" in entry.fields && entry.fields["transport"] == Str(StreamableHttpTag) ==>
              r == (if ValidateHttp(entry.fields).Some? then Ok(Http(ValidateHttp(entry.fields).value))
                    else Err(InvalidRecord(name)))
    ensures r.Ok? ==> Tagged(r.value)
    ensures r.Ok? ==> entry.Mapping? && "transport" in entry.fields
    ensures r.Ok? ==> (r.value.Stdio? <==> entry.fields["transport"] == Str(StdioTag))
    ensures r.Ok? ==> (r.value.Http? <==> entry.fields["transport"] == Str(StreamableHttpTag))
    ensures entry.Mapping? && "transport" in entry.fields
            && entry.fields["transport"] != Str(StdioTag)
            && entry.fields["transport"] != Str(StreamableHttpTag)
            ==> r == Err(UnsupportedTransport(name, entry.fields["transport"]))
  {
    match entry
    case NotMapping => Err(EntryNotMapping(name))
    case Mapping(f) =>
      if "transport" !in f then Err(MissingTransport(name))
      else if f["transport"] == Str(StdioTag) then
        match ValidateStdio(f)
        case Some(s) => Ok(Stdio(s))
        case None => Err(InvalidRecord(name))
      else if f["transport"] == Str(StreamableHttpTag) then
        match ValidateHttp(f)
        case Some(h) => Ok(Http(h))
        case None => Err(InvalidRecord(name))
      else
        Err(UnsupportedTransport(name, f["transport"]))
  }

  /** The loop over the dict's items, as a function of the items. */
  function Configure(es: Entries): Result<map<string, McpRecord>, ConfigError>
    decreases |es|
  {
    if es == [] then Ok(map[])
    else
      match Configure(es[..|es| - 1])
      case Err(e) => Err(e)
      case Ok(m) =>
        match BuildRecord(es[|es| - 1].0, es[|es| - 1].1)
        case Err(e) => Err(e)
        case Ok(r) => Ok(m[es[|es| - 1].0 := r])
  }

  /** The names of a dict's entries. */
  ghost function Names(es: Entries): set<string> {
    set i | 0 <= i < |es| :: es[i].0
  }

  /** Dict keys are unique. */
  ghost predicate DistinctNames(es: Entries) {
    forall i, j :: 0 <= i < j < |es| ==> es[i].0 != es[j].0
  }

  /** Turn a path into whatever the YAML file holds; other sources pass. */
  function Resolve(src: McpSource, load: Loader): Result<McpSource, ConfigError> {
    match src
    case PathText(p) => (match load(p) case Ok(d) => Ok(d) case Err(e) => Err(LoadFailed(e)))
    case PathObject(p) => (match load(p) case Ok(d) => Ok(d) case Err(e) => Err(LoadFailed(e)))
    case _ => Ok(src)
  }

  /** The result of `config_mcp` for a given starting `mcp`. */
  function ConfigureSource(src: McpSource, load: Loader): Result<map<string, McpRecord>, ConfigError> {
    if !Truthy(src) then Ok(map[])
    else
      match Resolve(src, load)
      case Err(e) => Err(e)
      case Ok(Inline(es)) => Configure(es)
      case Ok(_) => Err(NotAMapping)
  }

  /** The `mcp` attribute after `config_mcp`: a path whose file loaded is
      replaced by the file's contents; anything else is left as it was. */
  function SourceAfter(src: McpSource, load: Loader): McpSource {
    if Truthy(src) && Resolve(src, load).Ok? then Resolve(src, load).value else src
  }

  class Manager {
    var mcp: McpSource

    constructor (mcp: McpSource)
      ensures this.mcp == mcp
    {
      this.mcp := mcp;
    }

    /** `config_mcp`. */
    method ConfigMcp(load: Loader) returns (r: Result<map<string, McpRecord>, ConfigError>)
      modifies this
      ensures r == ConfigureSource(old(mcp), load)
      ensures mcp == SourceAfter(old(mcp), load)
    {
      if !Truthy(mcp) {
        return Ok(map[]);
      }
      if mcp.PathText? || mcp.PathObject? {
        var loaded := load(mcp.path);
        if loaded.Err? {
          return Err(LoadFailed(loaded.error));
        }
        mcp := loaded.value;
      }
      if !mcp.Inline? {
        return Err(NotAMapping);
      }
      var entries := mcp.entries;
      assert mcp == SourceAfter(old(mcp), load) && ConfigureSource(old(mcp), load) == Configure(entries);
      var built: map<string, McpRecord> := map[];
      var i := 0;
      while i < |entries|
        invariant 0 <= i <= |entries|
        invariant Configure(entries[..i]) == Ok(built)
        invariant mcp == SourceAfter(old(mcp), load) && ConfigureSource(old(mcp), load) == Configure(entries)
      {
        var (name, entry) := entries[i];
        var record := BuildRecord(name, entry);
        ConfigureSnoc(entries, i, built);
        if record.Err? {
          ConfigureErrorSticks(entries, i + 1);
          return Err(record.error);
        }
        built := built[name := record.value];
        i := i + 1;
      }
      assert entries[..i] == entries;
      return Ok(built);
    }
  }

  /** Once a prefix of the items has failed, the whole call fails with the
      same error: later entries are never looked at. */
  lemma {:induction false} ConfigureErrorSticks(es: Entries, k: nat)
    requires k <= |es| && Configure(es[..k]).Err?
    ensures Configure(es) == Configure(es[..k])
    decreases |es| - k
  {
    if k < |es| {
      assert es[..k + 1][..k] == es[..k];
      ConfigureErrorSticks(es, k + 1);
    } else {
      assert es[..k] == es;
    }
  }

  /** One more item: the prefix grows by the entry's record, or fails
      with the entry's error. */
  lemma ConfigureSnoc(es: Entries, i: nat, built: map<string, McpRecord>)
    requires i < |es| && Configure(es[..i]) == Ok(built)
    ensures Configure(es[..i + 1]) ==
              match BuildRecord(es[i].0, es[i].1)
              case Ok(r) => Ok(built[es[i].0 := r])
              case Err(e) => Err(e)
  {
    var p := es[..i + 1];
    assert p[..|p| - 1] == es[..i] && p[|p| - 1] == es[i];
  }

  lemma NamesSnoc(es: Entries)
    requires es != []
    ensures Names(es) == Names(es[..|es| - 1]) + {es[|es| - 1].0}
  {
    var init := es[..|es| - 1];
    forall x | x in Names(es) ensures x in Names(init) + {es[|es| - 1].0} {
      var i :| 0 <= i < |es| && es[i].0 == x;
      if i < |es| - 1 { assert init[i] == es[i]; }
    }
    forall x | x in Names(init) ensures x in Names(es) {
      var i :| 0 <= i < |init| && init[i].0 == x;
      assert es[i] == init[i];
    }
  }

  /** On success the result has exactly the input's names as keys. */
  lemma {:induction false} ConfigureKeys(es: Entries)
    requires Configure(es).Ok?
    ensures Configure(es).value.Keys == Names(es)
    decreases |es|
  {
    if es != [] {
      ConfigureKeys(es[..|es| - 1]);
      NamesSnoc(es);
    }
  }

  /** On success every record carries the tag it was dispatched on. */
  lemma {:induction false} ConfigureTagged(es: Entries)
    requires Configure(es).Ok?
    ensures forall n :: n in Configure(es).value ==> Tagged(Configure(es).value[n])
    decreases |es|
  {
    if es != [] {
      ConfigureTagged(es[..|es| - 1]);
    }
  }

  /** All or nothing: the call succeeds exactly when every entry builds. */
  lemma {:induction false} ConfigureOkIff(es: Entries)
    ensures Configure(es).Ok? <==> forall i :: 0 <= i < |es| ==> BuildRecord(es[i].0, es[i].1).Ok?
    decreases |es|
  {
    if es != [] {
      var init := es[..|es| - 1];
      ConfigureOkIff(init);
      assert forall i :: 0 <= i < |init| ==> init[i] == es[i];
    }
  }

  /** A failure reports the first entry, in insertion order, that did not build. */
  lemma {:induction false} ConfigureFirstError(es: Entries)
    requires Configure(es).Err?
    ensures exists i :: 0 <= i < |es|
                        && BuildRecord(es[i].0, es[i].1) == Err(Configure(es).error)
                        && forall j :: 0 <= j < i ==> BuildRecord(es[j].0, es[j].1).Ok?
    decreases |es|
  {
    var init := es[..|es| - 1];
    assert forall i :: 0 <= i < |init| ==> init[i] == es[i];
    if Configure(init).Err? {
      ConfigureFirstError(init);
      var i :| 0 <= i < |init|
               && BuildRecord(init[i].0, init[i].1) == Err(Configure(init).error)
               && forall j :: 0 <= j < i ==> BuildRecord(init[j].0, init[j].1).Ok?;
      assert BuildRecord(es[i].0, es[i].1) == Err(Configure(es).error);
    } else {
      ConfigureOkIff(init);
      assert BuildRecord(es[|es| - 1].0, es[|es| - 1].1) == Err(Configure(es).error);
    }
  }

  /** On success each name maps to the record built from its own entry. */
  lemma {:induction false} ConfigureRecords(es: Entries)
    requires DistinctNames(es) && Configure(es).Ok?
    ensures forall i :: 0 <= i < |es| ==>
              && es[i].0 in Configure(es).value
              && BuildRecord(es[i].0, es[i].1) == Ok(Configure(es).value[es[i].0])
    decreases |es|
  {
    if es != [] {
      var init := es[..|es| - 1];
      assert forall i :: 0 <= i < |init| ==> init[i] == es[i];
      ConfigureRecords(init);
    }
  }

  /** `config_mcp` end to end: a falsy source gives an empty map without
      loading; a path whose file cannot be loaded fails with LoadFailed;
      a success has the resolved dict's names as keys, each record tagged. */
  lemma ConfigureSourceOutcome(src: McpSource, load: Loader)
    ensures !Truthy(src) ==> ConfigureSource(src, load) == Ok(map[])
    ensures Truthy(src) && (src.PathText? || src.PathObject?) && load(src.path).Err?
            ==> ConfigureSource(src, load) == Err(LoadFailed(load(src.path).error))
    ensures ConfigureSource(src, load).Ok? && Truthy(src) ==>
              && SourceAfter(src, load).Inline?
              && ConfigureSource(src, load).value.Keys == Names(SourceAfter(src, load).entries)
    ensures ConfigureSource(src, load).Ok? ==>
              forall n :: n in ConfigureSource(src, load).value ==> Tagged(ConfigureSource(src, load).value[n])
  {
    if Truthy(src) && ConfigureSource(src, load).Ok? {
      var es := SourceAfter(src, load).entries;
      ConfigureKeys(es);
      ConfigureTagged(es);
    }
  }
}
