/** ExtensionState: the extension's settings as the harness reads and writes
    them through dconf. Settings hold JSON text wrapped in single quotes;
    json.loads and json.dumps are parameters of the model. */
module Settings {
  import opened Wrappers
  import opened Text

  datatype Json =
    | JNull
    | JBool(b: bool)
    | JNumber(n: int)
    | JString(s: string)
    | JArray(items: seq<Json>)
    | JObject(fields: map<string, Json>)

  const EmptyObject := JObject(map[])

  /** _read_json_setting on the text `dconf read` printed: an empty output or
      an empty quoted string is the empty object, and so is text json.loads
      rejects; otherwise the parsed value with the surrounding quotes stripped. */
  function ReadJsonSetting(output: string, loads: string -> Option<Json>): (r: Json)
    ensures output == "" || output == "''" ==> r == EmptyObject
    ensures r != EmptyObject ==> loads(Strip(output, '\'')) == Some(r)
    ensures output != "" && output != "''" && loads(Strip(output, '\'')).Some? ==>
      r == loads(Strip(output, '\'')).value
    ensures output != "" && output != "''" && loads(Strip(output, '\'')).None? ==> r == EmptyObject
  {
    if output == "" || output == "''" then EmptyObject
    else loads(Strip(output, '\'')).GetOr(EmptyObject)
  }

  /** The text set_override and remove_override hand to `dconf write`. */
  function Quoted(text: string): (q: string)
    ensures |q| == |text| + 2 && q[0] == '\'' && q[|q| - 1] == '\''
  {
    "'" + text + "'"
  }

  /** JSON text whose quoting survives the strip: non-empty and not starting
      or ending with a single quote, as every json.dumps object text is. */
  predicate Unquoted(text: string) {
    text != [] && text[0] != '\'' && text[|text| - 1] != '\''
  }

  /** A value written quoted is read back by _read_json_setting, when json.loads
      parses what json.dumps printed. */
  lemma ReadWritten(v: Json, text: string, loads: string -> Option<Json>)
    requires Unquoted(text) && loads(text) == Some(v)
    ensures ReadJsonSetting(Quoted(text), loads) == v
  {
    assert Quoted(text) == ['\''] + text + ['\''];
    StripWrapped(text, '\'');
  }

  /** get_sync_mode: the stored mode without its quotes, RESTORE when unset. */
  function GetSyncMode(output: string): (mode: string)
    ensures output == "" ==> mode == "RESTORE"
    ensures output != "" ==> mode == Strip(output, '\'') && Contains(output, mode)
  {
    if output == "" then "RESTORE" else StripContained(output, '\''); Strip(output, '\'')
  }

  /** The text set_sync_mode writes. */
  function SyncModeText(mode: string): (text: string)
    ensures |text| == |mode| + 2
  {
    Quoted(mode)
  }

  /** get_sync_mode reads back what set_sync_mode wrote, for a mode that
      neither starts nor ends with a quote (RESTORE, IGNORE). */
  lemma SyncModeRoundTrip(mode: string)
    requires Unquoted(mode)
    ensures GetSyncMode(SyncModeText(mode)) == mode
  {
    assert Quoted(mode) == ['\''] + mode + ['\''];
    StripWrapped(mode, '\'');
  }

  /** The entry set_override stores: `{"action": action, **kwargs}`. */
  function OverrideEntry(action: string, kwargs: map<string, Json>): (entry: Json)
    requires "action" !in kwargs
    ensures entry.JObject? && entry.fields.Keys == kwargs.Keys + {"action"}
    ensures entry.fields["action"] == JString(action)
    ensures forall k :: k in kwargs ==> entry.fields[k] == kwargs[k]
  {
    JObject(map["action" := JString(action)] + kwargs)
  }

  /** Python raises TypeError when the stored setting is not an object. */
  datatype OverrideError = NotAnObject(found: Json)

  /** The override map after set_override: the named app's entry replaced,
      or the TypeError of an item assignment on a value that is no dict. */
  function WithOverride(overrides: Json, wmClass: string, entry: Json): (r: Result<map<string, Json>, OverrideError>)
    ensures r.Ok? <==> overrides.JObject?
    ensures r.Ok? ==> r.value.Keys == overrides.fields.Keys + {wmClass} && r.value[wmClass] == entry
    ensures r.Ok? ==> forall k :: k in overrides.fields && k != wmClass ==> r.value[k] == overrides.fields[k]
  {
    if overrides.JObject? then Ok(overrides.fields[wmClass := entry]) else Err(NotAnObject(overrides))
  }

  /** What remove_override does with the setting it read: Ok(Some(m)) writes m,
      Ok(None) writes nothing. `wm_class in overrides` is key membership on a
      dict, element membership on a list and substring search on a string; a
      hit on a list or string makes the `del` raise TypeError, and `in` raises
      it on a number, a boolean or null. */
  function WithoutOverride(overrides: Json, wmClass: string): (r: Result<Option<map<string, Json>>, OverrideError>)
    ensures overrides.JObject? ==> r.Ok?
    ensures r.Ok? && r.value.Some? <==> overrides.JObject? && wmClass in overrides.fields
    ensures r.Ok? && r.value.Some? ==> r.value.value == overrides.fields - {wmClass}
    ensures !overrides.JObject? ==>
      (r.Ok? <==> (overrides.JArray? && JString(wmClass) !in overrides.items) ||
                  (overrides.JString? && !Contains(overrides.s, wmClass)))
    ensures !overrides.JObject? && r.Ok? ==> r.value.None?
  {
    match overrides
    case JObject(m) => Ok(if wmClass in m then Some(m - {wmClass}) else None)
    case JArray(items) => if JString(wmClass) in items then Err(NotAnObject(overrides)) else Ok(None)
    case JString(s) => if Contains(s, wmClass) then Err(NotAnObject(overrides)) else Ok(None)
    case _ => Err(NotAnObject(overrides))
  }

  /** Setting the same override twice leaves the map it was set in the first time. */
  lemma SetOverrideIdempotent(m: map<string, Json>, wmClass: string, entry: Json)
    ensures WithOverride(JObject(WithOverride(JObject(m), wmClass, entry).value), wmClass, entry) ==
            WithOverride(JObject(m), wmClass, entry)
  {
    assert m[wmClass := entry][wmClass := entry] == m[wmClass := entry];
  }

  /** Removing an app's override after setting it leaves every other app's
      override as it was before the set. */
  lemma SetThenRemove(m: map<string, Json>, wmClass: string, entry: Json)
    ensures WithoutOverride(JObject(WithOverride(JObject(m), wmClass, entry).value), wmClass) ==
            Ok(Some(m - {wmClass}))
  {
    assert m[wmClass := entry] - {wmClass} == m - {wmClass};
  }

  /** A second removal writes nothing. */
  lemma RemoveTwice(m: map<string, Json>, wmClass: string)
    requires wmClass in m
    ensures WithoutOverride(JObject(WithoutOverride(JObject(m), wmClass).value.value), wmClass) == Ok(None)
  {
  }

  const OverridesKey := "overrides"
  const SyncModeKey := "sync-mode"

  /** The dconf keys of the extension and the writes the harness issued. */
  class ExtensionState {
    /** What `dconf read` prints for each key; a key without an entry is unset. */
    var dconf: map<string, string>
    /** Every `dconf write` issued, as (key, value), in order. */
    var writes: seq<(string, string)>
    const loads: string -> Option<Json>
    const dumps: Json -> string

    constructor(initial: map<string, string>, loads: string -> Option<Json>, dumps: Json -> string)
      ensures dconf == initial && writes == []
      ensures this.loads == loads && this.dumps == dumps
    {
      dconf := initial;
      writes := [];
      this.loads := loads;
      this.dumps := dumps;
    }

    /** _dconf_read: the printed value, empty for an unset key. */
    function Read(key: string): (output: string)
      reads this
      ensures key in dconf ==> output == dconf[key]
      ensures key !in dconf ==> output == ""
    {
      if key in dconf then dconf[key] else ""
    }

    /** _dconf_write: a later read prints the value written. */
    method Write(key: string, value: string)
      modifies this
      ensures dconf == old(dconf)[key := value]
      ensures writes == old(writes) + [(key, value)]
    {
      dconf := dconf[key := value];
      writes := writes + [(key, value)];
    }

    /** get_overrides: the overrides setting decoded, the empty object when
        it is unset, empty or not JSON. */
    function GetOverrides(): (overrides: Json)
      reads this
      ensures OverridesKey !in dconf ==> overrides == EmptyObject
      ensures (OverridesKey in dconf && dconf[OverridesKey] !in {"", "''"} &&
               loads(Strip(dconf[OverridesKey], '\'')).Some?) ==>
        overrides == loads(Strip(dconf[OverridesKey], '\'')).value
      ensures overrides == ReadJsonSetting(Read(OverridesKey), loads)
    {
      ReadJsonSetting(Read(OverridesKey), loads)
    }

    /** set_override: read the overrides, store the app's entry, write the whole
      map back as quoted JSON. A keyword argument named action binds to
      the parameter, so kwargs never holds that key. */
    method SetOverride(wmClass: string, action: string := "RESTORE", kwargs: map<string, Json> := map[])
      returns (r: Result<(), OverrideError>)
      requires "action" !in kwargs
      modifies this
      ensures var updated := WithOverride(old(GetOverrides()), wmClass, OverrideEntry(action, kwargs));
        match updated
        case Err(e) => r == Err(e) && dconf == old(dconf) && writes == old(writes)
        case Ok(m) =>
          var value := Quoted(dumps(JObject(m)));
          r.Ok? && dconf == old(dconf)[OverridesKey := value] && writes == old(writes) + [(OverridesKey, value)]
      ensures r.Ok? ==> (exists m :: WithOverride(old(GetOverrides()), wmClass, OverrideEntry(action, kwargs)) == Ok(m) &&
                          (Unquoted(dumps(JObject(m))) && loads(dumps(JObject(m))) == Some(JObject(m)) ==>
                           GetOverrides() == JObject(m)))
    {
      var overrides := GetOverrides();
      var updated := WithOverride(overrides, wmClass, OverrideEntry(action, kwargs));
      if updated.Err? {
        return Err(updated.error);
      }
      var text := dumps(JObject(updated.value));
      Write(OverridesKey, Quoted(text));
      if Unquoted(text) && loads(text) == Some(JObject(updated.value)) {
        ReadWritten(JObject(updated.value), text, loads);
      }
      r := Ok(());
    }

    /** remove_override: the map without the app's entry is written back only
      when the entry was there. */
    method RemoveOverride(wmClass: string) returns (r: Result<(), OverrideError>)
      modifies this
      ensures match WithoutOverride(old(GetOverrides()), wmClass)
        case Err(e) => r == Err(e) && dconf == old(dconf) && writes == old(writes)
        case Ok(None) => r.Ok? && dconf == old(dconf) && writes == old(writes)
        case Ok(Some(m)) =>
          var value := Quoted(dumps(JObject(m)));
          r.Ok? && dconf == old(dconf)[OverridesKey := value] && writes == old(writes) + [(OverridesKey, value)]
    {
      var overrides := GetOverrides();
      var removed := WithoutOverride(overrides, wmClass);
      if removed.Err? {
        return Err(removed.error);
      }
      if removed.value.Some? {
        Write(OverridesKey, Quoted(dumps(JObject(removed.value.value))));
      }
      r := Ok(());
    }

    /** get_sync_mode. */
    function SyncMode(): (mode: string)
      reads this
      ensures SyncModeKey !in dconf || dconf[SyncModeKey] == "" ==> mode == "RESTORE"
      ensures SyncModeKey in dconf && dconf[SyncModeKey] != "" ==> mode == Strip(dconf[SyncModeKey], '\'')
    {
      GetSyncMode(Read(SyncModeKey))
    }

    /** set_sync_mode. */
    method SetSyncMode(mode: string)
      modifies this
      ensures dconf == old(dconf)[SyncModeKey := SyncModeText(mode)]
      ensures writes == old(writes) + [(SyncModeKey, SyncModeText(mode))]
    {
      Write(SyncModeKey, SyncModeText(mode));
    }
  }
}
