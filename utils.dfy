/**
 * The project-descriptor store shared by the build controllers and its two
 * lookups. A descriptor entry may be a plain value or a mapping keyed by
 * platform (or, under "configs", by build configuration) with a "default"
 * fallback. The lookups neither merge a "common" entry nor return the
 * mapping itself.
 */
module Utils {
  import opened Wrappers
  import opened Json

  const DefaultKey: string := "default"

  /** A descriptor as `json.loads` returns it for a JSON object. */
  type Info = map<string, Value>

  /**
   * `get_value_for_platform(key, platform, default)`: the platform entry of
   * `info[key]`, else its "default" entry, else `default`. Python's `in` and
   * `[]` are applied to whatever `info[key]` is, so a list or string value
   * that contains the searched name fails with `TypeError`.
   */
  function ValueForPlatform(info: Info, key: string, platform: string, default: Value): (r: Result<Value>)
    ensures key !in info ==> r == Ok(default)
    ensures key in info && info[key].Obj? ==>
      var m := info[key].fields;
      r == Ok(if platform in m then m[platform] else if DefaultKey in m then m[DefaultKey] else default)
  {
    if key !in info then Ok(default)
    else
      var v := info[key];
      var hasPlatform :- In(Str(platform), v);
      if hasPlatform then Subscript(v, Str(platform))
      else
        var hasDefault :- In(Str(DefaultKey), v);
        if hasDefault then Subscript(v, Str(DefaultKey)) else Ok(default)
  }

  /**
   * `get_value_for_config(key, config, default)`: `info[key]["configs"][config]`
   * when present, else the "default" entry, else `default`. `config` is a
   * string or `None` (the command line's default).
   */
  function ValueForConfig(info: Info, key: string, config: Value, default: Value): (r: Result<Value>)
    requires IsKey(config)
    ensures key !in info ==> r == Ok(default)
    ensures (key in info && info[key].Obj? && ConfigsMiss(info[key].fields, config)) ==>
      (var m := info[key].fields;
       r == Ok(if DefaultKey in m then m[DefaultKey] else default))
    ensures (key in info && info[key].Obj? && ConfigsHit(info[key].fields, config)) ==>
      r == Ok(info[key].fields["configs"].fields[config.s])
  {
    if key !in info then Ok(default)
    else
      var v := info[key];
      var hit :- ConfigEntry(v, config);
      if hit.Some? then Ok(hit.value)
      else
        var hasDefault :- In(Str(DefaultKey), v);
        if hasDefault then Subscript(v, Str(DefaultKey)) else Ok(default)
  }

  /** The mapping has a "configs" mapping holding `config`. */
  predicate ConfigsHit(m: map<string, Value>, config: Value) {
    "configs" in m && m["configs"].Obj? && config.Str? && config.s in m["configs"].fields
  }

  /** The mapping has no "configs" entry, or a "configs" mapping without `config`. */
  predicate ConfigsMiss(m: map<string, Value>, config: Value) {
    "configs" !in m || (m["configs"].Obj? && !(config.Str? && config.s in m["configs"].fields))
  }

  /**
   * `"configs" in v and config in v["configs"]`, with the right operand only
   * evaluated when the left holds, and on success the entry `v["configs"][config]`.
   */
  function ConfigEntry(v: Value, config: Value): Result<Option<Value>>
    requires IsKey(config)
  {
    var hasConfigs :- In(Str("configs"), v);
    if !hasConfigs then Ok(None)
    else
      var configs :- Subscript(v, Str("configs"));
      var hit :- In(config, configs);
      if !hit then Ok(None)
      else
        var entry :- Subscript(configs, config);
        Ok(Some(entry))
  }

  /**
   * A successful platform lookup yields the caller's default or one of the
   * entries of the key's mapping: never the mapping itself, never a list or
   * string value found under the key.
   */
  lemma PlatformLookupNeverRaw(info: Info, key: string, platform: string, default: Value)
    requires ValueForPlatform(info, key, platform, default).Ok?
    ensures var r := ValueForPlatform(info, key, platform, default).value;
      r == default || (key in info && info[key].Obj? && r in info[key].fields.Values)
  {
    if key in info && info[key].Obj? {
      var m := info[key].fields;
      if platform in m {
        assert m[platform] in m.Values;
      } else if DefaultKey in m {
        assert m[DefaultKey] in m.Values;
      }
    }
  }

  /**
   * A plain list under the key answers with the caller's default when it
   * holds neither the platform name nor "default", and fails with
   * `TypeError` when it holds either.
   */
  lemma PlatformLookupOnList(info: Info, key: string, platform: string, default: Value)
    requires key in info && info[key].Arr?
    ensures var r := ValueForPlatform(info, key, platform, default);
      if Str(platform) in info[key].items || Str(DefaultKey) in info[key].items
      then r.Err? && r.error.TypeError?
      else r == Ok(default)
  {
  }

  /**
   * A plain string under the key is searched as text: the caller's default
   * comes back unless the platform name or "default" occurs in it, in which
   * case indexing the string fails.
   */
  lemma PlatformLookupOnString(info: Info, key: string, platform: string, default: Value)
    requires key in info && info[key].Str?
    ensures var r := ValueForPlatform(info, key, platform, default);
      if Text.Contains(info[key].s, platform) || Text.Contains(info[key].s, DefaultKey)
      then r.Err? && r.error.TypeError?
      else r == Ok(default)
  {
  }

  /** The module-level `info_json` that `set_project_info` replaces and the lookups read. */
  class Store {
    var info: Info

    constructor ()
      ensures info == map[]
    {
      info := map[];
    }

    /** `set_project_info(m)`. */
    method SetProjectInfo(m: Info)
      modifies this
      ensures info == m
    {
      info := m;
    }

    /** `get_value_for_platform` against the current store; the store is only read. */
    method GetValueForPlatform(key: string, platform: string, default: Value) returns (r: Result<Value>)
      ensures r == ValueForPlatform(info, key, platform, default)
    {
      r := ValueForPlatform(info, key, platform, default);
    }

    /** `get_value_for_config` against the current store; the store is only read. */
    method GetValueForConfig(key: string, config: Value, default: Value) returns (r: Result<Value>)
      requires IsKey(config)
      ensures r == ValueForConfig(info, key, config, default)
    {
      r := ValueForConfig(info, key, config, default);
    }
  }
}
