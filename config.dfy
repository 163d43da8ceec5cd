/** The configuration store (`ConfigManager`): a flat string-to-string map
    kept in a JSON file. The file itself is modelled by its state; reading
    and writing it are not. */
module Config {
  import opened Wrappers

  /** The keys the program stores. */
  const ApiIdKey := "api_id"
  const ApiHashKey := "api_hash"
  const GeminiKeyName := "gemini_key"

  /** What the configuration file holds: nothing, something that does not
      parse, or a parsed map. */
  datatype FileState = Missing | Unreadable | Present(contents: map<string, string>)

  /** `ConfigManager.load`: a missing or unreadable file loads as the empty
      map, a readable one as its contents. */
  function Loaded(f: FileState): (m: map<string, string>)
    ensures f.Present? ==> m == f.contents
    ensures !f.Present? ==> m == map[]
  {
    match f
    case Present(contents) => contents
    case _ => map[]
  }

  /** `dict.update`: every key of `data` takes its new value, every other
      key keeps the value it had, and no key disappears. */
  function Merge(current: map<string, string>, data: map<string, string>): (r: map<string, string>)
    ensures r.Keys == current.Keys + data.Keys
    ensures forall k :: k in data ==> r[k] == data[k]
    ensures forall k :: k in current && k !in data ==> r[k] == current[k]
  {
    current + data
  }

  /** The file after `ConfigManager.save(data)`: whatever loaded, merged
      with `data`, written back. */
  function Saved(f: FileState, data: map<string, string>): FileState
  {
    Present(Merge(Loaded(f), data))
  }

  /** `dict.get(key)`. */
  function Get(m: map<string, string>, key: string): (r: Option<string>)
    ensures r.Some? <==> key in m
    ensures r.Some? ==> r.value == m[key]
  {
    if key in m then Some(m[key]) else None
  }

  /** Python truthiness of `get(key)`: present and not the empty string. */
  predicate Stored(m: map<string, string>, key: string)
  {
    key in m && m[key] != ""
  }

  /** Saving `a` and then `b` keeps every key of both; where they share a
      key, the later save wins. */
  lemma SaveTwiceKeepsBoth(f: FileState, a: map<string, string>, b: map<string, string>)
    ensures var m := Loaded(Saved(Saved(f, a), b));
      && (forall k :: k in b ==> k in m && m[k] == b[k])
      && (forall k :: k in a && k !in b ==> k in m && m[k] == a[k])
      && (forall k :: k in Loaded(f) && k !in a && k !in b ==> k in m && m[k] == Loaded(f)[k])
  {
  }

  /** A save whose values are all non-empty never un-stores a key. */
  lemma SavedKeepsStored(f: FileState, data: map<string, string>, key: string)
    requires Stored(Loaded(f), key)
    requires forall k :: k in data ==> data[k] != ""
    ensures Stored(Loaded(Saved(f, data)), key)
  {
  }

  /** The stored configuration. `Save` merges into it rather than replacing
      it; `Load` and `Get` only read it. */
  class ConfigStore {
    var file: FileState

    constructor(initial: FileState)
      ensures file == initial
    {
      file := initial;
    }

    /** `ConfigManager.load`. */
    function Load(): (m: map<string, string>)
      reads this
      ensures !file.Present? ==> m == map[]
      ensures file.Present? ==> m == file.contents
    {
      Loaded(file)
    }

    /** `ConfigManager.get(key)`: the stored value of `key`, if any. */
    function GetValue(key: string): (r: Option<string>)
      reads this
      ensures r.Some? <==> key in Load()
      ensures r.Some? ==> r.value == Load()[key]
    {
      Get(Load(), key)
    }

    /** `ConfigManager.save(data)`: the keys of `data` take their new
      values; every other stored key is left as it was. */
    method Save(data: map<string, string>)
      modifies this
      ensures file == Saved(old(file), data)
      ensures forall k :: k in data ==> k in Load() && Load()[k] == data[k]
      ensures forall k :: k !in data ==> (k in Load() <==> k in old(Load()))
      ensures forall k :: k in old(Load()) && k !in data ==> Load()[k] == old(Load())[k]
    {
      var current := Load();
      file := Present(Merge(current, data));
    }
  }
}
