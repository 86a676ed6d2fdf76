/** `EnergyUtils`: address masking for display and the choice of an explorer API key. */
module Utils {
  import opened Common

  /** `format_address`: an address of 16 characters or more is shown as its first 8
      characters, four stars and its last 8; a shorter one is shown as it is. */
  function FormatAddress(a: string): (r: string)
    ensures |a| >= 16 ==> |r| == 20 && r[..8] == a[..8] && r[8..12] == "****" && r[12..] == a[|a| - 8..]
    ensures |a| < 16 ==> r == a
  {
    if |a| >= 16 then a[..8] + "****" + a[|a| - 8..] else a
  }

  /** The sample values shipped in the example configuration, which are not real keys. */
  const PLACEHOLDERS: seq<string> :=
    ["key1", "key2", "key3", "your_tron_api_key_1", "your_tron_api_key_2", "your_tron_api_key_3"]

  /** The environment variables holding the keys of a key type, or none for an unknown type. */
  function KeyNames(keyType: string): (names: Option<seq<string>>)
    ensures names.Some? <==> keyType == "tronapikey" || keyType == "gridapikey"
    ensures names.Some? ==> |names.value| == 3
  {
    if keyType == "tronapikey" then Some(["TRON_API_KEY_1", "TRON_API_KEY_2", "TRON_API_KEY_3"])
    else if keyType == "gridapikey" then Some(["GRID_API_KEY_1", "GRID_API_KEY_2", "GRID_API_KEY_3"])
    else None
  }

  /** A configured value that is a usable key: set, non-empty and not a sample value. */
  predicate UsableKey(k: Option<string>)
  {
    k.Some? && k.value != "" && k.value !in PLACEHOLDERS
  }

  /** `get_random_api_key`: one of the usable configured keys of the type.  `getenv` is the
      process environment; `pick` stands for the random choice among the usable keys. */
  function RandomApiKey(keyType: string, getenv: string -> Option<string>, pick: nat): (r: Option<string>)
    ensures KeyNames(keyType).None? ==> r.None?
    ensures r.Some? ==> r.value != "" && r.value !in PLACEHOLDERS
                        && exists i :: 0 <= i < 3 && getenv(KeyNames(keyType).value[i]) == Some(r.value)
    ensures KeyNames(keyType).Some? && r.None? ==>
              forall i :: 0 <= i < 3 ==> !UsableKey(getenv(KeyNames(keyType).value[i]))
  {
    match KeyNames(keyType)
    case None => None
    case Some(names) =>
      var keys := [getenv(names[0]), getenv(names[1]), getenv(names[2])];
      var valid := Filter(keys, UsableKey);
      if valid == [] then
        assert forall i :: 0 <= i < 3 ==> keys[i] in keys;
        None
      else
        var k := valid[pick % |valid|];
        assert k in valid;
        Some(k.value)
  }
}
