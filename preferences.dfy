/**
 * The "Settings" shared-preferences file, as an immutable value: one table per
 * value type, because every key is only ever written and read with one type.
 */
module Preferences {
  import opened Common

  const KEY_STREAM_VOLUME := "STREAM_VOLUME"
  const KEY_VISUALIZATION_ENABLED := "VISUALIZATION_ENABLED"
  const KEY_PROFILES := "PROFILES"

  datatype Prefs = Prefs(floats: map<string, real>, booleans: map<string, bool>, strings: map<string, string>)
  {
    /** `getFloat(key, default)` */
    function GetFloat(key: string, default: real): real {
      if key in floats then floats[key] else default
    }

    /** `getBoolean(key, default)` */
    function GetBoolean(key: string, default: bool): bool {
      if key in booleans then booleans[key] else default
    }

    /** `getString(key, null)` */
    function GetString(key: string): Option<string> {
      if key in strings then Some(strings[key]) else None
    }

    /** `edit().putFloat(key, v).apply()`: later reads of `key` see `v`, nothing else changes. */
    function PutFloat(key: string, v: real): (r: Prefs)
      ensures forall d :: r.GetFloat(key, d) == v
      ensures forall k, d :: k != key ==> r.GetFloat(k, d) == GetFloat(k, d)
      ensures r.booleans == booleans && r.strings == strings
    {
      this.(floats := floats[key := v])
    }

    /** `edit().putString(key, v).apply()`: later reads of `key` see `v`, nothing else changes. */
    function PutString(key: string, v: string): (r: Prefs)
      ensures r.GetString(key) == Some(v)
      ensures forall k :: k != key ==> r.GetString(k) == GetString(k)
      ensures r.floats == floats && r.booleans == booleans
    {
      this.(strings := strings[key := v])
    }
  }
}
