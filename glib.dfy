/**
 * The GLib values that cross the binding: `gboolean`, `GError`, the boolean
 * entries of a `GKeyFile`, and the `a{sv}` dictionary handed to a pull.
 */
module GLib {
  import opened Wrappers

  /** C `gboolean` is a 32-bit `gint`: 0 is FALSE, every other value reads as true. */
  newtype GBoolean = x: int | -0x8000_0000 <= x < 0x8000_0000

  const FALSE: GBoolean := 0
  const TRUE: GBoolean := 1

  /** A `GError` reported through the `**GError` out-parameter of a native call. */
  datatype GError = GError(domain: nat, code: int, message: string)

  /**
   * The boolean entries of a key file, indexed by (group, key). A key that is
   * absent, or whose value is not a boolean, has no entry.
   */
  type KeyFile = map<(string, string), bool>

  /** `g_key_file_get_boolean`: TRUE only for a key that is present and true; an absent key reads as FALSE. */
  function KeyFileGetBoolean(kf: KeyFile, group: string, key: string): (b: GBoolean)
    ensures b == TRUE || b == FALSE
    ensures b == TRUE <==> (group, key) in kf && kf[(group, key)]
  {
    if (group, key) in kf && kf[(group, key)] then TRUE else FALSE
  }

  /** `g_key_file_set_boolean`: stores `value != FALSE` under (group, key) and leaves every other key alone. */
  function KeyFileSetBoolean(kf: KeyFile, group: string, key: string, value: GBoolean): (r: KeyFile)
    ensures (group, key) in r && r[(group, key)] == (value != FALSE)
    ensures r - {(group, key)} == kf - {(group, key)}
  {
    kf[(group, key) := value != FALSE]
  }

  /** The two kinds of `GVariant` this binding puts in a dictionary: `s` and `as`. */
  datatype Variant = VString(s: string) | VStrv(strv: seq<string>)

  /** An `a{sv}` dictionary: its `{sv}` entries in the order they were added. */
  type VariantDict = seq<(string, Variant)>

  /** The value of the first entry named `key`, as a reader of the dictionary finds it. */
  function Lookup(dict: VariantDict, key: string): (r: Option<Variant>)
    ensures r.Some? ==> (key, r.value) in dict
    ensures r.None? <==> forall e :: e in dict ==> e.0 != key
    ensures r.Some? ==> exists i :: 0 <= i < |dict| && dict[i] == (key, r.value)
                                    && forall j :: 0 <= j < i ==> dict[j].0 != key
  {
    if dict == [] then None
    else if dict[0].0 == key then Some(dict[0].1)
    else Lookup(dict[1..], key)
  }
}
