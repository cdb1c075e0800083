/** Unity's `PlayerPrefs` store as a map from keys to typed entries, and the
    keys the game uses. The text encoding of doubles and longs is kept
    abstract: a decimal text is modelled by the number it spells. */
module Prefs {
  import opened Numerics

  /** A string entry: the round-trippable text of a double (`ToString("R")`),
      the text of a whole number (`long.ToString()`), or anything else. */
  datatype Text = DecimalText(x: real) | IntegerText(n: int) | OtherText(s: string)

  /** An entry written by `SetInt` or by `SetString`. */
  datatype Value = IntValue(n: int) | StringValue(t: Text)

  type Store = map<string, Value>

  const LongMin: int := -0x8000_0000_0000_0000
  const LongMax: int := 0x7FFF_FFFF_FFFF_FFFF

  const StardustKey: string := "ASTRAL_STARDUST"
  const TotalStardustEarnedKey: string := "ASTRAL_TOTAL_STARDUST"
  const LastSaveKey: string := "ASTRAL_LAST_SAVE_TIME"

  function GeneratorKey(id: string): string
  {
    "ASTRAL_GEN_" + id + "_LEVEL"
  }

  function UpgradeKey(id: string): string
  {
    "ASTRAL_UPG_" + id + "_LEVEL"
  }

  /** `PlayerPrefs.GetInt`: the stored integer, or the default when the key is
      absent or holds a string. */
  function GetInt(p: Store, key: string, default: int): int
  {
    if key in p && p[key].IntValue? then p[key].n else default
  }

  /** `PlayerPrefs.GetString`: the stored text, or the default when the key is
      absent or holds an integer. */
  function GetString(p: Store, key: string, default: Text): Text
  {
    if key in p && p[key].StringValue? then p[key].t else default
  }

  function EncodeDouble(x: real): Text
  {
    DecimalText(x)
  }

  /** `double.TryParse`: decimal and whole-number texts parse, anything else fails. */
  function TryParseDouble(t: Text): (r: Option<real>)
    ensures r.Some? <==> !t.OtherText?
  {
    match t
    case DecimalText(x) => Some(x)
    case IntegerText(n) => Some(n as real)
    case OtherText(_) => None
  }

  function EncodeLong(n: int): Text
  {
    IntegerText(n)
  }

  /** `long.TryParse`: only whole-number texts within the 64-bit range parse. */
  function TryParseLong(t: Text): (r: Option<int>)
    ensures r.Some? ==> LongMin <= r.value <= LongMax
  {
    if t.IntegerText? && LongMin <= t.n <= LongMax then Some(t.n) else None
  }

  /** The two encodings are lossless: what is written is what is parsed back. */
  lemma EncodingsRoundTrip(x: real, n: int)
    requires LongMin <= n <= LongMax
    ensures TryParseDouble(EncodeDouble(x)) == Some(x)
    ensures TryParseLong(EncodeLong(n)) == Some(n)
  {
  }

  /** The id can be read back from a generator's level key, so distinct
      generators never share a key. */
  lemma GeneratorKeyInjective(a: string, b: string)
    ensures GeneratorKey(a) == GeneratorKey(b) ==> a == b
  {
    var ka, kb := GeneratorKey(a), GeneratorKey(b);
    assert ka[11..|ka| - 6] == a;
    assert kb[11..|kb| - 6] == b;
  }

  lemma UpgradeKeyInjective(a: string, b: string)
    ensures UpgradeKey(a) == UpgradeKey(b) ==> a == b
  {
    var ka, kb := UpgradeKey(a), UpgradeKey(b);
    assert ka[11..|ka| - 6] == a;
    assert kb[11..|kb| - 6] == b;
  }

  /** The five families of keys never collide: they differ at their eighth character. */
  lemma KeysDistinct(a: string, b: string)
    ensures GeneratorKey(a) != UpgradeKey(b)
    ensures GeneratorKey(a) !in {StardustKey, TotalStardustEarnedKey, LastSaveKey}
    ensures UpgradeKey(b) !in {StardustKey, TotalStardustEarnedKey, LastSaveKey}
  {
    assert GeneratorKey(a)[7] == 'G';
    assert UpgradeKey(b)[7] == 'U';
    assert StardustKey[7] == 'S' && TotalStardustEarnedKey[7] == 'T' && LastSaveKey[7] == 'L';
  }
}
