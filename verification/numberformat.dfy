/** The compact display of large amounts: the value is divided by 1000 until
    it falls below 1000, and the number of divisions (the tier) is spelled as
    a letter suffix a, b, …, z, aa, ab, … (bijective base 26). */
module NumberFormat {
  import opened Numerics

  /** A C# `double`: a finite value, NaN, or an infinity of either sign. */
  datatype Double = Finite(x: real) | NaN | Infinity(positive: bool)

  /** What is shown: a fixed symbol, or a mantissa (rendered with at most two
      decimals) followed by a suffix. */
  datatype Formatted = Symbol(text: string) | Scaled(mantissa: real, suffix: string)

  /** The loop's guard: it stops once the tier exceeds this. */
  const MaxTier: nat := 1000

  predicate Lowercase(s: string)
  {
    forall i :: 0 <= i < |s| ==> 'a' <= s[i] <= 'z'
  }

  /** The letter of a digit 0..25. */
  function Letter(d: int): (c: char)
    requires 0 <= d < 26
    ensures 'a' <= c <= 'z'
  {
    (('a' as int) + d) as char
  }

  /** The bijective base-26 spelling of a tier; empty for tiers of 0 or less. */
  function Alphabet(t: int): (s: string)
    ensures t <= 0 <==> s == []
    ensures Lowercase(s)
    decreases t
  {
    if t <= 0 then "" else Alphabet((t - 1) / 26) + [Letter((t - 1) % 26)]
  }

  /** Reads a suffix back as a tier: each letter is a digit from 1 to 26. */
  function Decode(s: string): (t: int)
    ensures Lowercase(s) ==> t >= 0
  {
    if s == [] then 0
    else Decode(s[..|s| - 1]) * 26 + ((s[|s| - 1] as int) - ('a' as int) + 1)
  }

  /** Spelling a tier and reading it back gives the tier. */
  lemma {:induction false} DecodeAlphabet(t: int)
    requires t >= 0
    ensures Decode(Alphabet(t)) == t
    decreases t
  {
    if t > 0 {
      var q, d := (t - 1) / 26, (t - 1) % 26;
      var s := Alphabet(t);
      assert s == Alphabet(q) + [Letter(d)];
      assert s[..|s| - 1] == Alphabet(q);
      DecodeAlphabet(q);
    }
  }

  /** Every lowercase word is the spelling of exactly one tier: reading it
      and spelling the result gives the word back. */
  lemma {:induction false} AlphabetDecode(s: string)
    requires Lowercase(s)
    ensures Alphabet(Decode(s)) == s
    decreases |s|
  {
    if s != [] {
      var p, c := s[..|s| - 1], s[|s| - 1];
      var d := (c as int) - ('a' as int);
      assert Lowercase(p);
      AlphabetDecode(p);
      var t := Decode(s);
      assert t - 1 == Decode(p) * 26 + d;
      DigitSplit(Decode(p), d);
      assert Letter(d) == c;
      assert s == p + [c];
    }
  }

  /** A number written as q base-26 digits followed by the digit d splits back into q and d. */
  lemma DigitSplit(q: int, d: int)
    requires 0 <= d < 26
    ensures (q * 26 + d) / 26 == q && (q * 26 + d) % 26 == d
  {
  }

  /** Distinct non-negative tiers get distinct suffixes. */
  lemma AlphabetInjective(t1: int, t2: int)
    requires t1 >= 0 && t2 >= 0 && Alphabet(t1) == Alphabet(t2)
    ensures t1 == t2
  {
    DecodeAlphabet(t1);
    DecodeAlphabet(t2);
  }

  /** Tiers 1 to 26 are the single letters a to z. */
  lemma SingleLetters(t: int)
    requires 1 <= t <= 26
    ensures Alphabet(t) == [Letter(t - 1)]
  {
    assert (t - 1) / 26 == 0 && (t - 1) % 26 == t - 1;
    assert Alphabet(0) == [];
  }

  /** The first, last and next-after-last one-letter suffixes. */
  lemma AlphabetExamples()
    ensures Alphabet(1) == "a" && Alphabet(26) == "z" && Alphabet(27) == "aa"
  {
    SingleLetters(1);
    SingleLetters(26);
    assert Letter(0) == 'a' && Letter(25) == 'z';
    assert (27 - 1) / 26 == 1 && (27 - 1) % 26 == 0;
    assert Alphabet(27) == Alphabet(1) + [Letter(0)];
  }

  /** `TierToAlphabet`: the letters are produced last digit first and
      inserted at the front. The running tier stays at -1 or above, so C#'s
      truncating `/` and `%` agree with Dafny's here. */
  method TierToAlphabet(tier: int) returns (s: string)
    ensures s == Alphabet(tier)
  {
    if tier <= 0 {
      return "";
    }
    var t := tier - 1;
    s := "";
    while t >= 0
      invariant t >= -1
      invariant Alphabet(tier) == Alphabet(t + 1) + s
      decreases t
    {
      var letterIndex := t % 26;
      var c := Letter(letterIndex);
      s := [c] + s;
      t := t / 26 - 1;
    }
  }

  /** The tier loop of `Format`: divide by 1000 while the value is at least
      1000, stopping early once the tier passes `MaxTier`. */
  method ScaleDown(x: real) returns (mantissa: real, tier: nat)
    ensures x == mantissa * Pow(1000.0, tier)
    ensures x < 1000.0 ==> tier == 0 && mantissa == x
    ensures x >= 1000.0 ==> 1 <= tier <= MaxTier + 1 && 1.0 <= mantissa
    ensures mantissa < 1000.0 || tier == MaxTier + 1
  {
    mantissa, tier := x, 0;
    while mantissa >= 1000.0
      invariant x == mantissa * Pow(1000.0, tier)
      invariant tier <= MaxTier
      invariant tier == 0 ==> mantissa == x
      invariant tier > 0 ==> 1.0 <= mantissa && x >= 1000.0
      decreases MaxTier - tier
    {
      ghost var before := mantissa;
      mantissa := mantissa / 1000.0;
      tier := tier + 1;
      assert x == mantissa * Pow(1000.0, tier) by {
        assert Pow(1000.0, tier) == 1000.0 * Pow(1000.0, tier - 1);
        assert mantissa * 1000.0 == before;
      }
      if tier > MaxTier {
        break;
      }
    }
  }

  /** `Format`: NaN shows as "0", either infinity as "∞"; a finite value
      below 1000 keeps no suffix; otherwise the mantissa is at least 1, the
      suffix spells the number of divisions by 1000, and mantissa × 1000^tier
      is the value. */
  method Format(value: Double) returns (r: Formatted)
    ensures value.NaN? ==> r == Symbol("0")
    ensures value.Infinity? ==> r == Symbol("∞")
    ensures value.Finite? ==> r.Scaled? && Lowercase(r.suffix)
    ensures value.Finite? && value.x < 1000.0 ==> r == Scaled(value.x, "")
    ensures value.Finite? && value.x >= 1000.0 ==>
      var tier := Decode(r.suffix);
      && 1 <= tier <= MaxTier + 1
      && value.x == r.mantissa * Pow(1000.0, tier)
      && 1.0 <= r.mantissa
      && (r.mantissa < 1000.0 || tier == MaxTier + 1)
  {
    if value.NaN? {
      return Symbol("0");
    }
    if value.Infinity? {
      return Symbol("∞");
    }
    if value.x < 1000.0 {
      return Scaled(value.x, "");
    }
    var mantissa, tier := ScaleDown(value.x);
    var suffix := TierToAlphabet(tier);
    DecodeAlphabet(tier);
    r := Scaled(mantissa, suffix);
  }
}
