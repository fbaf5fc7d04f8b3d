/**
 * `getFlagEmoji`: a two-letter ISO 3166 country code becomes the pair of
 * Unicode regional-indicator symbols that renders as that country's flag.
 * Each UTF-16 code unit c of the upper-cased code is mapped to the code point
 * 0x1F1E6 + (c - 65), so 'A' becomes U+1F1E6 and 'Z' becomes U+1F1FF.
 */
module Flag {

  /** A UTF-16 code unit, as `charCodeAt` returns it. */
  type CodeUnit = n: int | 0 <= n < 0x1_0000

  /** REGIONAL INDICATOR SYMBOL LETTER A. */
  const IndicatorA: int := 0x1F1E6
  /** REGIONAL INDICATOR SYMBOL LETTER Z. */
  const IndicatorZ: int := 0x1F1FF
  /** The code unit of 'A'. */
  const LetterA: int := 65
  /** The code unit of 'Z'. */
  const LetterZ: int := 90

  /** `toUpperCase` on one code unit (ASCII letters only). */
  function UpperUnit(c: CodeUnit): CodeUnit
  {
    if 97 <= c <= 122 then c - 32 else c
  }

  function UpperUnits(code: seq<CodeUnit>): (r: seq<CodeUnit>)
    ensures |r| == |code|
  {
    seq(|code|, i requires 0 <= i < |code| => UpperUnit(code[i]))
  }

  predicate IsLetters(code: seq<CodeUnit>)
  {
    forall i :: 0 <= i < |code| ==> LetterA <= UpperUnit(code[i]) <= LetterZ
  }

  /**
   * The code point for one input unit. Every code unit gives a Unicode scalar
   * value (between U+1F1A5 and U+2F1A4), so `String.fromCodePoint` never throws.
   */
  function Indicator(c: CodeUnit): char
  {
    (IndicatorA + (UpperUnit(c) - LetterA)) as char
  }

  /** `getFlagEmoji(cca2)`: one code point per input code unit. */
  function FlagEmoji(cca2: seq<CodeUnit>): (r: string)
    ensures |r| == |cca2|
  {
    seq(|cca2|, i requires 0 <= i < |cca2| => Indicator(cca2[i]))
  }

  /** The inverse direction: subtract 0x1F1E6 - 65 from every code point. */
  function FlagDecode(flag: string): seq<int>
  {
    seq(|flag|, i requires 0 <= i < |flag| => flag[i] as int - (IndicatorA - LetterA))
  }

  /** Decoding a flag gives back the upper-cased code, for every input. */
  lemma DecodeFlag(cca2: seq<CodeUnit>)
    ensures FlagDecode(FlagEmoji(cca2)) == UpperUnits(cca2)
  {
  }

  /**
   * Every output lies in the regional-indicator block U+1F1E6..U+1F1FF
   * exactly when the code consists of letters A-Z (in either case).
   */
  lemma FlagInRange(cca2: seq<CodeUnit>)
    ensures IsLetters(cca2) <==>
      forall i :: 0 <= i < |cca2| ==> IndicatorA <= FlagEmoji(cca2)[i] as int <= IndicatorZ
  {
    var flag := FlagEmoji(cca2);
    if forall i :: 0 <= i < |cca2| ==> IndicatorA <= flag[i] as int <= IndicatorZ {
      forall i | 0 <= i < |cca2|
        ensures LetterA <= UpperUnit(cca2[i]) <= LetterZ
      {
        assert flag[i] as int == IndicatorA + (UpperUnit(cca2[i]) - LetterA);
      }
    }
  }

  /** Two codes give the same flag exactly when they agree up to case. */
  lemma {:induction false} FlagInjective(a: seq<CodeUnit>, b: seq<CodeUnit>)
    ensures FlagEmoji(a) == FlagEmoji(b) <==> UpperUnits(a) == UpperUnits(b)
  {
    if FlagEmoji(a) == FlagEmoji(b) {
      DecodeFlag(a);
      DecodeFlag(b);
    }
    if UpperUnits(a) == UpperUnits(b) {
      assert |a| == |b|;
      forall i | 0 <= i < |a|
        ensures FlagEmoji(a)[i] == FlagEmoji(b)[i]
      {
        assert UpperUnits(a)[i] == UpperUnits(b)[i];
      }
    }
  }

  /** The flag of France as the page's fallback table writes it. */
  lemma FlagOfFrance()
    ensures FlagEmoji([70, 82]) == "\U{1F1EB}\U{1F1F7}"
    ensures FlagEmoji([102, 114]) == FlagEmoji([70, 82])
  {
  }
}
