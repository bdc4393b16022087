/**
 * Branch-key normalisation of the compiler (`normalizePluralKey`, `normalizeKey`)
 * and the plural-category abbreviation table `PLURAL_ABBREVIATIONS`.
 */
module Keys {
  import opened Opt
  import opened JsStrings

  /** A normalised branch key: a small integer (from `=<digit>`) or a name. */
  datatype Key = IntKey(n: nat) | NameKey(s: string)

  /** The six plural categories, in the order the table lists them. */
  const PluralCategories: seq<string> := ["zero", "one", "two", "few", "many", "other"]

  /** `PLURAL_ABBREVIATIONS`. */
  const PluralAbbreviations: map<string, string> :=
    map["zero" := "z", "one" := "o", "two" := "t", "few" := "f", "many" := "m", "other" := "h"]

  /** `PLURAL_ABBREVIATIONS[key]`: defined exactly on the six category names, each
      abbreviated to one letter. */
  function PluralAbbreviation(key: string): (r: Option<string>)
    ensures r.Some? <==> key in PluralCategories
    ensures r.Some? ==> |r.value| == 1
  {
    if key in PluralAbbreviations then Some(PluralAbbreviations[key]) else None
  }

  /** Distinct categories get distinct abbreviations; in particular `other` (`h`)
      does not collide with `one` (`o`). */
  lemma AbbreviationsInjective(a: string, b: string)
    requires PluralAbbreviation(a).Some? && PluralAbbreviation(a) == PluralAbbreviation(b)
    ensures a == b
  {
  }

  lemma OtherIsNotOne()
    ensures PluralAbbreviation("other") == Some("h") != PluralAbbreviation("one")
  {
  }

  predicate IsAsciiDigit(c: char) {
    '0' <= c <= '9'
  }

  /** The match of `/^=(\d)/` on an already trimmed key: the single digit after `=`. */
  function ExactDigit(k: string): (r: Option<nat>)
    ensures r.Some? <==> |k| >= 2 && k[0] == '=' && IsAsciiDigit(k[1])
    ensures r.Some? ==> r.value < 10 && r.value == (k[1] as int) - ('0' as int)
  {
    if |k| >= 2 && k[0] == '=' && IsAsciiDigit(k[1]) then Some((k[1] as int) - ('0' as int))
    else None
  }

  /** `normalizeKey`: trim, then `=<digit>...` becomes that digit, anything else
      stays the trimmed string. */
  function NormalizeKey(key: string): (r: Key)
    ensures r.IntKey? <==> ExactDigit(Trim(key)).Some?
    ensures r.IntKey? ==> r.n < 10 && Some(r.n) == ExactDigit(Trim(key))
    ensures r.NameKey? ==> r.s == Trim(key)
  {
    var k := Trim(key);
    match ExactDigit(k)
    case Some(d) => IntKey(d)
    case None => NameKey(k)
  }

  /** `normalizePluralKey`: the category abbreviation, looked up on the raw
      (untrimmed) key; otherwise the same steps as `normalizeKey`. */
  function NormalizePluralKey(key: string): (r: Key)
    ensures key in PluralCategories ==> r == NameKey(PluralAbbreviation(key).value)
    ensures key !in PluralCategories ==> r == NormalizeKey(key)
  {
    match PluralAbbreviation(key)
    case Some(a) => NameKey(a)
    case None => NormalizeKey(key)
  }

  /** Normalising is insensitive to surrounding white space, in select mode. */
  lemma NormalizeKeyIgnoresPadding(key: string)
    ensures NormalizeKey(Trim(key)) == NormalizeKey(key)
  {
    TrimIdempotent(key);
  }

  /** Only the first digit after `=` is kept: `=<d><rest>` gives `d`, whatever
      `rest` is (so `=12` gives 1). */
  lemma {:induction false} ExactKeyKeepsFirstDigit(d: char, rest: string)
    requires IsAsciiDigit(d)
    ensures NormalizeKey("=" + [d] + rest) == IntKey((d as int) - ('0' as int))
    ensures NormalizePluralKey("=" + [d] + rest) == IntKey((d as int) - ('0' as int))
  {
    var k := "=" + [d] + rest;
    assert !IsJsWhitespace(k[0]) && !IsJsWhitespace(k[1]);
    // `=` is not white space, so trimming starts at index 0; the digit is not
    // white space either, so the trimmed key keeps both and still reads `=d`.
    TrimStartSpec(k);
    TrimSpec(k);
    var t := Trim(k);
    assert |TrimStart(k)| == |k|;
    assert |t| >= 2;
    assert t[0] == '=' && t[1] == d;
    assert k !in PluralCategories;
  }

  /** A select key that is not `=<digit>`-shaped and has no padding is used verbatim
      (`apple`, `banana`, `other` stay as they are). */
  lemma SelectKeepsNames(key: string)
    requires key == [] || (!IsJsWhitespace(key[0]) && !IsJsWhitespace(key[|key| - 1]))
    requires ExactDigit(key).None?
    ensures NormalizeKey(key) == NameKey(key)
  {
    TrimOfTrimmed(key);
  }

  /** Plural mode differs from select mode exactly on the six category names. */
  lemma PluralModeDiffersOnlyOnCategories(key: string)
    ensures NormalizePluralKey(key) != NormalizeKey(key) <==> key in PluralCategories
  {
    if key in PluralCategories {
      TrimOfTrimmed(key);
      assert Trim(key) == key;
      assert ExactDigit(key).None?;
    }
  }
}
