/**
  The ZipCode value object (src/domain/customer/value_objects/ZipCode.ts): a
  string accepted by the regular expression `^\d{5}-\d{3}$`, stored as given.
*/
module ZipCodes {
  import opened Exceptions

  /** What `\d` matches in a JavaScript regular expression: an ASCII digit. */
  predicate IsDigit(c: char) {
    '0' <= c <= '9'
  }

  /** The shape `NNNNN-NNN`, position by position. */
  predicate IsZipCode(s: string) {
    |s| == 9
    && (forall k :: 0 <= k < 5 ==> IsDigit(s[k]))
    && s[5] == '-'
    && (forall k :: 6 <= k < 9 ==> IsDigit(s[k]))
  }

  /** One atom of a regular expression: the class `\d` or a literal character. */
  datatype Atom = AnyDigit | Exactly(c: char) {
    predicate Accepts(ch: char) {
      match this
      case AnyDigit => IsDigit(ch)
      case Exactly(c) => ch == c
    }
  }

  /** An atom with the exact repetition count `{times}`. */
  datatype Piece = Piece(atom: Atom, times: nat)

  /** A regular expression anchored with `^` and `$` that is a sequence of
      pieces, each an atom repeated an exact number of times. */
  type Regex = seq<Piece>

  /** `regex.test(s)` for an anchored regular expression of pieces: the first
      piece takes exactly its count of characters, the rest takes the rest,
      and nothing is left over at the end. */
  function Matches(r: Regex, s: string): bool
    decreases |r|
  {
    if r == [] then s == []
    else
      var p := r[0];
      p.times <= |s|
      && (forall k :: 0 <= k < p.times ==> p.atom.Accepts(s[k]))
      && Matches(r[1..], s[p.times..])
  }

  /** `/^\d{5}-\d{3}$/`, written as pieces. */
  const ZipRegex: Regex := [Piece(AnyDigit, 5), Piece(Exactly('-'), 1), Piece(AnyDigit, 3)]

  /** The regular expression accepts exactly the strings of shape `NNNNN-NNN`. */
  lemma ZipRegexShape(s: string)
    ensures Matches(ZipRegex, s) <==> IsZipCode(s)
  {
    var hyphen := [Piece(Exactly('-'), 1), Piece(AnyDigit, 3)];
    var tail := [Piece(AnyDigit, 3)];
    assert ZipRegex[1..] == hyphen && hyphen[1..] == tail && tail[1..] == [];
    if |s| >= 9 {
      assert forall k :: 0 <= k < 3 ==> s[6..][k] == s[k + 6];
      assert s[5..][0] == s[5] && s[5..][1..] == s[6..] && s[6..][3..] == s[9..];
    }
  }

  datatype ZipCodeData = ZipCodeData(value: string)

  /** A `ZipCode` object; `value` is what `getValue()` returns. */
  type ZipCode = z: ZipCodeData | IsZipCode(z.value) witness ZipCodeData("00000-000")

  /** `new ZipCode(raw)`: fails with InvalidZipCode unless the regular
      expression accepts `raw`, and otherwise stores `raw` unchanged. */
  function NewZipCode(raw: string): (r: Result<ZipCode>)
    ensures r.Ok? <==> IsZipCode(raw)
    ensures r.Err? ==> r.error == InvalidZipCode
    ensures r.Ok? ==> r.value.value == raw
  {
    ZipRegexShape(raw);
    if !Matches(ZipRegex, raw) then Err(InvalidZipCode) else Ok(ZipCodeData(raw))
  }

  /** Every stored zip code has nine characters with the hyphen at index 5. */
  lemma StoredZipCodeShape(z: ZipCode)
    ensures |z.value| == 9 && z.value[5] == '-'
  {
  }

  /** Validating the value of a ZipCode again gives back that ZipCode. */
  lemma ZipCodeRoundTrip(z: ZipCode)
    ensures NewZipCode(z.value) == Ok(z)
  {
  }

  /** The cases of tests/unit/domain/customer/value_objects/ZipCode.test.ts. */
  lemma ZipCodeExamples()
    ensures NewZipCode("12345-678") == Ok(ZipCodeData("12345-678"))
    ensures NewZipCode("123-456") == Err(InvalidZipCode)
    ensures NewZipCode("123456789") == Err(InvalidZipCode)
    ensures NewZipCode("abcde-xyz") == Err(InvalidZipCode)
    ensures NewZipCode("12345-12") == Err(InvalidZipCode)
    ensures NewZipCode("1234-1234") == Err(InvalidZipCode)
  {
    assert !IsDigit("abcde-xyz"[0]);
    assert "1234-1234"[4] == '-' && !IsDigit("1234-1234"[4]);
  }
}
