/**
  The Name value object (src/domain/customer/value_objects/Name.ts): a string
  that, once trimmed, is at least two characters long. The constructor trims
  its argument and stores the trimmed string in a readonly field.
*/
module Names {
  import opened Exceptions

  /** A character that ECMAScript's `String.prototype.trim` removes: the
      WhiteSpace characters (TAB, VT, FF, ZWNBSP and every character of the
      Unicode category Zs) and the LineTerminator characters (LF, CR, LS, PS). */
  predicate IsWhitespace(c: char) {
    var n := c as int;
    n == 0x09 || n == 0x0A || n == 0x0B || n == 0x0C || n == 0x0D
    || n == 0x20 || n == 0xA0 || n == 0x1680 || (0x2000 <= n <= 0x200A)
    || n == 0x2028 || n == 0x2029 || n == 0x202F || n == 0x205F
    || n == 0x3000 || n == 0xFEFF
  }

  predicate AllWhitespace(s: string) {
    forall k :: 0 <= k < |s| ==> IsWhitespace(s[k])
  }

  /** The number of whitespace characters at the start of `s`. */
  function LeadingWhitespace(s: string): (n: nat)
    ensures n <= |s|
    ensures AllWhitespace(s[..n])
    ensures n < |s| ==> !IsWhitespace(s[n])
  {
    if s != [] && IsWhitespace(s[0]) then
      var m := LeadingWhitespace(s[1..]);
      assert forall k :: 1 <= k < 1 + m ==> s[k] == s[1..][..m][k - 1];
      1 + m
    else
      0
  }

  /** The number of whitespace characters at the end of `s`. */
  function TrailingWhitespace(s: string): (n: nat)
    ensures n <= |s|
    ensures AllWhitespace(s[|s| - n..])
    ensures n < |s| ==> !IsWhitespace(s[|s| - n - 1])
  {
    if s != [] && IsWhitespace(s[|s| - 1]) then
      var init := s[..|s| - 1];
      var m := TrailingWhitespace(init);
      assert s[|s| - 1 - m..] == init[|init| - m..] + [s[|s| - 1]];
      1 + m
    else
      0
  }

  /** `s[i..j]` is what is left of `s` once the whitespace at both of its ends
      is removed: everything outside it is whitespace, and it neither starts
      nor ends with whitespace. */
  ghost predicate TrimmedAt(s: string, i: nat, j: nat) {
    i <= j <= |s|
    && AllWhitespace(s[..i]) && AllWhitespace(s[j..])
    && (i == j || (!IsWhitespace(s[i]) && !IsWhitespace(s[j - 1])))
  }

  /** `String.prototype.trim`: the longest run of `s` that is left after
      removing the leading and the trailing whitespace. The characters in
      between, whitespace included, are kept as they are. */
  function Trim(s: string): (t: string)
    ensures LeadingWhitespace(s) + |t| <= |s|
    ensures t == s[LeadingWhitespace(s)..LeadingWhitespace(s) + |t|]
    ensures TrimmedAt(s, LeadingWhitespace(s), LeadingWhitespace(s) + |t|)
  {
    var i := LeadingWhitespace(s);
    var rest := s[i..];
    var n := TrailingWhitespace(rest);
    assert s[i + |rest| - n..] == rest[|rest| - n..];
    rest[..|rest| - n]
  }

  /** The trimmed string is determined by its characterisation: any `s[i..j]`
      that is `TrimmedAt(s, i, j)` is `Trim(s)`. */
  lemma TrimUnique(s: string, i: nat, j: nat)
    requires TrimmedAt(s, i, j)
    ensures Trim(s) == s[i..j]
  {
    var l := LeadingWhitespace(s);
    var e := l + |Trim(s)|;
    forall k | 0 <= k < i ensures IsWhitespace(s[k]) { assert s[..i][k] == s[k]; }
    forall k | j <= k < |s| ensures IsWhitespace(s[k]) { assert s[j..][k - j] == s[k]; }
    forall k | 0 <= k < l ensures IsWhitespace(s[k]) { assert s[..l][k] == s[k]; }
    forall k | e <= k < |s| ensures IsWhitespace(s[k]) { assert s[e..][k - e] == s[k]; }
  }

  /** Trimming a trimmed string changes nothing. */
  lemma TrimIdempotent(s: string)
    ensures Trim(Trim(s)) == Trim(s)
  {
    var t := Trim(s);
    if t != [] {
      var l := LeadingWhitespace(s);
      assert t[0] == s[l] && t[|t| - 1] == s[l + |t| - 1];
    }
    TrimUnique(t, 0, |t|);
  }

  /** A string with no whitespace at either end is its own trimmed form. */
  lemma TrimOfUntrimmable(v: string)
    requires v != [] && !IsWhitespace(v[0]) && !IsWhitespace(v[|v| - 1])
    ensures Trim(v) == v
  {
    TrimUnique(v, 0, |v|);
  }

  /** The JavaScript `length` of a string: the number of UTF-16 code units,
      so a character outside the Basic Multilingual Plane counts twice. */
  function Utf16Length(s: string): (n: nat)
    ensures |s| <= n <= 2 * |s|
  {
    if s == [] then 0
    else (if s[0] as int < 0x10000 then 1 else 2) + Utf16Length(s[1..])
  }

  /** The invariant of every stored name: at least two UTF-16 code units,
      and no whitespace at either end. */
  predicate WellFormedName(v: string) {
    Utf16Length(v) >= 2 && !IsWhitespace(v[0]) && !IsWhitespace(v[|v| - 1])
  }

  datatype NameData = NameData(value: string)

  /** A `Name` object; `value` is what `getValue()` returns. */
  type Name = n: NameData | WellFormedName(n.value) witness NameData("ab")

  /** `new Name(raw)`: fails with InvalidName when `raw` is empty or its
      trimmed form is shorter than two code units, and otherwise stores the
      trimmed form. */
  function NewName(raw: string): (r: Result<Name>)
    ensures r.Ok? <==> Utf16Length(Trim(raw)) >= 2
    ensures r.Err? ==> r.error == InvalidName
    ensures r.Ok? ==> r.value.value == Trim(raw)
  {
    var t := Trim(raw);
    if raw == [] || Utf16Length(t) < 2 then
      Err(InvalidName)
    else
      assert t[0] == raw[LeadingWhitespace(raw)];
      assert t[|t| - 1] == raw[LeadingWhitespace(raw) + |t| - 1];
      Ok(NameData(t))
  }

  /** Only whitespace, the empty string included, is never a name. */
  lemma WhitespaceNameRejected(raw: string)
    requires AllWhitespace(raw)
    ensures NewName(raw) == Err(InvalidName)
  {
    TrimUnique(raw, 0, 0);
  }

  /** Building a Name again from the value of a Name gives back that Name. */
  lemma NameRoundTrip(n: Name)
    ensures NewName(n.value) == Ok(n)
  {
    TrimOfUntrimmable(n.value);
  }

  /** The accepted cases of tests/unit/domain/customer/value_objects/Name.test.ts. */
  lemma NameAccepted()
    ensures NewName("John Doe") == Ok(NameData("John Doe"))
  {
    TrimOfUntrimmable("John Doe");
  }

  /** The trimming case of the same test file: the inner space is kept. */
  lemma NameTrimmed()
    ensures NewName("  John Doe  ") == Ok(NameData("John Doe"))
  {
    var s := "  John Doe  ";
    assert s[..2] == "  " && s[10..] == "  " && s[2..10] == "John Doe";
    TrimUnique(s, 2, 10);
  }

  /** The rejected cases of the same test file. */
  lemma NameRejected()
    ensures NewName("") == Err(InvalidName)
    ensures NewName("A") == Err(InvalidName)
  {
    TrimOfUntrimmable("A");
  }
}
