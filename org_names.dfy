/** The organisation-name checks: `Validator(str).min_length(2).max_length(63)
    .pattern(p).validate(name)`, with the pattern read as the regular expression it
    is. Patterns here are anchored sequences of character-class atoms, each with a
    repetition range, which covers both patterns the SDK writes. */
module OrgNames {

  /** A character class `[...]` given by its ranges, repeated between `min` and
      `max` times. A single character `x` is the range `(x, x)`. */
  datatype Atom = Atom(ranges: seq<(char, char)>, min: nat, max: nat)

  predicate InClass(c: char, ranges: seq<(char, char)>)
    decreases |ranges|
  {
    |ranges| > 0 && (ranges[0].0 <= c <= ranges[0].1 || InClass(c, ranges[1..]))
  }

  predicate AllInClass(s: string, ranges: seq<(char, char)>) {
    forall i :: 0 <= i < |s| ==> InClass(s[i], ranges)
  }

  /** `re` matches the whole of `s` (`^...$`). */
  predicate FullMatch(atoms: seq<Atom>, s: string)
    decreases |atoms|
  {
    if atoms == [] then s == []
    else exists k :: atoms[0].min <= k <= atoms[0].max && k <= |s|
                     && AllInClass(s[..k], atoms[0].ranges) && FullMatch(atoms[1..], s[k..])
  }

  const LOWER: seq<(char, char)> := [('a', 'z')]
  const LOWER_DIGIT: seq<(char, char)> := [('a', 'z'), ('0', '9')]
  const LOWER_DIGIT_HYPHEN: seq<(char, char)> := [('a', 'z'), ('0', '9'), ('-', '-')]

  /** `^[a-z][a-z0-9-]{0,61}[a-z0-9]$`, used by `transcribe` and `upload_file`. */
  const ORG_PATTERN: seq<Atom> :=
    [Atom(LOWER, 1, 1), Atom(LOWER_DIGIT_HYPHEN, 0, 61), Atom(LOWER_DIGIT, 1, 1)]

  /** The class `[a-z0-61}[a-z0-9]` of `sign_url`'s pattern: Python reads the `[`
      inside it as a literal, so the class is a-z, 0-6, 1, `}`, `[`, a-z, 0-9. */
  const MALFORMED_CLASS: seq<(char, char)> :=
    [('a', 'z'), ('0', '6'), ('1', '1'), ('}', '}'), ('[', '['), ('a', 'z'), ('0', '9')]

  /** `^[a-z][a-z0-61}[a-z0-9]$`, the pattern `sign_url` writes. */
  const SIGN_URL_PATTERN_AS_WRITTEN: seq<Atom> := [Atom(LOWER, 1, 1), Atom(MALFORMED_CLASS, 1, 1)]

  predicate IsLower(c: char) { 'a' <= c <= 'z' }
  predicate IsDigit(c: char) { '0' <= c <= '9' }

  /** The organisation-name rule in plain words: 2 to 63 characters, a lower-case
      first letter, lower-case letters, digits or hyphens in between, and a
      lower-case letter or digit at the end. */
  predicate OrgNameShape(s: string) {
    && 2 <= |s| <= 63
    && IsLower(s[0])
    && (forall i :: 1 <= i < |s| - 1 ==> IsLower(s[i]) || IsDigit(s[i]) || s[i] == '-')
    && (IsLower(s[|s| - 1]) || IsDigit(s[|s| - 1]))
  }

  /** The validator chain of `transcribe` and `upload_file`. */
  predicate ValidOrgName(s: string) {
    2 <= |s| <= 63 && FullMatch(ORG_PATTERN, s)
  }

  /** The validator chain of `sign_url`, with its malformed pattern. */
  predicate SignUrlOrgNameAsWritten(s: string) {
    2 <= |s| <= 63 && FullMatch(SIGN_URL_PATTERN_AS_WRITTEN, s)
  }

  lemma LowerClass(c: char)
    ensures InClass(c, LOWER) <==> IsLower(c)
  {
    assert LOWER[1..] == [];
  }

  lemma LowerDigitClass(c: char)
    ensures InClass(c, LOWER_DIGIT) <==> IsLower(c) || IsDigit(c)
  {
    assert LOWER_DIGIT[1..] == [('0', '9')];
    assert LOWER_DIGIT[1..][1..] == [];
  }

  lemma LowerDigitHyphenClass(c: char)
    ensures InClass(c, LOWER_DIGIT_HYPHEN) <==> IsLower(c) || IsDigit(c) || c == '-'
  {
    var r := LOWER_DIGIT_HYPHEN;
    assert r[1..] == [('0', '9'), ('-', '-')];
    assert r[1..][1..] == [('-', '-')];
    assert r[1..][1..][1..] == [];
  }

  lemma MalformedClass(c: char)
    ensures InClass(c, MALFORMED_CLASS) <==> IsLower(c) || IsDigit(c) || c == '}' || c == '['
  {
    var r := MALFORMED_CLASS;
    assert r[1..] == [('0', '6'), ('1', '1'), ('}', '}'), ('[', '['), ('a', 'z'), ('0', '9')];
    assert r[1..][1..] == [('1', '1'), ('}', '}'), ('[', '['), ('a', 'z'), ('0', '9')];
    assert r[1..][1..][1..] == [('}', '}'), ('[', '['), ('a', 'z'), ('0', '9')];
    assert r[1..][1..][1..][1..] == [('[', '['), ('a', 'z'), ('0', '9')];
    assert r[1..][1..][1..][1..][1..] == [('a', 'z'), ('0', '9')];
    assert r[1..][1..][1..][1..][1..][1..] == [('0', '9')];
    assert r[1..][1..][1..][1..][1..][1..][1..] == [];
  }

  /** A pattern of one atom that occurs exactly once matches exactly the
      one-character strings of its class. */
  lemma {:induction false} SingleAtom(ranges: seq<(char, char)>, s: string)
    ensures FullMatch([Atom(ranges, 1, 1)], s) <==> |s| == 1 && InClass(s[0], ranges)
  {
    var atoms := [Atom(ranges, 1, 1)];
    assert atoms[1..] == [];
    if |s| == 1 && InClass(s[0], ranges) {
      assert s[1..] == [];
      assert AllInClass(s[..1], ranges) && FullMatch(atoms[1..], s[1..]);
    }
  }

  /** What the org-name pattern accepts is of the plain-words shape. */
  lemma OrgPatternSound(s: string)
    requires FullMatch(ORG_PATTERN, s)
    ensures OrgNameShape(s)
  {
    var tail := ORG_PATTERN[1..];
    assert tail[1..] == [Atom(LOWER_DIGIT, 1, 1)];
    var k1 :| 1 <= k1 <= 1 && k1 <= |s| && AllInClass(s[..k1], LOWER) && FullMatch(tail, s[k1..]);
    var t := s[1..];
    assert k1 == 1 && t == s[k1..];
    LowerClass(s[0]);
    assert s[..1][0] == s[0];
    var k2 :| 0 <= k2 <= 61 && k2 <= |t| && AllInClass(t[..k2], LOWER_DIGIT_HYPHEN) && FullMatch(tail[1..], t[k2..]);
    SingleAtom(LOWER_DIGIT, t[k2..]);
    assert |s| == 2 + k2;
    forall i | 1 <= i < |s| - 1
      ensures IsLower(s[i]) || IsDigit(s[i]) || s[i] == '-'
    {
      assert s[i] == t[..k2][i - 1];
      LowerDigitHyphenClass(s[i]);
    }
    assert s[|s| - 1] == t[k2..][0];
    LowerDigitClass(s[|s| - 1]);
  }

  /** Every name of the plain-words shape is accepted by the org-name pattern. */
  lemma OrgPatternComplete(s: string)
    requires OrgNameShape(s)
    ensures FullMatch(ORG_PATTERN, s)
  {
    var tail := ORG_PATTERN[1..];
    assert tail[1..] == [Atom(LOWER_DIGIT, 1, 1)];
    var t := s[1..];
    var k2 := |s| - 2;
    forall i | 0 <= i < k2
      ensures InClass(t[..k2][i], LOWER_DIGIT_HYPHEN)
    {
      assert t[..k2][i] == s[i + 1];
      LowerDigitHyphenClass(s[i + 1]);
    }
    LowerDigitClass(s[|s| - 1]);
    assert t[k2..] == [s[|s| - 1]];
    SingleAtom(LOWER_DIGIT, t[k2..]);
    assert FullMatch(tail[1..], t[k2..]);
    assert FullMatch(tail, t);
    LowerClass(s[0]);
    assert AllInClass(s[..1], LOWER);
    assert s[1..] == t;
  }

  /** The org-name pattern accepts exactly the names of the plain-words rule. */
  lemma OrgPatternMeaning(s: string)
    ensures FullMatch(ORG_PATTERN, s) <==> OrgNameShape(s)
  {
    if FullMatch(ORG_PATTERN, s) {
      OrgPatternSound(s);
    }
    if OrgNameShape(s) {
      OrgPatternComplete(s);
    }
  }

  /** The length bounds of the validator chain are implied by its pattern. */
  lemma ValidOrgNameMeaning(s: string)
    ensures ValidOrgName(s) <==> OrgNameShape(s)
  {
    OrgPatternMeaning(s);
  }

  /** `sign_url`'s pattern matches two-character strings only: a lower-case
      letter followed by a lower-case letter, a digit, `}` or `[`. */
  lemma SignUrlPatternMeaning(s: string)
    ensures SignUrlOrgNameAsWritten(s) <==>
              |s| == 2 && IsLower(s[0]) && (IsLower(s[1]) || IsDigit(s[1]) || s[1] == '}' || s[1] == '[')
  {
    var p := SIGN_URL_PATTERN_AS_WRITTEN;
    assert p[1..] == [Atom(MALFORMED_CLASS, 1, 1)];
    if FullMatch(p, s) {
      var k :| 1 <= k <= 1 && k <= |s| && AllInClass(s[..k], LOWER) && FullMatch(p[1..], s[k..]);
      SingleAtom(MALFORMED_CLASS, s[1..]);
      assert s[..1][0] == s[0];
      LowerClass(s[0]);
      MalformedClass(s[1]);
    }
    if |s| == 2 && IsLower(s[0]) && (IsLower(s[1]) || IsDigit(s[1]) || s[1] == '}' || s[1] == '[') {
      LowerClass(s[0]);
      MalformedClass(s[1]);
      assert s[1..] == [s[1]];
      SingleAtom(MALFORMED_CLASS, s[1..]);
      assert AllInClass(s[..1], LOWER);
    }
  }

  /** One name the rule accepts, and three it rejects: an upper-case letter, a
      single character, a leading hyphen. */
  lemma OrgNameExamples()
    ensures ValidOrgName("salad-1")
    ensures !ValidOrgName("Salad") && !ValidOrgName("s") && !ValidOrgName("-salad")
  {
    ValidOrgNameMeaning("salad-1");
    ValidOrgNameMeaning("Salad");
    ValidOrgNameMeaning("s");
    ValidOrgNameMeaning("-salad");
  }

  /** The defect of `sign_url`'s pattern: a valid organisation name that it
      rejects, and a string it accepts that is no organisation name. */
  lemma SignUrlPatternRejectsValidNames()
    ensures ValidOrgName("salad-1") && !SignUrlOrgNameAsWritten("salad-1")
    ensures SignUrlOrgNameAsWritten("a}") && !ValidOrgName("a}")
  {
    OrgNameExamples();
    SignUrlPatternMeaning("salad-1");
    SignUrlPatternMeaning("a}");
    ValidOrgNameMeaning("a}");
  }
}
