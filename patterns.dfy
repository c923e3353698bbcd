/** The regular expressions the validators share, written as predicates.
    Each predicate states what its pattern accepts between `^` and `$`;
    `DollarMatch` adds what Python's `$` also accepts. */
module Patterns {

  import opened Wrappers
  import opened Text

  /** `re.match(r'^...$', s)`: Python's `$` also matches just before one final "\n". */
  predicate DollarMatch(s: string, p: string -> bool) {
    p(s) || (|s| > 0 && s[|s| - 1] == '\n' && p(s[..|s| - 1]))
  }

  /** `[А-ЯЁа-яё\-]+`. */
  predicate CyrillicWord(s: string) {
    |s| > 0 && forall i :: 0 <= i < |s| ==> IsCyrillicLetter(s[i]) || s[i] == '-'
  }

  /** `[a-zA-Z0-9._%+-]`. */
  predicate IsLocalChar(c: char) {
    IsAsciiLetter(c) || IsDigit(c) || c == '.' || c == '_' || c == '%' || c == '+' || c == '-'
  }

  /** `[a-zA-Z0-9.-]`. */
  predicate IsDomainChar(c: char) {
    IsAsciiLetter(c) || IsDigit(c) || c == '.' || c == '-'
  }

  /** The pieces of the e-mail pattern once `@` sits at `at` and the final dot at `dot`. */
  predicate EmailParts(s: string, at: int, dot: int) {
    && 0 < at && at + 1 < dot && dot + 2 < |s|
    && s[at] == '@' && s[dot] == '.'
    && (forall k | 0 <= k < at :: IsLocalChar(s[k]))
    && (forall k | at < k < dot :: IsDomainChar(s[k]))
    && (forall k | dot < k < |s| :: IsAsciiLetter(s[k]))
  }

  /** `[a-zA-Z0-9._%+-]+@[a-zA-Z0-9.-]+\.[a-zA-Z]{2,}`: a split of `s` into a
      non-empty local part, `@`, a non-empty domain, a dot and two or more letters. */
  predicate EmailShape(s: string) {
    exists at: int, dot: int | 0 <= at < |s| && 0 <= dot < |s| :: EmailParts(s, at, dot)
  }

  /** `\+7\d{10}`. */
  predicate RuPhone(s: string) {
    |s| == 12 && s[0] == '+' && s[1] == '7' && IsDigits(s[2..])
  }

  // ---------------------------------------------------------------------
  // An independent, scanning reading of the e-mail pattern

  function IndexOf(s: string, c: char): (r: Option<nat>)
    ensures r.Some? ==> r.value < |s| && s[r.value] == c && c !in s[..r.value]
    ensures r.None? ==> c !in s
  {
    if s == [] then None
    else if s[0] == c then Some(0)
    else
      match IndexOf(s[1..], c)
      case None => None
      case Some(i) => assert s[..i + 1] == [s[0]] + s[1..][..i]; Some(i + 1)
  }

  function LastIndexOf(s: string, c: char): (r: Option<nat>)
    ensures r.Some? ==> r.value < |s| && s[r.value] == c && c !in s[r.value + 1..]
    ensures r.None? ==> c !in s
  {
    if s == [] then None
    else if s[|s| - 1] == c then Some(|s| - 1)
    else
      match LastIndexOf(s[..|s| - 1], c)
      case None => None
      case Some(i) => assert s[i + 1..] == s[..|s| - 1][i + 1..] + [s[|s| - 1]]; Some(i)
  }

  /** Cut at the first `@` and at the last `.`, then check each part's alphabet. */
  predicate EmailScan(s: string) {
    match IndexOf(s, '@')
    case None => false
    case Some(at) =>
      match LastIndexOf(s, '.')
      case None => false
      case Some(dot) => EmailParts(s, at, dot)
  }

  /** The local part holds no `@` and the top-level domain no dot, so a match
      can only cut at the first `@` and the last dot. */
  lemma EmailPartsUnique(s: string, at: int, dot: int)
    requires EmailParts(s, at, dot)
    ensures IndexOf(s, '@') == Some(at as nat)
    ensures LastIndexOf(s, '.') == Some(dot as nat)
  {
    var a := IndexOf(s, '@');
    assert s[at] == '@';
    assert a.Some?;
    assert a.value >= at by { if a.value < at { assert false; } }
    assert a.value <= at by { if a.value > at { assert false; } }
    var d := LastIndexOf(s, '.');
    assert d.Some?;
    assert d.value <= dot by { if d.value > dot { assert false; } }
    assert d.value >= dot by { if d.value < dot { assert false; } }
  }

  /** The pattern and the scan accept the same strings. */
  lemma EmailScanAgrees(s: string)
    ensures EmailShape(s) <==> EmailScan(s)
  {
    if EmailShape(s) {
      var at: int, dot: int :| 0 <= at < |s| && 0 <= dot < |s| && EmailParts(s, at, dot);
      EmailPartsUnique(s, at, dot);
    }
    if EmailScan(s) {
      var at := IndexOf(s, '@').value;
      var dot := LastIndexOf(s, '.').value;
      assert EmailParts(s, at, dot);
    }
  }

  // ---------------------------------------------------------------------
  // Password character classes

  /** `[!@#$%^&*()_+\-=\[\]{};':"\\|,.<>/?]`. */
  predicate IsSpecialChar(c: char) {
    c in "!@#$%^&*()_+-=[]{};':\"\\|,.<>/?"
  }

  predicate HasChar(s: string, p: char -> bool) {
    exists i | 0 <= i < |s| :: p(s[i])
  }
}
