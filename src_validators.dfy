/** The validators of `src/utils/validators.py`, used by the full-name client
    store: a stripped e-mail pattern, a digit-count phone rule and a date
    reader that tries three formats in turn. */
module SrcValidators {

  import opened Wrappers
  import opened Text
  import opened Patterns
  import opened Dates

  /** `validate_email`: the address is stripped before matching. */
  function ValidateEmail(email: string): (ok: bool)
    ensures ok <==> EmailShape(Strip(email))
  {
    var t := Strip(email);
    assert t != [] ==> IsSpace('\n');
    DollarMatch(t, EmailShape)
  }

  function DigitOrNothing(c: char): string {
    if IsDigit(c) then [c] else []
  }

  /** `re.sub(r'\D', '', s)`: the digits of `s`, in order. */
  function DigitsOf(s: string): (d: string)
    ensures IsDigits(d) && |d| <= |s|
  {
    if s == [] then [] else DigitOrNothing(s[0]) + DigitsOf(s[1..])
  }

  lemma {:induction false} DigitsOfConcat(a: string, b: string)
    ensures DigitsOf(a + b) == DigitsOf(a) + DigitsOf(b)
  {
    if a != [] {
      assert (a + b)[0] == a[0];
      assert (a + b)[1..] == a[1..] + b;
      DigitsOfConcat(a[1..], b);
    } else {
      assert a + b == b;
    }
  }

  lemma {:induction false} DigitsOfDigits(s: string)
    requires IsDigits(s)
    ensures DigitsOf(s) == s
  {
    if s != [] {
      DigitsOfDigits(s[1..]);
    }
  }

  /** `validate_phone`: 10 to 15 digits once every other character is dropped. */
  function ValidatePhone(phone: string): (ok: bool)
    ensures ok ==> 10 <= |phone|
  {
    10 <= |DigitsOf(phone)| <= 15
  }

  /** Separators, brackets and `+` never change the verdict on a phone number. */
  lemma SeparatorIgnored(a: string, c: char, b: string)
    requires !IsDigit(c)
    ensures ValidatePhone(a + [c] + b) == ValidatePhone(a + b)
  {
    DigitsOfConcat(a + [c], b);
    DigitsOfConcat(a, [c]);
    DigitsOfConcat(a, b);
    assert DigitsOf([c]) == [] + DigitsOf([]);
  }

  /** A number written in digits alone is accepted exactly when it has 10 to 15 of them. */
  lemma DigitsOnlyPhone(phone: string)
    requires IsDigits(phone)
    ensures ValidatePhone(phone) <==> 10 <= |phone| <= 15
  {
    DigitsOfDigits(phone);
  }

  /** Two of the unit tests' numbers: a six-digit number fails, and a
      twelve-digit one passes although the tests expect it to be refused as
      too long. */
  lemma PhoneExamples(short: string, twelve: string)
    requires short == "123456" && twelve == "+791612345678"
    ensures !ValidatePhone(short)
    ensures ValidatePhone(twelve)
  {
    DigitsOfDigits(short);
    assert twelve == [] + ['+'] + twelve[1..];
    SeparatorIgnored([], '+', twelve[1..]);
    DigitsOnlyPhone(twelve[1..]);
  }

  /** The formats `validate_date` tries, in order. */
  const DateFormats: seq<Format> := [IsoDash, DottedDay, SlashedDay]

  /** The first of `formats` that reads `t`. */
  function FirstParse(t: string, formats: seq<Format>): (r: Option<CalendarDate>)
    ensures r.None? <==> forall k | 0 <= k < |formats| :: Parse(t, formats[k]).None?
    ensures r.Some? ==> exists k | 0 <= k < |formats| :: Parse(t, formats[k]) == r
  {
    if formats == [] then None
    else if Parse(t, formats[0]).Some? then Parse(t, formats[0])
    else
      var rest := FirstParse(t, formats[1..]);
      assert forall k | 1 <= k < |formats| :: formats[k] == formats[1..][k - 1];
      rest
  }

  /** `validate_date`: the stripped text read by the first format that fits;
      `None` is the `ValueError` raised when none does. */
  function ValidateDate(text: string): (r: Option<CalendarDate>)
    ensures r.None? <==> forall f: Format :: Parse(Strip(text), f).None?
    ensures r.Some? ==> exists f: Format :: Parse(Strip(text), f) == r
  {
    var r := FirstParse(Strip(text), DateFormats);
    assert forall f: Format :: f == DateFormats[FormatIndex(f)];
    r
  }

  function FormatIndex(f: Format): (k: nat)
    ensures k < 3
  {
    match f
    case IsoDash => 0
    case DottedDay => 1
    case SlashedDay => 2
  }

  /** A date written in any of the three formats is read back as that date. */
  lemma ValidateDateRender(d: CalendarDate, f: Format)
    ensures ValidateDate(Render(d, f)) == Some(d)
  {
    var s := Render(d, f);
    RenderParse(d, f);
    assert IsDigit(s[0]) && IsDigit(s[|s| - 1]);
    StripUnpadded(s);
    forall g: Format | Parse(s, g).Some? ensures g == f {
      FormatsExclusive(s, f, g);
    }
  }
}
