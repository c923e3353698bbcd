/** The stand-alone validators of `utils_validators.py`: Russian names, e-mail,
    the `+7` phone format and password strength. */
module UtilsValidators {

  import opened Wrappers
  import opened Text
  import opened Patterns

  /** Why a name is rejected, in the order the checks run. */
  datatype NameProblem = Blank | NotCyrillic | TooShort | TooLong

  /** A stripped string never ends in "\n", so `$` adds nothing after `strip()`. */
  lemma DollarOnStripped(t: string, p: string -> bool)
    requires t != [] ==> !IsSpace(t[|t| - 1])
    ensures DollarMatch(t, p) == p(t)
  {
    if |t| > 0 { assert IsSpace('\n'); }
  }

  /** `validate_russian_name`: `None` when the name is accepted. Every check
      looks at the stripped name, and the alphabet is checked before the length. */
  function ValidateRussianName(name: string): (problem: Option<NameProblem>)
    ensures problem == None <==> CyrillicWord(Strip(name)) && 2 <= |Strip(name)| <= 50
    ensures problem == Some(Blank) <==> Strip(name) == ""
    ensures problem == Some(NotCyrillic) <==> Strip(name) != "" && !CyrillicWord(Strip(name))
    ensures problem == Some(TooShort) <==> CyrillicWord(Strip(name)) && |Strip(name)| < 2
    ensures problem == Some(TooLong) <==> CyrillicWord(Strip(name)) && |Strip(name)| > 50
  {
    var t := Strip(name);
    DollarOnStripped(t, CyrillicWord);
    if name == "" || t == "" then Some(Blank)
    else if !DollarMatch(t, CyrillicWord) then Some(NotCyrillic)
    else if |t| < 2 then Some(TooShort)
    else if |t| > 50 then Some(TooLong)
    else None
  }

  /** Names the project's own tests accept: plain, hyphenated and with Ё. */
  lemma AcceptedNames(plain: string, hyphenated: string, withYo: string)
    requires plain == "Иван" && hyphenated == "Анна-Мария" && withYo == "Ёлкин"
    ensures ValidateRussianName(plain) == None
    ensures ValidateRussianName(hyphenated) == None
    ensures ValidateRussianName(withYo) == None
  {
    PlainAccepted(plain);
    HyphenatedAccepted(hyphenated);
    YoAccepted(withYo);
  }

  lemma PlainAccepted(plain: string)
    requires plain == "Иван"
    ensures ValidateRussianName(plain) == None
  {
    StripUnpadded(plain);
  }

  lemma HyphenatedAccepted(hyphenated: string)
    requires hyphenated == "Анна-Мария"
    ensures ValidateRussianName(hyphenated) == None
  {
    StripUnpadded(hyphenated);
  }

  lemma YoAccepted(withYo: string)
    requires withYo == "Ёлкин"
    ensures ValidateRussianName(withYo) == None
  {
    StripUnpadded(withYo);
  }

  /** Names the tests reject: Latin letters, digits, the empty name, and a
      single Cyrillic letter, which passes the alphabet check and is too short. */
  lemma RejectedNames(latin: string, digits: string, empty: string, single: string)
    requires latin == "John" && digits == "Иван123" && empty == "" && single == "А"
    ensures ValidateRussianName(latin) == Some(NotCyrillic)
    ensures ValidateRussianName(digits) == Some(NotCyrillic)
    ensures ValidateRussianName(empty) == Some(Blank)
    ensures ValidateRussianName(single) == Some(TooShort)
  {
    LatinRejected(latin);
    DigitsRejected(digits);
    SingleRejected(single);
  }

  lemma LatinRejected(latin: string)
    requires latin == "John"
    ensures ValidateRussianName(latin) == Some(NotCyrillic)
  {
    StripUnpadded(latin);
    assert !IsCyrillicLetter(latin[0]);
  }

  lemma DigitsRejected(digits: string)
    requires digits == "Иван123"
    ensures ValidateRussianName(digits) == Some(NotCyrillic)
  {
    StripUnpadded(digits);
    assert !IsCyrillicLetter(digits[4]);
  }

  lemma SingleRejected(single: string)
    requires single == "А"
    ensures ValidateRussianName(single) == Some(TooShort)
  {
    StripUnpadded(single);
  }

  /** `validate_email`: an empty address is accepted, any other must match the
      pattern, where `$` also lets one final "\n" through. */
  function ValidateEmail(email: string): (ok: bool)
    ensures email == "" ==> ok
    ensures ok && email != "" ==> EmailShape(email) || (email[|email| - 1] == '\n' && EmailShape(email[..|email| - 1]))
    ensures EmailShape(email) ==> ok
    ensures ok <==> email == "" || EmailShape(email) || (email[|email| - 1] == '\n' && EmailShape(email[..|email| - 1]))
  {
    email == "" || DollarMatch(email, EmailShape)
  }

  /** An address without a line break is accepted exactly when it is empty or
      when the first `@` and the last dot cut it into the pattern's parts. */
  lemma EmailVerdict(email: string)
    requires '\n' !in email
    ensures ValidateEmail(email) <==> email == "" || EmailScan(email)
  {
    EmailScanAgrees(email);
  }

  /** The tests' addresses: a plain address and the empty one pass, a word
      without `@` and an address without a domain fail. */
  lemma EmailExamples(plain: string, empty: string, noAt: string, noDomain: string)
    requires plain == "test@example.com" && empty == "" && noAt == "invalid-email" && noDomain == "test@"
    ensures ValidateEmail(plain) && ValidateEmail(empty)
    ensures !ValidateEmail(noAt) && !ValidateEmail(noDomain)
  {
    PlainEmailAccepted(plain);
    NoAtRejected(noAt);
    NoDomainRejected(noDomain);
  }

  lemma PlainEmailAccepted(plain: string)
    requires plain == "test@example.com"
    ensures ValidateEmail(plain)
  {
    assert EmailParts(plain, 4, 12);
  }

  lemma NoAtRejected(noAt: string)
    requires noAt == "invalid-email"
    ensures !ValidateEmail(noAt)
  {
    EmailVerdict(noAt);
    assert '@' !in noAt;
  }

  lemma NoDomainRejected(noDomain: string)
    requires noDomain == "test@"
    ensures !ValidateEmail(noDomain)
  {
    EmailVerdict(noDomain);
    assert '.' !in noDomain;
  }

  /** `validate_phone`: an empty number is accepted, any other must be `+7`
      and ten digits (and `$` lets one final "\n" through). */
  function ValidatePhone(phone: string): (ok: bool)
    ensures phone == "" ==> ok
    ensures ok && phone != "" ==> |phone| >= 12 && phone[..2] == "+7" && (|phone| == 12 || (|phone| == 13 && phone[12] == '\n'))
    ensures RuPhone(phone) ==> ok
    ensures ok <==> phone == "" || (12 <= |phone| <= 13 && phone[..2] == "+7" && IsDigits(phone[2..12]) && (|phone| == 13 ==> phone[12] == '\n'))
  {
    PhoneShape(phone);
    phone == "" || DollarMatch(phone, RuPhone)
  }

  /** The `+7\d{10}$` pattern spelled out: `+7`, ten digits and at most one final "\n". */
  lemma PhoneShape(phone: string)
    ensures DollarMatch(phone, RuPhone) <==>
      12 <= |phone| <= 13 && phone[..2] == "+7" && IsDigits(phone[2..12]) && (|phone| == 13 ==> phone[12] == '\n')
  {
    if |phone| == 12 {
      assert phone[2..] == phone[2..12];
    } else if |phone| == 13 {
      assert phone[..12][2..] == phone[2..12];
    }
    if 12 <= |phone| {
      assert phone[..2] == "+7" <==> phone[0] == '+' && phone[1] == '7';
    }
  }

  // ---------------------------------------------------------------------
  // Passwords

  /** The failed checks `validate_password` reports, in the order it checks. */
  datatype PasswordProblem = ShortPassword | NoUppercase | NoDigit | NoSpecial

  function Rank(p: PasswordProblem): nat {
    match p
    case ShortPassword => 0
    case NoUppercase => 1
    case NoDigit => 2
    case NoSpecial => 3
  }

  predicate InCheckOrder(errors: seq<PasswordProblem>) {
    forall i, j | 0 <= i < j < |errors| :: Rank(errors[i]) < Rank(errors[j])
  }

  /** `validate_password`: every check runs, each failure is appended once, and
      the password is accepted exactly when nothing failed. */
  method ValidatePassword(password: string) returns (ok: bool, errors: seq<PasswordProblem>)
    ensures ok <==> errors == []
    ensures ShortPassword in errors <==> |password| < 8
    ensures NoUppercase in errors <==> !HasChar(password, IsAsciiUpper)
    ensures NoDigit in errors <==> !HasChar(password, IsDigit)
    ensures NoSpecial in errors <==> !HasChar(password, IsSpecialChar)
    ensures InCheckOrder(errors)
  {
    errors := [];
    errors := Flag(errors, |password| < 8, ShortPassword);
    errors := Flag(errors, !HasChar(password, IsAsciiUpper), NoUppercase);
    errors := Flag(errors, !HasChar(password, IsDigit), NoDigit);
    errors := Flag(errors, !HasChar(password, IsSpecialChar), NoSpecial);
    ok := |errors| == 0;
  }

  /** `errors.append(p)` when the check `failed`, after problems of lower rank. */
  method Flag(errors: seq<PasswordProblem>, failed: bool, p: PasswordProblem) returns (r: seq<PasswordProblem>)
    requires forall x | x in errors :: Rank(x) < Rank(p)
    requires InCheckOrder(errors)
    ensures forall x :: x in r <==> x in errors || (failed && x == p)
    ensures forall x | x in r :: Rank(x) <= Rank(p)
    ensures InCheckOrder(r)
  {
    r := errors;
    if failed {
      r := r + [p];
    }
  }
}
