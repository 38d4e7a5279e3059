/** The pure part of the sign-up page: the password constraints, the character
    classes, the predicate behind each check, the error messages and the
    validator that reports the first check the form fails. */
module PasswordRules {

  /** Password length bounds, in characters. */
  const MaxLength: nat := 16
  const MinLength: nat := 8

  /** "A" to "Z", built from the character codes 65 + i. */
  const UppercaseLetters: seq<char> := seq(26, i requires 0 <= i < 26 => (65 + i) as char)

  /** "a" to "z", built from the character codes 97 + i. */
  const LowercaseLetters: seq<char> := seq(26, i requires 0 <= i < 26 => (97 + i) as char)

  /** "0" to "9", the decimal renderings of 0 .. 9. */
  const Digits: seq<char> := seq(10, i requires 0 <= i < 10 => ('0' as int + i) as char)

  /** The thirty characters a password may use as its special character. */
  const SpecialCharacters: seq<char> :=
    [ '!', '@', '#', '$', '%', '^', '&', '*', '(', ')',
      '-', '_', '=', '+', '[', ']', '{', '}', '|', '\\',
      ':', ';', '"', '\'', '<', '>', ',', '.', '?', '/' ]

  // ---------------------------------------------------------------------------
  // The predicates behind the checks
  // ---------------------------------------------------------------------------

  predicate HasEmail(email: string) { email != "" }

  predicate HasPwd(password: string) { password != "" }

  predicate DoesPwdMatch(password: string, confirmed: string) { password == confirmed }

  /** The page calls this one "too short", but it holds when the password is long enough. */
  predicate MeetsMinLength(pwd: string) { |pwd| >= MinLength }

  /** The page calls this one "too long", but it holds when the password is short enough. */
  predicate MeetsMaxLength(pwd: string) { |pwd| <= MaxLength }

  /** Whether some character of s satisfies p, scanning from the left as `some` does. */
  function SomeChar(s: seq<char>, p: char -> bool): bool
  {
    if s == [] then false else p(s[0]) || SomeChar(s[1..], p)
  }

  /** `containsNumber`: some character is a digit 0-9. */
  predicate ContainsNumber(pwd: string)
    ensures ContainsNumber(pwd) <==> exists i :: 0 <= i < |pwd| && '0' <= pwd[i] <= '9'
  {
    DigitsAreZeroToNine();
    SomeCharExists(pwd, ch => ch in Digits);
    SomeChar(pwd, ch => ch in Digits)
  }

  /** `containsLowercase`: some character is a letter a-z. */
  predicate ContainsLowercase(pwd: string)
    ensures ContainsLowercase(pwd) <==> exists i :: 0 <= i < |pwd| && 'a' <= pwd[i] <= 'z'
  {
    LowercaseLettersAreAToZ();
    SomeCharExists(pwd, ch => ch in LowercaseLetters);
    SomeChar(pwd, ch => ch in LowercaseLetters)
  }

  /** `containsUppercase`: some character is a letter A-Z. */
  predicate ContainsUppercase(pwd: string)
    ensures ContainsUppercase(pwd) <==> exists i :: 0 <= i < |pwd| && 'A' <= pwd[i] <= 'Z'
  {
    UppercaseLettersAreAToZ();
    SomeCharExists(pwd, ch => ch in UppercaseLetters);
    SomeChar(pwd, ch => ch in UppercaseLetters)
  }

  /** Printable ASCII punctuation other than backquote and tilde, as four code ranges. */
  predicate IsAsciiPunctuation(c: char)
  {
    '!' <= c <= '/' || ':' <= c <= '@' || '[' <= c <= '_' || '{' <= c <= '}'
  }

  /** `containsSpecial`: some character is one of the thirty listed punctuation characters. */
  predicate ContainsSpecial(pwd: string)
    ensures ContainsSpecial(pwd) <==>
      exists i :: 0 <= i < |pwd| && IsAsciiPunctuation(pwd[i])
  {
    SpecialCharactersArePunctuation();
    SomeCharExists(pwd, ch => ch in SpecialCharacters);
    SomeChar(pwd, ch => ch in SpecialCharacters)
  }

  // ---------------------------------------------------------------------------
  // Errors and their messages
  // ---------------------------------------------------------------------------

  /** One error per check, in the order the checks are made. */
  datatype SignUpError =
    | MissingEmail
    | MissingPwd
    | PwdUnmatched
    | TooShortPwd
    | TooLongPwd
    | MissingNumber
    | MissingLowercase
    | MissingUppercase
    | MissingSpecial

  function ErrorMsg(e: SignUpError): (m: string)
    ensures m != ""
  {
    match e
    case MissingEmail => "Missing email"
    case MissingPwd => "Missing password"
    case PwdUnmatched => "Passwords do not match"
    case TooShortPwd => "Password needs at least 8 characters"
    case TooLongPwd => "Password cannot have more than 16 characters"
    case MissingNumber => "Password requires at least a number"
    case MissingLowercase => "Password requires at least a lowercase character"
    case MissingUppercase => "Password requires at least an uppercase character"
    case MissingSpecial => "Password requires at least a special character"
  }

  /** Position of a check in the chain: 0 is made first. */
  function Rank(e: SignUpError): (n: nat)
    ensures n < 9
  {
    match e
    case MissingEmail => 0
    case MissingPwd => 1
    case PwdUnmatched => 2
    case TooShortPwd => 3
    case TooLongPwd => 4
    case MissingNumber => 5
    case MissingLowercase => 6
    case MissingUppercase => 7
    case MissingSpecial => 8
  }

  /** Whether the form passes the check whose failure is reported as e. */
  predicate Passes(e: SignUpError, email: string, password: string, confirmed: string)
  {
    match e
    case MissingEmail => HasEmail(email)
    case MissingPwd => HasPwd(password)
    case PwdUnmatched => DoesPwdMatch(password, confirmed)
    case TooShortPwd => MeetsMinLength(password)
    case TooLongPwd => MeetsMaxLength(password)
    case MissingNumber => ContainsNumber(password)
    case MissingLowercase => ContainsLowercase(password)
    case MissingUppercase => ContainsUppercase(password)
    case MissingSpecial => ContainsSpecial(password)
  }

  // ---------------------------------------------------------------------------
  // The verdict and the validator
  // ---------------------------------------------------------------------------

  datatype Verdict = Accept | Reject(error: SignUpError)

  /** The text the page shows for a verdict: nothing on acceptance, else the message. */
  function ErrorText(v: Verdict): string
  {
    match v
    case Accept => ""
    case Reject(e) => ErrorMsg(e)
  }

  /** The chain of checks over the three form fields: the first failing one is reported. */
  function Validate(email: string, password: string, confirmed: string): (v: Verdict)
    ensures v.Accept? ==> forall e :: Passes(e, email, password, confirmed)
    ensures v.Reject? ==> !Passes(v.error, email, password, confirmed)
    ensures v.Reject? ==> forall e :: Rank(e) < Rank(v.error) ==> Passes(e, email, password, confirmed)
  {
    if !HasEmail(email) then Reject(MissingEmail)
    else if !HasPwd(password) then Reject(MissingPwd)
    else if !DoesPwdMatch(password, confirmed) then Reject(PwdUnmatched)
    else if !MeetsMinLength(password) then Reject(TooShortPwd)
    else if !MeetsMaxLength(password) then Reject(TooLongPwd)
    else if !ContainsNumber(password) then Reject(MissingNumber)
    else if !ContainsLowercase(password) then Reject(MissingLowercase)
    else if !ContainsUppercase(password) then Reject(MissingUppercase)
    else if !ContainsSpecial(password) then Reject(MissingSpecial)
    else Accept
  }

  // ---------------------------------------------------------------------------
  // The `some` scan and the character classes, literally
  // ---------------------------------------------------------------------------

  /** `some` over the characters holds exactly when some position satisfies p. */
  lemma {:induction false} SomeCharExists(s: seq<char>, p: char -> bool)
    ensures SomeChar(s, p) <==> exists i :: 0 <= i < |s| && p(s[i])
  {
    if s != [] {
      SomeCharExists(s[1..], p);
      if exists i :: 0 <= i < |s[1..]| && p(s[1..][i]) {
        var i :| 0 <= i < |s[1..]| && p(s[1..][i]);
        assert p(s[i + 1]);
      }
      if exists i :: 0 <= i < |s| && p(s[i]) {
        var i :| 0 <= i < |s| && p(s[i]);
        if i > 0 {
          assert p(s[1..][i - 1]);
        }
      }
    }
  }

  lemma DigitsAreZeroToNine()
    ensures forall c :: c in Digits <==> '0' <= c <= '9'
  {
    forall c | '0' <= c <= '9'
      ensures c in Digits
    {
      assert Digits[c as int - '0' as int] == c;
    }
  }

  lemma LowercaseLettersAreAToZ()
    ensures forall c :: c in LowercaseLetters <==> 'a' <= c <= 'z'
  {
    forall c | 'a' <= c <= 'z'
      ensures c in LowercaseLetters
    {
      assert LowercaseLetters[c as int - 97] == c;
    }
  }

  lemma UppercaseLettersAreAToZ()
    ensures forall c :: c in UppercaseLetters <==> 'A' <= c <= 'Z'
  {
    forall c | 'A' <= c <= 'Z'
      ensures c in UppercaseLetters
    {
      assert UppercaseLetters[c as int - 65] == c;
    }
  }

  /** The special list is the printable ASCII punctuation other than backquote and tilde. */
  lemma SpecialCharactersArePunctuation()
    ensures forall c :: c in SpecialCharacters <==> IsAsciiPunctuation(c)
  {
  }

  /** The special list holds thirty entries; space, tilde and backquote are not among them. */
  lemma SpecialCharactersAreThirty()
    ensures |SpecialCharacters| == 30
    ensures ' ' !in SpecialCharacters && '~' !in SpecialCharacters && '`' !in SpecialCharacters
  {
    SpecialCharactersArePunctuation();
  }

  /** No character counts for two classes. */
  lemma ClassesAreDisjoint(c: char)
    ensures c in Digits ==> c !in LowercaseLetters && c !in UppercaseLetters && c !in SpecialCharacters
    ensures c in LowercaseLetters ==> c !in UppercaseLetters && c !in SpecialCharacters
    ensures c in UppercaseLetters ==> c !in SpecialCharacters
  {
  }

  /** Every class is made of ASCII characters, so a non-ASCII character counts for none. */
  lemma NonAsciiCountsForNoClass(c: char)
    requires c as int >= 128
    ensures c !in Digits && c !in LowercaseLetters && c !in UppercaseLetters && c !in SpecialCharacters
  {
  }

  // ---------------------------------------------------------------------------
  // Properties of the messages
  // ---------------------------------------------------------------------------

  /** Each check has its own message. */
  lemma ErrorMsgInjective(e1: SignUpError, e2: SignUpError)
    ensures ErrorMsg(e1) == ErrorMsg(e2) ==> e1 == e2
  {
  }

  /** The shown text is empty exactly on acceptance. */
  lemma ErrorTextEmptyIffAccept(v: Verdict)
    ensures ErrorText(v) == "" <==> v == Accept
  {
  }

  // ---------------------------------------------------------------------------
  // Properties of the validator
  // ---------------------------------------------------------------------------

  /** The form is accepted exactly when it passes every check. */
  lemma ValidateAcceptsIffAllPass(email: string, password: string, confirmed: string)
    ensures Validate(email, password, confirmed) == Accept <==> forall e :: Passes(e, email, password, confirmed)
  {
  }

  /** The reported error is the one failing check that every earlier check passes: there is exactly one. */
  lemma ReportsTheFirstFailure(email: string, password: string, confirmed: string, e: SignUpError)
    requires !Passes(e, email, password, confirmed)
    requires forall e' :: Rank(e') < Rank(e) ==> Passes(e', email, password, confirmed)
    ensures Validate(email, password, confirmed) == Reject(e)
  {
  }

  /** An empty email is reported whatever the password fields hold. */
  lemma EmptyEmailIsReported(password: string, confirmed: string)
    ensures Validate("", password, confirmed) == Reject(MissingEmail)
  {
  }

  /** A mismatch is reported before any length or character-class check. */
  lemma MismatchIsReportedBeforeStrength(email: string, password: string, confirmed: string)
    requires email != "" && password != "" && password != confirmed
    ensures Validate(email, password, confirmed) == Reject(PwdUnmatched)
  {
  }

  lemma SevenCharactersAreTooShort(email: string, password: string)
    requires email != "" && |password| == 7
    ensures Validate(email, password, password) == Reject(TooShortPwd)
  {
  }

  lemma SeventeenCharactersAreTooLong(email: string, password: string)
    requires email != "" && |password| == 17
    ensures Validate(email, password, password) == Reject(TooLongPwd)
  {
  }

  /** Acceptance, with every character class written out as its range or list. */
  lemma AcceptedExactlyWhen(email: string, password: string, confirmed: string)
    ensures Validate(email, password, confirmed) == Accept <==>
      && email != ""
      && password == confirmed
      && MinLength <= |password| <= MaxLength
      && (exists i :: 0 <= i < |password| && '0' <= password[i] <= '9')
      && (exists i :: 0 <= i < |password| && 'a' <= password[i] <= 'z')
      && (exists i :: 0 <= i < |password| && 'A' <= password[i] <= 'Z')
      && (exists i :: 0 <= i < |password| && password[i] in SpecialCharacters)
  {
    SpecialCharactersArePunctuation();
  }

  lemma AcceptedExample()
    ensures Validate("user@example.com", "Passw0rd!", "Passw0rd!") == Accept
  {
    var pwd := "Passw0rd!";
    assert '0' <= pwd[5] <= '9' && 'a' <= pwd[1] <= 'z' && 'A' <= pwd[0] <= 'Z';
    assert IsAsciiPunctuation(pwd[8]);
  }

  /** A tilde does not count as the special character. */
  lemma TildeIsNotSpecial()
    ensures Validate("user@example.com", "Passw0rd~", "Passw0rd~") == Reject(MissingSpecial)
  {
    var pwd := "Passw0rd~";
    assert '0' <= pwd[5] <= '9' && 'a' <= pwd[1] <= 'z' && 'A' <= pwd[0] <= 'Z';
    forall i | 0 <= i < |pwd|
      ensures !IsAsciiPunctuation(pwd[i])
    {
    }
    assert !ContainsSpecial(pwd);
  }

  /** Upper-case letters outside A-Z do not count as upper case. */
  lemma NonAsciiUppercaseDoesNotCount()
    ensures Validate("user@example.com", "\U{00C4}\U{00D6}\U{00DC}0ab!x", "\U{00C4}\U{00D6}\U{00DC}0ab!x") == Reject(MissingUppercase)
  {
    var pwd := "\U{00C4}\U{00D6}\U{00DC}0ab!x";
    assert '0' <= pwd[3] <= '9' && 'a' <= pwd[4] <= 'z';
    forall i | 0 <= i < |pwd|
      ensures !('A' <= pwd[i] <= 'Z')
    {
    }
    assert !ContainsUppercase(pwd);
  }
}
