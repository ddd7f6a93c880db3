/**
 * The field rules shared by the sign-in and registration forms
 * (frontend/src/screens/AuthScreens/Login.tsx and Register.tsx). Each regular
 * expression of the forms is written as a predicate over the string it tests,
 * and each rule chain as a function from the field's text to its error message,
 * if any.
 */
module FormRules {
  import opened Text
  import opened Wrappers

  // ---------------------------------------------------------------------------
  // Email: /^[^\s@]+@[^\s@]+\.[^\s@]+$/

  /** `[^\s@]+`: a non-empty run of characters that are neither white space nor `@`. */
  predicate IsAtom(s: string) {
    |s| > 0 && forall k | 0 <= k < |s| :: !IsSpace(s[k]) && s[k] != '@'
  }

  /** The email pattern: the whole string splits as atom `@` atom `.` atom. */
  predicate IsEmail(s: string) {
    exists i, j | 0 <= i < j < |s| ::
      s[i] == '@' && s[j] == '.' && IsAtom(s[..i]) && IsAtom(s[i + 1..j]) && IsAtom(s[j + 1..])
  }

  /**
   * The same set of strings described by its parts: no white space anywhere,
   * exactly one `@`, not first, and after it a `.` that is neither right after
   * the `@` nor last.
   */
  predicate HasEmailParts(s: string) {
    && (forall k | 0 <= k < |s| :: !IsSpace(s[k]))
    && exists i | 0 < i < |s| && s[i] == '@' ::
         && (forall k | 0 <= k < |s| && k != i :: s[k] != '@')
         && (exists j | i + 1 < j < |s| - 1 :: s[j] == '.')
  }

  /** An address the pattern accepts has the parts. */
  lemma EmailHasParts(s: string)
    requires IsEmail(s)
    ensures HasEmailParts(s)
  {
    var i, j :| 0 <= i < j < |s| && s[i] == '@' && s[j] == '.'
      && IsAtom(s[..i]) && IsAtom(s[i + 1..j]) && IsAtom(s[j + 1..]);
    forall k | 0 <= k < |s| && k != i
      ensures !IsSpace(s[k]) && s[k] != '@'
    {
      if k < i {
        assert s[..i][k] == s[k];
      } else if k < j {
        assert s[i + 1..j][k - i - 1] == s[k];
      } else if j < k {
        assert s[j + 1..][k - j - 1] == s[k];
      }
    }
    assert |s[..i]| > 0 && |s[i + 1..j]| > 0 && |s[j + 1..]| > 0;
    assert i + 1 < j < |s| - 1;
  }

  /** A text with the parts is accepted by the pattern. */
  lemma PartsMakeEmail(s: string)
    requires HasEmailParts(s)
    ensures IsEmail(s)
  {
    var i :| 0 < i < |s| && s[i] == '@'
      && (forall k | 0 <= k < |s| && k != i :: s[k] != '@')
      && (exists j | i + 1 < j < |s| - 1 :: s[j] == '.');
    var j :| i + 1 < j < |s| - 1 && s[j] == '.';
    assert IsAtom(s[..i]);
    assert IsAtom(s[i + 1..j]);
    assert IsAtom(s[j + 1..]);
  }

  /** The pattern accepts exactly the strings with those parts. */
  lemma EmailShapeIff(s: string)
    ensures IsEmail(s) <==> HasEmailParts(s)
  {
    if IsEmail(s) {
      EmailHasParts(s);
    }
    if HasEmailParts(s) {
      PartsMakeEmail(s);
    }
  }

  /** An address the pattern accepts is never blank, because its `@` is not white space. */
  lemma EmailNotBlank(s: string)
    ensures IsEmail(s) ==> !IsBlank(s)
  {
    if IsEmail(s) {
      var i, j :| 0 <= i < j < |s| && s[i] == '@' && s[j] == '.'
        && IsAtom(s[..i]) && IsAtom(s[i + 1..j]) && IsAtom(s[j + 1..]);
      assert !IsSpace(s[i]);
    }
  }

  /** Two addresses on either side of the pattern. */
  lemma EmailExamples()
    ensures IsEmail("a@b.in")
    ensures !IsEmail("a@b") && !IsEmail("a b@c.in")
  {
    var good := "a@b.in";
    assert good[1] == '@' && good[3] == '.';
    assert IsAtom(good[..1]) && IsAtom(good[2..3]) && IsAtom(good[4..]);
    EmailShapeIff("a@b");
    EmailShapeIff("a b@c.in");
    assert IsSpace("a b@c.in"[1]);
  }

  /** The email rule of both forms: required after trimming, then the pattern on the untrimmed text. */
  function EmailRule(email: string): (r: Option<string>)
    ensures r == Some("Email is required") <==> IsBlank(email)
    ensures r == Some("Please enter a valid email") <==> !IsBlank(email) && !IsEmail(email)
    ensures r == None <==> IsEmail(email)
  {
    TrimEmptyIff(email);
    EmailNotBlank(email);
    if Trim(email) == "" then Some("Email is required")
    else if !IsEmail(email) then Some("Please enter a valid email")
    else None
  }

  // ---------------------------------------------------------------------------
  // Phone: /^[\+]?[1-9][\d]{0,15}$/ applied to phone.replace(/\D/g, '')

  /** The phone pattern: an optional `+`, a digit 1-9, then at most fifteen digits. */
  predicate IsPhoneNumber(s: string) {
    var t := if |s| > 0 && s[0] == '+' then s[1..] else s;
    && 1 <= |t| <= 16
    && '1' <= t[0] <= '9'
    && forall k | 1 <= k < |t| :: IsDigit(t[k])
  }

  /** On the digits of a phone field the `+` never occurs, so the pattern is a length and leading-digit check. */
  lemma PhoneDigitsIff(phone: string)
    ensures IsPhoneNumber(Digits(phone)) <==> 1 <= |Digits(phone)| <= 16 && Digits(phone)[0] != '0'
  {
    var d := Digits(phone);
    if |d| > 0 {
      assert IsDigit(d[0]);
    }
  }

  /** The phone rule: optional, but a non-blank phone must pass the pattern on its digits. */
  function PhoneRule(phone: string): (r: Option<string>)
    ensures r == None <==> IsBlank(phone) || (1 <= |Digits(phone)| <= 16 && Digits(phone)[0] != '0')
    ensures r != None ==> r == Some("Please enter a valid phone number")
  {
    TrimEmptyIff(phone);
    PhoneDigitsIff(phone);
    if Trim(phone) != "" && !IsPhoneNumber(Digits(phone)) then Some("Please enter a valid phone number")
    else None
  }

  /** A phone with no digit at all, such as letters only, is refused. */
  lemma PhoneWithoutDigits(phone: string)
    requires !IsBlank(phone)
    requires forall k | 0 <= k < |phone| :: !IsDigit(phone[k])
    ensures PhoneRule(phone).Some?
  {
    if |Digits(phone)| > 0 {
      assert Digits(phone)[0] in Digits(phone);
    }
  }

  // ---------------------------------------------------------------------------
  // Password composition: /(?=.*[a-z])(?=.*[A-Z])(?=.*\d)/

  /** The characters at which `.` stops. */
  predicate IsLineTerminator(c: char) {
    c == '\n' || c == '\r' || c == '\U{2028}' || c == '\U{2029}'
  }

  predicate IsLowerLetter(c: char) {
    'a' <= c <= 'z'
  }

  predicate IsUpperLetter(c: char) {
    'A' <= c <= 'Z'
  }

  /** `(?=.*[class])` at offset `p`: a character of the class follows, with no line terminator before it. */
  predicate Ahead(s: string, p: nat, inClass: char -> bool) {
    exists k | p <= k < |s| :: inClass(s[k]) && forall m | p <= m < k :: !IsLineTerminator(s[m])
  }

  /** The unanchored pattern matches at some offset where all three look-aheads succeed. */
  predicate IsComposed(s: string) {
    exists p: nat | p <= |s| :: Ahead(s, p, IsLowerLetter) && Ahead(s, p, IsUpperLetter) && Ahead(s, p, IsDigit)
  }

  /** On a single line, composition means a lower-case letter, an upper-case letter and a digit somewhere. */
  lemma SingleLinePassword(s: string)
    requires forall m | 0 <= m < |s| :: !IsLineTerminator(s[m])
    ensures IsComposed(s) <==>
      && (exists k | 0 <= k < |s| :: IsLowerLetter(s[k]))
      && (exists k | 0 <= k < |s| :: IsUpperLetter(s[k]))
      && (exists k | 0 <= k < |s| :: IsDigit(s[k]))
  {
    if
      && (exists k | 0 <= k < |s| :: IsLowerLetter(s[k]))
      && (exists k | 0 <= k < |s| :: IsUpperLetter(s[k]))
      && (exists k | 0 <= k < |s| :: IsDigit(s[k]))
    {
      assert Ahead(s, 0, IsLowerLetter) && Ahead(s, 0, IsUpperLetter) && Ahead(s, 0, IsDigit);
    }
  }

  /** A composed password holds a letter, so it is not blank. */
  lemma ComposedNotBlank(s: string)
    requires IsComposed(s)
    ensures !IsBlank(s)
  {
    var p: nat :| p <= |s| && Ahead(s, p, IsLowerLetter) && Ahead(s, p, IsUpperLetter) && Ahead(s, p, IsDigit);
    var k :| p <= k < |s| && IsLowerLetter(s[k]) && forall m | p <= m < k :: !IsLineTerminator(s[m]);
    assert !IsSpace(s[k]);
  }

  /** The registration password rule: one message, in priority order. */
  function PasswordRule(password: string): (r: Option<string>)
    ensures r == Some("Password is required") <==> password == ""
    ensures r == Some("Password must be at least 6 characters") <==> 0 < |password| < 6
    ensures r == Some("Password must contain uppercase, lowercase and numbers") <==> 6 <= |password| && !IsComposed(password)
    ensures r == None <==> 6 <= |password| && IsComposed(password)
  {
    if password == "" then Some("Password is required")
    else if |password| < 6 then Some("Password must be at least 6 characters")
    else if !IsComposed(password) then Some("Password must contain uppercase, lowercase and numbers")
    else None
  }

  /** The sign-in password rule: required, then at least six characters; no composition rule. */
  function LoginPasswordRule(password: string): (r: Option<string>)
    ensures r == Some("Password is required") <==> password == ""
    ensures r == Some("Password must be at least 6 characters") <==> 0 < |password| < 6
    ensures r == None <==> 6 <= |password|
  {
    if password == "" then Some("Password is required")
    else if |password| < 6 then Some("Password must be at least 6 characters")
    else None
  }

  /** Every password the registration form accepts, the sign-in form accepts too; not conversely. */
  lemma RegisteredPasswordSignsIn(password: string)
    ensures PasswordRule(password) == None ==> LoginPasswordRule(password) == None
    ensures LoginPasswordRule("abcdef") == None && PasswordRule("abcdef") != None
  {
    var s := "abcdef";
    assert forall k | 0 <= k < |s| :: !IsUpperLetter(s[k]);
  }
}
