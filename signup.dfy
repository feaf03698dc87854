/**
 * The two-step sign-up screen (app/signup.tsx): step 1 takes a name and
 * an email, step 2 a password and its confirmation; both steps are gated
 * by validators, and passing step 2 records the trimmed name and email in
 * the store.
 */
module Signup {
  import Router
  import Store

  /**
   * The characters JavaScript's `\s` matches, which are also the ones
   * `String.prototype.trim` strips.
   */
  predicate IsWhitespace(c: char)
  {
    var n := c as int;
    || (9 <= n <= 13) || n == 32 || n == 0xA0 || n == 0x1680
    || (0x2000 <= n <= 0x200A) || n == 0x2028 || n == 0x2029
    || n == 0x202F || n == 0x205F || n == 0x3000 || n == 0xFEFF
  }

  /** One character of the class `[^\s@]`. */
  predicate IsPlain(c: char)
  {
    !IsWhitespace(c) && c != '@'
  }

  /** A non-empty run of `[^\s@]+`. */
  predicate PlainRun(s: string)
  {
    |s| > 0 && forall k :: 0 <= k < |s| ==> IsPlain(s[k])
  }

  /** `/^[^\s@]+@[^\s@]+\.[^\s@]+$/.test(email)`, read off the pattern. */
  predicate IsValidEmail(email: string): (b: bool)
    ensures b ==> |email| >= 5 && email[0] != '@' && email[|email| - 1] != '@'
  {
    exists i, j | 0 <= i < j < |email| ::
      && email[i] == '@' && email[j] == '.'
      && PlainRun(email[..i]) && PlainRun(email[i + 1..j]) && PlainRun(email[j + 1..])
  }

  /**
   * The same condition stated on the whole address: no whitespace, exactly
   * one '@' that is not the first character, and a '.' in the domain that
   * is neither its first nor its last character.
   */
  predicate EmailShape(email: string)
  {
    && (forall k :: 0 <= k < |email| ==> !IsWhitespace(email[k]))
    && exists i | 0 < i < |email| ::
         && email[i] == '@'
         && (forall k :: 0 <= k < |email| && k != i ==> email[k] != '@')
         && exists j | i + 1 < j < |email| - 1 :: email[j] == '.'
  }

  lemma ValidEmailHasShape(email: string)
    requires IsValidEmail(email)
    ensures EmailShape(email)
  {
    var i, j :| 0 <= i < j < |email| && email[i] == '@' && email[j] == '.'
      && PlainRun(email[..i]) && PlainRun(email[i + 1..j]) && PlainRun(email[j + 1..]);
    forall k | 0 <= k < |email| && k != i ensures IsPlain(email[k]) {
      if k < i {
        assert email[k] == email[..i][k];
      } else if k < j {
        assert email[k] == email[i + 1..j][k - i - 1];
      } else if k > j {
        assert email[k] == email[j + 1..][k - j - 1];
      }
    }
  }

  lemma ShapedEmailIsValid(email: string)
    requires EmailShape(email)
    ensures IsValidEmail(email)
  {
    var i :| 0 < i < |email| && email[i] == '@'
      && (forall k :: 0 <= k < |email| && k != i ==> email[k] != '@')
      && exists j | i + 1 < j < |email| - 1 :: email[j] == '.';
    var j :| i + 1 < j < |email| - 1 && email[j] == '.';
    assert PlainRun(email[..i]) by {
      forall k | 0 <= k < i ensures IsPlain(email[..i][k]) { assert email[..i][k] == email[k]; }
    }
    var domain, tld := email[i + 1..j], email[j + 1..];
    assert PlainRun(domain) by {
      forall k | 0 <= k < |domain| ensures IsPlain(domain[k]) { assert domain[k] == email[k + i + 1]; }
    }
    assert PlainRun(tld) by {
      forall k | 0 <= k < |tld| ensures IsPlain(tld[k]) { assert tld[k] == email[k + j + 1]; }
    }
  }

  /** The pattern accepts exactly the addresses of the stated shape. */
  lemma ValidEmailIffShape(email: string)
    ensures IsValidEmail(email) <==> EmailShape(email)
  {
    if IsValidEmail(email) { ValidEmailHasShape(email); }
    if EmailShape(email) { ShapedEmailIsValid(email); }
  }

  /** How many whitespace characters `s` starts with. */
  function LeadingWhitespace(s: string): (n: nat)
    ensures n <= |s|
    ensures forall k :: 0 <= k < n ==> IsWhitespace(s[k])
    ensures n < |s| ==> !IsWhitespace(s[n])
  {
    if |s| > 0 && IsWhitespace(s[0]) then
      var n := 1 + LeadingWhitespace(s[1..]);
      assert forall k :: 1 <= k < n ==> s[k] == s[1..][k - 1];
      n
    else 0
  }

  /** How many whitespace characters `s` ends with. */
  function TrailingWhitespace(s: string): (n: nat)
    ensures n <= |s|
    ensures forall k :: |s| - n <= k < |s| ==> IsWhitespace(s[k])
    ensures n < |s| ==> !IsWhitespace(s[|s| - 1 - n])
  {
    if |s| > 0 && IsWhitespace(s[|s| - 1]) then
      var n := 1 + TrailingWhitespace(s[..|s| - 1]);
      assert forall k :: |s| - n <= k < |s| - 1 ==> s[k] == s[..|s| - 1][k];
      n
    else 0
  }

  /** `s.trim()`: the leading, then the trailing whitespace cut away. */
  function Trim(s: string): (r: string)
    ensures |r| <= |s|
    ensures |r| > 0 ==> !IsWhitespace(r[0]) && !IsWhitespace(r[|r| - 1])
  {
    var t := s[LeadingWhitespace(s)..];
    t[..|t| - TrailingWhitespace(t)]
  }

  /**
   * The trimmed string is the slice of the input between its leading and
   * trailing whitespace, and it neither starts nor ends with whitespace.
   */
  lemma {:induction false} TrimIsCore(s: string)
    ensures var a := LeadingWhitespace(s);
      && a + |Trim(s)| <= |s|
      && Trim(s) == s[a..a + |Trim(s)|]
      && (forall k :: 0 <= k < a ==> IsWhitespace(s[k]))
      && (forall k :: a + |Trim(s)| <= k < |s| ==> IsWhitespace(s[k]))
    ensures Trim(s) != [] ==> !IsWhitespace(Trim(s)[0]) && !IsWhitespace(Trim(s)[|Trim(s)| - 1])
  {
    var a := LeadingWhitespace(s);
    var t := s[a..];
    var b := TrailingWhitespace(t);
    var r := t[..|t| - b];
    assert r == s[a..a + |r|];
    forall k | a + |r| <= k < |s| ensures IsWhitespace(s[k]) {
      assert s[k] == t[k - a];
    }
    if r != [] {
      assert r[0] == t[0] && t[0] == s[a];
      assert r[|r| - 1] == t[|t| - 1 - b];
    }
  }

  /** A name trims to something non-empty exactly when it has a non-whitespace character. */
  lemma TrimNonEmpty(s: string)
    ensures |Trim(s)| > 0 <==> exists k :: 0 <= k < |s| && !IsWhitespace(s[k])
  {
    TrimIsCore(s);
    var a := LeadingWhitespace(s);
    if Trim(s) != [] {
      assert s[a] == Trim(s)[0];
    }
  }

  /** A string without whitespace is its own trim. */
  lemma TrimNoWhitespace(s: string)
    requires forall k :: 0 <= k < |s| ==> !IsWhitespace(s[k])
    ensures Trim(s) == s
  {
    var t := s[LeadingWhitespace(s)..];
    assert t == s;
    assert TrailingWhitespace(t) == 0;
  }

  /** A valid email is stored exactly as it was validated. */
  lemma ValidEmailIsTrimmed(email: string)
    requires IsValidEmail(email)
    ensures Trim(email) == email
  {
    ValidEmailHasShape(email);
    TrimNoWhitespace(email);
  }

  /**
   * A JavaScript string's `length`: its UTF-16 code units, two for a
   * character outside the Basic Multilingual Plane, one for any other.
   */
  function Utf16Length(s: string): (n: nat)
    ensures |s| <= n <= 2 * |s|
    ensures (forall k :: 0 <= k < |s| ==> s[k] as int < 0x10000) ==> n == |s|
  {
    if s == [] then 0
    else (if s[0] as int >= 0x10000 then 2 else 1) + Utf16Length(s[1..])
  }

  /** `password.length >= 6`, counted in UTF-16 code units. */
  predicate HasMinLength(password: string): (b: bool)
    ensures |password| >= 6 ==> b
    ensures b ==> |password| >= 3
  {
    Utf16Length(password) >= 6
  }

  /** `/[a-z]/.test(password)` */
  predicate HasLowercase(password: string)
  {
    exists k | 0 <= k < |password| :: 'a' <= password[k] <= 'z'
  }

  /** `/[0-9]/.test(password)` */
  predicate HasNumber(password: string)
  {
    exists k | 0 <= k < |password| :: '0' <= password[k] <= '9'
  }

  predicate PasswordsMatch(password: string, confirmPassword: string)
  {
    password == confirmPassword && |confirmPassword| > 0
  }

  predicate CanProceedStep1(name: string, email: string)
  {
    |Trim(name)| > 0 && IsValidEmail(email)
  }

  predicate CanProceedStep2(password: string, confirmPassword: string)
  {
    HasMinLength(password) && HasLowercase(password) && HasNumber(password)
    && PasswordsMatch(password, confirmPassword)
  }

  /** The step-2 gate admits a password only if it has a letter, a digit and six characters. */
  lemma Step2Examples()
    ensures CanProceedStep2("abc123", "abc123")
    ensures !CanProceedStep2("abc12", "abc12")
    ensures !CanProceedStep2("abcdef", "abcdef")
    ensures !CanProceedStep2("ABC123", "ABC123")
    ensures !CanProceedStep2("abc123", "abc124")
  {
    var good, short, letters, upper, other := "abc123", "abc12", "abcdef", "ABC123", "abc124";
    assert CanProceedStep2(good, good) by {
      assert good[0] == 'a' && good[3] == '1';
      assert forall k :: 0 <= k < |good| ==> good[k] as int < 0x10000;
    }
    assert !CanProceedStep2(short, short) by {
      assert forall k :: 0 <= k < |short| ==> short[k] as int < 0x10000;
    }
    assert !CanProceedStep2(letters, letters) by {
      assert !HasNumber(letters);
    }
    assert !CanProceedStep2(upper, upper) by {
      assert !HasLowercase(upper);
    }
    assert !CanProceedStep2(good, other) by {
      assert good[5] != other[5];
    }
  }

  /**
   * Length is counted as JavaScript counts it: two letters and digits plus
   * two characters outside the Basic Multilingual Plane make six code units.
   */
  lemma MinLengthCountsCodeUnits()
    ensures CanProceedStep2("a1\U{1F600}\U{1F600}", "a1\U{1F600}\U{1F600}")
    ensures !HasMinLength("a1b2c")
  {
    var p := "a1\U{1F600}\U{1F600}";
    assert p[1..] == "1\U{1F600}\U{1F600}" && p[2..] == "\U{1F600}\U{1F600}" && p[3..] == "\U{1F600}";
    assert Utf16Length("\U{1F600}") == 2;
    assert p[0] == 'a' && p[1] == '1';
  }

  /** Which of the screen's two pages is shown. */
  datatype Step = NameAndEmail | Password

  class SignupScreen {
    const store: Store.AppStore
    var step: Step
    var name: string
    var email: string
    var password: string
    var confirmPassword: string

    /**
     * The name and email fields exist only on the first page, so while
     * the second page is shown they still pass the first page's gate.
     */
    ghost predicate Valid()
      reads this
    {
      step == Password ==> CanProceedStep1(name, email)
    }

    constructor (store: Store.AppStore)
      ensures Valid()
      ensures this.store == store
      ensures step == NameAndEmail && name == "" && email == "" && password == "" && confirmPassword == ""
    {
      this.store := store;
      step := NameAndEmail;
      name, email, password, confirmPassword := "", "", "", "";
    }

    method SetName(value: string)
      requires step == NameAndEmail
      modifies this`name
      ensures name == value
    {
      name := value;
    }

    method SetEmail(value: string)
      requires step == NameAndEmail
      modifies this`email
      ensures email == value
    {
      email := value;
    }

    method SetPassword(value: string)
      requires step == Password
      modifies this`password
      ensures password == value
    {
      password := value;
    }

    method SetConfirmPassword(value: string)
      requires step == Password
      modifies this`confirmPassword
      ensures confirmPassword == value
    {
      confirmPassword := value;
    }

    /** The back arrow on the second page. */
    method Back()
      requires step == Password
      modifies this`step
      ensures step == NameAndEmail
    {
      step := NameAndEmail;
    }

    /** Step 1's button: move to the password page only when the gate holds. */
    method HandleStep1()
      requires Valid()
      modifies this`step
      ensures Valid()
      ensures CanProceedStep1(name, email) ==> step == Password
      ensures !CanProceedStep1(name, email) ==> step == old(step)
    {
      if CanProceedStep1(name, email) {
        step := Password;
      }
    }

    /**
     * Step 2's button: when the password gate holds, sign up with the trimmed
     * name and the email (which a valid address keeps unchanged under
     * trimming) and go on to the upsell; the password is never stored.
     */
    method HandleStep2() returns (nav: Router.Nav)
      requires Valid() && step == Password
      modifies store
      ensures CanProceedStep2(password, confirmPassword) ==>
        && store.State() == old(store.State()).(hasSignedUp := true, userName := Trim(name), userEmail := email)
        && |store.userName| > 0
        && nav == Router.GoTo(Router.Upsell)
      ensures !CanProceedStep2(password, confirmPassword) ==>
        store.State() == old(store.State()) && nav == Router.Stay
    {
      if CanProceedStep2(password, confirmPassword) {
        ValidEmailIsTrimmed(email);
        store.SignUp(Trim(name), Trim(email));
        nav := Router.GoTo(Router.Upsell);
      } else {
        nav := Router.Stay;
      }
    }
  }
}
