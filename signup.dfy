/** The sign-up form: the two password rules, checked in order before the account is requested. */
module SignUp {
  import opened Wrappers
  import opened Strings

  const MIN_PASSWORD_LENGTH: nat := 8

  /** `password.length`: JavaScript counts UTF-16 code units, two for a character outside the BMP. */
  function Utf16Length(s: string): (n: nat)
    ensures |s| <= n <= 2 * |s|
  {
    if s == [] then 0 else (if s[0] as int > 0xFFFF then 2 else 1) + Utf16Length(s[1..])
  }

  datatype SignUpState = SignUpState(error: string, message: string, needsConfirmation: bool)

  /** The passwords as entered: a mismatch is refused, then a short password. */
  datatype Check = Mismatch | TooShort | Passed

  function CheckPasswords(password: string, confirmPassword: string): (c: Check)
    ensures c == Mismatch <==> password != confirmPassword
    ensures c == TooShort <==> password == confirmPassword && Utf16Length(password) < MIN_PASSWORD_LENGTH
    ensures c == Passed <==> password == confirmPassword && Utf16Length(password) >= MIN_PASSWORD_LENGTH
  {
    if password != confirmPassword then Mismatch
    else if Utf16Length(password) < MIN_PASSWORD_LENGTH then TooShort
    else Passed
  }

  /**
   * `handleSignUp`: `outcome` is the account request's answer (None: created, Some(m): failed
   * with message m) and is consulted only when both rules pass. Returns the new state and
   * whether the request was made.
   */
  function HandleSignUp(st: SignUpState, password: string, confirmPassword: string, outcome: Option<string>)
    : (r: (SignUpState, bool))
    ensures r.1 <==> CheckPasswords(password, confirmPassword) == Passed
    ensures password != confirmPassword ==> r.0 == st.(error := "Passwords do not match")
    ensures CheckPasswords(password, confirmPassword) == TooShort ==>
      r.0 == st.(error := "Password must be at least 8 characters")
    ensures r.1 && outcome.None? ==>
      r.0 == SignUpState("", "Sign up successful! Please check your email for verification code.", true)
    ensures r.1 && outcome.Some? ==>
      r.0 == st.(error := OrElse(outcome.value, "Failed to sign up"))
  {
    var cleared := st.(error := "");
    match CheckPasswords(password, confirmPassword)
    case Mismatch => (cleared.(error := "Passwords do not match"), false)
    case TooShort => (cleared.(error := "Password must be at least 8 characters"), false)
    case Passed =>
      if outcome.None? then
        (cleared.(message := "Sign up successful! Please check your email for verification code.", needsConfirmation := true), true)
      else (cleared.(error := OrElse(outcome.value, "Failed to sign up")), true)
  }

  /** Seven characters are refused and eight accepted; a failed request leaves the form unconfirmed. */
  lemma LengthBoundary(st: SignUpState, err: string)
    requires !st.needsConfirmation
    ensures CheckPasswords("1234567", "1234567") == TooShort
    ensures CheckPasswords("12345678", "12345678") == Passed
    ensures !HandleSignUp(st, "12345678", "12345678", Some(err)).0.needsConfirmation
    ensures !HandleSignUp(st, "1234567", "1234567", None).1
  {
    assert Utf16Length("1234567") == 7;
    assert Utf16Length("12345678") == 8;
  }
}
