/**
 * The registration form: the strong-password pattern, the ordered chain of
 * checks in front of the request, the payload that is sent, and what the
 * page does with the server's answer.
 */
module Registration {
  import opened Wrappers
  import opened JsValues
  import opened JsStrings

  // ---------------------------------------------------------------- the password pattern

  /** The characters `.` does not match: the ECMAScript line terminators. */
  predicate IsLineTerminator(c: char)
  {
    c == '\n' || c == '\r' || c == '\U{2028}' || c == '\U{2029}'
  }

  /** `\d`. */
  predicate IsDigit(c: char) { '0' <= c <= '9' }

  /** `[@$!%*?&]`. */
  predicate IsSymbol(c: char)
  {
    c == '@' || c == '$' || c == '!' || c == '%' || c == '*' || c == '?' || c == '&'
  }

  /**
   * The lookahead `(?=.*C)` at the start of `s`: some character of class `C`
   * occurs before the first line terminator.
   */
  predicate Seek(s: string, cls: char -> bool)
  {
    s != [] && (cls(s[0]) || (!IsLineTerminator(s[0]) && Seek(s[1..], cls)))
  }

  /** `.*$` from the start of `s`: no line terminator up to the end. */
  predicate DotsToEnd(s: string)
  {
    s == [] || (!IsLineTerminator(s[0]) && DotsToEnd(s[1..]))
  }

  /** `/^(?=.*[a-z])(?=.*[A-Z])(?=.*\d)(?=.*[@$!%*?&]).{8,}$/.test(s)`, one construct at a time. */
  predicate MatchesStrongPattern(s: string)
  {
    && Seek(s, IsAsciiLower)
    && Seek(s, IsAsciiUpper)
    && Seek(s, IsDigit)
    && Seek(s, IsSymbol)
    && |s| >= 8 && DotsToEnd(s)
  }

  /** The rule in words: eight or more characters on one line, with a small letter, a capital, a digit and a symbol. */
  predicate IsStrongPassword(s: string)
  {
    && |s| >= 8
    && (forall i :: 0 <= i < |s| ==> !IsLineTerminator(s[i]))
    && (exists i :: 0 <= i < |s| && IsAsciiLower(s[i]))
    && (exists i :: 0 <= i < |s| && IsAsciiUpper(s[i]))
    && (exists i :: 0 <= i < |s| && IsDigit(s[i]))
    && (exists i :: 0 <= i < |s| && IsSymbol(s[i]))
  }

  lemma {:induction false} DotsToEndIff(s: string)
    ensures DotsToEnd(s) <==> forall i :: 0 <= i < |s| ==> !IsLineTerminator(s[i])
  {
    if s != [] {
      DotsToEndIff(s[1..]);
      assert forall i :: 1 <= i < |s| ==> s[i] == s[1..][i - 1];
    }
  }

  /** On a string without line terminators, the lookahead finds exactly the characters of its class. */
  lemma {:induction false} SeekIff(s: string, cls: char -> bool)
    requires forall i :: 0 <= i < |s| ==> !IsLineTerminator(s[i])
    ensures Seek(s, cls) <==> exists i :: 0 <= i < |s| && cls(s[i])
  {
    if s != [] {
      SeekIff(s[1..], cls);
      if exists i :: 0 <= i < |s| - 1 && cls(s[1..][i]) {
        var i :| 0 <= i < |s| - 1 && cls(s[1..][i]);
        assert cls(s[i + 1]);
      }
      if exists i :: 0 <= i < |s| && cls(s[i]) {
        var i :| 0 <= i < |s| && cls(s[i]);
        if i > 0 {
          assert cls(s[1..][i - 1]);
        }
      }
    }
  }

  /** The pattern accepts exactly the strong passwords. */
  lemma StrongPatternIff(s: string)
    ensures MatchesStrongPattern(s) <==> IsStrongPassword(s)
  {
    DotsToEndIff(s);
    if forall i :: 0 <= i < |s| ==> !IsLineTerminator(s[i]) {
      SeekIff(s, IsAsciiLower);
      SeekIff(s, IsAsciiUpper);
      SeekIff(s, IsDigit);
      SeekIff(s, IsSymbol);
    }
  }

  /** A password of the right mix that is one character short is refused; one more character makes it strong. */
  lemma StrongPasswordExamples()
    ensures !IsStrongPassword("Chef@12")
    ensures IsStrongPassword("Chef@123")
    ensures !IsStrongPassword("chef@123")
  {
    var s := "Chef@123";
    assert IsAsciiUpper(s[0]) && IsAsciiLower(s[1]) && IsSymbol(s[4]) && IsDigit(s[5]);
    var t := "chef@123";
    assert forall i :: 0 <= i < |t| ==> !IsAsciiUpper(t[i]);
  }

  // ---------------------------------------------------------------- the checks

  const RoleMissing := "Please select a role."
  const WeakPassword := "Password must be at least 8 characters and include uppercase, lowercase, number and symbol."
  const PasswordMismatch := "Password and Confirm Password do not match."
  const RegistrationFailed := "Registration failed"

  /** The request body: the full name travels as `name`; the confirmation is not sent. */
  datatype Payload = Payload(name: string, email: string, password: string, role: string)

  datatype Verdict = Refuse(error: string) | Send(payload: Payload)

  /** The checks of `handleSubmit`, in order; the first that fails decides the message. */
  function Validate(role: string, fullName: string, email: string, password: string, confirmPassword: string): Verdict
  {
    if role == "" then Refuse(RoleMissing)
    else if !MatchesStrongPattern(password) then Refuse(WeakPassword)
    else if password != confirmPassword then Refuse(PasswordMismatch)
    else Send(Payload(fullName, email, password, role))
  }

  /** Each message appears exactly when its check is the first to fail, and the payload goes out only when all pass. */
  lemma ValidateChain(role: string, fullName: string, email: string, password: string, confirmPassword: string)
    ensures Validate(role, fullName, email, password, confirmPassword) == Refuse(RoleMissing) <==> role == ""
    ensures Validate(role, fullName, email, password, confirmPassword) == Refuse(WeakPassword) <==>
              role != "" && !IsStrongPassword(password)
    ensures Validate(role, fullName, email, password, confirmPassword) == Refuse(PasswordMismatch) <==>
              role != "" && IsStrongPassword(password) && password != confirmPassword
    ensures Validate(role, fullName, email, password, confirmPassword).Send? <==>
              role != "" && IsStrongPassword(password) && password == confirmPassword
    ensures Validate(role, fullName, email, password, confirmPassword).Send? ==>
              Validate(role, fullName, email, password, confirmPassword).payload == Payload(fullName, email, password, role)
  {
    StrongPatternIff(password);
    assert RoleMissing != WeakPassword && RoleMissing != PasswordMismatch && WeakPassword != PasswordMismatch by {
      assert |RoleMissing| == 21 && |PasswordMismatch| == 43 && |WeakPassword| > 43;
    }
  }

  /** The outcome of the request. */
  datatype Reply = Registered | Rejected(message: Option<string>)

  class RegisterPage {
    var role: string
    var fullName: string
    var email: string
    var password: string
    var confirmPassword: string
    var error: string

    constructor ()
      ensures role == "" && fullName == "" && email == "" && password == "" && confirmPassword == "" && error == ""
    {
      role, fullName, email, password, confirmPassword, error := "", "", "", "", "", "";
    }

    method SetRole(value: string)
      modifies this`role
      ensures role == value
    {
      role := value;
    }

    method SetFullName(value: string)
      modifies this`fullName
      ensures fullName == value
    {
      fullName := value;
    }

    method SetEmail(value: string)
      modifies this`email
      ensures email == value
    {
      email := value;
    }

    method SetPassword(value: string)
      modifies this`password
      ensures password == value
    {
      password := value;
    }

    method SetConfirmPassword(value: string)
      modifies this`confirmPassword
      ensures confirmPassword == value
    {
      confirmPassword := value;
    }

    /**
     * The synchronous part of `handleSubmit`: the first failing check sets
     * its message and nothing is sent; otherwise the message is cleared and
     * the payload is returned for sending.
     */
    method Submit() returns (request: Option<Payload>)
      modifies this`error
      ensures Validate(role, fullName, email, password, confirmPassword).Refuse? ==>
                request == None && error == Validate(role, fullName, email, password, confirmPassword).error
      ensures Validate(role, fullName, email, password, confirmPassword).Send? ==>
                request == Some(Payload(fullName, email, password, role)) && error == ""
    {
      if role == "" {
        error := RoleMissing;
        return None;
      }
      if !MatchesStrongPattern(password) {
        error := WeakPassword;
        return None;
      }
      if password != confirmPassword {
        error := PasswordMismatch;
        return None;
      }
      error := "";
      request := Some(Payload(fullName, email, password, role));
    }

    /** The awaited reply: success leads to the login page, a refusal shows the server's message or the default. */
    method Settle(reply: Reply) returns (navigateTo: Option<string>)
      modifies this`error
      ensures reply.Registered? ==> navigateTo == Some("/") && error == old(error)
      ensures reply.Rejected? ==> navigateTo == None && error == StringOr(reply.message, RegistrationFailed)
    {
      if reply.Registered? {
        return Some("/");
      }
      error := StringOr(reply.message, RegistrationFailed);
      navigateTo := None;
    }
  }

  /** A refusal without a usable server message shows the default, and never an empty message. */
  lemma RejectionMessage(message: Option<string>)
    ensures StringOr(message, RegistrationFailed) != ""
    ensures message.None? || message.value == "" ==> StringOr(message, RegistrationFailed) == RegistrationFailed
  {
  }
}
