/**
 * The sign-up form of the second frontend (`frontend/components/auth/RegisterScreen.tsx`): the
 * password rule, and the submit handler's checks before it hands the form to `signUp`. The handler
 * is split at its `await`: `BeginSubmit` returns the sign-up request (if any), and `FinishSubmit`
 * receives how the call ended.
 */
module RegisterScreen {
  import opened Wrappers

  const TooShort := "密碼至少需要 6 個字元"
  const NoLetter := "密碼需包含至少一個英文字母"
  const NoDigit := "密碼需包含至少一個數字"
  const Mismatch := "密碼與確認密碼不符"
  const SignUpFailed := "註冊失敗，請稍後再試"

  /** The minimum password length (line 27). */
  const MinLength := 6

  predicate IsLetter(c: char) {
    ('A' <= c <= 'Z') || ('a' <= c <= 'z')
  }

  predicate IsDigit(c: char) {
    '0' <= c <= '9'
  }

  /** `/[A-Za-z]/.test(pwd)`. */
  predicate HasLetter(s: string) {
    exists i :: 0 <= i < |s| && IsLetter(s[i])
  }

  /** `/[0-9]/.test(pwd)`. */
  predicate HasDigit(s: string) {
    exists i :: 0 <= i < |s| && IsDigit(s[i])
  }

  /** A password the rule accepts. */
  predicate StrongEnough(pwd: string) {
    |pwd| >= MinLength && HasLetter(pwd) && HasDigit(pwd)
  }

  /** `validatePassword` (lines 26-31): the first rule broken, in the order length, letter, digit. */
  function ValidatePassword(pwd: string): (r: Option<string>)
    ensures r.None? <==> StrongEnough(pwd)
    ensures r == Some(TooShort) <==> |pwd| < MinLength
    ensures r == Some(NoLetter) <==> |pwd| >= MinLength && !HasLetter(pwd)
    ensures r == Some(NoDigit) <==> |pwd| >= MinLength && HasLetter(pwd) && !HasDigit(pwd)
  {
    if |pwd| < MinLength then Some(TooShort)
    else if !HasLetter(pwd) then Some(NoLetter)
    else if !HasDigit(pwd) then Some(NoDigit)
    else None
  }

  /** The message `handleSubmit` shows before calling `signUp`, or `None` when it goes ahead (lines 38-47). */
  function SubmitError(password: string, confirmPassword: string): (r: Option<string>)
    ensures r.None? <==> StrongEnough(password) && password == confirmPassword
    ensures ValidatePassword(password).Some? ==> r == ValidatePassword(password)
    ensures r == Some(Mismatch) <==> StrongEnough(password) && password != confirmPassword
  {
    var passwordError := ValidatePassword(password);
    if passwordError.Some? then passwordError
    else if password != confirmPassword then Some(Mismatch)
    else None
  }

  /** The arguments of `signUp(email, password, displayName || undefined)`. */
  datatype SignUpRequest = SignUpRequest(email: string, password: string, displayName: Option<string>)

  /** How the awaited `signUp` ended: resolved, or threw an error with a `message` (possibly missing). */
  datatype SignUpOutcome = Succeeded | Failed(message: Option<string>)

  /** The request `handleSubmit` sends, if it gets that far (lines 49-52). */
  function SignUpFor(email: string, password: string, confirmPassword: string, displayName: string): (r: Option<SignUpRequest>)
    ensures r.Some? <==> SubmitError(password, confirmPassword).None?
    ensures r.Some? ==> r.value.email == email && r.value.password == password && StrongEnough(r.value.password)
    ensures r.Some? ==> (r.value.displayName.None? <==> displayName == "")
    ensures r.Some? && displayName != "" ==> r.value.displayName == Some(displayName)
  {
    if SubmitError(password, confirmPassword).Some? then None
    else Some(SignUpRequest(email, password, if displayName == "" then None else Some(displayName)))
  }

  /** `err.message || '註冊失敗，請稍後再試'` (line 55). */
  function FailureMessage(message: Option<string>): (r: string)
    ensures r != ""
    ensures message.Some? && message.value != "" ==> r == message.value
    ensures message.None? || message.value == "" ==> r == SignUpFailed
  {
    if message.Some? && message.value != "" then message.value else SignUpFailed
  }

  // ---------------------------------------------------------------------------
  // Properties

  /** The rule on a few passwords: each reports only its first broken rule. */
  lemma PasswordExamples()
    ensures ValidatePassword("ab1") == Some(TooShort)
    ensures ValidatePassword("123456") == Some(NoLetter)
    ensures ValidatePassword("abcdef") == Some(NoDigit)
    ensures ValidatePassword("abc123") == None
  {
    assert IsLetter("abc123"[0]) && IsDigit("abc123"[3]);
    assert IsLetter("abcdef"[0]);
    assert forall i :: 0 <= i < |"abcdef"| ==> !IsDigit("abcdef"[i]);
    assert forall i :: 0 <= i < |"123456"| ==> !IsLetter("123456"[i]);
  }

  /** A long enough password without a letter is refused for the letter even when it lacks a confirmation. */
  lemma PasswordRuleComesFirst(password: string, confirmPassword: string)
    requires |password| >= MinLength && !HasLetter(password) && password != confirmPassword
    ensures SubmitError(password, confirmPassword) == Some(NoLetter)
  {
  }

  /** Appending a character never breaks the rule. */
  lemma {:induction false} AppendKeepsStrong(pwd: string, c: char)
    requires StrongEnough(pwd)
    ensures StrongEnough(pwd + [c])
  {
    var i :| 0 <= i < |pwd| && IsLetter(pwd[i]);
    var j :| 0 <= j < |pwd| && IsDigit(pwd[j]);
    assert (pwd + [c])[i] == pwd[i] && (pwd + [c])[j] == pwd[j];
  }

  // ---------------------------------------------------------------------------
  // The component's state cells

  class Screen {
    var email: string
    var password: string
    var confirmPassword: string
    var displayName: string
    var error: string
    var loading: bool
    var success: bool

    constructor ()
      ensures email == "" && password == "" && confirmPassword == "" && displayName == ""
      ensures error == "" && !loading && !success
    {
      email, password, confirmPassword, displayName := "", "", "", "";
      error, loading, success := "", false, false;
    }

    method SetEmail(value: string)
      modifies this
      ensures email == value
      ensures password == old(password) && confirmPassword == old(confirmPassword) && displayName == old(displayName)
      ensures error == old(error) && loading == old(loading) && success == old(success)
    {
      email := value;
    }

    method SetPassword(value: string)
      modifies this
      ensures password == value
      ensures email == old(email) && confirmPassword == old(confirmPassword) && displayName == old(displayName)
      ensures error == old(error) && loading == old(loading) && success == old(success)
    {
      password := value;
    }

    method SetConfirmPassword(value: string)
      modifies this
      ensures confirmPassword == value
      ensures email == old(email) && password == old(password) && displayName == old(displayName)
      ensures error == old(error) && loading == old(loading) && success == old(success)
    {
      confirmPassword := value;
    }

    method SetDisplayName(value: string)
      modifies this
      ensures displayName == value
      ensures email == old(email) && password == old(password) && confirmPassword == old(confirmPassword)
      ensures error == old(error) && loading == old(loading) && success == old(success)
    {
      displayName := value;
    }

    /**
     * `handleSubmit` up to its `await` (lines 33-52): clear the error, refuse with the first failing
     * check, or set `loading` and return the request handed to `signUp`.
     */
    method BeginSubmit() returns (request: Option<SignUpRequest>)
      modifies this
      ensures request == SignUpFor(email, password, confirmPassword, displayName)
      ensures error == SubmitError(password, confirmPassword).GetOr("")
      ensures loading == (old(loading) || request.Some?)
      ensures email == old(email) && password == old(password) && confirmPassword == old(confirmPassword)
      ensures displayName == old(displayName) && success == old(success)
    {
      error := "";
      var passwordError := ValidatePassword(password);
      if passwordError.Some? {
        error := passwordError.value;
        return None;
      }
      if password != confirmPassword {
        error := Mismatch;
        return None;
      }
      loading := true;
      request := Some(SignUpRequest(email, password, if displayName == "" then None else Some(displayName)));
    }

    /** The rest of `handleSubmit` (lines 53-57): success, or the failure's message; `loading` cleared. */
    method FinishSubmit(outcome: SignUpOutcome)
      modifies this
      ensures !loading
      ensures success == (old(success) || outcome.Succeeded?)
      ensures error == (if outcome.Failed? then FailureMessage(outcome.message) else old(error))
      ensures email == old(email) && password == old(password) && confirmPassword == old(confirmPassword)
      ensures displayName == old(displayName)
    {
      match outcome {
        case Succeeded => success := true;
        case Failed(message) => error := FailureMessage(message);
      }
      loading := false;
    }
  }
}
