/**
 * web/src/components/LoginForm.tsx: the checks handleSubmit runs before it
 * hands the credentials to the onSubmit callback, the component state they
 * write, and which message the form shows. Rendering, the input handlers
 * and the asynchronous callback itself are outside the model; the calls made
 * to onSubmit are recorded in order.
 */
module LoginForm {
  import opened Wrappers
  import opened Strings

  /** The characters String.prototype.trim removes: ECMAScript WhiteSpace and LineTerminator. */
  const JsWhitespace: set<char> := {
    '\t', '\n', '\U{B}', '\U{C}', '\r', ' ', '\U{A0}', '\U{1680}',
    '\U{2000}', '\U{2001}', '\U{2002}', '\U{2003}', '\U{2004}', '\U{2005}', '\U{2006}',
    '\U{2007}', '\U{2008}', '\U{2009}', '\U{200A}',
    '\U{2028}', '\U{2029}', '\U{202F}', '\U{205F}', '\U{3000}', '\U{FEFF}'
  }

  /** Drop every leading character that is in cutset. */
  function TrimLeft(s: string, cutset: set<char>): (r: string)
    ensures |r| <= |s| && r == s[|s| - |r|..]
    ensures r == [] || r[0] !in cutset
    ensures forall i :: 0 <= i < |s| - |r| ==> s[i] in cutset
  {
    if s == [] || s[0] !in cutset then s else TrimLeft(s[1..], cutset)
  }

  /** String.prototype.trim */
  function Trim(s: string): (r: string)
    ensures var k := |TrimRight(s, JsWhitespace)|;
      |r| <= k && r == s[k - |r|..k]
  {
    var t := TrimRight(s, JsWhitespace);
    var r := TrimLeft(t, JsWhitespace);
    assert r != [] ==> r[|r| - 1] == t[|t| - 1];
    r
  }

  /** trim drops only whitespace, from both ends, and what it keeps starts and ends with a non-whitespace character. */
  lemma TrimDropsOnlyWhitespace(s: string)
    ensures var r, k := Trim(s), |TrimRight(s, JsWhitespace)|;
      (forall i :: 0 <= i < k - |r| ==> s[i] in JsWhitespace) &&
      (forall i :: k <= i < |s| ==> s[i] in JsWhitespace) &&
      (r == [] || (r[0] !in JsWhitespace && r[|r| - 1] !in JsWhitespace))
  {
    var t := TrimRight(s, JsWhitespace);
    var r := Trim(s);
    forall i | 0 <= i < |t| - |r|
      ensures s[i] in JsWhitespace
    {
      assert s[i] == t[i];
    }
  }

  /** Every character is whitespace (the empty string included). */
  predicate Blank(s: string) {
    forall i :: 0 <= i < |s| ==> s[i] in JsWhitespace
  }

  /** `!s.trim()`: the trimmed string is empty exactly when the string is blank. */
  lemma TrimEmptyIffBlank(s: string)
    ensures Trim(s) == "" <==> Blank(s)
  {
    var r := TrimRight(s, JsWhitespace);
    if Trim(s) == "" {
      assert r == [];
    } else {
      var t := Trim(s);
      assert t[0] == r[|r| - |t|];
      assert r[|r| - |t|] == s[|r| - |t|];
    }
  }

  const EmptyUsername: string := "用户名不能为空"
  const EmptyPassword: string := "密码不能为空"
  const ShortPassword: string := "密码长度至少6位"
  const MinPasswordLength: nat := 6

  /** What one press of the submit button does: show a message, or call onSubmit with the two values. */
  datatype SubmitOutcome = Rejected(message: string) | Submitted(username: string, password: string)

  /** handleSubmit's checks, in order; the first failing one decides the message. */
  function ValidateLogin(username: string, password: string): (o: SubmitOutcome)
    ensures o.Rejected? ==> o.message == EmptyUsername || o.message == EmptyPassword || o.message == ShortPassword
    ensures o.Submitted? ==> o == Submitted(username, password) && Utf16Len(password) >= MinPasswordLength
  {
    if Trim(username) == "" then Rejected(EmptyUsername)
    else if Trim(password) == "" then Rejected(EmptyPassword)
    else if Utf16Len(password) < MinPasswordLength then Rejected(ShortPassword)
    else Submitted(username, password)
  }

  /**
   * A blank username is reported first, then a blank password, then a
   * password under six UTF-16 units counted before trimming; otherwise
   * onSubmit gets both values exactly as typed.
   */
  lemma ValidationOrder(username: string, password: string)
    ensures var o := ValidateLogin(username, password);
      (Blank(username) ==> o == Rejected(EmptyUsername)) &&
      (!Blank(username) && Blank(password) ==> o == Rejected(EmptyPassword)) &&
      (!Blank(username) && !Blank(password) && Utf16Len(password) < MinPasswordLength ==> o == Rejected(ShortPassword)) &&
      (o.Submitted? <==> !Blank(username) && !Blank(password) && Utf16Len(password) >= MinPasswordLength) &&
      (o.Submitted? ==> o == Submitted(username, password))
  {
    TrimEmptyIffBlank(username);
    TrimEmptyIffBlank(password);
  }

  /** Six spaces are reported as an empty password, not as a short one. */
  lemma BlankPasswordReportedAsEmpty()
    ensures ValidateLogin("alice", "      ") == Rejected(EmptyPassword)
  {
    var p := "      ";
    assert Blank(p);
    TrimEmptyIffBlank(p);
    assert !Blank("alice") by {
      assert "alice"[0] !in JsWhitespace;
    }
    TrimEmptyIffBlank("alice");
  }

  /** Surrounding spaces count towards the six characters and reach onSubmit untouched. */
  lemma PaddedPasswordSubmittedAsTyped()
    ensures ValidateLogin(" alice", "     x") == Submitted(" alice", "     x")
  {
    var u, p := " alice", "     x";
    assert !Blank(u) by {
      assert u[1] !in JsWhitespace;
    }
    assert !Blank(p) by {
      assert p[5] !in JsWhitespace;
    }
    AsciiLengths(p);
    ValidationOrder(u, p);
  }

  /** The message the form shows, if any: `error || validationError`, where undefined and "" are both falsy. */
  function ShownError(error: Option<string>, validationError: string): (shown: Option<string>)
    ensures shown.Some? <==> (error.Some? && error.value != "") || validationError != ""
    ensures shown.Some? ==> shown.value != ""
    ensures error.Some? && error.value != "" ==> shown == error
    ensures (error.None? || error.value == "") && validationError != "" ==> shown == Some(validationError)
  {
    if error.Some? && error.value != "" then error
    else if validationError != "" then Some(validationError)
    else None
  }

  /** The component's state: the two inputs, the validation message, and the onSubmit calls made so far. */
  class LoginFormState {
    var username: string
    var password: string
    var validationError: string
    var submissions: seq<(string, string)>

    /** A fresh form: both inputs and the message empty, nothing submitted. */
    constructor ()
      ensures username == "" && password == "" && validationError == "" && submissions == []
    {
      username := "";
      password := "";
      validationError := "";
      submissions := [];
    }

    /**
     * handleSubmit: the inputs are kept; the message becomes the first failing
     * check's, or "" when every check passes; onSubmit is called once, with
     * the values as typed, exactly when every check passes.
     */
    method HandleSubmit()
      modifies this
      ensures username == old(username) && password == old(password)
      ensures var o := ValidateLogin(old(username), old(password));
        validationError == (if o.Rejected? then o.message else "") &&
        submissions == old(submissions) + (if o.Submitted? then [(o.username, o.password)] else [])
    {
      validationError := "";
      var outcome := ValidateLogin(username, password);
      match outcome
      case Rejected(message) =>
        validationError := message;
      case Submitted(u, p) =>
        submissions := submissions + [(u, p)];
    }
  }

  /** A rejected submission leaves a message to show even when the `error` prop is empty. */
  lemma RejectionIsShown(username: string, password: string)
    requires ValidateLogin(username, password).Rejected?
    ensures ShownError(None, ValidateLogin(username, password).message) == Some(ValidateLogin(username, password).message)
  {
  }
}
