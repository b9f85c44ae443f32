/**
  The login dialog: the trimming of the user name, the submit and cancel
  buttons as a state machine over the dialog's fields, and ShowDialog as a
  run of user actions that ends when the dialog closes.
 */
module Login {
  import opened Common

  // ---------------------------------------------------------------------
  // String.Trim
  // ---------------------------------------------------------------------

  /**
    char.IsWhiteSpace: the Unicode space separators, the line and paragraph
    separators, U+0009 to U+000D and U+0085.
   */
  predicate IsWhiteSpace(c: char) {
    c == ' ' || '\t' <= c <= '\r' || c == '\U{0085}' || c == '\U{00A0}' || c == '\U{1680}' ||
    '\U{2000}' <= c <= '\U{200A}' || c == '\U{2028}' || c == '\U{2029}' ||
    c == '\U{202F}' || c == '\U{205F}' || c == '\U{3000}'
  }

  /** Every character of `s` is white space (the empty string included). */
  predicate Blank(s: string) {
    forall i :: 0 <= i < |s| ==> IsWhiteSpace(s[i])
  }

  /** String.TrimStart(): drops the leading white space. */
  function TrimStart(s: string): (r: string)
    ensures |r| <= |s|
    ensures r == [] || !IsWhiteSpace(r[0])
  {
    if s != [] && IsWhiteSpace(s[0]) then TrimStart(s[1..]) else s
  }

  /** String.TrimEnd(): drops the trailing white space. */
  function TrimEnd(s: string): (r: string)
    ensures |r| <= |s|
    ensures r == [] || !IsWhiteSpace(r[|r| - 1])
  {
    if s != [] && IsWhiteSpace(s[|s| - 1]) then TrimEnd(s[..|s| - 1]) else s
  }

  /** String.Trim(): drops white space at both ends, so neither end of the result is white space. */
  function Trim(s: string): (r: string)
    ensures |r| <= |s|
    ensures r == [] || (!IsWhiteSpace(r[0]) && !IsWhiteSpace(r[|r| - 1]))
  {
    var t := TrimStart(s);
    TrimEndDropsBlankSuffix(t);
    TrimEnd(t)
  }

  /** TrimStart removes a prefix made only of white space, and nothing else. */
  lemma {:induction false} TrimStartDropsBlankPrefix(s: string)
    ensures var r := TrimStart(s);
      r == s[|s| - |r|..] && Blank(s[..|s| - |r|])
  {
    if s != [] && IsWhiteSpace(s[0]) {
      TrimStartDropsBlankPrefix(s[1..]);
      var r := TrimStart(s);
      assert s[..|s| - |r|] == [s[0]] + s[1..][..|s| - 1 - |r|];
    }
  }

  /** TrimEnd removes a suffix made only of white space, and nothing else. */
  lemma {:induction false} TrimEndDropsBlankSuffix(s: string)
    ensures var r := TrimEnd(s);
      r == s[..|r|] && Blank(s[|r|..])
  {
    if s != [] && IsWhiteSpace(s[|s| - 1]) {
      TrimEndDropsBlankSuffix(s[..|s| - 1]);
      var r := TrimEnd(s);
      assert s[|r|..] == s[..|s| - 1][|r|..] + [s[|s| - 1]];
    }
  }

  /**
    Trim keeps a contiguous piece of its argument, and everything before and
    after that piece is white space.
   */
  lemma TrimKeepsMiddle(s: string)
    ensures var r := Trim(s); var k := |s| - |TrimStart(s)|;
      k + |r| <= |s| && r == s[k..k + |r|] && Blank(s[..k]) && Blank(s[k + |r|..])
  {
    var t := TrimStart(s);
    TrimStartDropsBlankPrefix(s);
    TrimEndDropsBlankSuffix(t);
    var r := TrimEnd(t);
    var k := |s| - |t|;
    assert t[|r|..] == s[k + |r|..];
  }

  lemma {:induction false} TrimStartSkipsBlank(pre: string, rest: string)
    requires Blank(pre)
    ensures TrimStart(pre + rest) == TrimStart(rest)
  {
    if pre != [] {
      assert (pre + rest)[1..] == pre[1..] + rest;
      TrimStartSkipsBlank(pre[1..], rest);
    } else {
      assert pre + rest == rest;
    }
  }

  lemma {:induction false} TrimEndSkipsBlank(rest: string, post: string)
    requires Blank(post)
    ensures TrimEnd(rest + post) == TrimEnd(rest)
  {
    if post != [] {
      var s := rest + post;
      assert s[..|s| - 1] == rest + post[..|post| - 1];
      TrimEndSkipsBlank(rest, post[..|post| - 1]);
    } else {
      assert rest + post == rest;
    }
  }

  /**
    The converse of TrimKeepsMiddle: white space around a piece that neither
    starts nor ends with white space is exactly what Trim removes.
   */
  lemma TrimOfPadded(pre: string, core: string, post: string)
    requires Blank(pre) && Blank(post)
    requires core == [] || (!IsWhiteSpace(core[0]) && !IsWhiteSpace(core[|core| - 1]))
    ensures Trim(pre + core + post) == core
  {
    assert pre + core + post == pre + (core + post);
    TrimStartSkipsBlank(pre, core + post);
    if core == [] {
      assert core + post == post + [];
      TrimStartSkipsBlank(post, []);
    } else {
      assert TrimStart(core + post) == core + post;
      TrimEndSkipsBlank(core, post);
    }
  }

  /** Trimming twice is trimming once. */
  lemma TrimIdempotent(s: string)
    ensures Trim(Trim(s)) == Trim(s)
  {
    var r := Trim(s);
    assert [] + r + [] == r;
    TrimOfPadded([], r, []);
  }

  /** Trim gives the empty string exactly for strings made only of white space. */
  lemma TrimEmptyIffBlank(s: string)
    ensures Trim(s) == [] <==> Blank(s)
  {
    if Blank(s) {
      assert s + [] + [] == s;
      TrimOfPadded(s, [], []);
    }
    if Trim(s) == [] {
      TrimKeepsMiddle(s);
      var k := |s| - |TrimStart(s)|;
      assert s == s[..k] + s[k..];
    }
  }

  // ---------------------------------------------------------------------
  // The dialog as a state machine
  // ---------------------------------------------------------------------

  /** The injected credential check: a total function of user name and password. */
  type Validator = (string, string) -> bool

  /** Form.DialogResult; NoResult is DialogResult.None. */
  datatype DialogResult = NoResult | OK | Cancel

  datatype Field = UserField | PasswordField

  /** The message boxes the submit handler can show. */
  datatype Notice = EnterLoginNotice | ConnectionStringNotice | ConnectionNotice | WrongCredentialsNotice

  /**
    How the database check that precedes the validator ends: the connection
    string cannot be built, the connection or test query fails, or the
    server answers.
   */
  datatype ProbeOutcome = BadConnectionString | Unreachable | Reached

  /** What the user does while the dialog is shown. */
  datatype Action = Enter(user: string, password: string) | LoginClick(probe: ProbeOutcome) | CancelClick

  /** Constructing the dialog without a validator throws ArgumentNullException. */
  datatype ConstructionError = ArgumentNull(paramName: string)

  /**
    The observable state of the dialog: the two text boxes, the dialog result,
    whether it is showing, the message boxes shown so far, the focused field,
    whether the password text is selected, how many connections were tried
    and every (user, password) pair handed to the validator.
   */
  datatype Dialog = Dialog(
    userText: string, passText: string, result: DialogResult, open: bool,
    notices: seq<Notice>, focus: Option<Field>, passwordSelected: bool,
    probes: nat, calls: seq<(string, string)>)

  /** The dialog as constructed: empty fields, no result, not yet shown. */
  const Fresh: Dialog := Dialog("", "", NoResult, false, [], None, false, 0, [])

  /**
    BtnLogin_Click. A name that is empty after trimming only shows a notice and
    focuses the name field. Otherwise the database is checked; when that fails
    a notice is shown and nothing else happens. Otherwise the validator gets
    the trimmed name and the password as typed: on success the result is OK
    and the dialog closes, on failure a notice is shown and the password is
    selected and focused, but kept.
   */
  function Submit(d: Dialog, probe: ProbeOutcome, v: Validator): (e: Dialog)
    ensures e.userText == d.userText && e.passText == d.passText
    ensures Trim(d.userText) == [] ==>
      e.probes == d.probes && e.calls == d.calls && e.result == d.result && e.open == d.open
    ensures probe != Reached ==> e.calls == d.calls && e.result == d.result && e.open == d.open
    ensures e.calls == d.calls || e.calls == d.calls + [(Trim(d.userText), d.passText)]
    ensures e.result != d.result ==>
      e.result == OK && !e.open && e.calls == d.calls + [(Trim(d.userText), d.passText)] &&
      v(Trim(d.userText), d.passText)
    ensures Trim(d.userText) != [] && probe == Reached && v(Trim(d.userText), d.passText) ==>
      e.result == OK && !e.open
    ensures Trim(d.userText) != [] && probe == Reached && !v(Trim(d.userText), d.passText) ==>
      e.passwordSelected && e.focus == Some(PasswordField) && e.result == d.result && e.open == d.open
    ensures Trim(d.userText) == [] ==> e.focus == Some(UserField)
  {
    var user := Trim(d.userText);
    if user == [] then
      d.(notices := d.notices + [EnterLoginNotice], focus := Some(UserField))
    else
      match probe
      case BadConnectionString =>
        d.(notices := d.notices + [ConnectionStringNotice])
      case Unreachable =>
        d.(probes := d.probes + 1, notices := d.notices + [ConnectionNotice])
      case Reached =>
        var tried := d.(probes := d.probes + 1, calls := d.calls + [(user, d.passText)]);
        if v(user, d.passText) then
          tried.(result := OK, open := false)
        else
          tried.(notices := d.notices + [WrongCredentialsNotice], passwordSelected := true, focus := Some(PasswordField))
  }

  /** BtnCancel_Click: the result becomes Cancel and the dialog closes. */
  function CancelDialog(d: Dialog): (e: Dialog)
    ensures e.result == Cancel && !e.open
    ensures e.calls == d.calls && e.userText == d.userText && e.passText == d.passText
  {
    d.(result := Cancel, open := false)
  }

  /** One user action. */
  function Step(d: Dialog, a: Action, v: Validator): Dialog {
    match a
    case Enter(user, password) => d.(userText := user, passText := password)
    case LoginClick(probe) => Submit(d, probe, v)
    case CancelClick => CancelDialog(d)
  }

  /**
    The actions of `script` applied in turn until the dialog closes; actions
    after that are never delivered. When the script runs out with the dialog
    still showing, the user closes it from its title bar, which ShowDialog
    reports as Cancel.
   */
  function Run(d: Dialog, script: seq<Action>, v: Validator): Dialog
    decreases |script|
  {
    if !d.open then d
    else if script == [] then d.(result := Cancel, open := false)
    else Run(Step(d, script[0], v), script[1..], v)
  }

  /** ShowDialog: the dialog opens with no result and runs the script. */
  function Show(d: Dialog, script: seq<Action>, v: Validator): Dialog {
    Run(d.(open := true, result := NoResult), script, v)
  }

  /** Showing and waiting for input: open, and no result yet. */
  predicate Waiting(d: Dialog) {
    d.open && d.result == NoResult
  }

  /** A name the validator may be given: not empty and already trimmed. */
  predicate TrimmedName(user: string) {
    user != [] && Trim(user) == user
  }

  /**
    One action on a waiting dialog: it is still waiting, or it has closed with
    OK or Cancel. The validator's calls grow by at most one call, with the
    trimmed, non-empty name; an OK comes with a call that the validator accepted.
   */
  lemma StepOutcome(d: Dialog, a: Action, v: Validator)
    requires Waiting(d)
    ensures var e := Step(d, a, v);
      (Waiting(e) || (!e.open && (e.result == OK || e.result == Cancel))) &&
      (e.calls == d.calls ||
        (e.calls == d.calls + [(Trim(e.userText), e.passText)] && TrimmedName(Trim(e.userText)))) &&
      (e.result == OK ==>
        e.calls == d.calls + [(Trim(e.userText), e.passText)] && v(Trim(e.userText), e.passText))
  {
    if a.LoginClick? {
      TrimIdempotent(d.userText);
    }
  }

  /** A run from a waiting dialog ends with the dialog closed, with OK or Cancel. */
  lemma {:induction false} RunCloses(d: Dialog, script: seq<Action>, v: Validator)
    requires Waiting(d)
    ensures var e := Run(d, script, v);
      !e.open && (e.result == OK || e.result == Cancel)
    decreases |script|
  {
    if script != [] {
      StepOutcome(d, script[0], v);
      if Step(d, script[0], v).open {
        RunCloses(Step(d, script[0], v), script[1..], v);
      }
    }
  }

  /**
    A run from a waiting dialog only appends to the validator's calls, and
    every name it hands over is non-empty and trimmed.
   */
  lemma {:induction false} RunCallsTrimmedNames(d: Dialog, script: seq<Action>, v: Validator)
    requires Waiting(d)
    ensures var e := Run(d, script, v);
      d.calls <= e.calls && forall i :: |d.calls| <= i < |e.calls| ==> TrimmedName(e.calls[i].0)
    decreases |script|
  {
    if script != [] {
      var d1 := Step(d, script[0], v);
      StepOutcome(d, script[0], v);
      if d1.open {
        RunCallsTrimmedNames(d1, script[1..], v);
      }
    }
  }

  /**
    A run from a waiting dialog that ends with OK ends right after a call to
    the validator with the final name, trimmed, and the final password, and
    the validator accepted that call.
   */
  lemma {:induction false} RunOkWasAccepted(d: Dialog, script: seq<Action>, v: Validator)
    requires Waiting(d)
    ensures var e := Run(d, script, v);
      e.result == OK ==>
        |e.calls| > |d.calls| && e.calls[|e.calls| - 1] == (Trim(e.userText), e.passText) &&
        v(Trim(e.userText), e.passText)
    decreases |script|
  {
    if script != [] {
      var d1 := Step(d, script[0], v);
      StepOutcome(d, script[0], v);
      if d1.open {
        RunOkWasAccepted(d1, script[1..], v);
      }
    }
  }

  /** The same guarantees for ShowDialog, from any state. */
  lemma ShowOutcome(d: Dialog, script: seq<Action>, v: Validator)
    ensures var e := Show(d, script, v);
      !e.open && (e.result == OK || e.result == Cancel) &&
      d.calls <= e.calls && (forall i :: |d.calls| <= i < |e.calls| ==> TrimmedName(e.calls[i].0)) &&
      (e.result == OK ==> v(Trim(e.userText), e.passText))
  {
    var w := d.(open := true, result := NoResult);
    RunCloses(w, script, v);
    RunCallsTrimmedNames(w, script, v);
    RunOkWasAccepted(w, script, v);
  }

  /** A Cancel click as the next action ends the dialog with Cancel, whatever follows. */
  lemma CancelClickEndsRun(d: Dialog, rest: seq<Action>, v: Validator)
    requires d.open
    ensures Run(d, [CancelClick] + rest, v).result == Cancel
  {
    assert ([CancelClick] + rest)[1..] == rest;
  }

  /**
    A submit with a blank name, or whose database check fails, or whose
    credentials the validator refuses, leaves the dialog waiting: it can only
    end later, by a new submit or a cancel.
   */
  lemma FailedSubmitKeepsWaiting(d: Dialog, probe: ProbeOutcome, v: Validator)
    requires Waiting(d)
    requires Trim(d.userText) == [] || probe != Reached || !v(Trim(d.userText), d.passText)
    ensures Waiting(Submit(d, probe, v))
  {
  }

  /**
    Which checks a submit gets through: a connection is tried exactly when the
    trimmed name is not empty and the connection string could be built; the
    validator is called exactly when, moreover, the server answered; one
    notice is shown exactly when the dialog does not close with OK.
   */
  lemma SubmitReachesValidator(d: Dialog, probe: ProbeOutcome, v: Validator)
    ensures var e := Submit(d, probe, v);
      (e.probes == d.probes + 1 <==> Trim(d.userText) != [] && probe != BadConnectionString) &&
      (e.probes == d.probes <==> !(Trim(d.userText) != [] && probe != BadConnectionString)) &&
      (e.calls != d.calls <==> Trim(d.userText) != [] && probe == Reached) &&
      (e.notices == d.notices <==> Trim(d.userText) != [] && probe == Reached && v(Trim(d.userText), d.passText)) &&
      (e.notices != d.notices ==> |e.notices| == |d.notices| + 1)
  {
  }

  // ---------------------------------------------------------------------
  // The form
  // ---------------------------------------------------------------------

  class LoginForm {
    const validator: Validator
    var userText: string
    var passText: string
    var dialogResult: DialogResult
    /** Whether the dialog is showing. */
    var open: bool
    var notices: seq<Notice>
    var focus: Option<Field>
    /** Whether the password box's text is selected (SelectAll). */
    var passwordSelected: bool
    /** Connections to the database tried so far. */
    var probes: nat
    /** The arguments of every call to the validator, oldest first. */
    var validatorCalls: seq<(string, string)>

    /** The fields as one value. */
    ghost function Snapshot(): Dialog
      reads this
    {
      Dialog(userText, passText, dialogResult, open, notices, focus, passwordSelected, probes, validatorCalls)
    }

    /** The UserName property: the text of the name box, trimmed. */
    function UserName(): (name: string)
      reads this
      ensures name == [] || (!IsWhiteSpace(name[0]) && !IsWhiteSpace(name[|name| - 1]))
      ensures Trim(name) == name
      ensures name == [] <==> Blank(userText)
    {
      TrimIdempotent(userText);
      TrimEmptyIffBlank(userText);
      Trim(userText)
    }

    constructor (validateCredentials: Validator)
      ensures validator == validateCredentials
      ensures Snapshot() == Fresh
    {
      validator := validateCredentials;
      userText := "";
      passText := "";
      dialogResult := NoResult;
      open := false;
      notices := [];
      focus := None;
      passwordSelected := false;
      probes := 0;
      validatorCalls := [];
    }

    /** `new LoginForm(v)`, where v may be null: a null validator is refused. */
    static method Create(validateCredentials: Option<Validator>) returns (r: Result<LoginForm, ConstructionError>)
      ensures r.Failure? <==> validateCredentials.None?
      ensures r.Failure? ==> r.error == ArgumentNull("validateCredentials")
      ensures r.Success? ==>
        fresh(r.value) && r.value.validator == validateCredentials.value && r.value.Snapshot() == Fresh
    {
      if validateCredentials.None? {
        return Failure(ArgumentNull("validateCredentials"));
      }
      var form := new LoginForm(validateCredentials.value);
      return Success(form);
    }

    /** The user types into the two boxes. */
    method EnterText(user: string, password: string)
      modifies this`userText, this`passText
      ensures Snapshot() == Step(old(Snapshot()), Enter(user, password), validator)
    {
      userText := user;
      passText := password;
    }

    /** BtnLogin_Click, with the outcome of the database check given. */
    method BtnLoginClick(probe: ProbeOutcome)
      modifies this`dialogResult, this`open, this`notices, this`focus, this`passwordSelected, this`probes, this`validatorCalls
      ensures Snapshot() == Submit(old(Snapshot()), probe, validator)
    {
      var user := Trim(userText);
      var pass := passText;
      if user == [] {
        notices := notices + [EnterLoginNotice];
        focus := Some(UserField);
        return;
      }
      match probe {
        case BadConnectionString =>
          notices := notices + [ConnectionStringNotice];
        case Unreachable =>
          probes := probes + 1;
          notices := notices + [ConnectionNotice];
        case Reached =>
          probes := probes + 1;
          validatorCalls := validatorCalls + [(user, pass)];
          if validator(user, pass) {
            dialogResult := OK;
            open := false;
          } else {
            notices := notices + [WrongCredentialsNotice];
            passwordSelected := true;
            focus := Some(PasswordField);
          }
      }
    }

    /** BtnCancel_Click. */
    method BtnCancelClick()
      modifies this`dialogResult, this`open
      ensures Snapshot() == CancelDialog(old(Snapshot()))
    {
      dialogResult := Cancel;
      open := false;
    }

    /** The window system delivers one user action to its handler. */
    method Dispatch(action: Action)
      modifies this`userText, this`passText, this`dialogResult, this`open, this`notices, this`focus,
        this`passwordSelected, this`probes, this`validatorCalls
      ensures Snapshot() == Step(old(Snapshot()), action, validator)
    {
      match action {
        case Enter(user, password) => EnterText(user, password);
        case LoginClick(probe) => BtnLoginClick(probe);
        case CancelClick => BtnCancelClick();
      }
    }

    /**
      ShowDialog: opens the dialog, delivers the user's actions one by one
      while it is showing, and returns its result once it has closed.
     */
    method ShowDialog(script: seq<Action>) returns (result: DialogResult)
      modifies this`userText, this`passText, this`dialogResult, this`open, this`notices, this`focus,
        this`passwordSelected, this`probes, this`validatorCalls
      ensures Snapshot() == Show(old(Snapshot()), script, validator)
      ensures result == dialogResult && !open && (result == OK || result == Cancel)
      ensures result == OK ==>
        |validatorCalls| > 0 && validatorCalls[|validatorCalls| - 1] == (UserName(), passText) &&
        validator(UserName(), passText)
    {
      open := true;
      dialogResult := NoResult;
      ghost var start := Snapshot();
      RunCloses(start, script, validator);
      RunOkWasAccepted(start, script, validator);
      var i := 0;
      while open && i < |script|
        invariant 0 <= i <= |script|
        invariant Run(Snapshot(), script[i..], validator) == Run(start, script, validator)
        decreases |script| - i
      {
        var action := script[i];
        Dispatch(action);
        assert script[i..] == [action] + script[i + 1..];
        i := i + 1;
      }
      if open {
        dialogResult := Cancel;
        open := false;
      }
      result := dialogResult;
    }
  }
}
