/**
  The main window: the log console that collapses and expands, the
  append-only log, the lock that keeps the menu and the working area
  disabled until a login succeeds, the demonstration credential check and
  the Employees command that puts a fresh EmployeesControl in the working area.
 */
module Shell {
  import opened Common
  import Login
  import Employees

  // ---------------------------------------------------------------------
  // Timestamps and log lines
  // ---------------------------------------------------------------------

  /** The wall-clock time a log line is written at (DateTime.Now, to the second). */
  datatype TimeOfDay = TimeOfDay(hour: nat, minute: nat, second: nat)

  predicate ValidTime(t: TimeOfDay) {
    t.hour < 24 && t.minute < 60 && t.second < 60
  }

  /** DateTime.ToString("[HH:mm:ss]"): the brackets and colons are literal, the numbers two digits each. */
  function Timestamp(t: TimeOfDay): (s: string)
    requires ValidTime(t)
    ensures |s| == 10 && s[0] == '[' && s[3] == ':' && s[6] == ':' && s[9] == ']'
  {
    "[" + Decimal(t.hour, 2) + ":" + Decimal(t.minute, 2) + ":" + Decimal(t.second, 2) + "]"
  }

  /** Reads a "[HH:mm:ss]" stamp back. */
  function ParseTimestamp(s: string): Option<TimeOfDay> {
    if |s| != 10 || s[0] != '[' || s[3] != ':' || s[6] != ':' || s[9] != ']' then None
    else
      match (ParseDecimal(s[1..3]), ParseDecimal(s[4..6]), ParseDecimal(s[7..9]))
      case (Some(h), Some(m), Some(sec)) =>
        var t := TimeOfDay(h, m, sec);
        if ValidTime(t) then Some(t) else None
      case _ => None
  }

  /** A stamp reads back as the time it was written for. */
  lemma TimestampRoundTrip(t: TimeOfDay)
    requires ValidTime(t)
    ensures ParseTimestamp(Timestamp(t)) == Some(t)
  {
    var s := Timestamp(t);
    assert s[1..3] == Decimal(t.hour, 2);
    assert s[4..6] == Decimal(t.minute, 2);
    assert s[7..9] == Decimal(t.second, 2);
    DecimalRoundTrip(t.hour, 2);
    DecimalRoundTrip(t.minute, 2);
    DecimalRoundTrip(t.second, 2);
  }

  /** Every string that reads as a stamp is the stamp of the time it reads as. */
  lemma ParsedTimestampIsFormatted(s: string)
    requires ParseTimestamp(s).Some?
    ensures Timestamp(ParseTimestamp(s).value) == s
  {
    var t := ParseTimestamp(s).value;
    ParseDecimalRoundTrip(s[1..3]);
    ParseDecimalRoundTrip(s[4..6]);
    ParseDecimalRoundTrip(s[7..9]);
    assert s == [s[0]] + s[1..3] + [s[3]] + s[4..6] + [s[6]] + s[7..9] + [s[9]];
  }

  /** The text LogMessage appends: stamp, one space, the message, a line break. */
  function LogLine(t: TimeOfDay, message: string): string
    requires ValidTime(t)
  {
    Timestamp(t) + " " + message + NewLine
  }

  /** A log line starts with its stamp and a space, then the message, and ends with CR LF. */
  lemma LogLineLayout(t: TimeOfDay, message: string)
    requires ValidTime(t)
    ensures var line := LogLine(t, message);
      |line| == |message| + 13 &&
      ParseTimestamp(line[..10]) == Some(t) && line[10] == ' ' &&
      line[11..11 + |message|] == message && line[11 + |message|..] == NewLine
  {
    var line := LogLine(t, message);
    assert line[..10] == Timestamp(t);
    TimestampRoundTrip(t);
  }

  // ---------------------------------------------------------------------
  // Messages
  // ---------------------------------------------------------------------

  const StartedMessage: string := "Приложение успешно запущено. Ожидание авторизации..."
  const CancelledAtStartMessage: string := "Авторизация отменена пользователем. Завершение работы."
  const LoggedOutMessage: string := "Пользователь вышел. Ожидание новой авторизации..."
  const CancelledAfterLogoutMessage: string := "Авторизация отменена после выхода. Завершение работы."
  const ConsoleHiddenMessage: string := "Консоль логов скрыта."
  const ConsoleShownMessage: string := "Консоль логов отображена."
  const EmployeesOpenedMessage: string :=
    "Нажата команда: 'Открыть -> Сотрудники'. Инициализация интерфейса управления персоналом..."

  function AuthorizedMessage(user: string): string {
    "Пользователь '" + user + "' авторизован."
  }

  // ---------------------------------------------------------------------
  // Credentials
  // ---------------------------------------------------------------------

  const DemoUser: string := "admin"
  const DemoPassword: string := "password123"

  /** The demonstration check handed to every LoginForm. */
  function ValidateCredentials(user: string, pass: string): bool {
    user == DemoUser && pass == DemoPassword
  }

  /**
    A login dialog driven by this check accepts only the demonstration
    account: when it ends with OK, its trimmed name is "admin" and its
    password, untrimmed, is "password123".
   */
  lemma AcceptedLoginIsDemoAccount(script: seq<Login.Action>)
    ensures var e := Login.Show(Login.Fresh, script, ValidateCredentials);
      e.result == Login.OK ==> Login.Trim(e.userText) == DemoUser && e.passText == DemoPassword
  {
    Login.ShowOutcome(Login.Fresh, script, ValidateCredentials);
  }

  /** With this check, a login that is not exactly the demonstration account never ends with OK. */
  lemma OtherAccountsAreRejected(script: seq<Login.Action>)
    ensures var e := Login.Show(Login.Fresh, script, ValidateCredentials);
      Login.Trim(e.userText) != DemoUser || e.passText != DemoPassword ==> e.result == Login.Cancel
  {
    Login.ShowOutcome(Login.Fresh, script, ValidateCredentials);
  }

  /**
    The demonstration account gets in: typing "admin" and "password123" and
    clicking the login button while the server answers ends the dialog with OK.
   */
  lemma DemoAccountIsAccepted()
    ensures Login.Show(Login.Fresh, [Login.Enter(DemoUser, DemoPassword), Login.LoginClick(Login.Reached)],
      ValidateCredentials).result == Login.OK
  {
    var script := [Login.Enter(DemoUser, DemoPassword), Login.LoginClick(Login.Reached)];
    var shown := Login.Fresh.(open := true, result := Login.NoResult);
    var typed := shown.(userText := DemoUser, passText := DemoPassword);
    assert Login.Trim(DemoUser) == DemoUser by {
      assert [] + DemoUser + [] == DemoUser;
      Login.TrimOfPadded([], DemoUser, []);
    }
    var submitted := Login.Submit(typed, Login.Reached, ValidateCredentials);
    assert submitted.result == Login.OK && !submitted.open;
    assert Login.Step(shown, script[0], ValidateCredentials) == typed;
    assert script[1..][0] == Login.LoginClick(Login.Reached) && script[1..][1..] == [];
    assert Login.Run(typed, script[1..], ValidateCredentials) == Login.Run(submitted, [], ValidateCredentials);
  }

  // ---------------------------------------------------------------------
  // The log console
  // ---------------------------------------------------------------------

  /** The height a collapsed console keeps: the height of its button. */
  const CollapsedHeight: int := 25
  /** The console's height when none was remembered (also its height at start). */
  const DefaultConsoleHeight: int := 150
  const ShowConsoleText: string := "Показать консоль"
  const HideConsoleText: string := "Скрыть консоль"

  /** The log panel's height, the height remembered in its Tag, and the toggle button's caption. */
  datatype Console = Console(height: int, stored: Option<int>, buttonText: string)

  const InitialConsole: Console := Console(DefaultConsoleHeight, None, HideConsoleText)

  /** ToggleLogVisibility on the console: collapse a console taller than 25, expand any other. */
  function Toggled(c: Console): Console {
    if c.height > CollapsedHeight then Console(CollapsedHeight, Some(c.height), ShowConsoleText)
    else Console(c.stored.GetOr(DefaultConsoleHeight), c.stored, HideConsoleText)
  }

  /** The message ToggleLogVisibility logs for a console in state `c`. */
  function ToggleMessage(c: Console): string {
    if c.height > CollapsedHeight then ConsoleHiddenMessage else ConsoleShownMessage
  }

  /**
    The console states the toggle can reach: collapsed at exactly 25 with the
    "show" caption, or expanded above 25 with the "hide" caption; a remembered
    height is always an expanded one.
   */
  predicate ConsoleInSync(c: Console) {
    ((c.height == CollapsedHeight && c.buttonText == ShowConsoleText) ||
     (c.height > CollapsedHeight && c.buttonText == HideConsoleText)) &&
    (c.stored.Some? ==> c.stored.value > CollapsedHeight)
  }

  lemma InitialConsoleInSync()
    ensures ConsoleInSync(InitialConsole)
  {
  }

  /** The toggle keeps the caption in step with the height. */
  lemma ToggledKeepsSync(c: Console)
    requires ConsoleInSync(c)
    ensures ConsoleInSync(Toggled(c))
    ensures (Toggled(c).height > CollapsedHeight) != (c.height > CollapsedHeight)
  {
  }

  /**
    Collapsing an expanded console and expanding it again gives back its
    height; for a console in step, the only other change is the remembered height.
   */
  lemma ToggleTwiceRestores(c: Console)
    requires c.height > CollapsedHeight
    ensures Toggled(Toggled(c)).height == c.height
    ensures Toggled(Toggled(c)).stored == Some(c.height)
    ensures ConsoleInSync(c) ==> Toggled(Toggled(c)) == c.(stored := Some(c.height))
  {
  }

  /** Expanding a collapsed console and collapsing it again gives back the collapsed console. */
  lemma ToggleTwiceFromCollapsed(c: Console)
    requires ConsoleInSync(c) && c.height == CollapsedHeight
    ensures Toggled(Toggled(c)) == Console(CollapsedHeight, Some(c.stored.GetOr(DefaultConsoleHeight)), ShowConsoleText)
  {
  }

  // ---------------------------------------------------------------------
  // The window
  // ---------------------------------------------------------------------

  /**
    `using var login = new LoginForm(ValidateCredentials); login.ShowDialog(this)`:
    whether the dialog ended with OK, and its UserName afterwards, which after
    an OK can only be "admin".
   */
  method ShowLoginDialog(script: seq<Login.Action>) returns (accepted: bool, user: string)
    ensures accepted <==> Login.Show(Login.Fresh, script, ValidateCredentials).result == Login.OK
    ensures accepted ==> user == DemoUser
  {
    var login := new Login.LoginForm(ValidateCredentials);
    var result := login.ShowDialog(script);
    accepted := result == Login.OK;
    user := login.UserName();
  }

  class MainForm {
    var consoleHeight: int
    /** logPanel.Tag: a height remembered by the last collapse. */
    var storedHeight: Option<int>
    var toggleText: string
    /** Whether the log text box exists (LogMessage checks it for null). */
    var hasLogBox: bool
    /** The text of the log text box. */
    var log: string
    var menuEnabled: bool
    var contentEnabled: bool
    /** The controls in the working area, in order. */
    var content: seq<Employees.EmployeesControl>
    var closed: bool
    /** Whether Form1_Shown is still subscribed to the Shown event. */
    var shownSubscribed: bool
    /** For every login dialog shown: whether the menu and the working area were enabled at that moment. */
    ghost var prompts: seq<(bool, bool)>

    function ConsoleState(): Console
      reads this
    {
      Console(consoleHeight, storedHeight, toggleText)
    }

    ghost predicate Valid()
      reads this
    {
      hasLogBox && ConsoleInSync(ConsoleState()) && (menuEnabled ==> contentEnabled)
    }

    /**
      Form1(): the console starts expanded, the menu disabled and the working
      area enabled and empty; the start is logged and Form1_Shown subscribed.
     */
    constructor (now: TimeOfDay)
      requires ValidTime(now)
      ensures Valid()
      ensures ConsoleState() == InitialConsole
      ensures log == LogLine(now, StartedMessage)
      ensures !menuEnabled && contentEnabled && content == []
      ensures !closed && shownSubscribed && prompts == []
    {
      consoleHeight := DefaultConsoleHeight;
      storedHeight := None;
      toggleText := HideConsoleText;
      hasLogBox := true;
      log := "";
      menuEnabled := false;
      contentEnabled := true;
      content := [];
      closed := false;
      shownSubscribed := true;
      prompts := [];
      new;
      LogMessage(now, StartedMessage);
    }

    /** LogMessage: appends one stamped line to the log, or does nothing while there is no log box. */
    method LogMessage(now: TimeOfDay, message: string)
      requires ValidTime(now)
      modifies this`log
      ensures hasLogBox ==> log == old(log) + LogLine(now, message)
      ensures !hasLogBox ==> log == old(log)
    {
      if hasLogBox {
        log := log + LogLine(now, message);
      }
    }

    /** ToggleLogVisibility: the console is toggled and the change is logged. */
    method ToggleLogVisibility(now: TimeOfDay)
      requires ValidTime(now)
      requires Valid()
      modifies this`consoleHeight, this`storedHeight, this`toggleText, this`log
      ensures Valid()
      ensures ConsoleState() == Toggled(old(ConsoleState()))
      ensures log == old(log) + LogLine(now, ToggleMessage(old(ConsoleState())))
    {
      ToggledKeepsSync(ConsoleState());
      if consoleHeight > CollapsedHeight {
        storedHeight := Some(consoleHeight);
        consoleHeight := CollapsedHeight;
        toggleText := ShowConsoleText;
        LogMessage(now, ConsoleHiddenMessage);
      } else {
        consoleHeight := storedHeight.GetOr(DefaultConsoleHeight);
        toggleText := HideConsoleText;
        LogMessage(now, ConsoleShownMessage);
      }
    }

    /** SetAppEnabled: the menu and the working area get the same enabled state. */
    method SetAppEnabled(enabled: bool)
      modifies this`menuEnabled, this`contentEnabled
      ensures menuEnabled == enabled && contentEnabled == enabled
    {
      menuEnabled := enabled;
      contentEnabled := enabled;
    }

    /**
      The part Form1_Shown and HandleLogoutClick share: a new LoginForm with
      ValidateCredentials is shown; OK unlocks the application and logs the
      user, which can only be "admin"; anything else logs `cancelMessage` and
      closes the window.
     */
    method PromptLogin(script: seq<Login.Action>, now: TimeOfDay, cancelMessage: string)
      requires ValidTime(now)
      requires Valid()
      modifies this`menuEnabled, this`contentEnabled, this`log, this`closed, this`prompts
      ensures Valid()
      ensures prompts == old(prompts) + [(old(menuEnabled), old(contentEnabled))]
      ensures Login.Show(Login.Fresh, script, ValidateCredentials).result == Login.OK ==>
        menuEnabled && contentEnabled && closed == old(closed) &&
        log == old(log) + LogLine(now, AuthorizedMessage(DemoUser))
      ensures Login.Show(Login.Fresh, script, ValidateCredentials).result != Login.OK ==>
        closed && menuEnabled == old(menuEnabled) && contentEnabled == old(contentEnabled) &&
        log == old(log) + LogLine(now, cancelMessage)
    {
      prompts := prompts + [(menuEnabled, contentEnabled)];
      var accepted, user := ShowLoginDialog(script);
      if accepted {
        SetAppEnabled(true);
        LogMessage(now, AuthorizedMessage(user));
      } else {
        LogMessage(now, cancelMessage);
        closed := true;
      }
    }

    /**
      The Shown event. Form1_Shown runs only the first time: it unsubscribes
      itself, then asks for a login; a cancelled login closes the window.
     */
    method OnShown(script: seq<Login.Action>, now: TimeOfDay)
      requires ValidTime(now)
      requires Valid()
      modifies this`menuEnabled, this`contentEnabled, this`log, this`closed, this`prompts, this`shownSubscribed
      ensures Valid() && !shownSubscribed
      ensures !old(shownSubscribed) ==>
        menuEnabled == old(menuEnabled) && contentEnabled == old(contentEnabled) &&
        log == old(log) && closed == old(closed) && prompts == old(prompts)
      ensures old(shownSubscribed) ==> prompts == old(prompts) + [(old(menuEnabled), old(contentEnabled))]
      ensures old(shownSubscribed) && Login.Show(Login.Fresh, script, ValidateCredentials).result == Login.OK ==>
        menuEnabled && contentEnabled && closed == old(closed) &&
        log == old(log) + LogLine(now, AuthorizedMessage(DemoUser))
      ensures old(shownSubscribed) && Login.Show(Login.Fresh, script, ValidateCredentials).result != Login.OK ==>
        closed && menuEnabled == old(menuEnabled) && contentEnabled == old(contentEnabled) &&
        log == old(log) + LogLine(now, CancelledAtStartMessage)
    {
      if !shownSubscribed {
        return;
      }
      shownSubscribed := false;
      PromptLogin(script, now, CancelledAtStartMessage);
    }

    /**
      HandleLogoutClick: logs the logout, locks the application, and only
      then asks for a new login; a cancelled login closes the window.
     */
    method HandleLogoutClick(script: seq<Login.Action>, logoutTime: TimeOfDay, now: TimeOfDay)
      requires ValidTime(logoutTime) && ValidTime(now)
      requires Valid()
      modifies this`menuEnabled, this`contentEnabled, this`log, this`closed, this`prompts
      ensures Valid()
      ensures prompts == old(prompts) + [(false, false)]
      ensures Login.Show(Login.Fresh, script, ValidateCredentials).result == Login.OK ==>
        menuEnabled && contentEnabled && closed == old(closed) &&
        log == old(log) + LogLine(logoutTime, LoggedOutMessage) + LogLine(now, AuthorizedMessage(DemoUser))
      ensures Login.Show(Login.Fresh, script, ValidateCredentials).result != Login.OK ==>
        closed && !menuEnabled && !contentEnabled &&
        log == old(log) + LogLine(logoutTime, LoggedOutMessage) + LogLine(now, CancelledAfterLogoutMessage)
    {
      LogMessage(logoutTime, LoggedOutMessage);
      SetAppEnabled(false);
      PromptLogin(script, now, CancelledAfterLogoutMessage);
    }

    /**
      HandleEmployeesClick: logs the command, empties the working area and
      puts one new EmployeesControl in it, showing the sample staff with the
      first employee selected.
     */
    method HandleEmployeesClick(now: TimeOfDay)
      requires ValidTime(now)
      requires Valid()
      modifies this`log, this`content
      ensures Valid()
      ensures log == old(log) + LogLine(now, EmployeesOpenedMessage)
      ensures |content| == 1 && fresh(content[0])
      ensures content[0].Valid() && content[0].employees == Employees.Photographed(Employees.SampleStaff)
      ensures content[0].rows == Employees.RowsOf(content[0].employees) && content[0].selected == Some(0)
    {
      LogMessage(now, EmployeesOpenedMessage);
      content := [];
      var control := new Employees.EmployeesControl();
      content := content + [control];
    }
  }
}
