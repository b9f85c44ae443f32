# SecurityAgencyApp: a verified model of the shell, the login dialog and the staff view

SecurityAgencyApp is a small WinForms desktop application for a security
agency. Its main window (`Form1`) holds three parts:
- a menu that stays locked until a user logs in;
- a working area;
- a collapsible log console at the bottom.

A modal `LoginForm` asks for a name and a password. It checks that the
database answers, then hands the trimmed name and the password to an
injected credential check. The Employees command puts an `EmployeesControl`
into the working area. The control is a split view with the four sample
employees in a list on the right and, on the left, the selected employee's
placeholder photo and a three-line description.

This project models that behaviour in Dafny and proves what each piece
promises:

- `common.dfy` (`Common`): optional values and results, the Windows line
  break, and the fixed-width decimal digits of the .NET custom date and time
  formats. The digit parser is proved to be the inverse of the digit
  formatter.
- `split_layout.dfy` (`SplitLayout`): the clamp/min/max arithmetic that
  decides the splitter position and the two panel minimums, with its bounds.
  It also covers exactly when the splitter respects the left minimum.
- `employees.dfy` (`Employees`):
  - hire dates in `yyyy-MM-dd`, with their parser;
  - the word splitting and initials of a full name;
  - the placeholder photo's geometry;
  - list rows and the detail text;
  - `EmployeesControl` as a class. Its fields are the split container's
    three layout properties with a trace of their assignments, the queue of
    calls posted with `BeginInvoke`, the employee list, the list view's
    rows and selection, and the detail pane.
- `login_form.dfy` (`Login`):
  - .NET `String.Trim` with its white-space set;
  - the submit and cancel buttons as a state machine over the dialog's
    fields (`Submit`, `CancelDialog`, `Step`, `Run`);
  - `LoginForm` as a class whose methods are proved to follow that machine,
    including `ShowDialog`'s loop.
- `main_form.dfy` (`Shell`):
  - the `[HH:mm:ss]` stamp and log lines;
  - the demonstration credential check;
  - the console toggle;
  - `MainForm` as a class. It holds the console height and remembered
    height, the button caption, the log text, the enabled state of the menu
    and the working area, the working area's controls and whether the
    window was closed.

Two outside influences are parameters of the model:
- The user's actions during a modal dialog are a script (a sequence of
  typed text, button clicks and closing the window).
- The result of the database check is a `ProbeOutcome` value attached to
  each click on the login button.

The code is followed where one might expect otherwise:
- **The password is not cleared after refused credentials.**
  `LoginForm.cs:138-139` only selects the password and focuses its box, so
  `Login.Submit` keeps `passText` unchanged in every branch.
- **The splitter can sit left of the left minimum.** The layout code does not
  keep the splitter at or right of the left panel's minimum for every
  width. With the control's constants this holds exactly from width 440 on
  (`SplitLayout.DefaultSplitterRespectsLeftMinimum`), and at width 400 the
  splitter is 200 while the left minimum is 240
  (`SplitLayout.NarrowLayoutExample`). The model assigns the values exactly as
  computed, in the order the code assigns them.

## Model

| member | source | states |
|---|---|---|
| SplitLayout.Clamp | SecurityAgencyApp/EmployeesControl.cs:121 | Math.Clamp's result lies in [lo, hi]: it is the value itself when that is in range, lo below the range and hi above it |
| SplitLayout.SafeLayout | SecurityAgencyApp/EmployeesControl.cs:147-152 | the splitter lies in [0, max(0, W − panel2Min)]; for a non-negative right wish the right minimum lies in [0, panel2Min] and is at most max(0, W − panel1Min); for non-negative width and wishes the left minimum lies in [0, panel1Min] and the two minimums together fit in the width |
| SplitLayout.RoomyLayoutKeepsMinimums | SecurityAgencyApp/EmployeesControl.cs:147-152 | when both minimums fit in the width neither is shrunk, and a wish of at least the left minimum puts the splitter between the two minimums |
| SplitLayout.DefaultLayoutWhenWide | SecurityAgencyApp/EmployeesControl.cs:106-129 | with 360/240/200 and a width of at least 440 the minimums stay 240 and 200, and the splitter is min(360, W − 200), between 240 and W − 200 |
| SplitLayout.DefaultSplitterRespectsLeftMinimum | SecurityAgencyApp/EmployeesControl.cs:121-129 | for a positive width, the splitter is at or right of the left minimum if and only if the width is at least 440 |
| SplitLayout.NarrowLayoutExample | SecurityAgencyApp/EmployeesControl.cs:121-129 | at width 400 the control assigns splitter 200, left minimum 240 and right minimum 160 |
| SplitLayout.LoadLayout | SecurityAgencyApp/EmployeesControl.cs:111-129 | the layout the Load handler assigns for a client width: none while the width raised to at least 1 is still 1, otherwise SafeLayout with 360/240/200; its guard is stated by LoadAgreesWithDeferredLayout |
| SplitLayout.DeferredLayout | SecurityAgencyApp/EmployeesControl.cs:140-152 | the layout SetSafeSplitterDistance assigns: none while the width is not positive, otherwise SafeLayout of the given wishes; its guard is stated by LoadAgreesWithDeferredLayout |
| SplitLayout.LoadAgreesWithDeferredLayout | SecurityAgencyApp/EmployeesControl.cs:111-145 | Load defers exactly at widths up to 1 and SetSafeSplitterDistance exactly at widths up to 0; from width 2 on both compute the same triple |
| Employees.FormatIsoDate | SecurityAgencyApp/EmployeesControl.cs:176 | "yyyy-MM-dd" is ten characters with dashes at positions 4 and 7 and digits everywhere else |
| Employees.IsoDateRoundTrip | SecurityAgencyApp/EmployeesControl.cs:176 | the text written for every valid date reads back as that date |
| Employees.ParsedIsoDateIsFormatted | SecurityAgencyApp/EmployeesControl.cs:176 | every text that reads as a date is a valid date's formatted text, so the parser and the formatter are inverse |
| Employees.Tokens | SecurityAgencyApp/EmployeesControl.cs:219 | Split(' ', RemoveEmptyEntries) yields only non-empty tokens without a space; where it cuts is fixed by TokensOfSpaceJoin and TokensOfWord |
| Employees.TokensOfSpaceJoin | SecurityAgencyApp/EmployeesControl.cs:219 | Split cuts exactly at spaces: the tokens of a + " " + b are the tokens of a followed by those of b, so leading, trailing and repeated spaces give no token; with TokensOfWord and the empty string this determines the tokens of every name |
| Employees.TokensOfWord | SecurityAgencyApp/EmployeesControl.cs:219 | a non-empty text without a space is split into exactly itself |
| Employees.TokensOfWordThen | SecurityAgencyApp/EmployeesControl.cs:219 | a word followed by a space and more text has that word as its first token, followed by the tokens of the rest |
| Employees.TokensKeepEveryLetter | SecurityAgencyApp/EmployeesControl.cs:219 | the tokens put back together are the name with its spaces removed, so splitting loses and reorders nothing |
| Employees.NoTokensIffBlank | SecurityAgencyApp/EmployeesControl.cs:219 | a name has no tokens if and only if it is empty or all spaces |
| Employees.ThreeWordName | SecurityAgencyApp/EmployeesControl.cs:219 | three space-free words joined by single spaces split back into exactly those three words, in order |
| Employees.InitialsOf | SecurityAgencyApp/EmployeesControl.cs:219-222 | the initials have length min(3, number of tokens), and character i is the first character of token i |
| Employees.Initials | SecurityAgencyApp/EmployeesControl.cs:220-222 | the loop that collects the initials produces exactly InitialsOf of the name, without indexing past a token or the token list |
| Employees.InitialsOfThree | SecurityAgencyApp/EmployeesControl.cs:221-222 | a name with three or more tokens gives the first characters of its first three tokens |
| Employees.SampleNameTokens | SecurityAgencyApp/EmployeesControl.cs:219-222 | "Иванов Иван Иванович" splits into its three words and has the initials "ИИИ" |
| Employees.SingleWordName | SecurityAgencyApp/EmployeesControl.cs:219-222 | every one-word name is its own only token, and its initials are its first character |
| Employees.SingleNameTokens | SecurityAgencyApp/EmployeesControl.cs:219-222 | the one-word name "Мария" is its own only token and has the initials "М" |
| Employees.GeneratePlaceholderImage | SecurityAgencyApp/EmployeesControl.cs:210-230 | the picture has the requested size, a 20-pixel inset on every side, a font size of at least 24 that grows with a tenth of the width, and is captioned with the initials of the name it was drawn for |
| Employees.DrawnCaption | SecurityAgencyApp/EmployeesControl.cs:227 | the drawn text has min(3, tokens) characters, character i being the upper-case mapping of token i's first character |
| Employees.Photographed | SecurityAgencyApp/EmployeesControl.cs:162-165 | every employee, in order, gets the 640×480 placeholder for their own name, and nothing else about them changes |
| Employees.RowOf | SecurityAgencyApp/EmployeesControl.cs:173-180 | the list item for one employee: department, full name and the invariant-culture hire date, with the employee as Tag; its cells are stated by RowShowsEmployee |
| Employees.RowsOf | SecurityAgencyApp/EmployeesControl.cs:171-182 | one row per employee, in list order, row i built from employee i |
| Employees.RowShowsEmployee | SecurityAgencyApp/EmployeesControl.cs:173-179 | a row has three cells: department, full name, and a date cell that reads back as the hire date; its Tag is the employee |
| Employees.InfoText | SecurityAgencyApp/EmployeesControl.cs:204-206 | the detail text: the department, full-name and hire-date labels with their values, joined by CR LF; its lines are stated by InfoTextLines |
| Employees.InfoTextLines | SecurityAgencyApp/EmployeesControl.cs:204-206 | the detail text reads as exactly three lines, "Отдел: …", "ФИО: …" and "Дата трудоустройства: yyyy-MM-dd", in that order, when the names hold no line feed |
| Employees.SampleStaffWellFormed | SecurityAgencyApp/EmployeesControl.cs:157-160 | the four sample employees have valid hire dates and non-empty departments and names |
| Employees.EmployeesControl.constructor | SecurityAgencyApp/EmployeesControl.cs:22-27 | a new control holds the four sample employees with their photos, one row per employee, the first row selected and its employee shown, and SplitContainer's default layout untouched, with nothing assigned or posted yet |
| Employees.EmployeesControl.LoadSampleStaff | SecurityAgencyApp/EmployeesControl.cs:25-26 | on an empty list, PopulateSampleData then FillListView leave the photographed sample staff, their rows, row 0 selected and its employee in the detail pane |
| Employees.EmployeesControl.Assign | SecurityAgencyApp/EmployeesControl.cs:148-152 | one property assignment changes that property only and is appended to the assignment trace |
| Employees.EmployeesControl.Load | SecurityAgencyApp/EmployeesControl.cs:103-130 | at a width of at most 1 the call is posted again and no layout property changes; otherwise the control shows LoadLayout(width), assigned splitter first, then the left minimum, then the right one |
| Employees.EmployeesControl.ParentChanged | SecurityAgencyApp/EmployeesControl.cs:132-136 | exactly one call SetSafeSplitterDistance(360, 240, 200) is posted, and nothing else changes |
| Employees.EmployeesControl.SetSafeSplitterDistance | SecurityAgencyApp/EmployeesControl.cs:138-153 | at a width of at most 0 the call is posted again with the same arguments and no layout property changes; otherwise the control shows the safe layout, assigned splitter first |
| Employees.EmployeesControl.RunPending | SecurityAgencyApp/EmployeesControl.cs:115 | the oldest posted call runs: it is removed and either applies its layout or goes to the back of the queue unchanged; an empty queue changes nothing |
| Employees.EmployeesControl.PopulateSampleData | SecurityAgencyApp/EmployeesControl.cs:155-166 | the list becomes the old list followed by the four sample employees, each with a placeholder photo |
| Employees.EmployeesControl.FillListView | SecurityAgencyApp/EmployeesControl.cs:168-189 | the rows are exactly one per employee in list order; row 0 is selected and its employee shown when the list is non-empty; an empty list leaves nothing selected and an empty detail pane if a row had been selected |
| Employees.EmployeesControl.SelectedIndexChanged | SecurityAgencyApp/EmployeesControl.cs:191-208 | with no selection the picture is null and the text empty; otherwise the pane shows the photo and the three-line text of the employee in the selected row's Tag |
| Employees.EmployeesControl.Select | SecurityAgencyApp/EmployeesControl.cs:186-198 | selecting a row or nothing sets the selection; the detail pane changes only when the selection does, and then follows SelectedIndexChanged |
| Login.TrimStartDropsBlankPrefix | SecurityAgencyApp/LoginForm.cs:21 | TrimStart removes a prefix of white space and nothing else |
| Login.TrimEndDropsBlankSuffix | SecurityAgencyApp/LoginForm.cs:21 | TrimEnd removes a suffix of white space and nothing else |
| Login.Trim | SecurityAgencyApp/LoginForm.cs:59 | the trimmed text is no longer than the original and neither starts nor ends with white space |
| Login.TrimKeepsMiddle | SecurityAgencyApp/LoginForm.cs:59 | the trimmed text is a contiguous piece of the original with only white space before and after it |
| Login.TrimOfPadded | SecurityAgencyApp/LoginForm.cs:59 | white space around a piece that neither starts nor ends with white space is exactly what Trim removes |
| Login.TrimIdempotent | SecurityAgencyApp/LoginForm.cs:21 | trimming twice is trimming once |
| Login.TrimEmptyIffBlank | SecurityAgencyApp/LoginForm.cs:59-62 | the trimmed name is empty if and only if the typed name is empty or all white space |
| Login.Submit | SecurityAgencyApp/LoginForm.cs:57-141 | the typed texts are kept (the password is not cleared); a blank name only focuses the name box, leaving the validator's calls, the result and the open state unchanged; a failed database check leaves them unchanged too; at most one call is added, always with the trimmed name and the password as typed; a non-blank name, an answering server and an accepting validator give OK and close the dialog, and a refusing validator selects and focuses the password and leaves the dialog open with no new result; the result changes only in the accepting case |
| Login.SubmitReachesValidator | SecurityAgencyApp/LoginForm.cs:62-130 | a connection is tried if and only if the name is non-blank and the connection string was built; the validator is called if and only if, moreover, the server answered; exactly one notice is shown if and only if the dialog does not end with OK |
| Login.FailedSubmitKeepsWaiting | SecurityAgencyApp/LoginForm.cs:62-67 | a blank name, a failed database check or refused credentials leave the dialog open with no result |
| Login.CancelDialog | SecurityAgencyApp/LoginForm.cs:143-147 | the result becomes Cancel, the dialog closes, and the texts and validator calls are kept |
| Login.Step | SecurityAgencyApp/LoginForm.cs:46-52 | one user action: typing replaces the two texts, a login click is Submit, a cancel click is CancelDialog; its effect on a waiting dialog is stated by StepOutcome |
| Login.Run | SecurityAgencyApp/LoginForm.cs:130-147 | the modal loop: actions are delivered in turn while the dialog is open and none after it closes, and a script that runs out leaves Cancel; its outcome is stated by RunCloses, RunCallsTrimmedNames and RunOkWasAccepted |
| Login.Show | SecurityAgencyApp/LoginForm.cs:130-147 | ShowDialog's run: the dialog opens with no result and runs the script; its outcome is stated by ShowOutcome |
| Login.StepOutcome | SecurityAgencyApp/LoginForm.cs:57-147 | any action on a waiting dialog leaves it waiting or closed with OK or Cancel; the validator gets at most one new call, with a non-empty trimmed name; OK only follows a call the validator accepted |
| Login.RunCloses | SecurityAgencyApp/LoginForm.cs:130-147 | every run from a waiting dialog ends closed, with OK or Cancel |
| Login.RunCallsTrimmedNames | SecurityAgencyApp/LoginForm.cs:59-60 | a run only appends to the validator's calls, and every name handed over is non-empty and trimmed |
| Login.RunOkWasAccepted | SecurityAgencyApp/LoginForm.cs:130-134 | a run that ends with OK ends right after a call with the final trimmed name and password, which the validator accepted |
| Login.ShowOutcome | SecurityAgencyApp/LoginForm.cs:130-147 | ShowDialog from any state returns OK or Cancel with the dialog closed, only appends trimmed non-empty names to the calls, and OK means the validator accepted the final name and password |
| Login.CancelClickEndsRun | SecurityAgencyApp/LoginForm.cs:143-147 | a Cancel click on an open dialog ends the run with Cancel, whatever the user would do afterwards |
| Login.LoginForm.UserName | SecurityAgencyApp/LoginForm.cs:21 | UserName is trimmed (trimming it again changes nothing, neither end is white space) and is empty exactly when the typed name is blank |
| Login.LoginForm.constructor | SecurityAgencyApp/LoginForm.cs:23-27 | a new dialog keeps the given validator and has empty fields, no result, no notices and no calls, and is not yet showing |
| Login.LoginForm.Create | SecurityAgencyApp/LoginForm.cs:25 | construction fails if and only if the validator is null, with ArgumentNullException naming validateCredentials; otherwise a fresh dialog in the initial state |
| Login.LoginForm.EnterText | SecurityAgencyApp/LoginForm.cs:40-43 | typing replaces the two texts and nothing else |
| Login.LoginForm.BtnLoginClick | SecurityAgencyApp/LoginForm.cs:57-141 | the dialog's new state is exactly Submit of its old state, so every property proved about Submit holds of the click handler |
| Login.LoginForm.BtnCancelClick | SecurityAgencyApp/LoginForm.cs:143-147 | the dialog's new state is exactly CancelDialog of its old state |
| Login.LoginForm.Dispatch | SecurityAgencyApp/LoginForm.cs:46-52 | a user action reaches its handler, and the new state is Step of the old state |
| Login.LoginForm.ShowDialog | SecurityAgencyApp/LoginForm.cs:130-147 | the final state is Show of the initial state; the result is OK or Cancel with the dialog closed; on OK the last validator call was (UserName, password) and the validator accepted it |
| Shell.Timestamp | SecurityAgencyApp/Form1.cs:245 | "[HH:mm:ss]" is ten characters with brackets at both ends and colons at positions 3 and 6 |
| Shell.TimestampRoundTrip | SecurityAgencyApp/Form1.cs:245 | a stamp reads back as the time it was written for |
| Shell.ParsedTimestampIsFormatted | SecurityAgencyApp/Form1.cs:245 | every text that reads as a stamp is the stamp of that time |
| Shell.LogLineLayout | SecurityAgencyApp/Form1.cs:245-247 | a log line is the stamp, one space, the message and CR LF, and its first ten characters read back as the time |
| Shell.ValidateCredentials | SecurityAgencyApp/Form1.cs:58-62 | the demonstration check accepts the name "admin" with the password "password123" and nothing else; what this means for a login dialog is stated by AcceptedLoginIsDemoAccount, OtherAccountsAreRejected and DemoAccountIsAccepted |
| Shell.DemoAccountIsAccepted | SecurityAgencyApp/Form1.cs:58-62 | typing "admin" and "password123" and clicking the login button while the server answers ends the dialog with OK, so the unlocking branch of the login prompt is reachable |
| Shell.AcceptedLoginIsDemoAccount | SecurityAgencyApp/Form1.cs:58-62 | a login dialog with ValidateCredentials ends with OK only when the trimmed name is "admin" and the password is "password123" |
| Shell.OtherAccountsAreRejected | SecurityAgencyApp/Form1.cs:58-62 | with any other name or password the login dialog ends with Cancel |
| Shell.Toggled | SecurityAgencyApp/Form1.cs:217-231 | the toggle on the console: a console taller than 25 remembers its height, drops to 25 and shows "Показать консоль"; any other is restored to the remembered height, or 150 when none is remembered, and shows "Скрыть консоль"; stated by ToggledKeepsSync and the two ToggleTwice lemmas |
| Shell.InitialConsoleInSync | SecurityAgencyApp/Form1.cs:171-189 | the console starts 150 high with the "Скрыть консоль" caption, a state the toggle expects |
| Shell.ToggledKeepsSync | SecurityAgencyApp/Form1.cs:212-231 | the toggle keeps the caption in step with the height (25 with "Показать консоль", above 25 with "Скрыть консоль") and always switches between collapsed and expanded |
| Shell.ToggleTwiceRestores | SecurityAgencyApp/Form1.cs:212-231 | collapsing a console of any height above 25 and expanding it again restores that height, now remembered |
| Shell.ToggleTwiceFromCollapsed | SecurityAgencyApp/Form1.cs:212-231 | expanding a collapsed console and collapsing it again gives back the collapsed console, remembering the height it had expanded to |
| Shell.ShowLoginDialog | SecurityAgencyApp/Form1.cs:39-41 | the dialog is accepted exactly when its run ends with OK, and then its UserName is "admin" |
| Shell.MainForm.constructor | SecurityAgencyApp/Form1.cs:16-32 | the window starts with the console expanded to 150, the menu disabled, an empty working area, the start message as the only log line, and Form1_Shown subscribed |
| Shell.MainForm.LogMessage | SecurityAgencyApp/Form1.cs:240-249 | the log only grows, by exactly one stamped line, and is left alone when there is no log box |
| Shell.MainForm.ToggleLogVisibility | SecurityAgencyApp/Form1.cs:212-235 | the console becomes Toggled of its old state, staying in step with its caption, and the matching message is logged |
| Shell.MainForm.SetAppEnabled | SecurityAgencyApp/Form1.cs:136-144 | the menu and the working area get the same enabled value |
| Shell.MainForm.PromptLogin | SecurityAgencyApp/Form1.cs:39-53 | a login dialog is shown; OK unlocks the menu and the working area and logs user "admin"; any other result logs the cancel message, closes the window and leaves the lock as it was |
| Shell.MainForm.OnShown | SecurityAgencyApp/Form1.cs:35-54 | the first Shown event unsubscribes the handler and asks for a login (OK unlocks, Cancel closes the window); a later Shown event changes nothing |
| Shell.MainForm.HandleLogoutClick | SecurityAgencyApp/Form1.cs:147-165 | the logout is logged and the application locked before the login dialog appears; OK unlocks again, Cancel closes the window with everything still locked |
| Shell.MainForm.HandleEmployeesClick | SecurityAgencyApp/Form1.cs:252-265 | the command is logged and the working area then holds exactly one control, a fresh EmployeesControl with the sample staff listed and the first employee selected |

## Left out

- The database check in the login handler (`LoginForm.cs:69-127`) is not modelled as I/O. Building the Firebird connection string, opening the connection, the test query and logging its answer into the owner window are all left out. Its three possible endings are a `ProbeOutcome` value given with each click.
- Finding the main window through `Application.OpenForms` (`LoginForm.cs:110-118`) is window-system lookup, so it is left out together with the probe log line it writes.
- Message boxes are recorded only as the kind of notice shown, without their texts. `Focus()` and `SelectAll()` are recorded as the focused field and a flag.
- Drawing in `GeneratePlaceholderImage` is replaced by the `Placeholder` value: the size, the inset rectangle, the font size and the name whose initials are drawn. This covers `Bitmap`, `Graphics`, brushes, fonts and `DrawString`.
- Employees.DrawnCaption: `ToUpperInvariant` is a parameter `upper`, because Unicode case mapping belongs to the .NET library.
- `DateTime.Now` is a parameter `now` of every method that logs.
- `BeginInvoke` is modelled as a queue of posted layout calls that `RunPending` runs one at a time. When the event loop gets to them, relative to other window messages, is not modelled.
- WinForms' own checks on `SplitContainer` are not modelled. The framework may throw, or adjust `SplitterDistance`, when it conflicts with the minimums. The model records the assigned values as given.
- When the window system raises `Load`, `ParentChanged` and `Shown` is not modelled. When it changes the control's width is not modelled either. These are methods for the environment to call (`Resize` sets the width).
- Widget construction, docking, colours, fonts and the menu-building helper are presentation only. Only the values the core reads are kept: console height 150, collapsed height 25, the captions, the menu disabled at start.
- The stub handlers (Customers, Contracts, Reports, Edit, Download in `Form1.cs:267-309`) only log, open an empty window or show a message box, so they are left out.
- `PerformLayout()` (`Form1.cs:234`) only repaints and holds no model state.
- `SetAppEnabled` checks the menu and the working area for null (`Form1.cs:139-142`). The model leaves out those checks because both always exist once the constructor has run. `LogMessage`'s own check for a missing log box is modelled.
- `Close()` is modelled as a `closed` flag. Ending the application and disposing the forms (`using`) are not modelled.
- Employees are values here, while the source shares `Employee` objects between the list and the rows' `Tag`. Nothing changes an employee after `PopulateSampleData`, so shared objects and copies hold the same data.
- Shell.Timestamp: `ToString("[HH:mm:ss]")` formats with the current culture (`Form1.cs:245`), where ':' is the culture's time separator. The model writes a literal ':', as cultures such as ru-RU and en-US do.
- Employees.InfoText: the detail text formats the hire date with the current culture (`EmployeesControl.cs:206`), while the list uses the invariant culture (`EmployeesControl.cs:176`). The model uses the Gregorian `yyyy-MM-dd` text for both, which is what a culture with the Gregorian calendar, such as ru-RU, writes.
- Employees.InitialsOf: C# takes `parts[i][0]`, a UTF-16 code unit (`EmployeesControl.cs:222`), while a Dafny `char` is a Unicode scalar value. A token starting outside the Basic Multilingual Plane gives a lone surrogate in C# and the whole character in the model. Names in the Cyrillic and Latin scripts are not affected.
- Integers are unbounded. The source's 32-bit `int` cannot overflow at these magnitudes, but widths near the 32-bit limits are not modelled.
- The credential check is a pure total function. A validator that throws or has side effects is not modelled.
- Closing the dialog from its title bar is modelled as the script running out while the dialog is open; WinForms reports this as Cancel. The Escape key is the dialog's cancel button and appears as a Cancel click.
