/**
  EmployeesControl: the master-detail view of the security agency's staff.
  The values it works with (hire dates, employee records, list rows, the
  placeholder photo) come first, then the control itself as a class whose
  fields are the split container's layout properties, the employee list,
  the list view's rows and selection, and the detail pane.
 */
module Employees {
  import opened Common
  import opened SplitLayout

  // ---------------------------------------------------------------------
  // Hire dates and their "yyyy-MM-dd" text
  // ---------------------------------------------------------------------

  datatype Date = Date(year: nat, month: nat, day: nat)

  predicate IsLeapYear(year: nat) {
    year % 4 == 0 && (year % 100 != 0 || year % 400 == 0)
  }

  function DaysInMonth(year: nat, month: nat): nat
    requires 1 <= month <= 12
  {
    if month == 2 then (if IsLeapYear(year) then 29 else 28)
    else if month == 4 || month == 6 || month == 9 || month == 11 then 30
    else 31
  }

  /** The dates a .NET DateTime can hold. */
  predicate ValidDate(d: Date) {
    1 <= d.year <= 9999 && 1 <= d.month <= 12 && 1 <= d.day <= DaysInMonth(d.year, d.month)
  }

  /** DateTime.ToString("yyyy-MM-dd", CultureInfo.InvariantCulture). */
  function FormatIsoDate(d: Date): (s: string)
    ensures |s| == 10 && s[4] == '-' && s[7] == '-'
    ensures forall i :: 0 <= i < |s| && i != 4 && i != 7 ==> IsDigit(s[i])
  {
    var y, m, dd := Decimal(d.year, 4), Decimal(d.month, 2), Decimal(d.day, 2);
    var s := y + "-" + m + "-" + dd;
    assert forall i :: 0 <= i < 4 ==> s[i] == y[i];
    assert forall i :: 5 <= i < 7 ==> s[i] == m[i - 5];
    assert forall i :: 8 <= i < 10 ==> s[i] == dd[i - 8];
    s
  }

  /** The inverse of FormatIsoDate: reads "yyyy-MM-dd" back, None unless it names a valid date. */
  function ParseIsoDate(s: string): Option<Date> {
    if |s| != 10 || s[4] != '-' || s[7] != '-' then None
    else
      match (ParseDecimal(s[..4]), ParseDecimal(s[5..7]), ParseDecimal(s[8..]))
      case (Some(y), Some(m), Some(d)) =>
        if ValidDate(Date(y, m, d)) then Some(Date(y, m, d)) else None
      case _ => None
  }

  /** Every valid hire date is written in a form that reads back as the same date. */
  lemma IsoDateRoundTrip(d: Date)
    requires ValidDate(d)
    ensures ParseIsoDate(FormatIsoDate(d)) == Some(d)
  {
    var s := FormatIsoDate(d);
    assert s[..4] == Decimal(d.year, 4);
    assert s[5..7] == Decimal(d.month, 2);
    assert s[8..] == Decimal(d.day, 2);
    DecimalRoundTrip(d.year, 4);
    DecimalRoundTrip(d.month, 2);
    DecimalRoundTrip(d.day, 2);
  }

  /** Whatever ParseIsoDate accepts is exactly the text FormatIsoDate writes for that date. */
  lemma ParsedIsoDateIsFormatted(s: string)
    requires ParseIsoDate(s).Some?
    ensures ValidDate(ParseIsoDate(s).value)
    ensures FormatIsoDate(ParseIsoDate(s).value) == s
  {
    ParseDecimalRoundTrip(s[..4]);
    ParseDecimalRoundTrip(s[5..7]);
    ParseDecimalRoundTrip(s[8..]);
    assert s == s[..4] + "-" + s[5..7] + "-" + s[8..];
  }

  // ---------------------------------------------------------------------
  // Names split into words, and the initials drawn on a placeholder photo
  // ---------------------------------------------------------------------

  /** A token of String.Split(' ', RemoveEmptyEntries): non-empty, no space in it. */
  predicate IsWord(t: string) {
    |t| > 0 && forall j :: 0 <= j < |t| ==> t[j] != ' '
  }

  /** Index of the first `c` in `s`, or |s| when there is none. */
  function IndexOf(s: string, c: char): (n: nat)
    ensures n <= |s|
    ensures forall i :: 0 <= i < n ==> s[i] != c
    ensures n < |s| ==> s[n] == c
  {
    if s == [] || s[0] == c then 0 else 1 + IndexOf(s[1..], c)
  }

  /** fullName.Split(' ', StringSplitOptions.RemoveEmptyEntries). */
  function Tokens(s: string): (ts: seq<string>)
    ensures forall k :: 0 <= k < |ts| ==> IsWord(ts[k])
    decreases |s|
  {
    if s == [] then []
    else if s[0] == ' ' then Tokens(s[1..])
    else
      var n := IndexOf(s, ' ');
      [s[..n]] + Tokens(s[n..])
  }

  /** `s` with its spaces removed. */
  function NonSpace(s: string): string {
    if s == [] then [] else (if s[0] == ' ' then [] else [s[0]]) + NonSpace(s[1..])
  }

  function Concat(ts: seq<string>): string {
    if ts == [] then [] else ts[0] + Concat(ts[1..])
  }

  lemma {:induction false} NonSpaceAppend(a: string, b: string)
    ensures NonSpace(a + b) == NonSpace(a) + NonSpace(b)
  {
    if a != [] {
      var h: string := if a[0] == ' ' then [] else [a[0]];
      assert (a + b)[0] == a[0];
      assert (a + b)[1..] == a[1..] + b;
      NonSpaceAppend(a[1..], b);
      calc {
        NonSpace(a + b);
        h + NonSpace(a[1..] + b);
        h + (NonSpace(a[1..]) + NonSpace(b));
        (h + NonSpace(a[1..])) + NonSpace(b);
      }
    } else {
      assert a + b == b;
    }
  }

  lemma {:induction false} NonSpaceOfSpaceFree(a: string)
    requires forall i :: 0 <= i < |a| ==> a[i] != ' '
    ensures NonSpace(a) == a
  {
    if a != [] {
      NonSpaceOfSpaceFree(a[1..]);
    }
  }

  /**
    Splitting loses nothing but spaces: the tokens, put back together, are
    the name with every space taken out.
   */
  lemma {:induction false} TokensKeepEveryLetter(s: string)
    ensures Concat(Tokens(s)) == NonSpace(s)
    decreases |s|
  {
    if s == [] {
    } else if s[0] == ' ' {
      TokensKeepEveryLetter(s[1..]);
    } else {
      var n := IndexOf(s, ' ');
      TokensKeepEveryLetter(s[n..]);
      assert s == s[..n] + s[n..];
      NonSpaceAppend(s[..n], s[n..]);
      NonSpaceOfSpaceFree(s[..n]);
      assert Tokens(s) == [s[..n]] + Tokens(s[n..]);
    }
  }

  lemma {:induction false} BlankHasNoTokens(s: string)
    requires forall i :: 0 <= i < |s| ==> s[i] == ' '
    ensures Tokens(s) == []
  {
    if s != [] {
      BlankHasNoTokens(s[1..]);
    }
  }

  lemma {:induction false} EmptyNonSpaceIsBlank(s: string)
    requires NonSpace(s) == []
    ensures forall i :: 0 <= i < |s| ==> s[i] == ' '
  {
    if s != [] {
      EmptyNonSpaceIsBlank(s[1..]);
    }
  }

  /** A name has no tokens exactly when it is empty or all spaces. */
  lemma NoTokensIffBlank(s: string)
    ensures Tokens(s) == [] <==> forall i :: 0 <= i < |s| ==> s[i] == ' '
  {
    if forall i :: 0 <= i < |s| ==> s[i] == ' ' {
      BlankHasNoTokens(s);
    }
    if Tokens(s) == [] {
      TokensKeepEveryLetter(s);
      EmptyNonSpaceIsBlank(s);
    }
  }

  /** The initials of a name: the first character of each of its first three tokens. */
  function InitialsOf(fullName: string): (r: string)
    ensures |r| == Min(3, |Tokens(fullName)|)
    ensures forall i :: 0 <= i < |r| ==> r[i] == Tokens(fullName)[i][0]
  {
    var parts := Tokens(fullName);
    seq(Min(3, |parts|), i requires 0 <= i < Min(3, |parts|) => parts[i][0])
  }

  /** The loop of GeneratePlaceholderImage that collects the initials. */
  method Initials(fullName: string) returns (initials: string)
    ensures initials == InitialsOf(fullName)
  {
    var parts := Tokens(fullName);
    initials := "";
    for i := 0 to Min(3, |parts|)
      invariant |initials| == i
      invariant forall k :: 0 <= k < i ==> initials[k] == parts[k][0]
    {
      initials := initials + [parts[i][0]];
    }
  }

  lemma {:induction false} WordLengthOfWord(w: string, rest: string)
    requires IsWord(w)
    requires rest == [] || rest[0] == ' '
    ensures IndexOf(w + rest, ' ') == |w|
  {
    if |w| > 1 {
      assert (w + rest)[1..] == w[1..] + rest;
      WordLengthOfWord(w[1..], rest);
    } else {
      assert (w + rest)[1..] == rest;
    }
  }

  /**
    Split cuts exactly at spaces: the tokens of two texts joined by a space
    are the tokens of the first followed by the tokens of the second. With
    Tokens([]) == [] and TokensOfWord this fixes the tokens of every name.
   */
  lemma {:induction false} TokensOfSpaceJoin(a: string, b: string)
    ensures Tokens(a + " " + b) == Tokens(a) + Tokens(b)
    decreases |a|
  {
    var s := a + " " + b;
    if a == [] {
      assert s == " " + b && s[1..] == b;
    } else if a[0] == ' ' {
      assert s[0] == ' ' && s[1..] == a[1..] + " " + b;
      TokensOfSpaceJoin(a[1..], b);
    } else {
      var n := IndexOf(a, ' ');
      IndexOfSpaceJoin(a, b);
      assert s[..n] == a[..n];
      if n < |a| {
        assert s[n..] == a[n..] + " " + b;
        TokensOfSpaceJoin(a[n..], b);
      } else {
        assert s[n..] == " " + b && (" " + b)[1..] == b;
      }
    }
  }

  /** Appending a space and more text to `a` leaves its first space where it was: inside `a`, or right after it. */
  lemma IndexOfSpaceJoin(a: string, b: string)
    ensures IndexOf(a + " " + b, ' ') == IndexOf(a, ' ')
  {
    var s := a + " " + b;
    var n := IndexOf(a, ' ');
    assert forall i :: 0 <= i < n ==> s[i] == a[i];
    assert s[n] == ' ';
  }

  /** A word followed by a space and more text: the word is the first token. */
  lemma TokensOfWordThen(w: string, rest: string)
    requires IsWord(w)
    ensures Tokens(w + " " + rest) == [w] + Tokens(rest)
  {
    var s := w + " " + rest;
    WordLengthOfWord(w, " " + rest);
    assert s == w + (" " + rest);
    assert s[..|w|] == w && s[|w|..] == " " + rest;
    assert (" " + rest)[1..] == rest;
  }

  lemma TokensOfWord(w: string)
    requires IsWord(w)
    ensures Tokens(w) == [w]
  {
    WordLengthOfWord(w, []);
    assert w + [] == w;
    assert w[..|w|] == w && w[|w|..] == [];
  }

  /** A full name of three words gives three tokens, in order. */
  lemma ThreeWordName(first: string, middle: string, last: string)
    requires IsWord(first) && IsWord(middle) && IsWord(last)
    ensures Tokens(first + " " + middle + " " + last) == [first, middle, last]
  {
    var rest := middle + " " + last;
    TokensOfWord(last);
    TokensOfWordThen(middle, last);
    TokensOfWordThen(first, rest);
    assert first + " " + middle + " " + last == first + " " + rest;
  }

  /** Three or more tokens: the initials are the first characters of the first three. */
  lemma InitialsOfThree(name: string)
    requires |Tokens(name)| >= 3
    ensures InitialsOf(name) == [Tokens(name)[0][0], Tokens(name)[1][0], Tokens(name)[2][0]]
  {
    var r := InitialsOf(name);
    assert |r| == 3;
  }

  /** The first sample name: three words, three tokens, three initials. */
  lemma SampleNameTokens()
    ensures Tokens("Иванов" + " " + "Иван" + " " + "Иванович") == ["Иванов", "Иван", "Иванович"]
    ensures InitialsOf("Иванов" + " " + "Иван" + " " + "Иванович") == "ИИИ"
  {
    ThreeWordName("Иванов", "Иван", "Иванович");
    InitialsOfThree("Иванов" + " " + "Иван" + " " + "Иванович");
  }

  /** A one-word name is its own only token, and its initials are its first character. */
  lemma SingleWordName(w: string)
    requires IsWord(w)
    ensures Tokens(w) == [w]
    ensures InitialsOf(w) == [w[0]]
  {
    TokensOfWord(w);
    var r := InitialsOf(w);
    assert |r| == 1 && r[0] == w[0];
  }

  /** A one-word sample: the first name of the second sample employee. */
  lemma SingleNameTokens()
    ensures Tokens("Мария") == ["Мария"]
    ensures InitialsOf("Мария") == "М"
  {
    var name: string := "Мария";
    assert IsWord(name);
    SingleWordName(name);
  }

  // ---------------------------------------------------------------------
  // The placeholder photo
  // ---------------------------------------------------------------------

  datatype Rect = Rect(x: int, y: int, width: int, height: int)

  /**
    What GeneratePlaceholderImage draws: a bitmap of the given size, a filled
    rectangle inset by 20 pixels, and, centred in that rectangle in a bold font
    of the given pixel size, the initials of the name it was drawn for.
   */
  datatype Placeholder = Placeholder(width: int, height: int, inset: Rect, fontSize: int, fullName: string)

  const PhotoWidth: int := 640
  const PhotoHeight: int := 480

  function PlaceholderFor(fullName: string, width: int, height: int): Placeholder {
    Placeholder(width, height, Rect(20, 20, width - 40, height - 40), Max(24, width / 10), fullName)
  }

  /**
    GeneratePlaceholderImage without the drawing: the picture it produces and
    the initials it collects for the caption. new Bitmap(width, height) throws
    unless both sizes are positive, so the caller must pass such sizes.
   */
  method GeneratePlaceholderImage(fullName: string, width: int, height: int) returns (p: Placeholder, initials: string)
    requires width > 0 && height > 0
    ensures p == PlaceholderFor(fullName, width, height)
    ensures p.inset.x + p.inset.width + 20 == width && p.inset.y + p.inset.height + 20 == height
    ensures p.fontSize >= 24 && p.fontSize * 10 <= Max(240, width)
    ensures initials == InitialsOf(p.fullName)
  {
    var rect := Rect(20, 20, width - 40, height - 40);
    initials := Initials(fullName);
    p := Placeholder(width, height, rect, Max(24, width / 10), fullName);
  }

  /**
    The text drawn on a placeholder: the first letters of the first three
    tokens of its name, each passed through the platform's ToUpperInvariant.
   */
  function DrawnCaption(p: Placeholder, upper: char -> char): (t: string)
    ensures |t| == Min(3, |Tokens(p.fullName)|)
    ensures forall i :: 0 <= i < |t| ==> t[i] == upper(Tokens(p.fullName)[i][0])
  {
    var initials := InitialsOf(p.fullName);
    seq(|initials|, i requires 0 <= i < |initials| => upper(initials[i]))
  }

  // ---------------------------------------------------------------------
  // Employees, list rows and the detail text
  // ---------------------------------------------------------------------

  /** The Employee record: three read-only fields and a photo attached after creation. */
  datatype Employee = Employee(department: string, fullName: string, hireDate: Date, photo: Option<Placeholder>)

  /** The four employees PopulateSampleData adds, before their photos are attached. */
  const SampleStaff: seq<Employee> := [
    Employee("Охрана", "Иванов Иван Иванович", Date(2018, 3, 12), None),
    Employee("Администрация", "Петрова Мария Сергеевна", Date(2020, 7, 1), None),
    Employee("Технический отдел", "Сидоров Алексей Петрович", Date(2016, 11, 20), None),
    Employee("Охрана", "Кузнецова Ольга Николаевна", Date(2021, 5, 15), None)
  ]

  function WithPhoto(e: Employee): Employee {
    e.(photo := Some(PlaceholderFor(e.fullName, PhotoWidth, PhotoHeight)))
  }

  /** The employee list after PopulateSampleData's loop: every employee with a placeholder photo. */
  function Photographed(es: seq<Employee>): (r: seq<Employee>)
    ensures |r| == |es|
    ensures forall i :: 0 <= i < |r| ==> r[i] == WithPhoto(es[i])
  {
    seq(|es|, i requires 0 <= i < |es| => WithPhoto(es[i]))
  }

  /** A list view item: its three cells, and the employee kept in its Tag. */
  datatype Row = Row(cells: seq<string>, tag: Option<Employee>)

  /** The item FillListView builds for an employee. */
  function RowOf(e: Employee): Row {
    Row([e.department, e.fullName, FormatIsoDate(e.hireDate)], Some(e))
  }

  /** The items FillListView builds, one per employee, in list order. */
  function RowsOf(es: seq<Employee>): (r: seq<Row>)
    ensures |r| == |es|
    ensures forall i :: 0 <= i < |r| ==> r[i] == RowOf(es[i])
  {
    seq(|es|, i requires 0 <= i < |es| => RowOf(es[i]))
  }

  /**
    A row shows the department, then the full name, then a date cell that
    reads back as the hire date, and keeps the employee itself in its Tag.
   */
  lemma RowShowsEmployee(e: Employee)
    requires ValidDate(e.hireDate)
    ensures |RowOf(e).cells| == 3
    ensures RowOf(e).cells[0] == e.department && RowOf(e).cells[1] == e.fullName
    ensures ParseIsoDate(RowOf(e).cells[2]) == Some(e.hireDate)
    ensures RowOf(e).tag == Some(e)
  {
    IsoDateRoundTrip(e.hireDate);
  }

  const DepartmentLabel: string := "Отдел: "
  const NameLabel: string := "ФИО: "
  const HireDateLabel: string := "Дата трудоустройства: "

  /** The three-line text the detail pane shows for an employee. */
  function InfoText(e: Employee): string {
    DepartmentLabel + e.department + NewLine +
    NameLabel + e.fullName + NewLine +
    HireDateLabel + FormatIsoDate(e.hireDate)
  }

  function DropCarriageReturn(s: string): string {
    if s != [] && s[|s| - 1] == '\r' then s[..|s| - 1] else s
  }

  /** The lines a reader of Windows text sees: split at line feeds, each without its carriage return. */
  function Lines(s: string): seq<string>
    decreases |s|
  {
    var n := IndexOf(s, '\n');
    if n == |s| then [DropCarriageReturn(s)]
    else [DropCarriageReturn(s[..n])] + Lines(s[n + 1..])
  }

  predicate NoLineFeed(s: string) {
    forall i :: 0 <= i < |s| ==> s[i] != '\n'
  }

  lemma NoLineFeedConcat(a: string, b: string)
    requires NoLineFeed(a) && NoLineFeed(b)
    ensures NoLineFeed(a + b)
  {
    assert forall i :: |a| <= i < |a + b| ==> (a + b)[i] == b[i - |a|];
  }

  lemma LinesAfterNewLine(a: string, b: string)
    requires NoLineFeed(a)
    ensures Lines(a + NewLine + b) == [a] + Lines(b)
  {
    var s := a + NewLine + b;
    assert s[|a|] == '\r' && s[|a| + 1] == '\n';
    assert IndexOf(s, '\n') == |a| + 1 by {
      assert forall i :: 0 <= i < |a| + 1 ==> s[i] != '\n';
    }
    assert s[..|a| + 1] == a + "\r";
    assert s[|a| + 2..] == b;
  }

  lemma LastLine(c: string)
    requires NoLineFeed(c)
    requires c != [] && c[|c| - 1] != '\r'
    ensures Lines(c) == [c]
  {
    assert IndexOf(c, '\n') == |c|;
  }

  lemma LabelsHaveNoLineFeed()
    ensures NoLineFeed(DepartmentLabel) && NoLineFeed(NameLabel) && NoLineFeed(HireDateLabel)
  {
  }

  /** The date line neither holds a line feed nor ends in a carriage return. */
  lemma DateLineIsPlain(d: Date)
    ensures NoLineFeed(HireDateLabel + FormatIsoDate(d))
    ensures (HireDateLabel + FormatIsoDate(d))[|HireDateLabel| + 9] != '\r'
  {
    LabelsHaveNoLineFeed();
    var t := FormatIsoDate(d);
    assert NoLineFeed(t);
    NoLineFeedConcat(HireDateLabel, t);
    assert (HireDateLabel + t)[|HireDateLabel| + 9] == t[9];
  }

  /**
    The detail text reads as exactly three lines, department, full name and
    hire date, in that order, as long as the two names hold no line feed.
   */
  lemma InfoTextLines(e: Employee)
    requires NoLineFeed(e.department) && NoLineFeed(e.fullName)
    ensures Lines(InfoText(e)) ==
      [DepartmentLabel + e.department, NameLabel + e.fullName, HireDateLabel + FormatIsoDate(e.hireDate)]
  {
    var l1 := DepartmentLabel + e.department;
    var l2 := NameLabel + e.fullName;
    var l3 := HireDateLabel + FormatIsoDate(e.hireDate);
    assert InfoText(e) == l1 + NewLine + (l2 + NewLine + l3);
    LabelsHaveNoLineFeed();
    NoLineFeedConcat(DepartmentLabel, e.department);
    NoLineFeedConcat(NameLabel, e.fullName);
    DateLineIsPlain(e.hireDate);
    LinesAfterNewLine(l1, l2 + NewLine + l3);
    LinesAfterNewLine(l2, l3);
    LastLine(l3);
  }

  // ---------------------------------------------------------------------
  // The control
  // ---------------------------------------------------------------------

  /** One assignment to a SplitContainer layout property, in the order it happened. */
  datatype LayoutWrite = SplitterDistanceSet(value: int) | Panel1MinSizeSet(value: int) | Panel2MinSizeSet(value: int)

  /** A layout call posted with BeginInvoke, waiting for the next turn of the event loop. */
  datatype LayoutRequest = LoadRequest | SafeSplitterRequest(desired: int, panel1Min: int, panel2Min: int)

  function RequestedLayout(r: LayoutRequest, clientWidth: int): Option<Layout> {
    match r
    case LoadRequest => LoadLayout(clientWidth)
    case SafeSplitterRequest(d, a, b) => DeferredLayout(clientWidth, d, a, b)
  }

  function LayoutWrites(l: Layout): seq<LayoutWrite> {
    [SplitterDistanceSet(l.splitter), Panel1MinSizeSet(l.panel1Min), Panel2MinSizeSet(l.panel2Min)]
  }

  /** The size a UserControl has before the window system lays it out. */
  const DefaultControlWidth: int := 150
  /** SplitContainer's own defaults for SplitterDistance and the two minimums. */
  const DefaultSplitterDistance: int := 50
  const DefaultPanelMinSize: int := 25

  class EmployeesControl {
    /** ClientSize.Width, as the window system reports it. */
    var clientWidth: int
    var splitterDistance: int
    var panel1MinSize: int
    var panel2MinSize: int
    /** Every assignment to the three split properties, oldest first. */
    var layoutWrites: seq<LayoutWrite>
    /** The BeginInvoke queue of layout calls still to run. */
    var pending: seq<LayoutRequest>

    var employees: seq<Employee>
    var rows: seq<Row>
    /** The selected row; the list view allows at most one. */
    var selected: Option<nat>
    /** pictureBox.Image and infoLabel.Text. */
    var image: Option<Placeholder>
    var infoText: string

    ghost predicate Valid()
      reads this
    {
      selected.Some? ==> selected.value < |rows|
    }

    /** The split container shows layout `l`. */
    ghost predicate Shows(l: Layout)
      reads this
    {
      splitterDistance == l.splitter && panel1MinSize == l.panel1Min && panel2MinSize == l.panel2Min
    }

    /**
      The constructor: build the widgets, add the sample staff with their
      photos, fill the list. The first row ends up selected and shown.
     */
    constructor ()
      ensures Valid()
      ensures clientWidth == DefaultControlWidth
      ensures Shows(Layout(DefaultSplitterDistance, DefaultPanelMinSize, DefaultPanelMinSize))
      ensures layoutWrites == [] && pending == []
      ensures employees == Photographed(SampleStaff)
      ensures rows == RowsOf(employees)
      ensures selected == Some(0)
      ensures image == employees[0].photo && infoText == InfoText(employees[0])
    {
      clientWidth := DefaultControlWidth;
      splitterDistance := DefaultSplitterDistance;
      panel1MinSize := DefaultPanelMinSize;
      panel2MinSize := DefaultPanelMinSize;
      layoutWrites := [];
      pending := [];
      employees := [];
      rows := [];
      selected := None;
      image := None;
      infoText := "";
      new;
      LoadSampleStaff();
    }

    /** The constructor's last two steps: PopulateSampleData, then FillListView, on an empty list. */
    method LoadSampleStaff()
      requires employees == [] && rows == [] && selected.None?
      modifies this`employees, this`rows, this`selected, this`image, this`infoText
      ensures Valid()
      ensures employees == Photographed(SampleStaff)
      ensures rows == RowsOf(employees)
      ensures selected == Some(0)
      ensures image == employees[0].photo && infoText == InfoText(employees[0])
    {
      PopulateSampleData();
      FillListView();
    }

    /** The window system gives the control a new width. */
    method Resize(width: int)
      modifies this`clientWidth
      ensures clientWidth == width
    {
      clientWidth := width;
    }

    /** One assignment to a split property, recorded in order. */
    method Assign(w: LayoutWrite)
      modifies this`splitterDistance, this`panel1MinSize, this`panel2MinSize, this`layoutWrites
      ensures layoutWrites == old(layoutWrites) + [w]
      ensures splitterDistance == (if w.SplitterDistanceSet? then w.value else old(splitterDistance))
      ensures panel1MinSize == (if w.Panel1MinSizeSet? then w.value else old(panel1MinSize))
      ensures panel2MinSize == (if w.Panel2MinSizeSet? then w.value else old(panel2MinSize))
    {
      match w {
        case SplitterDistanceSet(v) => splitterDistance := v;
        case Panel1MinSizeSet(v) => panel1MinSize := v;
        case Panel2MinSizeSet(v) => panel2MinSize := v;
      }
      layoutWrites := layoutWrites + [w];
    }

    /**
      EmployeesControl_Load: with a width of at most 1 it posts itself again
      and changes nothing else; otherwise it assigns the splitter first, then
      the left minimum, then the right one.
     */
    method Load()
      modifies this`splitterDistance, this`panel1MinSize, this`panel2MinSize, this`layoutWrites, this`pending
      ensures LoadLayout(clientWidth).None? ==>
        pending == old(pending) + [LoadRequest] && layoutWrites == old(layoutWrites) &&
        splitterDistance == old(splitterDistance) && panel1MinSize == old(panel1MinSize) && panel2MinSize == old(panel2MinSize)
      ensures LoadLayout(clientWidth).Some? ==>
        pending == old(pending) && Shows(LoadLayout(clientWidth).value) &&
        layoutWrites == old(layoutWrites) + LayoutWrites(LoadLayout(clientWidth).value)
    {
      var totalWidth := Max(1, clientWidth);
      if totalWidth <= 1 {
        pending := pending + [LoadRequest];
        return;
      }
      var safeSplitter := Clamp(DesiredLeftWidth, 0, Max(0, totalWidth - RightPanelMin));
      Assign(SplitterDistanceSet(safeSplitter));
      var availableForMins := totalWidth;
      var effectivePanel2Min := Min(RightPanelMin, Max(0, availableForMins - LeftPanelMin));
      Assign(Panel1MinSizeSet(Min(LeftPanelMin, Max(0, availableForMins - effectivePanel2Min))));
      Assign(Panel2MinSizeSet(effectivePanel2Min));
    }

    /** EmployeesControl_ParentChanged: posts SetSafeSplitterDistance(360, 240, 200). */
    method ParentChanged()
      modifies this`pending
      ensures pending == old(pending) + [SafeSplitterRequest(DesiredLeftWidth, LeftPanelMin, RightPanelMin)]
    {
      pending := pending + [SafeSplitterRequest(DesiredLeftWidth, LeftPanelMin, RightPanelMin)];
    }

    /**
      SetSafeSplitterDistance: with a width of at most 0 it posts itself again
      and changes nothing else; otherwise the same three assignments, in order.
     */
    method SetSafeSplitterDistance(desired: int, panel1Min: int, panel2Min: int)
      modifies this`splitterDistance, this`panel1MinSize, this`panel2MinSize, this`layoutWrites, this`pending
      ensures DeferredLayout(clientWidth, desired, panel1Min, panel2Min).None? ==>
        pending == old(pending) + [SafeSplitterRequest(desired, panel1Min, panel2Min)] &&
        layoutWrites == old(layoutWrites) &&
        splitterDistance == old(splitterDistance) && panel1MinSize == old(panel1MinSize) && panel2MinSize == old(panel2MinSize)
      ensures DeferredLayout(clientWidth, desired, panel1Min, panel2Min).Some? ==>
        pending == old(pending) && Shows(DeferredLayout(clientWidth, desired, panel1Min, panel2Min).value) &&
        layoutWrites == old(layoutWrites) + LayoutWrites(DeferredLayout(clientWidth, desired, panel1Min, panel2Min).value)
    {
      var totalWidth := clientWidth;
      if totalWidth <= 0 {
        pending := pending + [SafeSplitterRequest(desired, panel1Min, panel2Min)];
        return;
      }
      var safe := Clamp(desired, 0, Max(0, totalWidth - panel2Min));
      Assign(SplitterDistanceSet(safe));
      var effectivePanel2Min := Min(panel2Min, Max(0, totalWidth - panel1Min));
      Assign(Panel1MinSizeSet(Min(panel1Min, Max(0, totalWidth - effectivePanel2Min))));
      Assign(Panel2MinSizeSet(effectivePanel2Min));
    }

    /**
      The event loop runs the oldest posted layout call, which either applies
      its layout or posts itself again at the back of the queue.
     */
    method RunPending()
      modifies this`splitterDistance, this`panel1MinSize, this`panel2MinSize, this`layoutWrites, this`pending
      ensures old(pending) == [] ==>
        pending == [] && layoutWrites == old(layoutWrites) &&
        splitterDistance == old(splitterDistance) && panel1MinSize == old(panel1MinSize) && panel2MinSize == old(panel2MinSize)
      ensures old(pending) != [] && RequestedLayout(old(pending)[0], clientWidth).None? ==>
        pending == old(pending)[1..] + [old(pending)[0]] && layoutWrites == old(layoutWrites) &&
        splitterDistance == old(splitterDistance) && panel1MinSize == old(panel1MinSize) && panel2MinSize == old(panel2MinSize)
      ensures old(pending) != [] && RequestedLayout(old(pending)[0], clientWidth).Some? ==>
        pending == old(pending)[1..] && Shows(RequestedLayout(old(pending)[0], clientWidth).value) &&
        layoutWrites == old(layoutWrites) + LayoutWrites(RequestedLayout(old(pending)[0], clientWidth).value)
    {
      if pending == [] {
        return;
      }
      var request := pending[0];
      pending := pending[1..];
      match request
      case LoadRequest => Load();
      case SafeSplitterRequest(d, a, b) => SetSafeSplitterDistance(d, a, b);
    }

    /** PopulateSampleData: adds the four sample employees, then gives every employee a placeholder photo. */
    method PopulateSampleData()
      modifies this`employees
      ensures employees == Photographed(old(employees) + SampleStaff)
    {
      employees := employees + SampleStaff;
      ghost var added := employees;
      var i := 0;
      while i < |employees|
        invariant |employees| == |added| && 0 <= i <= |employees|
        invariant forall k :: 0 <= k < i ==> employees[k] == WithPhoto(added[k])
        invariant forall k :: i <= k < |employees| ==> employees[k] == added[k]
      {
        var emp := employees[i];
        var photo, _ := GeneratePlaceholderImage(emp.fullName, PhotoWidth, PhotoHeight);
        employees := employees[i := emp.(photo := Some(photo))];
        i := i + 1;
      }
    }

    /**
      EmployeesListView_SelectedIndexChanged: with no selection the detail
      pane is emptied; otherwise it shows the photo and the three-line text
      of the employee in the selected row's Tag.
     */
    method SelectedIndexChanged()
      requires Valid()
      modifies this`image, this`infoText
      ensures selected.None? ==> image.None? && infoText == ""
      ensures selected.Some? && rows[selected.value].tag.Some? ==>
        image == rows[selected.value].tag.value.photo && infoText == InfoText(rows[selected.value].tag.value)
      ensures selected.Some? && rows[selected.value].tag.None? ==>
        image == old(image) && infoText == old(infoText)
    {
      if selected.None? {
        image := None;
        infoText := "";
        return;
      }
      var item := rows[selected.value];
      if item.tag.Some? {
        var emp := item.tag.value;
        image := emp.photo;
        infoText := InfoText(emp);
      }
    }

    /**
      FillListView: clearing the items drops any selection, one row per
      employee is added in list order, and the first row is selected. Each
      change of selection raises SelectedIndexChanged.
     */
    method FillListView()
      requires Valid()
      modifies this`rows, this`selected, this`image, this`infoText
      ensures Valid()
      ensures rows == RowsOf(employees)
      ensures selected == (if |employees| > 0 then Some(0) else None)
      ensures |employees| > 0 ==> image == employees[0].photo && infoText == InfoText(employees[0])
      ensures |employees| == 0 && old(selected).Some? ==> image.None? && infoText == ""
      ensures |employees| == 0 && old(selected).None? ==> image == old(image) && infoText == old(infoText)
    {
      if selected.Some? {
        selected := None;
        SelectedIndexChanged();
      }
      rows := [];
      ghost var shownImage, shownText := image, infoText;
      for i := 0 to |employees|
        invariant selected == old(selected) || selected.None?
        invariant old(selected).Some? ==> selected.None?
        invariant image == shownImage && infoText == shownText
        invariant |rows| == i
        invariant forall k :: 0 <= k < i ==> rows[k] == RowOf(employees[k])
      {
        rows := rows + [RowOf(employees[i])];
      }
      if |rows| > 0 {
        selected := Some(0);
        SelectedIndexChanged();
      }
    }

    /** The user clicks a row, or clicks away from every row. */
    method Select(choice: Option<nat>)
      requires Valid()
      requires choice.Some? ==> choice.value < |rows|
      modifies this`selected, this`image, this`infoText
      ensures Valid() && selected == choice
      ensures choice != old(selected) && choice.None? ==> image.None? && infoText == ""
      ensures choice != old(selected) && choice.Some? && rows[choice.value].tag.Some? ==>
        image == rows[choice.value].tag.value.photo && infoText == InfoText(rows[choice.value].tag.value)
      ensures choice == old(selected) ==> image == old(image) && infoText == old(infoText)
    {
      if choice != selected {
        selected := choice;
        SelectedIndexChanged();
      }
    }
  }

  /** Every sample employee has a valid hire date and non-empty names. */
  lemma SampleStaffWellFormed()
    ensures forall i :: 0 <= i < |SampleStaff| ==>
      ValidDate(SampleStaff[i].hireDate) && SampleStaff[i].department != [] && SampleStaff[i].fullName != []
  {
  }
}
