/**
 * The game board: a `rows` x `columns` grid of card records, its
 * representation invariant, construction from the lines of a board file,
 * and the debug printer.
 */
module BoardModel {
  import opened Results
  import opened Text

  /** Players are identified by the id string they send. */
  type Player = string

  datatype CardState = Down | Up | Removed

  /**
   * One card record. `owner` is the player controlling the card,
   * `matchedBy` marks a card its owner just matched, `pendingConcealBy`
   * marks a card to be turned down when that player next starts a turn,
   * and `mask` stages a value substitution before it is committed.
   */
  datatype Card = Card(
    value: string,
    state: CardState,
    owner: Option<Player>,
    matchedBy: Option<Player>,
    pendingConcealBy: Option<Player>,
    mask: string)

  /** The cards, row by row. Rows are not forced to have equal lengths: the invariant says so. */
  type Grid = seq<seq<Card>>

  datatype Pos = Pos(row: nat, column: nat)

  predicate InGrid(g: Grid, pos: Pos) {
    pos.row < |g| && pos.column < |g[pos.row]|
  }

  function At(g: Grid, pos: Pos): Card
    requires InGrid(g, pos)
  {
    g[pos.row][pos.column]
  }

  function SetCard(g: Grid, pos: Pos, c: Card): (r: Grid)
    requires InGrid(g, pos)
  {
    g[pos.row := g[pos.row][pos.column := c]]
  }

  /** Applies `f` to every card, keeping every card in its place. */
  function MapCards(g: Grid, f: Card -> Card): (h: Grid)
    ensures |h| == |g| && forall i :: 0 <= i < |g| ==> |h[i]| == |g[i]|
    ensures forall i, j :: 0 <= i < |g| && 0 <= j < |g[i]| ==> h[i][j] == f(g[i][j])
  {
    seq(|g|, i requires 0 <= i < |g| => seq(|g[i]|, j requires 0 <= j < |g[i]| => f(g[i][j])))
  }

  /** The elements of a grid in row-major order (Ruby's `Array#flatten`). */
  function Flatten<T>(g: seq<seq<T>>): seq<T> {
    if g == [] then [] else g[0] + Flatten(g[1..])
  }

  lemma {:induction false} FlattenLength<T>(g: seq<seq<T>>, columns: nat)
    requires forall i :: 0 <= i < |g| ==> |g[i]| == columns
    ensures |Flatten(g)| == |g| * columns
  {
    if g != [] {
      FlattenLength(g[1..], columns);
      assert |g| * columns == columns + (|g| - 1) * columns;
    }
  }

  /** In a grid whose rows all have `columns` elements, cell (i, j) sits at i * columns + j of the flattening. */
  lemma {:induction false} FlattenAt<T>(g: seq<seq<T>>, columns: nat, i: nat, j: nat)
    requires forall k :: 0 <= k < |g| ==> |g[k]| == columns
    requires i < |g| && j < columns
    ensures |Flatten(g)| == |g| * columns
    ensures i * columns + j < |Flatten(g)| && Flatten(g)[i * columns + j] == g[i][j]
  {
    FlattenLength(g, columns);
    assert Flatten(g) == g[0] + Flatten(g[1..]);
    if i > 0 {
      FlattenAt(g[1..], columns, i - 1, j);
      var k := (i - 1) * columns + j;
      MulPred(i, columns);
      assert i * columns + j == columns + k;
      assert Flatten(g)[columns + k] == Flatten(g[1..])[k];
    } else {
      assert Flatten(g)[j] == g[0][j];
    }
  }

  // ----- representation invariant (Board#check_rep) -----

  /** A card value is a non-empty string without whitespace. */
  predicate ValidValue(v: string) {
    |v| > 0 && NoSpace(v)
  }

  predicate AllValuesValid(row: seq<Card>) {
    forall j :: 0 <= j < |row| ==> ValidValue(row[j].value)
  }

  /** Positive dimensions, and the grid has exactly those dimensions. */
  predicate Shaped(rows: int, columns: int, cards: Grid) {
    && rows > 0
    && columns > 0
    && |cards| == rows
    && forall i :: 0 <= i < |cards| ==> |cards[i]| == columns
  }

  /**
   * The representation invariant. That every card is a record with a value,
   * a legal state and an owner key holds by the type `Card`; what is left
   * is the shape and the values.
   */
  predicate RepOk(rows: int, columns: int, cards: Grid) {
    Shaped(rows, columns, cards) && forall i :: 0 <= i < |cards| ==> AllValuesValid(cards[i])
  }

  datatype RepError = RowsNotPositive | ColumnsNotPositive | RowCountMismatch | ColumnCountMismatch | BadValue

  /** The row-by-row part of the check, in the order the rows are visited. */
  function CheckRows(cards: Grid, columns: int): (r: Outcome<RepError>)
    ensures r == Pass <==> forall i :: 0 <= i < |cards| ==> |cards[i]| == columns && AllValuesValid(cards[i])
    ensures r != Pass ==> r == Fail(ColumnCountMismatch) || r == Fail(BadValue)
  {
    if cards == [] then Pass
    else if |cards[0]| != columns then Fail(ColumnCountMismatch)
    else if !AllValuesValid(cards[0]) then Fail(BadValue)
    else
      var rest := CheckRows(cards[1..], columns);
      assert forall i :: 1 <= i < |cards| ==> cards[1..][i - 1] == cards[i];
      rest
  }

  /** `check_rep`: passes exactly when the representation invariant holds, else names the first violation. */
  function CheckRep(rows: int, columns: int, cards: Grid): (r: Outcome<RepError>)
    ensures r == Pass <==> RepOk(rows, columns, cards)
    ensures rows <= 0 ==> r == Fail(RowsNotPositive)
    ensures rows > 0 && columns <= 0 ==> r == Fail(ColumnsNotPositive)
    ensures rows > 0 && columns > 0 && |cards| != rows ==> r == Fail(RowCountMismatch)
  {
    if rows <= 0 then Fail(RowsNotPositive)
    else if columns <= 0 then Fail(ColumnsNotPositive)
    else if |cards| != rows then Fail(RowCountMismatch)
    else CheckRows(cards, columns)
  }

  /**
   * The rows are checked in order: when rows before `k` are sound and row
   * `k` is not, the error is row `k`'s, and within that row the column
   * count is checked before the values.
   */
  lemma {:induction false} CheckRowsFirstBad(cards: Grid, columns: int, k: nat)
    requires k < |cards|
    requires forall i :: 0 <= i < k ==> |cards[i]| == columns && AllValuesValid(cards[i])
    requires !(|cards[k]| == columns && AllValuesValid(cards[k]))
    ensures CheckRows(cards, columns) == Fail(if |cards[k]| != columns then ColumnCountMismatch else BadValue)
  {
    if k > 0 {
      assert forall i :: 0 <= i < k - 1 ==> cards[1..][i] == cards[i + 1];
      CheckRowsFirstBad(cards[1..], columns, k - 1);
    }
  }

  /**
   * On a board with good dimensions whose first unsound row is `k`,
   * `check_rep` names that row's error: a wrong column count before a bad value.
   */
  lemma CheckRepFirstBad(rows: int, columns: int, cards: Grid, k: nat)
    requires rows > 0 && columns > 0 && |cards| == rows
    requires k < |cards|
    requires forall i :: 0 <= i < k ==> |cards[i]| == columns && AllValuesValid(cards[i])
    requires !(|cards[k]| == columns && AllValuesValid(cards[k]))
    ensures CheckRep(rows, columns, cards) == Fail(if |cards[k]| != columns then ColumnCountMismatch else BadValue)
  {
    CheckRowsFirstBad(cards, columns, k);
  }

  // ----- parsing the lines of a board file (Board.parse_from_file) -----

  /** The first line of a board file and of every view: `<rows>x<columns>`. */
  function Header(rows: int, columns: int): string {
    IntToString(rows) + "x" + IntToString(columns)
  }

  /** The header pattern `^(\d+)x(\d+)$`: the dimensions it spells, or None. */
  function ParseHeader(s: string): (r: Option<(nat, nat)>)
    ensures r.Some? <==> exists k :: 0 < k < |s| - 1 && s[k] == 'x' && AllDigits(s[..k]) && AllDigits(s[k + 1..])
  {
    var k := IndexOf(s, 'x');
    if 0 < k < |s| - 1 && AllDigits(s[..k]) && AllDigits(s[k + 1..]) then
      Some((DigitsValue(s[..k]), DigitsValue(s[k + 1..])))
    else
      assert forall k' :: 0 < k' < |s| - 1 && s[k'] == 'x' && AllDigits(s[..k']) ==> k' == k by {
        forall k' | 0 < k' < |s| - 1 && s[k'] == 'x' && AllDigits(s[..k'])
          ensures k' == k
        {
          assert forall i :: 0 <= i < k' ==> s[i] == s[..k'][i];
        }
      }
      None
  }

  /** The header of a board reads back as that board's dimensions. */
  lemma HeaderRoundTrip(rows: nat, columns: nat)
    ensures ParseHeader(Header(rows, columns)) == Some((rows, columns))
  {
    var a, b := Decimal(rows), Decimal(columns);
    var s := Header(rows, columns);
    assert s == a + "x" + b;
    assert IndexOf(s, 'x') == |a| by {
      assert s[|a|] == 'x';
      assert forall i :: 0 <= i < |a| ==> s[i] == a[i] && IsDigit(a[i]);
    }
    assert s[..|a|] == a;
    assert s[|a| + 1..] == b;
    DecimalRoundTrip(rows);
    DecimalRoundTrip(columns);
  }

  /** The lines that remain once every line is stripped and blank ones are dropped. */
  function KeptLines(raw: seq<string>): (r: seq<string>)
    ensures forall i :: 0 <= i < |r| ==> r[i] != [] && !IsStrippable(r[i][0]) && !IsStrippable(r[i][|r[i]| - 1])
    ensures |r| <= |raw|
  {
    if raw == [] then []
    else
      var s := Strip(raw[0]);
      if s == [] then KeptLines(raw[1..]) else [s] + KeptLines(raw[1..])
  }

  /** No line is kept exactly when every line of the file is blank once stripped. */
  lemma {:induction false} KeptNoneIffBlank(raw: seq<string>)
    ensures KeptLines(raw) == [] <==> forall i :: 0 <= i < |raw| ==> Strip(raw[i]) == []
  {
    if raw != [] {
      KeptNoneIffBlank(raw[1..]);
      assert forall i :: 1 <= i < |raw| ==> raw[1..][i - 1] == raw[i];
    }
  }

  /** Ruby's `each_slice(n)` for n > 0: consecutive slices of n elements, the last one possibly shorter. */
  function Slices<T>(xs: seq<T>, n: nat): seq<seq<T>>
    requires n > 0
    decreases |xs|
  {
    if |xs| <= n then (if xs == [] then [] else [xs])
    else [xs[..n]] + Slices(xs[n..], n)
  }

  /** Slicing keeps every element, in order. */
  lemma {:induction false} FlattenSlices<T>(xs: seq<T>, n: nat)
    requires n > 0
    ensures Flatten(Slices(xs, n)) == xs
    decreases |xs|
  {
    if |xs| > n {
      FlattenSlices(xs[n..], n);
      assert xs == xs[..n] + xs[n..];
    } else if xs != [] {
      assert Flatten(Slices(xs, n)) == xs + Flatten([]);
    }
  }

  lemma MulPred(m: nat, n: nat)
    requires m > 0
    ensures (m - 1) * n == m * n - n
  {
  }

  /** Slicing m * n elements by n gives m slices of exactly n. */
  lemma {:induction false} SlicesLength<T>(xs: seq<T>, n: nat, m: nat)
    requires n > 0 && |xs| == m * n
    ensures |Slices(xs, n)| == m
    ensures forall i :: 0 <= i < m ==> |Slices(xs, n)[i]| == n
  {
    if m > 1 {
      MulPred(m, n);
      SlicesLength(xs[n..], n, m - 1);
    } else if m == 1 {
      assert |xs| == n;
    }
  }

  lemma {:induction false} InFlatten<T>(g: seq<seq<T>>, i: nat, j: nat)
    requires i < |g| && j < |g[i]|
    ensures g[i][j] in Flatten(g)
  {
    if i > 0 {
      InFlatten(g[1..], i - 1, j);
    } else {
      assert Flatten(g)[j] == g[0][j];
    }
  }

  lemma {:induction false} FromFlatten<T>(g: seq<seq<T>>, x: T) returns (i: nat, j: nat)
    requires x in Flatten(g)
    ensures i < |g| && j < |g[i]| && g[i][j] == x
  {
    if x in g[0] {
      var k :| 0 <= k < |g[0]| && g[0][k] == x;
      i, j := 0, k;
    } else {
      var i', j' := FromFlatten(g[1..], x);
      i, j := i' + 1, j';
    }
  }

  /** The record a card starts as: face down, nobody's, with its mask equal to its value. */
  function NewCard(v: string): Card {
    Card(v, Down, None, None, None, v)
  }

  function NewGrid(slices: seq<seq<string>>): Grid {
    seq(|slices|, i requires 0 <= i < |slices| =>
      seq(|slices[i]|, j requires 0 <= j < |slices[i]| => NewCard(slices[i][j])))
  }

  function Values(row: seq<Card>): seq<string> {
    seq(|row|, j requires 0 <= j < |row| => row[j].value)
  }

  /** The values of a grid, in place. */
  function ValueGrid(cards: Grid): seq<seq<string>> {
    seq(|cards|, i requires 0 <= i < |cards| => Values(cards[i]))
  }

  lemma ValuesOfNewGrid(slices: seq<seq<string>>)
    ensures ValueGrid(NewGrid(slices)) == slices
  {
    var vg := ValueGrid(NewGrid(slices));
    forall i | 0 <= i < |slices| ensures vg[i] == slices[i] {
      assert Values(NewGrid(slices)[i]) == slices[i];
    }
  }

  datatype Layout = Layout(rows: nat, columns: nat, cards: Grid)

  datatype ParseError =
    | EmptyText        // no line left after dropping blank ones
    | WrongDimensions  // the header does not match `<rows>x<columns>`
    | WrongCardNumber  // not rows * columns value lines
    | InvalidSliceSize // `each_slice(0)` raises for a zero column count
    | BadBoard(rep: RepError)

  /** Lays the value lines out in rows of `columns` cards and checks the board. */
  function LayOut(rows: nat, columns: nat, values: seq<string>): (r: Result<Layout, ParseError>)
    ensures r == Failure(WrongCardNumber) <==> |values| != rows * columns
    ensures r == Failure(InvalidSliceSize) <==> |values| == rows * columns && columns == 0
    ensures r.Failure? ==> r.error != EmptyText && r.error != WrongDimensions
    ensures r.Success? ==> r.value.rows == rows && r.value.columns == columns && RepOk(rows, columns, r.value.cards)
  {
    if |values| != rows * columns then Failure(WrongCardNumber)
    else if columns == 0 then Failure(InvalidSliceSize)
    else
      var cards := NewGrid(Slices(values, columns));
      match CheckRep(rows, columns, cards)
      case Fail(e) => Failure(BadBoard(e))
      case Pass => Success(Layout(rows, columns, cards))
  }

  /** The parsing pipeline of `Board.parse_from_file`, given the lines of the file. */
  function ParseLines(raw: seq<string>): (r: Result<Layout, ParseError>)
    requires forall i :: 0 <= i < |raw| ==> Excludes(raw[i], '\n')
    ensures r == Failure(EmptyText) <==> forall i :: 0 <= i < |raw| ==> Strip(raw[i]) == []
    ensures r == Failure(WrongDimensions) <==> KeptLines(raw) != [] && ParseHeader(KeptLines(raw)[0]).None?
    ensures r.Success? ==>
      && KeptLines(raw) != []
      && ParseHeader(KeptLines(raw)[0]) == Some((r.value.rows, r.value.columns))
      && RepOk(r.value.rows, r.value.columns, r.value.cards)
  {
    KeptNoneIffBlank(raw);
    var lines := KeptLines(raw);
    if lines == [] then Failure(EmptyText)
    else
      match ParseHeader(lines[0])
      case None => Failure(WrongDimensions)
      case Some(dims) => LayOut(dims.0, dims.1, lines[1..])
  }

  lemma LaidOut(rows: nat, columns: nat, values: seq<string>)
    requires LayOut(rows, columns, values).Success?
    ensures var l := LayOut(rows, columns, values).value;
      && l.rows == rows && l.columns == columns
      && RepOk(rows, columns, l.cards)
      && Flatten(ValueGrid(l.cards)) == values
      && forall i, j :: 0 <= i < |l.cards| && 0 <= j < |l.cards[i]| ==> l.cards[i][j] == NewCard(l.cards[i][j].value)
  {
    ValuesOfNewGrid(Slices(values, columns));
    FlattenSlices(values, columns);
  }

  /**
   * A parsed board satisfies the representation invariant, its values read
   * row-major are exactly the value lines, and every card starts face down,
   * unowned, unmarked, with its mask equal to its value.
   */
  lemma ParsedBoard(raw: seq<string>)
    requires forall i :: 0 <= i < |raw| ==> Excludes(raw[i], '\n')
    requires ParseLines(raw).Success?
    ensures var l := ParseLines(raw).value;
      && RepOk(l.rows, l.columns, l.cards)
      && ParseHeader(KeptLines(raw)[0]) == Some((l.rows, l.columns))
      && Flatten(ValueGrid(l.cards)) == KeptLines(raw)[1..]
      && forall i, j :: 0 <= i < |l.cards| && 0 <= j < |l.cards[i]| ==> l.cards[i][j] == NewCard(l.cards[i][j].value)
  {
    var lines := KeptLines(raw);
    var dims := ParseHeader(lines[0]).value;
    LaidOut(dims.0, dims.1, lines[1..]);
  }

  /** Card (i, j) of a laid-out board holds value line i * columns + j. */
  lemma LaidOutAt(rows: nat, columns: nat, values: seq<string>, i: nat, j: nat)
    requires LayOut(rows, columns, values).Success?
    requires i < rows && j < columns
    ensures i * columns + j < |values|
    ensures LayOut(rows, columns, values).value.cards[i][j] == NewCard(values[i * columns + j])
  {
    var cards := LayOut(rows, columns, values).value.cards;
    LaidOut(rows, columns, values);
    var vg := ValueGrid(cards);
    assert forall k :: 0 <= k < |vg| ==> |vg[k]| == columns;
    FlattenAt(vg, columns, i, j);
    assert vg[i][j] == cards[i][j].value;
  }

  /** A correctly sized grid of whitespace-free value lines passes the check. */
  lemma NewGridValid(values: seq<string>, columns: nat, rows: nat)
    requires columns > 0 && rows > 0 && |values| == rows * columns
    requires forall k :: 0 <= k < |values| ==> NoSpace(values[k]) && values[k] != []
    ensures RepOk(rows, columns, NewGrid(Slices(values, columns)))
  {
    var slices := Slices(values, columns);
    var cards := NewGrid(slices);
    SlicesLength(values, columns, rows);
    FlattenSlices(values, columns);
    forall i | 0 <= i < |cards| ensures AllValuesValid(cards[i]) {
      forall j | 0 <= j < |cards[i]| ensures ValidValue(cards[i][j].value) {
        InFlatten(slices, i, j);
      }
    }
  }

  /** A value line with whitespace makes the check of the grid fail. */
  lemma NewGridInvalid(values: seq<string>, columns: nat, k: nat)
    requires columns > 0
    requires k < |values| && !NoSpace(values[k])
    ensures forall rows :: !RepOk(rows, columns, NewGrid(Slices(values, columns)))
  {
    var slices := Slices(values, columns);
    FlattenSlices(values, columns);
    var i, j := FromFlatten(slices, values[k]);
    assert NewGrid(slices)[i][j].value == values[k];
  }

  /** Laying out succeeds exactly for positive dimensions, rows * columns lines, none with whitespace. */
  lemma LayOutAccepts(rows: nat, columns: nat, values: seq<string>)
    requires forall k :: 0 <= k < |values| ==> values[k] != []
    ensures LayOut(rows, columns, values).Success? <==>
      rows > 0 && columns > 0 && |values| == rows * columns && forall k :: 0 <= k < |values| ==> NoSpace(values[k])
  {
    if |values| == rows * columns && columns > 0 && rows > 0 {
      if forall k :: 0 <= k < |values| ==> NoSpace(values[k]) {
        NewGridValid(values, columns, rows);
      } else {
        var k :| 0 <= k < |values| && !NoSpace(values[k]);
        NewGridInvalid(values, columns, k);
      }
    }
  }

  /**
   * Parsing succeeds exactly when some line is not blank, the first one
   * spells positive dimensions, exactly rows * columns lines follow and
   * none of them holds inner whitespace.
   */
  lemma ParseAccepts(raw: seq<string>)
    requires forall i :: 0 <= i < |raw| ==> Excludes(raw[i], '\n')
    ensures var lines := KeptLines(raw);
      ParseLines(raw).Success? <==>
        && lines != []
        && ParseHeader(lines[0]).Some?
        && ParseHeader(lines[0]).value.0 > 0
        && ParseHeader(lines[0]).value.1 > 0
        && |lines| - 1 == ParseHeader(lines[0]).value.0 * ParseHeader(lines[0]).value.1
        && forall k :: 1 <= k < |lines| ==> NoSpace(lines[k])
  {
    var lines := KeptLines(raw);
    if lines != [] && ParseHeader(lines[0]).Some? {
      var dims := ParseHeader(lines[0]).value;
      var values := lines[1..];
      assert ParseLines(raw) == LayOut(dims.0, dims.1, values);
      assert |values| == |lines| - 1;
      assert forall k :: 0 <= k < |values| ==> values[k] != [] by {
        forall k | 0 <= k < |values| ensures values[k] != [] {
          assert values[k] == lines[k + 1];
        }
      }
      LayOutAccepts(dims.0, dims.1, values);
      TailNoSpace(lines);
    }
  }

  /** No line after the first holds whitespace, said of the lines or of their tail. */
  lemma TailNoSpace(lines: seq<string>)
    requires lines != []
    ensures (forall k :: 1 <= k < |lines| ==> NoSpace(lines[k])) <==> (forall k :: 0 <= k < |lines[1..]| ==> NoSpace(lines[1..][k]))
  {
    assert forall k :: 0 <= k < |lines[1..]| ==> lines[1..][k] == lines[k + 1];
  }

  /** A file of one line that is its own strip keeps exactly that line. */
  lemma KeptSingle(s: string)
    requires s != [] && !IsStrippable(s[0]) && !IsStrippable(s[|s| - 1])
    ensures KeptLines([s]) == [s]
  {
    var raw := [s];
    StripUnchanged(s);
    assert raw[1..] == [];
  }

  /** A header of zero columns and nothing else is refused: `each_slice(0)` raises. */
  lemma ZeroByZeroRefused()
    ensures ParseLines(["0x0"]) == Failure(InvalidSliceSize)
  {
    var s: string := "0x0";
    assert s[0] == '0' && s[|s| - 1] == '0';
    KeptSingle(s);
    assert Header(0, 0) == s by { assert Decimal(0) == "0"; }
    HeaderRoundTrip(0, 0);
    var lines := KeptLines([s]);
    assert ParseHeader(lines[0]) == Some((0, 0));
    assert lines[1..] == [];
    assert LayOut(0, 0, []) == Failure(InvalidSliceSize);
  }


  // ----- debug printer (Board#to_s) -----

  /** One line per row: the row's values joined by single spaces. */
  function RowTexts(cards: Grid): seq<string> {
    seq(|cards|, i requires 0 <= i < |cards| => Join(Values(cards[i]), ' '))
  }

  function DebugText(rows: int, columns: int, cards: Grid): string {
    Terminated([Header(rows, columns)] + RowTexts(cards))
  }

  lemma {:induction false} TerminatedSnoc(lines: seq<string>, last: string)
    ensures Terminated(lines + [last]) == Terminated(lines) + last + "\n"
  {
    if lines != [] {
      assert (lines + [last])[1..] == lines[1..] + [last];
      TerminatedSnoc(lines[1..], last);
    }
  }

  lemma {:induction false} JoinExcludes(parts: seq<string>, sep: char, c: char)
    requires sep != c
    requires forall i :: 0 <= i < |parts| ==> Excludes(parts[i], c)
    ensures Excludes(Join(parts, sep), c)
  {
    if |parts| > 1 {
      JoinExcludes(parts[1..], sep, c);
    }
  }

  /**
   * On a board satisfying the invariant, the debug text reads back as the
   * header followed by one line per row, and each row line splits at its
   * spaces into exactly that row's values.
   */
  lemma DebugTextReadsBack(rows: int, columns: int, cards: Grid)
    requires RepOk(rows, columns, cards)
    ensures Lines(DebugText(rows, columns, cards)) == [Header(rows, columns)] + RowTexts(cards)
    ensures |Lines(DebugText(rows, columns, cards))| == rows + 1
    ensures forall i :: 0 <= i < |cards| ==> Split(RowTexts(cards)[i], ' ') == Values(cards[i])
  {
    var lines := [Header(rows, columns)] + RowTexts(cards);
    forall i | 0 <= i < |cards|
      ensures Split(RowTexts(cards)[i], ' ') == Values(cards[i])
      ensures Excludes(RowTexts(cards)[i], '\n')
    {
      var vs := Values(cards[i]);
      assert forall j :: 0 <= j < |vs| ==> Excludes(vs[j], ' ') && Excludes(vs[j], '\n') by {
        forall j | 0 <= j < |vs| ensures Excludes(vs[j], ' ') && Excludes(vs[j], '\n') {
          assert ValidValue(cards[i][j].value);
        }
      }
      SplitJoin(vs, ' ');
      JoinExcludes(vs, ' ', '\n');
    }
    assert Excludes(Header(rows, columns), '\n') by {
      var h := Header(rows, columns);
      var a := Decimal(rows);
      var b := Decimal(columns);
      assert h == a + "x" + b;
      assert forall k :: 0 <= k < |a| ==> h[k] == a[k] && IsDigit(a[k]);
      assert forall k :: 0 <= k < |b| ==> h[|a| + 1 + k] == b[k] && IsDigit(b[k]);
    }
    assert forall k :: 0 <= k < |lines| ==> Excludes(lines[k], '\n') by {
      forall k | 0 <= k < |lines| ensures Excludes(lines[k], '\n') {
        if k > 0 { assert lines[k] == RowTexts(cards)[k - 1]; }
      }
    }
    LinesOfTerminated(lines);
  }

  // ----- the board object -----

  class Board {
    const rows: int
    const columns: int
    var cards: Grid

    /** The dimensions never change and always match the grid. Values are
        checked by `check_rep` instead: a value substitution may break them. */
    predicate Valid()
      reads this
    {
      Shaped(rows, columns, cards)
    }

    constructor (rows: int, columns: int, cards: Grid)
      requires RepOk(rows, columns, cards)
      ensures this.rows == rows && this.columns == columns && this.cards == cards
      ensures Valid()
    {
      this.rows := rows;
      this.columns := columns;
      this.cards := cards;
    }

    /** `Board.new`: stores the fields, then runs `check_rep`, which raises on a violation. */
    static method New(rows: int, columns: int, cards: Grid) returns (r: Result<Board, RepError>)
      ensures r.Failure? <==> !RepOk(rows, columns, cards)
      ensures r.Failure? ==> CheckRep(rows, columns, cards) == Fail(r.error)
      ensures r.Success? ==> fresh(r.value) && r.value.Valid()
      ensures r.Success? ==> r.value.rows == rows && r.value.columns == columns && r.value.cards == cards
    {
      match CheckRep(rows, columns, cards)
      case Fail(e) =>
        r := Failure(e);
      case Pass =>
        var b := new Board(rows, columns, cards);
        r := Success(b);
    }

    /** `Board.parse_from_file`, given the file's lines (each without its line feed). */
    static method ParseFromLines(lines: seq<string>) returns (r: Result<Board, ParseError>)
      requires forall i :: 0 <= i < |lines| ==> Excludes(lines[i], '\n')
      ensures ParseLines(lines).Failure? ==> r == Failure(ParseLines(lines).error)
      ensures ParseLines(lines).Success? ==>
        var l := ParseLines(lines).value;
        && r.Success? && fresh(r.value) && r.value.Valid()
        && r.value.rows == l.rows && r.value.columns == l.columns && r.value.cards == l.cards
    {
      match ParseLines(lines)
      case Failure(e) =>
        r := Failure(e);
      case Success(l) =>
        var b := New(l.rows, l.columns, l.cards);
        match b
        case Failure(e) =>
          r := Failure(BadBoard(e));
        case Success(board) =>
          r := Success(board);
    }

    /** `to_s`: the header line, then each row's values joined by single spaces. */
    method ToS() returns (s: string)
      ensures s == DebugText(rows, columns, cards)
    {
      var texts := RowTexts(cards);
      s := Header(rows, columns) + "\n";
      var i := 0;
      while i < |cards|
        invariant 0 <= i <= |cards|
        invariant s == Terminated([Header(rows, columns)] + texts[..i])
      {
        var line := Join(Values(cards[i]), ' ');
        assert texts[i] == line;
        TerminatedSnoc([Header(rows, columns)] + texts[..i], line);
        assert [Header(rows, columns)] + texts[..i + 1] == [Header(rows, columns)] + texts[..i] + [line];
        s := s + line + "\n";
        i := i + 1;
      }
      assert texts[..i] == texts;
    }
  }
}
