/**
 * The game rules: `look` renders the board for one player, `flip` runs the
 * card-flip state machine, `map` substitutes card values in two phases,
 * and `watch` renders like `look`.
 */
module BoardOperations {
  import opened Results
  import opened Text
  import opened BoardModel
  import opened BoardUtils

  // ----- look -----

  /** What one player sees of one card. */
  datatype CellView = Gone | Mine(value: string) | FaceDown | FaceUp(value: string)

  /** The first rule that applies wins: removed, then owned by the viewer, then face down, then face up. */
  function Observe(c: Card, p: Player): CellView {
    if c.state == Removed then Gone
    else if c.owner == Some(p) then Mine(c.value)
    else if c.state == Down then FaceDown
    else FaceUp(c.value)
  }

  function ShowCell(v: CellView): string {
    match v
    case Gone => "none"
    case Mine(value) => "my " + value
    case FaceDown => "down"
    case FaceUp(value) => "up " + value
  }

  /**
   * The line `look` prints for one card: a client reads back exactly what
   * `p` sees of it, and a card with a valid value gives a single line.
   */
  function CellLine(c: Card, p: Player): (r: string)
    ensures ReadCell(r) == Some(Observe(c, p))
    ensures ValidValue(c.value) ==> Excludes(r, '\n')
  {
    ReadShownCell(Observe(c, p));
    ShowCellSingle(Observe(c, p));
    ShowCell(Observe(c, p))
  }

  function CellLinesOf(cards: seq<Card>, p: Player): seq<string> {
    seq(|cards|, k requires 0 <= k < |cards| => CellLine(cards[k], p))
  }

  function ObserveAll(cards: seq<Card>, p: Player): seq<CellView> {
    seq(|cards|, k requires 0 <= k < |cards| => Observe(cards[k], p))
  }

  /** The lines of the view: the header, then one line per card in row-major order. */
  function ViewLines(rows: int, columns: int, cards: Grid, p: Player): seq<string> {
    [Header(rows, columns)] + CellLinesOf(Flatten(cards), p)
  }

  /**
   * The text `look` builds, before its closing `check_rep`. On a
   * well-formed board it reads back line by line as the header followed
   * by one line per card, row-major.
   */
  function Render(rows: int, columns: int, cards: Grid, p: Player): (r: string)
    ensures RepOk(rows, columns, cards) ==> Lines(r) == ViewLines(rows, columns, cards, p)
  {
    ViewLinesReadBack(rows, columns, cards, p);
    Terminated(ViewLines(rows, columns, cards, p))
  }

  lemma ViewLinesReadBack(rows: int, columns: int, cards: Grid, p: Player)
    ensures RepOk(rows, columns, cards) ==>
      Lines(Terminated(ViewLines(rows, columns, cards, p))) == ViewLines(rows, columns, cards, p)
  {
    if RepOk(rows, columns, cards) {
      var lines := ViewLines(rows, columns, cards, p);
      var flat := Flatten(cards);
      FlattenValid(cards);
      HeaderSingle(rows, columns);
      forall k | 0 <= k < |lines| ensures Excludes(lines[k], '\n') {
        if k > 0 {
          assert lines[k] == CellLine(flat[k - 1], p);
        }
      }
      LinesOfTerminated(lines);
    }
  }

  /**
   * `look`: renders the board for `p`, then runs `check_rep`, which raises
   * (and so discards the text) when the board is broken. Being a function,
   * it changes nothing.
   */
  function Look(board: Board, p: Player): (r: Result<string, RepError>)
    reads board
    ensures r.Success? <==> RepOk(board.rows, board.columns, board.cards)
    ensures r.Success? ==> r.value == Render(board.rows, board.columns, board.cards, p)
    ensures r.Failure? ==> CheckRep(board.rows, board.columns, board.cards) == Fail(r.error)
  {
    var text := Render(board.rows, board.columns, board.cards, p);
    match CheckRep(board.rows, board.columns, board.cards)
    case Fail(e) => Failure(e)
    case Pass => Success(text)
  }

  /** `watch`: answers with exactly what `look` would. */
  function Watch(board: Board, p: Player): (r: Result<string, RepError>)
    reads board
    ensures r == Look(board, p)
  {
    Look(board, p)
  }

  // reading a view back, as a client would

  /** One line of a view, read back. */
  function ReadCell(s: string): Option<CellView> {
    if s == "none" then Some(Gone)
    else if s == "down" then Some(FaceDown)
    else if |s| >= 3 && s[..3] == "my " then Some(Mine(s[3..]))
    else if |s| >= 3 && s[..3] == "up " then Some(FaceUp(s[3..]))
    else None
  }

  function ReadCells(lines: seq<string>): Option<seq<CellView>> {
    if lines == [] then Some([])
    else
      match (ReadCell(lines[0]), ReadCells(lines[1..]))
      case (Some(v), Some(vs)) => Some([v] + vs)
      case _ => None
  }

  datatype ViewText = ViewText(rows: nat, columns: nat, cells: seq<CellView>)

  /** A view text read back: the dimensions from the header, then every cell line. */
  function ParseView(text: string): Option<ViewText> {
    var lines := Lines(text);
    if lines == [] then None
    else
      match (ParseHeader(lines[0]), ReadCells(lines[1..]))
      case (Some(dims), Some(cells)) => Some(ViewText(dims.0, dims.1, cells))
      case _ => None
  }

  lemma ReadShownCell(v: CellView)
    ensures ReadCell(ShowCell(v)) == Some(v)
  {
    match v
    case Gone =>
    case FaceDown =>
    case Mine(value) =>
      var s := ShowCell(v);
      assert s[0] == 'm';
      assert s[..3] == "my " && s[3..] == value;
    case FaceUp(value) =>
      var s := ShowCell(v);
      assert s[0] == 'u';
      assert s[..3] == "up " && s[3..] == value;
  }

  lemma {:induction false} ReadShownCells(cards: seq<Card>, p: Player)
    ensures ReadCells(CellLinesOf(cards, p)) == Some(ObserveAll(cards, p))
  {
    if cards != [] {
      var ls := CellLinesOf(cards, p);
      assert ls[0] == CellLine(cards[0], p);
      assert ls[1..] == CellLinesOf(cards[1..], p);
      ReadShownCells(cards[1..], p);
      assert ObserveAll(cards, p) == [Observe(cards[0], p)] + ObserveAll(cards[1..], p);
    } else {
      assert CellLinesOf(cards, p) == [] && ObserveAll(cards, p) == [];
    }
  }

  /** A shown cell whose value is valid holds no line feed. */
  lemma ShowCellSingle(v: CellView)
    ensures ((v.Mine? || v.FaceUp?) ==> ValidValue(v.value)) ==> Excludes(ShowCell(v), '\n')
  {
    var s := ShowCell(v);
    match v
    case Gone =>
    case FaceDown =>
    case Mine(value) =>
      assert forall k :: 3 <= k < |s| ==> s[k] == value[k - 3];
    case FaceUp(value) =>
      assert forall k :: 3 <= k < |s| ==> s[k] == value[k - 3];
  }

  lemma {:induction false} FlattenValid(cards: Grid)
    requires forall i :: 0 <= i < |cards| ==> AllValuesValid(cards[i])
    ensures forall k :: 0 <= k < |Flatten(cards)| ==> ValidValue(Flatten(cards)[k].value)
  {
    if cards != [] {
      FlattenValid(cards[1..]);
      var f := Flatten(cards);
      assert forall k :: 0 <= k < |cards[0]| ==> f[k] == cards[0][k];
      assert forall k :: |cards[0]| <= k < |f| ==> f[k] == Flatten(cards[1..])[k - |cards[0]|];
    }
  }

  lemma HeaderSingle(rows: nat, columns: nat)
    ensures Excludes(Header(rows, columns), '\n')
  {
    var h := Header(rows, columns);
    var a, b := Decimal(rows), Decimal(columns);
    assert h == a + "x" + b;
    assert forall k :: 0 <= k < |a| ==> h[k] == a[k] && IsDigit(a[k]);
    assert forall k :: 0 <= k < |b| ==> h[|a| + 1 + k] == b[k] && IsDigit(b[k]);
  }

  /**
   * Shape of `look`: on a board satisfying the invariant, the text reads
   * back as the header followed by exactly rows * columns card lines.
   */
  lemma LookShape(rows: int, columns: int, cards: Grid, p: Player)
    requires RepOk(rows, columns, cards)
    ensures Lines(Render(rows, columns, cards, p)) == ViewLines(rows, columns, cards, p)
    ensures |Lines(Render(rows, columns, cards, p))| == rows * columns + 1
    ensures Lines(Render(rows, columns, cards, p))[0] == Header(rows, columns)
  {
    FlattenLength(cards, columns);
  }

  /** Line 1 + i * columns + j of the view of a well-formed board is the line of card (i, j). */
  lemma LookCellAt(rows: int, columns: int, cards: Grid, p: Player, i: nat, j: nat)
    requires RepOk(rows, columns, cards)
    requires i < rows && j < columns
    ensures 1 + i * columns + j < |Lines(Render(rows, columns, cards, p))|
    ensures Lines(Render(rows, columns, cards, p))[1 + i * columns + j] == CellLine(cards[i][j], p)
  {
    assert forall k :: 0 <= k < |cards| ==> |cards[k]| == columns;
    FlattenAt(cards, columns, i, j);
    RenderLineAt(rows, columns, cards, p, i * columns + j);
  }

  lemma RenderLineAt(rows: int, columns: int, cards: Grid, p: Player, k: nat)
    requires RepOk(rows, columns, cards)
    requires k < |Flatten(cards)|
    ensures |Lines(Render(rows, columns, cards, p))| == |Flatten(cards)| + 1
    ensures Lines(Render(rows, columns, cards, p))[1 + k] == CellLine(Flatten(cards)[k], p)
  {
    var lines := ViewLines(rows, columns, cards, p);
    assert Lines(Render(rows, columns, cards, p)) == lines;
    assert lines[1 + k] == CellLinesOf(Flatten(cards), p)[k];
  }

  /**
   * A client reading the view of a well-formed board recovers its
   * dimensions and, in row-major order, what `p` sees of every card.
   */
  lemma ViewReadsBack(rows: int, columns: int, cards: Grid, p: Player)
    requires RepOk(rows, columns, cards)
    ensures ParseView(Render(rows, columns, cards, p)) == Some(ViewText(rows, columns, ObserveAll(Flatten(cards), p)))
  {
    LookShape(rows, columns, cards, p);
    HeaderRoundTrip(rows, columns);
    var lines := ViewLines(rows, columns, cards, p);
    assert lines[1..] == CellLinesOf(Flatten(cards), p);
    ReadShownCells(Flatten(cards), p);
  }

  /** What `look` shows of a card: nothing of the value unless it is face up or the viewer's own. */
  predicate Visible(c: Card, p: Player) {
    c.state != Removed && (c.owner == Some(p) || c.state == Up)
  }

  /** Two cards `p` cannot tell apart: same state and owner, and the same value if `p` may see it. */
  predicate Indistinguishable(c: Card, d: Card, p: Player) {
    c.state == d.state && c.owner == d.owner && (Visible(c, p) ==> c.value == d.value)
  }

  lemma {:induction false} FlattenLinesAgree(g: Grid, h: Grid, p: Player)
    requires |g| == |h| && forall i :: 0 <= i < |g| ==> |g[i]| == |h[i]|
    requires forall i, j :: 0 <= i < |g| && 0 <= j < |g[i]| ==> CellLine(g[i][j], p) == CellLine(h[i][j], p)
    ensures CellLinesOf(Flatten(g), p) == CellLinesOf(Flatten(h), p)
  {
    if g != [] {
      FlattenLinesAgree(g[1..], h[1..], p);
      assert Flatten(g) == g[0] + Flatten(g[1..]);
      assert Flatten(h) == h[0] + Flatten(h[1..]);
      CellLinesAppend(g[0], Flatten(g[1..]), p);
      CellLinesAppend(h[0], Flatten(h[1..]), p);
      forall j | 0 <= j < |g[0]| ensures CellLinesOf(g[0], p)[j] == CellLinesOf(h[0], p)[j] {
        assert CellLine(g[0][j], p) == CellLine(h[0][j], p);
      }
    }
  }

  lemma CellLinesAppend(xs: seq<Card>, ys: seq<Card>, p: Player)
    ensures CellLinesOf(xs + ys, p) == CellLinesOf(xs, p) + CellLinesOf(ys, p)
  {
    var zs := xs + ys;
    forall k | 0 <= k < |zs| ensures CellLinesOf(zs, p)[k] == (CellLinesOf(xs, p) + CellLinesOf(ys, p))[k] {
      if k >= |xs| {
        assert zs[k] == ys[k - |xs|];
      }
    }
  }

  /**
   * `look` leaks nothing hidden: two boards whose cards differ only in
   * values `p` may not see (face down and not `p`'s, or removed) give `p`
   * the same text.
   */
  lemma LookHidesConcealed(rows: int, columns: int, g: Grid, h: Grid, p: Player)
    requires |g| == |h| && forall i :: 0 <= i < |g| ==> |g[i]| == |h[i]|
    requires forall i, j :: 0 <= i < |g| && 0 <= j < |g[i]| ==> Indistinguishable(g[i][j], h[i][j], p)
    ensures Render(rows, columns, g, p) == Render(rows, columns, h, p)
  {
    forall i, j | 0 <= i < |g| && 0 <= j < |g[i]| ensures CellLine(g[i][j], p) == CellLine(h[i][j], p) {
      assert Observe(g[i][j], p) == Observe(h[i][j], p);
    }
    FlattenLinesAgree(g, h, p);
  }

  // ----- flip -----

  /** How one stage of the flip rules ended: go on, wait for another player's card, or refuse. */
  datatype Verdict = Proceed | WaitFor(owner: Player) | Refused(reason: GameError)

  /** `g` and `h` have the same shape and differ at most at the positions `ps`. */
  predicate OnlyAt(g: Grid, h: Grid, ps: set<Pos>) {
    && |h| == |g|
    && (forall i :: 0 <= i < |g| ==> |h[i]| == |g[i]|)
    && forall i, j :: 0 <= i < |g| && 0 <= j < |g[i]| && Pos(i, j) !in ps ==> h[i][j] == g[i][j]
  }

  /** A card `p` has turned up and taken. */
  function Taken(c: Card, p: Player): Card {
    c.(state := Up, owner := Some(p))
  }

  lemma SetSame(g: Grid, pos: Pos)
    requires InGrid(g, pos)
    ensures SetCard(g, pos, At(g, pos)) == g
  {
    assert g[pos.row][pos.column := g[pos.row][pos.column]] == g[pos.row];
  }

  /**
   * `handle_first_flip`: a removed target is refused, a card held by
   * another player makes `p` wait, and otherwise the target ends face up
   * and owned by `p`. Only the target can change, and only when `p` may go on.
   */
  function FirstFlip(g: Grid, pos: Pos, p: Player): (r: (Grid, Verdict))
    requires InGrid(g, pos)
    ensures var c := At(g, pos);
      && (r.1 == Refused(NoCard) <==> c.state == Removed)
      && (r.1.WaitFor? <==> c.state == Up && c.owner.Some? && c.owner != Some(p))
      && (r.1.WaitFor? ==> c.owner == Some(r.1.owner))
      && (r.1 == Proceed || r.1 == Refused(NoCard) || r.1.WaitFor?)
      && (r.1 == Proceed ==> r.0 == SetCard(g, pos, Taken(c, p)))
      && (r.1 != Proceed ==> r.0 == g)
  {
    var c := At(g, pos);
    if IsRemoved(c) then (g, Refused(NoCard))
    else match c.state
    case Down => (SetCard(g, pos, c.(state := Up, owner := Some(p))), Proceed)
    case Up =>
      match c.owner
      case None => (SetCard(g, pos, c.(owner := Some(p))), Proceed)
      case Some(o) =>
        if o != p then (g, WaitFor(o))
        else
          SetSame(g, pos);
          (g, Proceed)
  }

  /**
   * `handle_second_flip`, where `a` is the one card `p` controls and `b`
   * the target. A removed target, or one face up and held by anyone, is
   * refused after relinquishing `a`. Otherwise `b` is taken; equal values
   * mark both cards matched by `p` (still held), unequal values release
   * both to be turned down at `p`'s next turn. Only `a` and `b` change.
   */
  function SecondFlip(g: Grid, a: Pos, b: Pos, p: Player): (r: (Grid, Verdict))
    requires InGrid(g, a) && InGrid(g, b) && ControlledBy(At(g, a), p)
    ensures var c := At(g, b);
      && (r.1 == Refused(SecondCardRemoved) <==> c.state == Removed)
      && (r.1 == Refused(SecondCardControlled) <==> c.state == Up && c.owner.Some?)
      && (r.1 == Proceed <==> c.state != Removed && !(c.state == Up && c.owner.Some?))
      && (r.1.Refused? ==> r.0 == RelinquishGrid(g, a, p))
      && (r.1 == Proceed || r.1.Refused?)
      && (r.1 == Proceed ==> a != b && OnlyAt(g, r.0, {a, b}))
      && (r.1 == Proceed && At(g, a).value == c.value ==>
            At(r.0, a) == Matched(At(g, a), p) && At(r.0, b) == Matched(Taken(c, p), p))
      && (r.1 == Proceed && At(g, a).value != c.value ==>
            At(r.0, a) == Released(At(g, a), p) && At(r.0, b) == Released(Taken(c, p), p))
  {
    var c := At(g, b);
    if IsRemoved(c) then (RelinquishGrid(g, a, p), Refused(SecondCardRemoved))
    else if c.state == Up && c.owner.Some? then (RelinquishGrid(g, a, p), Refused(SecondCardControlled))
    else
      var g1 := SetCard(g, b, Taken(c, p));
      if At(g1, a).value == At(g1, b).value then (MatchGrid(g1, a, b, p), Proceed)
      else (MismatchGrid(g1, a, b, p), Proceed)
  }

  /**
   * One card of `finalize_previous_play`; only the first branch that
   * applies is taken: a card `p` matched is removed and freed, a card `p`
   * released that nobody took is turned down, and a removed card loses
   * `p`'s pending mark.
   */
  function FinalizeCard(c: Card, p: Player): (r: Card)
    ensures r.value == c.value && r.mask == c.mask
    ensures r.matchedBy != Some(p)
    // 3-A: a card `p` matched is removed and freed; its other fields stay
    ensures c.matchedBy == Some(p) ==> r == c.(state := Removed, owner := None, matchedBy := None)
    // 3-B: a card `p` released and nobody took since is turned back down
    ensures c.matchedBy != Some(p) && c.pendingConcealBy == Some(p) && c.state == Up && c.owner == None ==>
      r == c.(state := Down, pendingConcealBy := None)
    // a removed card loses `p`'s pending mark
    ensures c.matchedBy != Some(p) && c.pendingConcealBy == Some(p) && c.state == Removed ==>
      r == c.(pendingConcealBy := None)
    // every other card is left alone: no mark of `p`, a face-down card, or a card someone holds
    ensures c.matchedBy != Some(p) && c.pendingConcealBy != Some(p) ==> r == c
    ensures c.matchedBy != Some(p) && (c.state == Down || (c.state == Up && c.owner.Some?)) ==> r == c
  {
    if c.matchedBy == Some(p) then c.(state := Removed, owner := None, matchedBy := None)
    else if c.pendingConcealBy == Some(p) && c.state == Up && c.owner == None then c.(state := Down, pendingConcealBy := None)
    else if c.pendingConcealBy == Some(p) && c.state == Removed then c.(pendingConcealBy := None)
    else c
  }

  /**
   * Sweeping twice is sweeping once, except for a card carrying both of
   * `p`'s marks: the first sweep removes it, the second then clears its
   * pending mark.
   */
  lemma FinalizeIdempotent(c: Card, p: Player)
    ensures FinalizeCard(FinalizeCard(c, p), p) == FinalizeCard(c, p) <==>
      !(c.matchedBy == Some(p) && c.pendingConcealBy == Some(p))
  {
    if c.matchedBy == Some(p) && c.pendingConcealBy == Some(p) {
      assert FinalizeCard(FinalizeCard(c, p), p).pendingConcealBy == None;
    }
  }

  function Finalizer(p: Player): Card -> Card {
    c => FinalizeCard(c, p)
  }

  /**
   * `finalize_previous_play` on the whole board: every card is swept in its
   * place, so afterwards no card is marked matched by `p`, every card `p`
   * matched is removed, every card `p` released that nobody took is face
   * down again, and no value or mask has changed.
   */
  function FinalizeGrid(g: Grid, p: Player): (h: Grid)
    ensures SameValues(g, h)
    ensures forall i, j :: 0 <= i < |g| && 0 <= j < |g[i]| ==> h[i][j] == FinalizeCard(g[i][j], p)
    ensures forall i, j :: 0 <= i < |h| && 0 <= j < |h[i]| ==> h[i][j].matchedBy != Some(p)
    ensures forall i, j :: 0 <= i < |g| && 0 <= j < |g[i]| && g[i][j].matchedBy == Some(p) ==>
      h[i][j].state == Removed && h[i][j].owner == None
    ensures forall i, j :: 0 <= i < |g| && 0 <= j < |g[i]| ==>
      (g[i][j].matchedBy != Some(p) && g[i][j].pendingConcealBy == Some(p) && g[i][j].state == Up && g[i][j].owner == None ==>
         h[i][j].state == Down && h[i][j].pendingConcealBy == None)
  {
    MapCards(g, Finalizer(p))
  }

  /** The sweep on a whole board: idempotent when no card carries both of `p`'s marks. */
  lemma FinalizeGridIdempotent(g: Grid, p: Player)
    requires forall i, j :: 0 <= i < |g| && 0 <= j < |g[i]| ==>
      !(g[i][j].matchedBy == Some(p) && g[i][j].pendingConcealBy == Some(p))
    ensures FinalizeGrid(FinalizeGrid(g, p), p) == FinalizeGrid(g, p)
  {
    var once := FinalizeGrid(g, p);
    var twice := FinalizeGrid(once, p);
    forall i | 0 <= i < |g| ensures twice[i] == once[i] {
      forall j | 0 <= j < |g[i]| ensures twice[i][j] == once[i][j] {
        FinalizeIdempotent(g[i][j], p);
      }
    }
  }

  /** The rules of `flip` up to its closing check: the board they leave and their verdict. */
  function FlipRules(rows: int, columns: int, g: Grid, p: Player, row: int, column: int): (r: (Grid, Verdict))
    requires Shaped(rows, columns, g)
    ensures Shaped(rows, columns, r.0)
  {
    match CheckBounds(rows, columns, row, column)
    case Fail(e) => (g, Refused(e))
    case Pass =>
      var pos := Pos(row, column);
      var cs := ControlledOf(g, p);
      if |cs| == 1 then SecondFlip(g, Pos(cs[0].row, cs[0].column), pos, p)
      else FirstFlip(FinalizeGrid(g, p), pos, p)
  }

  datatype Failure = Game(reason: GameError) | BrokenRep(rep: RepError)

  /** What `flip` answers: the view, a request to wait for another player's card, or an error. */
  datatype FlipResult = Done(view: string) | Wait(row: int, column: int, owner: Player) | Failed(failure: Failure)

  /** `flip` after the rules: `check_rep`, then the view for `p`. */
  function Conclude(rows: int, columns: int, h: Grid, p: Player, row: int, column: int, v: Verdict): (f: FlipResult)
    ensures f.Done? ==> v == Proceed && RepOk(rows, columns, h) && f.view == Render(rows, columns, h, p)
    ensures f.Wait? <==> v.WaitFor?
    ensures f.Wait? ==> f.row == row && f.column == column && f.owner == v.owner
    ensures f.Failed? && f.failure.BrokenRep? ==> v == Proceed && CheckRep(rows, columns, h) == Fail(f.failure.rep)
    ensures v.Refused? ==> f == Failed(Game(v.reason))
    ensures v == Proceed && RepOk(rows, columns, h) ==> f == Done(Render(rows, columns, h, p))
    ensures v == Proceed && !RepOk(rows, columns, h) ==> f.Failed? && f.failure.BrokenRep?
  {
    match v
    case Proceed =>
      (match CheckRep(rows, columns, h)
       case Fail(e) => Failed(BrokenRep(e))
       case Pass => Done(Render(rows, columns, h, p)))
    case WaitFor(o) => Wait(row, column, o)
    case Refused(e) => Failed(Game(e))
  }

  /**
   * `flip` on grids: the board it leaves and its answer. The board keeps
   * its shape; a view is given only for a well-formed board and is that
   * board's rendering for `p`; a wait names the target and another player;
   * a failed closing check reports `check_rep`'s error; and an out-of-range
   * flip changes nothing.
   */
  function FlipSpec(rows: int, columns: int, g: Grid, p: Player, row: int, column: int): (r: (Grid, FlipResult))
    requires Shaped(rows, columns, g)
    ensures Shaped(rows, columns, r.0)
    ensures r.1.Done? ==> RepOk(rows, columns, r.0) && r.1.view == Render(rows, columns, r.0, p)
    ensures r.1.Wait? ==> r.1.row == row && r.1.column == column && r.1.owner != p
    ensures r.1.Failed? && r.1.failure.BrokenRep? ==> CheckRep(rows, columns, r.0) == Fail(r.1.failure.rep)
    ensures !(0 <= row < rows && 0 <= column < columns) ==> r.0 == g && r.1.Failed? && r.1.failure.Game?
  {
    var (h, v) := FlipRules(rows, columns, g, p, row, column);
    (h, Conclude(rows, columns, h, p, row, column, v))
  }

  /**
   * How `flip` picks its rules: a player controlling exactly one card `a`
   * plays the second-card rules with `a` as the first card, and the board
   * is not swept.
   */
  lemma FlipRouteSecond(rows: int, columns: int, g: Grid, p: Player, row: int, column: int, a: Pos)
    requires Shaped(rows, columns, g)
    requires 0 <= row < rows && 0 <= column < columns
    requires InGrid(g, a) && ControlledBy(At(g, a), p)
    requires forall b :: InGrid(g, b) && ControlledBy(At(g, b), p) ==> b == a
    ensures FlipRules(rows, columns, g, p, row, column) == SecondFlip(g, a, Pos(row, column), p)
  {
    var cs := ControlledOf(g, p);
    var k := ControlledOfComplete(g, p, a.row, a.column);
    assert forall i :: 0 <= i < |cs| ==> InGrid(g, Pos(cs[i].row, cs[i].column));
    assert forall i :: 0 <= i < |cs| ==> Pos(cs[i].row, cs[i].column) == a;
    var first, last := cs[0], cs[|cs| - 1];
    assert first.row == last.row && first.column == last.column;
  }

  /**
   * A player controlling no card, or two different cards, plays the
   * first-card rules on the board swept of their previous play.
   */
  lemma FlipRouteFirst(rows: int, columns: int, g: Grid, p: Player, row: int, column: int)
    requires Shaped(rows, columns, g)
    requires 0 <= row < rows && 0 <= column < columns
    requires
      || (forall b :: InGrid(g, b) ==> !ControlledBy(At(g, b), p))
      || (exists a, b :: InGrid(g, a) && InGrid(g, b) && a != b && ControlledBy(At(g, a), p) && ControlledBy(At(g, b), p))
    ensures FlipRules(rows, columns, g, p, row, column) == FirstFlip(FinalizeGrid(g, p), Pos(row, column), p)
  {
    var cs := ControlledOf(g, p);
    if forall b :: InGrid(g, b) ==> !ControlledBy(At(g, b), p) {
      assert forall i :: 0 <= i < |cs| ==> InGrid(g, Pos(cs[i].row, cs[i].column));
    } else {
      var a, b :| InGrid(g, a) && InGrid(g, b) && a != b && ControlledBy(At(g, a), p) && ControlledBy(At(g, b), p);
      var ka := ControlledOfComplete(g, p, a.row, a.column);
      var kb := ControlledOfComplete(g, p, b.row, b.column);
      assert ka != kb;
      assert |cs| >= 2;
    }
    assert CheckBounds(rows, columns, row, column) == Pass;
  }

  /** An out-of-range flip is refused before any card changes, the row being checked first. */
  lemma FlipOutOfBounds(rows: int, columns: int, g: Grid, p: Player, row: int, column: int)
    requires Shaped(rows, columns, g)
    requires !(0 <= row < rows && 0 <= column < columns)
    ensures FlipSpec(rows, columns, g, p, row, column).0 == g
    ensures FlipSpec(rows, columns, g, p, row, column).1 ==
      Failed(Game(if 0 <= row < rows then ColumnOutOfBounds else RowOutOfBounds))
  {
  }

  /**
   * A flip that has to wait is a first flip: the sweep of `p`'s previous
   * play has happened and stays, and the target, after the sweep, is face
   * up and held by the player named in the answer.
   */
  lemma FlipWaitKeepsSweep(rows: int, columns: int, g: Grid, p: Player, row: int, column: int)
    requires Shaped(rows, columns, g)
    requires FlipSpec(rows, columns, g, p, row, column).1.Wait?
    ensures var r := FlipSpec(rows, columns, g, p, row, column);
      && 0 <= row < rows && 0 <= column < columns
      && |ControlledOf(g, p)| != 1
      && r.0 == FinalizeGrid(g, p)
      && r.1.owner != p
      && At(FinalizeGrid(g, p), Pos(row, column)).state == Up
      && At(FinalizeGrid(g, p), Pos(row, column)).owner == Some(r.1.owner)
  {
  }

  /**
   * A second flip onto a removed card, or onto a face-up card anyone
   * holds, fails after relinquishing the first card, and that release stays.
   */
  lemma FlipSecondRefused(rows: int, columns: int, g: Grid, p: Player, row: int, column: int)
    requires Shaped(rows, columns, g)
    requires 0 <= row < rows && 0 <= column < columns
    requires |ControlledOf(g, p)| == 1
    requires var c := g[row][column]; c.state == Removed || (c.state == Up && c.owner.Some?)
    ensures var first := ControlledOf(g, p)[0];
      var r := FlipSpec(rows, columns, g, p, row, column);
      && InGrid(g, Pos(first.row, first.column))
      && r.0 == RelinquishGrid(g, Pos(first.row, first.column), p)
      && r.1 == Failed(Game(if g[row][column].state == Removed then SecondCardRemoved else SecondCardControlled))
  {
  }

  /** `g` and `h` have the same shape and the same value and mask at every position. */
  predicate SameValues(g: Grid, h: Grid) {
    && |h| == |g|
    && (forall i :: 0 <= i < |g| ==> |h[i]| == |g[i]|)
    && forall i, j :: 0 <= i < |g| && 0 <= j < |g[i]| ==> h[i][j].value == g[i][j].value && h[i][j].mask == g[i][j].mask
  }

  lemma FirstFlipKeepsValues(g: Grid, pos: Pos, p: Player)
    requires InGrid(g, pos)
    ensures SameValues(g, FirstFlip(g, pos, p).0)
  {
  }

  lemma SecondFlipKeepsValues(g: Grid, a: Pos, b: Pos, p: Player)
    requires InGrid(g, a) && InGrid(g, b) && ControlledBy(At(g, a), p)
    ensures SameValues(g, SecondFlip(g, a, b, p).0)
  {
    var h := SecondFlip(g, a, b, p).0;
    if !SecondFlip(g, a, b, p).1.Proceed? {
      assert h == RelinquishGrid(g, a, p);
    }
  }

  /** Flipping never changes a card's value or mask, nor the shape of the board. */
  lemma FlipKeepsValues(rows: int, columns: int, g: Grid, p: Player, row: int, column: int)
    requires Shaped(rows, columns, g)
    ensures SameValues(g, FlipSpec(rows, columns, g, p, row, column).0)
  {
    if CheckBounds(rows, columns, row, column) == Pass {
      var pos := Pos(row, column);
      var cs := ControlledOf(g, p);
      if |cs| == 1 {
        SecondFlipKeepsValues(g, Pos(cs[0].row, cs[0].column), pos, p);
      } else {
        FirstFlipKeepsValues(FinalizeGrid(g, p), pos, p);
      }
    }
  }

  /**
   * A flip keeps a well-formed board well-formed, so on such a board it
   * never fails its closing check; and a board whose values are broken
   * stays broken, so no flip on it ever answers with a view.
   */
  lemma FlipKeepsRep(rows: int, columns: int, g: Grid, p: Player, row: int, column: int)
    requires Shaped(rows, columns, g)
    ensures var r := FlipSpec(rows, columns, g, p, row, column);
      && (RepOk(rows, columns, r.0) <==> RepOk(rows, columns, g))
      && (RepOk(rows, columns, g) ==> !r.1.Failed? || r.1.failure.Game?)
      && (!RepOk(rows, columns, g) ==> !r.1.Done?)
  {
    var h := FlipSpec(rows, columns, g, p, row, column).0;
    FlipKeepsValues(rows, columns, g, p, row, column);
    assert forall i :: 0 <= i < |g| ==> (AllValuesValid(h[i]) <==> AllValuesValid(g[i]));
  }

  /** A flip keeps every mask equal to its value, as a parsed board has them. */
  lemma FlipKeepsMasks(rows: int, columns: int, g: Grid, p: Player, row: int, column: int)
    requires Shaped(rows, columns, g)
    ensures MasksMatch(FlipSpec(rows, columns, g, p, row, column).0) <==> MasksMatch(g)
  {
    FlipKeepsValues(rows, columns, g, p, row, column);
  }

  // ----- map -----

  /** First phase of `map`: a card showing `from` stages `to` in its mask. */
  function MaskCard(c: Card, from: string, to: string): Card {
    if c.value == from then c.(mask := to) else c
  }

  /** Second phase of `map`: every card takes its mask as its value. */
  function CommitCard(c: Card): Card {
    c.(value := c.mask)
  }

  function Masker(from: string, to: string): Card -> Card {
    c => MaskCard(c, from, to)
  }

  function Committer(): Card -> Card {
    c => CommitCard(c)
  }

  /** Every card's mask equals its value: true of a parsed board, and kept by every operation. */
  predicate MasksMatch(g: Grid) {
    forall i, j :: 0 <= i < |g| && 0 <= j < |g[i]| ==> g[i][j].mask == g[i][j].value
  }

  /**
   * Both phases of `map`: the board keeps its shape, a card that showed
   * `from` now shows `to`, any other card shows its old mask, every mask
   * equals its value, and no state, owner or mark changes.
   */
  function MapGrid(g: Grid, from: string, to: string): (h: Grid)
    ensures |h| == |g| && forall i :: 0 <= i < |g| ==> |h[i]| == |g[i]|
    ensures MasksMatch(h)
    ensures forall i, j :: 0 <= i < |g| && 0 <= j < |g[i]| ==>
      h[i][j].value == (if g[i][j].value == from then to else g[i][j].mask)
    ensures forall i, j :: 0 <= i < |g| && 0 <= j < |g[i]| ==>
      h[i][j].state == g[i][j].state && h[i][j].owner == g[i][j].owner
      && h[i][j].matchedBy == g[i][j].matchedBy && h[i][j].pendingConcealBy == g[i][j].pendingConcealBy
  {
    MapCards(MapCards(g, Masker(from, to)), Committer())
  }

  /**
   * After `map`, every card that showed `from` shows `to` (value and mask),
   * and every other card is exactly as it was: state, owner and marks never change.
   */
  lemma MapSubstitutes(g: Grid, from: string, to: string)
    requires MasksMatch(g)
    ensures var h := MapGrid(g, from, to);
      && |h| == |g| && (forall i :: 0 <= i < |g| ==> |h[i]| == |g[i]|)
      && forall i, j :: 0 <= i < |g| && 0 <= j < |g[i]| ==>
           h[i][j] == if g[i][j].value == from then g[i][j].(value := to, mask := to) else g[i][j]
  {
  }

  /** Repeating a `map` changes nothing more. */
  lemma MapIdempotent(g: Grid, from: string, to: string)
    requires MasksMatch(g)
    ensures MapGrid(MapGrid(g, from, to), from, to) == MapGrid(g, from, to)
  {
    var once := MapGrid(g, from, to);
    MapSubstitutes(g, from, to);
    MapSubstitutes(once, from, to);
    var twice := MapGrid(once, from, to);
    forall i | 0 <= i < |g| ensures twice[i] == once[i] {
    }
  }

  /**
   * `map` as written commits `to` without checking it: once a card showing
   * `from` takes a `to` that is empty or holds whitespace, the board fails
   * `check_rep`, and (flips never change values) every later `look`,
   * `watch` and `flip` answer fails until another `map` replaces that value.
   */
  lemma MapBreaksRep(rows: int, columns: int, g: Grid, from: string, to: string, i: nat, j: nat)
    requires MasksMatch(g)
    requires i < |g| && j < |g[i]| && g[i][j].value == from && !ValidValue(to)
    ensures !RepOk(rows, columns, MapGrid(g, from, to))
    ensures CheckRep(rows, columns, MapGrid(g, from, to)) != Pass
  {
    MapSubstitutes(g, from, to);
    assert !AllValuesValid(MapGrid(g, from, to)[i]);
  }

  /** The smallest case: a 1x1 board showing `A`, mapped from `A` to `B C`. */
  lemma MapBreaksOneByOne()
    ensures var g := [[NewCard("A")]];
      RepOk(1, 1, g) && CheckRep(1, 1, MapGrid(g, "A", "B C")) == Fail(BadValue)
  {
    var g := [[NewCard("A")]];
    assert AllValuesValid(g[0]);
    var h: Grid := MapGrid(g, "A", "B C");
    assert |h| == 1 && |h[0]| == 1 && h[0][0].value == "B C";
    assert !NoSpace("B C") by { assert IsSpace("B C"[1]); }
    assert !AllValuesValid(h[0]);
    assert CheckRows(h, 1) == Fail(BadValue);
  }

  /** `map` with the check the board needs: a `to` that is not a valid card value is refused and nothing changes. */
  function MapChecked(g: Grid, from: string, to: string): Result<Grid, RepError> {
    if !ValidValue(to) then Failure(BadValue) else Success(MapGrid(g, from, to))
  }

  /** The corrected `map` keeps a well-formed board well-formed, whatever it is asked to do. */
  lemma MapCheckedKeepsRep(rows: int, columns: int, g: Grid, from: string, to: string)
    requires RepOk(rows, columns, g) && MasksMatch(g)
    ensures MapChecked(g, from, to).Success? <==> ValidValue(to)
    ensures MapChecked(g, from, to).Success? ==>
      RepOk(rows, columns, MapChecked(g, from, to).value) && MasksMatch(MapChecked(g, from, to).value)
  {
    if ValidValue(to) {
      var h := MapGrid(g, from, to);
      MapSubstitutes(g, from, to);
      forall i | 0 <= i < |h| ensures AllValuesValid(h[i]) {
        assert AllValuesValid(g[i]);
      }
    }
  }

  // ----- the operations on a board object -----

  /** Applies `f` to every card of the board in place, row by row (`board.cards.flatten.each`). */
  method UpdateEachCard(board: Board, f: Card -> Card)
    modifies board
    ensures board.cards == MapCards(old(board.cards), f)
  {
    ghost var g := board.cards;
    var i := 0;
    while i < |board.cards|
      invariant 0 <= i <= |board.cards| == |g|
      invariant forall k :: 0 <= k < i ==> board.cards[k] == MapCards(g, f)[k]
      invariant forall k :: i <= k < |g| ==> board.cards[k] == g[k]
    {
      var row := board.cards[i];
      var j := 0;
      while j < |row|
        invariant 0 <= j <= |row| == |g[i]|
        invariant forall k :: 0 <= k < j ==> row[k] == f(g[i][k])
        invariant forall k :: j <= k < |row| ==> row[k] == g[i][k]
      {
        row := row[j := f(row[j])];
        j := j + 1;
      }
      assert row == MapCards(g, f)[i];
      board.cards := board.cards[i := row];
      i := i + 1;
    }
    assert board.cards == MapCards(g, f);
  }

  /** `finalize_previous_play`. */
  method FinalizePreviousPlay(board: Board, p: Player)
    modifies board
    ensures board.cards == FinalizeGrid(old(board.cards), p)
  {
    UpdateEachCard(board, Finalizer(p));
  }

  /** `handle_first_flip`. */
  method HandleFirstFlip(board: Board, p: Player, pos: Pos) returns (v: Verdict)
    requires InGrid(board.cards, pos)
    modifies board
    ensures (board.cards, v) == FirstFlip(old(board.cards), pos, p)
  {
    var card := At(board.cards, pos);
    if IsRemoved(card) {
      return Refused(NoCard);
    }
    if card.state == Down {
      board.cards := SetCard(board.cards, pos, card.(state := Up, owner := Some(p)));
    } else if card.owner == None {
      board.cards := SetCard(board.cards, pos, card.(owner := Some(p)));
    } else if card.owner != Some(p) {
      return WaitFor(card.owner.value);
    }
    v := Proceed;
  }

  /** `handle_second_flip`, given the one card `p` controls. */
  method HandleSecondFlip(board: Board, p: Player, pos: Pos, first: Controlled) returns (v: Verdict)
    requires InGrid(board.cards, pos) && InGrid(board.cards, Pos(first.row, first.column))
    requires ControlledBy(At(board.cards, Pos(first.row, first.column)), p)
    modifies board
    ensures (board.cards, v) == SecondFlip(old(board.cards), Pos(first.row, first.column), pos, p)
  {
    var a := Pos(first.row, first.column);
    var card := At(board.cards, pos);
    if IsRemoved(card) {
      Relinquish(board, a, p);
      return Refused(SecondCardRemoved);
    }
    if card.state == Up && card.owner.Some? {
      Relinquish(board, a, p);
      return Refused(SecondCardControlled);
    }
    var taken := card;
    if taken.state == Down {
      taken := taken.(state := Up);
    }
    taken := taken.(owner := Some(p));
    board.cards := SetCard(board.cards, pos, taken);
    if At(board.cards, a).value == At(board.cards, pos).value {
      MarkMatched(board, a, pos, p);
    } else {
      MarkMismatch(board, a, pos, p);
    }
    v := Proceed;
  }

  /**
   * `flip`: bounds, then the second-flip rules when `p` controls exactly one
   * card and the sweep plus first-flip rules otherwise, then `check_rep`
   * and the view. Whatever a stage changed before a refusal or a wait stays.
   */
  method Flip(board: Board, p: Player, row: int, column: int) returns (r: FlipResult)
    requires board.Valid()
    modifies board
    ensures board.Valid()
    ensures (board.cards, r) == FlipSpec(board.rows, board.columns, old(board.cards), p, row, column)
  {
    var bounds := CheckBounds(board.rows, board.columns, row, column);
    if bounds.Fail? {
      return Failed(Game(bounds.error));
    }
    var pos := Pos(row, column);
    var controlled := ControlledCards(board, p);
    var v;
    if |controlled| == 1 {
      v := HandleSecondFlip(board, p, pos, controlled[0]);
    } else {
      FinalizePreviousPlay(board, p);
      v := HandleFirstFlip(board, p, pos);
    }
    assert (board.cards, v) == FlipRules(board.rows, board.columns, old(board.cards), p, row, column);
    match v
    case WaitFor(o) =>
      r := Wait(row, column, o);
    case Refused(e) =>
      r := Failed(Game(e));
    case Proceed =>
      var check := CheckRep(board.rows, board.columns, board.cards);
      if check.Fail? {
        return Failed(BrokenRep(check.error));
      }
      var view := Look(board, p);
      r := Done(view.value);
  }

  /**
   * `map`: stages `to` in the mask of every card showing `from`, commits
   * every mask as the card's value, then runs `check_rep` and answers with
   * the view. The commit is applied directly here.
   */
  method Map(board: Board, p: Player, from: string, to: string) returns (r: Result<string, RepError>)
    modifies board
    ensures board.cards == MapGrid(old(board.cards), from, to)
    ensures r == Look(board, p)
  {
    UpdateEachCard(board, Masker(from, to));
    UpdateEachCard(board, Committer());
    var check := CheckRep(board.rows, board.columns, board.cards);
    if check.Fail? {
      return Failure(check.error);
    }
    r := Look(board, p);
  }
}
