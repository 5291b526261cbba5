/**
 * The earlier iteration of the rules: the same view as `look` (built card
 * by card, with no closing check), a `flip` that only turns up a face-down
 * card nobody holds, and `map` and `watch` that are not implemented.
 * Indices are used as Ruby uses them.
 */
module EarlyBoardOperations {
  import opened Results
  import opened Text
  import opened BoardModel
  import opened BoardOperations

  datatype EarlyError =
    | NoMethod        // an index selected nil, and nil was then indexed
    | NotImplemented

  lemma {:induction false} FlattenSnoc(g: Grid, i: nat)
    requires i < |g|
    ensures Flatten(g[..i + 1]) == Flatten(g[..i]) + g[i]
  {
    if i > 0 {
      assert g[..i + 1][1..] == g[1..][..i];
      assert g[..i][1..] == g[1..][..i - 1];
      FlattenSnoc(g[1..], i - 1);
    } else {
      assert g[..1] == [g[0]];
      assert Flatten([g[0]]) == g[0] + Flatten([]);
    }
  }

  /** Appending the line of one more card to the text of the cards before it. */
  lemma AppendCardLine(header: string, before: seq<Card>, c: Card, p: Player)
    ensures Terminated([header] + CellLinesOf(before + [c], p))
         == Terminated([header] + CellLinesOf(before, p)) + CellLine(c, p) + "\n"
  {
    CellLinesAppend(before, [c], p);
    assert [header] + CellLinesOf(before + [c], p) == [header] + CellLinesOf(before, p) + [CellLine(c, p)];
    TerminatedSnoc([header] + CellLinesOf(before, p), CellLine(c, p));
  }

  /** One step of the inner loop of `look`: the text grows by the line of card j of the row. */
  lemma CardStep(header: string, seen: seq<Card>, row: seq<Card>, j: nat, p: Player, output: string)
    requires j < |row|
    requires output == Terminated([header] + CellLinesOf(seen + row[..j], p))
    ensures output + CellLine(row[j], p) + "\n" == Terminated([header] + CellLinesOf(seen + row[..j + 1], p))
  {
    AppendCardLine(header, seen + row[..j], row[j], p);
    assert seen + row[..j] + [row[j]] == seen + row[..j + 1];
  }

  /** The line of a card, case by case, in the order `look` tests them. */
  lemma CellLineCases(c: Card, p: Player)
    ensures c.state == Removed ==> CellLine(c, p) == "none"
    ensures c.state != Removed && c.owner == Some(p) ==> CellLine(c, p) == "my " + c.value
    ensures c.state == Down && c.owner != Some(p) ==> CellLine(c, p) == "down"
    ensures c.state == Up && c.owner != Some(p) ==> CellLine(c, p) == "up " + c.value
  {
  }

  /** `look` of the earlier iteration: renders exactly the text of the later `look`, card by card, and never fails. */
  method Look(board: Board, p: Player) returns (output: string)
    ensures output == Render(board.rows, board.columns, board.cards, p)
  {
    var cards := board.cards;
    var header := Header(board.rows, board.columns);
    output := header + "\n";
    var i := 0;
    while i < |cards|
      invariant 0 <= i <= |cards|
      invariant output == Terminated([header] + CellLinesOf(Flatten(cards[..i]), p))
    {
      var row := cards[i];
      ghost var seen := Flatten(cards[..i]);
      var j := 0;
      assert seen + row[..j] == seen;
      while j < |row|
        invariant 0 <= j <= |row|
        invariant output == Terminated([header] + CellLinesOf(seen + row[..j], p))
      {
        var c := row[j];
        CellLineCases(c, p);
        var line;
        if c.state == Removed {
          line := "none";
        } else {
          if c.owner == Some(p) {
            line := "my " + c.value;
          } else {
            if c.state == Down {
              line := "down";
            } else {
              line := "up " + c.value;
            }
          }
        }
        assert line == CellLine(c, p);
        CardStep(header, seen, row, j, p, output);
        output := output + line + "\n";
        j := j + 1;
      }
      FlattenSnoc(cards, i);
      assert row[..j] == row;
      i := i + 1;
    }
    assert cards[..i] == cards;
  }

  /** Ruby's `Array#[]` with an integer index into `n` elements: a negative index counts from the end; None is nil. */
  function RubyIndex(i: int, n: nat): (r: Option<nat>)
    ensures r.Some? <==> -(n as int) <= i < n
    ensures r.Some? ==> r.value < n && (r.value == i || r.value == i + n)
  {
    if 0 <= i < n then Some(i)
    else if -(n as int) <= i < 0 then Some(n + i)
    else None
  }

  /**
   * The board after the earlier `flip`, or None when indexing reaches nil
   * (a row out of range, then a column out of range in that row). Otherwise it touches no card but its target, and turns
   * the target up for `p` exactly when it is face down and held by nobody;
   * any other target is left as it is.
   */
  function EarlyFlipGrid(g: Grid, p: Player, row: int, column: int): (r: Option<Grid>)
    ensures RubyIndex(row, |g|).None? ==> r.None?
    ensures RubyIndex(row, |g|).Some? ==>
      var i := RubyIndex(row, |g|).value;
      && (RubyIndex(column, |g[i]|).None? <==> r.None?)
      && (RubyIndex(column, |g[i]|).Some? ==>
            var j := RubyIndex(column, |g[i]|).value;
            var c := g[i][j];
            && OnlyAt(g, r.value, {Pos(i, j)})
            && (c.state == Down && c.owner == None ==> r.value[i][j] == Taken(c, p))
            && (!(c.state == Down && c.owner == None) ==> r.value == g))
  {
    match RubyIndex(row, |g|)
    case None => None
    case Some(i) =>
      match RubyIndex(column, |g[i]|)
      case None => None
      case Some(j) =>
        var c := g[i][j];
        if c.state == Down && c.owner == None then Some(SetCard(g, Pos(i, j), c.(state := Up, owner := Some(p))))
        else Some(g)
  }

  /** The earlier `flip`: updates the target in place, then answers with `look` for `p`. */
  method Flip(board: Board, p: Player, row: int, column: int) returns (r: Result<string, EarlyError>)
    modifies board
    ensures EarlyFlipGrid(old(board.cards), p, row, column).None? ==>
      r == Failure(NoMethod) && board.cards == old(board.cards)
    ensures EarlyFlipGrid(old(board.cards), p, row, column).Some? ==>
      && board.cards == EarlyFlipGrid(old(board.cards), p, row, column).value
      && r == Success(Render(board.rows, board.columns, board.cards, p))
  {
    var cards := board.cards;
    var i := RubyIndex(row, |cards|);
    if i.None? {
      return Failure(NoMethod);
    }
    var j := RubyIndex(column, |cards[i.value]|);
    if j.None? {
      return Failure(NoMethod);
    }
    var pos := Pos(i.value, j.value);
    var current := At(cards, pos);
    if current.state == Down && current.owner == None {
      board.cards := SetCard(board.cards, pos, current.(state := Up, owner := Some(p)));
    }
    var view := Look(board, p);
    r := Success(view);
  }

  /** `map` of the earlier iteration always raises. */
  method Map(board: Board, p: Player, f: Card -> Card) returns (r: Result<string, EarlyError>)
    ensures r == Failure(NotImplemented)
  {
    r := Failure(NotImplemented);
  }

  /** `watch` of the earlier iteration always raises. */
  method Watch(board: Board, p: Player) returns (r: Result<string, EarlyError>)
    ensures r == Failure(NotImplemented)
  {
    r := Failure(NotImplemented);
  }
}
