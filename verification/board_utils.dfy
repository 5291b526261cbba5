/**
 * Helpers of the flip rules: the bounds check, the cards a player
 * controls, and the three small card updates (`relinquish`,
 * `mark_matched`, `mark_mismatch`).
 */
module BoardUtils {
  import opened Results
  import opened BoardModel

  /** The ways a flip can be refused (`GameError` in the server). */
  datatype GameError =
    | RowOutOfBounds
    | ColumnOutOfBounds
    | NoCard                // the target is removed
    | SecondCardRemoved     // rule 2-A: the first card is relinquished
    | SecondCardControlled  // rule 2-B: the first card is relinquished

  /** `removed?`: a removed card is no card at all. */
  predicate IsRemoved(c: Card) {
    c.state == Removed
  }

  /** `check_bounds`: the row is checked before the column. */
  function CheckBounds(rows: int, columns: int, row: int, column: int): (r: Outcome<GameError>)
    ensures r == Pass <==> 0 <= row < rows && 0 <= column < columns
    ensures !(0 <= row < rows) ==> r == Fail(RowOutOfBounds)
    ensures 0 <= row < rows && !(0 <= column < columns) ==> r == Fail(ColumnOutOfBounds)
  {
    if !(0 <= row <= rows - 1) then Fail(RowOutOfBounds)
    else if !(0 <= column <= columns - 1) then Fail(ColumnOutOfBounds)
    else Pass
  }

  // ----- controlled_cards -----

  /** A card `p` controls: face up and owned by `p`. */
  predicate ControlledBy(c: Card, p: Player) {
    c.state == Up && c.owner == Some(p)
  }

  /** One entry of `controlled_cards`: the card and where it lies. */
  datatype Controlled = Controlled(row: nat, column: nat, card: Card)

  /** Position (i, j) comes before position (i', j') in row-major order. */
  predicate Before(a: Controlled, b: Controlled) {
    a.row < b.row || (a.row == b.row && a.column < b.column)
  }

  /** Every entry names a card of `g` that `p` controls, and the entries are in strictly increasing row-major order. */
  predicate SoundList(g: Grid, p: Player, cs: seq<Controlled>) {
    && (forall k :: 0 <= k < |cs| ==>
          cs[k].row < |g| && cs[k].column < |g[cs[k].row]|
          && g[cs[k].row][cs[k].column] == cs[k].card && ControlledBy(cs[k].card, p))
    && (forall k, k' :: 0 <= k < k' < |cs| ==> Before(cs[k], cs[k']))
  }

  /** The cards `p` controls among the first `n` cards of row `ri`, left to right. */
  function ControlledInRow(g: Grid, ri: nat, p: Player, n: nat): seq<Controlled>
    requires ri < |g| && n <= |g[ri]|
  {
    if n == 0 then []
    else
      var c := g[ri][n - 1];
      ControlledInRow(g, ri, p, n - 1) + (if ControlledBy(c, p) then [Controlled(ri, n - 1, c)] else [])
  }

  /** The cards `p` controls in the first `m` rows, in row-major order. */
  function ControlledUpTo(g: Grid, p: Player, m: nat): seq<Controlled>
    requires m <= |g|
  {
    if m == 0 then []
    else ControlledUpTo(g, p, m - 1) + ControlledInRow(g, m - 1, p, |g[m - 1]|)
  }

  /** Two sound lists, every entry of the first before every entry of the second, make a sound list. */
  lemma SoundAppend(g: Grid, p: Player, xs: seq<Controlled>, ys: seq<Controlled>)
    requires SoundList(g, p, xs) && SoundList(g, p, ys)
    requires forall k, k' :: 0 <= k < |xs| && 0 <= k' < |ys| ==> Before(xs[k], ys[k'])
    ensures SoundList(g, p, xs + ys)
  {
    var cs := xs + ys;
    forall k | 0 <= k < |cs|
      ensures cs[k].row < |g| && cs[k].column < |g[cs[k].row]|
      ensures g[cs[k].row][cs[k].column] == cs[k].card && ControlledBy(cs[k].card, p)
    {
      if k >= |xs| {
        assert cs[k] == ys[k - |xs|];
      }
    }
    forall k, k' | 0 <= k < k' < |cs| ensures Before(cs[k], cs[k']) {
      if k' < |xs| {
        assert Before(xs[k], xs[k']);
      } else if k >= |xs| {
        assert Before(ys[k - |xs|], ys[k' - |xs|]);
      } else {
        assert Before(xs[k], ys[k' - |xs|]);
      }
    }
  }

  /** The entries collected in a row are cards of that row that `p` controls, left to right. */
  lemma {:induction false} ControlledInRowSound(g: Grid, ri: nat, p: Player, n: nat)
    requires ri < |g| && n <= |g[ri]|
    ensures SoundList(g, p, ControlledInRow(g, ri, p, n))
    ensures forall k :: 0 <= k < |ControlledInRow(g, ri, p, n)| ==>
      ControlledInRow(g, ri, p, n)[k].row == ri && ControlledInRow(g, ri, p, n)[k].column < n
  {
    if n > 0 {
      ControlledInRowSound(g, ri, p, n - 1);
      var before := ControlledInRow(g, ri, p, n - 1);
      var c := g[ri][n - 1];
      if ControlledBy(c, p) {
        var last := [Controlled(ri, n - 1, c)];
        SoundAppend(g, p, before, last);
        assert ControlledInRow(g, ri, p, n) == before + last;
      } else {
        assert ControlledInRow(g, ri, p, n) == before;
      }
    }
  }

  /** The entries collected in the first `m` rows are cards `p` controls there, in strictly increasing row-major order. */
  lemma {:induction false} ControlledUpToSound(g: Grid, p: Player, m: nat)
    requires m <= |g|
    ensures SoundList(g, p, ControlledUpTo(g, p, m))
    ensures forall k :: 0 <= k < |ControlledUpTo(g, p, m)| ==> ControlledUpTo(g, p, m)[k].row < m
  {
    if m > 0 {
      ControlledUpToSound(g, p, m - 1);
      ControlledInRowSound(g, m - 1, p, |g[m - 1]|);
      var before := ControlledUpTo(g, p, m - 1);
      var last := ControlledInRow(g, m - 1, p, |g[m - 1]|);
      SoundAppend(g, p, before, last);
      assert ControlledUpTo(g, p, m) == before + last;
    }
  }

  /** What `controlled_cards` returns: only cards `p` controls, each at its true place, row-major. */
  function ControlledOf(g: Grid, p: Player): (cs: seq<Controlled>)
    ensures SoundList(g, p, cs)
  {
    ControlledUpToSound(g, p, |g|);
    ControlledUpTo(g, p, |g|)
  }

  lemma {:induction false} ControlledInRowComplete(g: Grid, ri: nat, p: Player, n: nat, j: nat) returns (k: nat)
    requires ri < |g| && j < n <= |g[ri]| && ControlledBy(g[ri][j], p)
    ensures k < |ControlledInRow(g, ri, p, n)|
    ensures ControlledInRow(g, ri, p, n)[k] == Controlled(ri, j, g[ri][j])
  {
    if j == n - 1 {
      k := |ControlledInRow(g, ri, p, n - 1)|;
    } else {
      k := ControlledInRowComplete(g, ri, p, n - 1, j);
    }
  }

  lemma {:induction false} ControlledUpToComplete(g: Grid, p: Player, m: nat, i: nat, j: nat) returns (k: nat)
    requires m <= |g| && i < m && j < |g[i]| && ControlledBy(g[i][j], p)
    ensures k < |ControlledUpTo(g, p, m)|
    ensures ControlledUpTo(g, p, m)[k] == Controlled(i, j, g[i][j])
  {
    var before := ControlledUpTo(g, p, m - 1);
    var last := ControlledInRow(g, m - 1, p, |g[m - 1]|);
    assert ControlledUpTo(g, p, m) == before + last;
    if i == m - 1 {
      var k' := ControlledInRowComplete(g, i, p, |g[i]|, j);
      k := |before| + k';
      assert (before + last)[k] == last[k'];
    } else {
      k := ControlledUpToComplete(g, p, m - 1, i, j);
      assert (before + last)[k] == before[k];
    }
  }

  /**
   * Every card `p` controls has its entry in `controlled_cards`, with its
   * true row and column. With the soundness and the row-major order the
   * list carries by construction, the list holds exactly those cards, each once.
   */
  lemma ControlledOfComplete(g: Grid, p: Player, i: nat, j: nat) returns (k: nat)
    requires i < |g| && j < |g[i]| && ControlledBy(g[i][j], p)
    ensures k < |ControlledOf(g, p)| && ControlledOf(g, p)[k] == Controlled(i, j, g[i][j])
  {
    k := ControlledUpToComplete(g, p, |g|, i, j);
  }

  lemma InRowStep(g: Grid, ri: nat, p: Player, ci: nat)
    requires ri < |g| && ci < |g[ri]|
    ensures ControlledInRow(g, ri, p, ci + 1) ==
      ControlledInRow(g, ri, p, ci) + if ControlledBy(g[ri][ci], p) then [Controlled(ri, ci, g[ri][ci])] else []
  {
  }

  /** `controlled_cards`: walks the rows and their cards, collecting those `p` controls. */
  method ControlledCards(board: Board, p: Player) returns (cs: seq<Controlled>)
    ensures cs == ControlledOf(board.cards, p)
  {
    var g := board.cards;
    cs := [];
    var ri := 0;
    while ri < |g|
      invariant 0 <= ri <= |g|
      invariant cs == ControlledUpTo(g, p, ri)
    {
      var row := g[ri];
      ghost var before := ControlledUpTo(g, p, ri);
      var ci := 0;
      while ci < |row|
        invariant 0 <= ci <= |row|
        invariant cs == before + ControlledInRow(g, ri, p, ci)
      {
        InRowStep(g, ri, p, ci);
        if row[ci].state == Up && row[ci].owner == Some(p) {
          cs := cs + [Controlled(ri, ci, row[ci])];
        }
        ci := ci + 1;
      }
      assert ControlledUpTo(g, p, ri + 1) == before + ControlledInRow(g, ri, p, |row|);
      ri := ri + 1;
    }
  }

  // ----- card updates -----

  /** `relinquish` (and each half of `mark_mismatch`): released, and to be turned down at `p`'s next turn. */
  function Released(c: Card, p: Player): Card {
    c.(owner := None, pendingConcealBy := Some(p))
  }

  /** Each half of `mark_matched`: marked as matched by `p`, still owned and face up. */
  function Matched(c: Card, p: Player): Card {
    c.(matchedBy := Some(p))
  }

  /** `h` is `g` with `f` applied to the cards at `ps`, and nothing else changed. */
  predicate ChangedAt(g: Grid, h: Grid, ps: set<Pos>, f: Card -> Card) {
    && |h| == |g|
    && (forall i :: 0 <= i < |g| ==> |h[i]| == |g[i]|)
    && forall i, j :: 0 <= i < |g| && 0 <= j < |g[i]| ==>
         h[i][j] == if Pos(i, j) in ps then f(g[i][j]) else g[i][j]
  }

  function RelinquishGrid(g: Grid, a: Pos, p: Player): (h: Grid)
    requires InGrid(g, a)
    ensures ChangedAt(g, h, {a}, c => Released(c, p))
  {
    SetCard(g, a, Released(At(g, a), p))
  }

  /** Both cards updated one after the other, as the source does; `a == b` is allowed. */
  function MatchGrid(g: Grid, a: Pos, b: Pos, p: Player): (h: Grid)
    requires InGrid(g, a) && InGrid(g, b)
    ensures ChangedAt(g, h, {a, b}, c => Matched(c, p))
  {
    var g1 := SetCard(g, a, Matched(At(g, a), p));
    SetCard(g1, b, Matched(At(g1, b), p))
  }

  function MismatchGrid(g: Grid, a: Pos, b: Pos, p: Player): (h: Grid)
    requires InGrid(g, a) && InGrid(g, b)
    ensures ChangedAt(g, h, {a, b}, c => Released(c, p))
  {
    var g1 := SetCard(g, a, Released(At(g, a), p));
    SetCard(g1, b, Released(At(g1, b), p))
  }

  /** `relinquish`. */
  method Relinquish(board: Board, a: Pos, p: Player)
    requires InGrid(board.cards, a)
    modifies board
    ensures board.cards == RelinquishGrid(old(board.cards), a, p)
  {
    board.cards := SetCard(board.cards, a, Released(At(board.cards, a), p));
  }

  /** `mark_matched`. */
  method MarkMatched(board: Board, a: Pos, b: Pos, p: Player)
    requires InGrid(board.cards, a) && InGrid(board.cards, b)
    modifies board
    ensures board.cards == MatchGrid(old(board.cards), a, b, p)
  {
    board.cards := SetCard(board.cards, a, Matched(At(board.cards, a), p));
    board.cards := SetCard(board.cards, b, Matched(At(board.cards, b), p));
  }

  /** `mark_mismatch`. */
  method MarkMismatch(board: Board, a: Pos, b: Pos, p: Player)
    requires InGrid(board.cards, a) && InGrid(board.cards, b)
    modifies board
    ensures board.cards == MismatchGrid(old(board.cards), a, b, p)
  {
    board.cards := SetCard(board.cards, a, Released(At(board.cards, a), p));
    board.cards := SetCard(board.cards, b, Released(At(board.cards, b), p));
  }
}
