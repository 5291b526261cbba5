/**
 * The game's invariants beyond `check_rep`: which fields of one card may
 * go together, how many cards one player may hold, and where a player's
 * pending marks may lie while they hold a card. A parsed board satisfies
 * them and `flip` and `map` keep them. On a board that satisfies them a
 * flip onto a free card always answers with the view, and the sweep is
 * idempotent.
 */
module GameInvariants {
  import opened Results
  import opened Text
  import opened BoardModel
  import opened BoardUtils
  import opened BoardOperations

  /**
   * One card: only a face-up card has an owner; a card marked as matched
   * is face up and held by the player who matched it; a face-down card
   * carries no mark.
   */
  predicate CardOk(c: Card) {
    && (c.owner.Some? ==> c.state == Up)
    && (c.matchedBy.Some? ==> c.state == Up && c.owner == c.matchedBy)
    && (c.state == Down ==> c.matchedBy == None && c.pendingConcealBy == None)
  }

  predicate CardsOk(g: Grid) {
    forall i, j :: 0 <= i < |g| && 0 <= j < |g[i]| ==> CardOk(g[i][j])
  }

  /** `q` holds the card at `a`: it is face up and `q` owns it. */
  predicate Held(g: Grid, a: Pos, q: Player) {
    InGrid(g, a) && ControlledBy(At(g, a), q)
  }

  /**
   * One player: holds at most two cards, two only as a pair they have
   * matched, and never a card they matched on its own.
   */
  ghost predicate PlayerOk(g: Grid, q: Player) {
    && (forall a, b, c :: Held(g, a, q) && Held(g, b, q) && Held(g, c, q) ==> a == b || a == c || b == c)
    && (forall a, b :: Held(g, a, q) && Held(g, b, q) && a != b ==> At(g, a).matchedBy == Some(q))
    && (forall a :: Held(g, a, q) && At(g, a).matchedBy == Some(q) ==> exists b :: b != a && Held(g, b, q))
  }

  /** A card marked pending `q` is out of the game or held by someone else than `q`. */
  predicate ConcealOk(c: Card, q: Player) {
    c.pendingConcealBy == Some(q) ==> c.state == Removed || (c.owner.Some? && c.owner != Some(q))
  }

  /**
   * While `q` holds a card, every card marked pending `q` is removed or held
   * by another player: `q`'s own release and mismatch leave `q` holding
   * nothing, and `q`'s sweep before the next first flip turns the cards it
   * released back down.
   */
  ghost predicate ConcealsOk(g: Grid, q: Player) {
    forall a, x :: Held(g, a, q) && InGrid(g, x) ==> ConcealOk(At(g, x), q)
  }

  ghost predicate GameOk(g: Grid) {
    && CardsOk(g)
    && (forall q :: PlayerOk(g, q))
    && (forall q :: ConcealsOk(g, q))
  }

  /** `p` holds exactly one card, `a`: the middle of a turn. */
  ghost predicate HoldsOnly(g: Grid, a: Pos, p: Player) {
    Held(g, a, p) && forall x :: Held(g, x, p) ==> x == a
  }

  // ----- boards the game starts from -----

  /** A board whose cards are all face down, unowned and unmarked satisfies the invariants. */
  lemma FreshBoardOk(g: Grid)
    requires forall i, j :: 0 <= i < |g| && 0 <= j < |g[i]| ==> g[i][j] == NewCard(g[i][j].value)
    ensures GameOk(g) && MasksMatch(g)
  {
    forall q ensures PlayerOk(g, q) && ConcealsOk(g, q) {
      assert forall a :: !Held(g, a, q);
      HoldsNone(g, q);
    }
  }

  /** A parsed board satisfies the invariants, and every mask equals its value. */
  lemma ParsedGameOk(raw: seq<string>)
    requires forall i :: 0 <= i < |raw| ==> Excludes(raw[i], '\n')
    requires ParseLines(raw).Success?
    ensures GameOk(ParseLines(raw).value.cards) && MasksMatch(ParseLines(raw).value.cards)
  {
    ParsedBoard(raw);
    FreshBoardOk(ParseLines(raw).value.cards);
  }

  // ----- shapes of a player's hand -----

  /** A player who holds nothing satisfies their part of the invariant. */
  lemma HoldsNone(g: Grid, q: Player)
    requires forall x :: !Held(g, x, q)
    ensures PlayerOk(g, q)
  {
  }

  /** A player who holds one card they have not matched satisfies their part of the invariant. */
  lemma HoldsOne(g: Grid, a: Pos, q: Player)
    requires HoldsOnly(g, a, q) && At(g, a).matchedBy != Some(q)
    ensures PlayerOk(g, q)
  {
  }

  /** A player who holds exactly a pair they have matched satisfies their part of the invariant. */
  lemma HoldsPair(g: Grid, a: Pos, b: Pos, q: Player)
    requires a != b && Held(g, a, q) && Held(g, b, q)
    requires At(g, a).matchedBy == Some(q) && At(g, b).matchedBy == Some(q)
    requires forall x :: Held(g, x, q) ==> x == a || x == b
    ensures PlayerOk(g, q)
  {
    forall x | Held(g, x, q) && At(g, x).matchedBy == Some(q) ensures exists y :: y != x && Held(g, y, q) {
      if x == a {
        assert b != x && Held(g, b, q);
      } else {
        assert a != x && Held(g, a, q);
      }
    }
  }

  /** Two different cards held by a player are both matched by them, and so is every card they hold. */
  lemma PairMatched(g: Grid, a: Pos, b: Pos, q: Player)
    requires PlayerOk(g, q)
    requires a != b && Held(g, a, q) && Held(g, b, q)
    ensures forall x :: Held(g, x, q) ==> At(g, x).matchedBy == Some(q)
  {
    forall x | Held(g, x, q) ensures At(g, x).matchedBy == Some(q) {
      if x != a {
        assert Held(g, x, q) && Held(g, a, q);
      } else {
        assert Held(g, x, q) && Held(g, b, q);
      }
    }
  }

  /** A player's part of the invariant depends only on which cards they hold and their matched marks. */
  lemma SameHand(g: Grid, h: Grid, q: Player)
    requires PlayerOk(g, q)
    requires forall x :: Held(h, x, q) <==> Held(g, x, q)
    requires forall x :: Held(h, x, q) ==> At(h, x).matchedBy == At(g, x).matchedBy
    ensures PlayerOk(h, q)
  {
  }

  // ----- what a change leaves alone -----

  /** Outside `ps` a card is held by `q` after a change exactly when it was before, and is the same card. */
  lemma HeldOutside(g: Grid, h: Grid, ps: set<Pos>, q: Player)
    requires OnlyAt(g, h, ps)
    ensures forall x :: x !in ps ==> (Held(h, x, q) <==> Held(g, x, q))
    ensures forall x :: x !in ps && Held(h, x, q) ==> At(h, x) == At(g, x)
  {
    forall x | x !in ps ensures (Held(h, x, q) <==> Held(g, x, q)) && (Held(h, x, q) ==> At(h, x) == At(g, x)) {
      if InGrid(g, x) {
        assert Pos(x.row, x.column) == x;
      }
    }
  }

  /** A change that leaves every card but those at `ps` alone, and gives none of those to `q` or takes one from `q`, keeps `q`'s part. */
  lemma OthersOutside(g: Grid, h: Grid, ps: set<Pos>, q: Player)
    requires OnlyAt(g, h, ps) && PlayerOk(g, q) && ConcealsOk(g, q)
    requires forall x :: x in ps ==> !Held(g, x, q) && !Held(h, x, q)
    requires forall x :: x in ps ==> InGrid(h, x) && ConcealOk(At(h, x), q)
    ensures PlayerOk(h, q) && ConcealsOk(h, q)
  {
    HeldOutside(g, h, ps, q);
    SameHand(g, h, q);
    AtOutside(g, h, ps);
    ConcealsKept(g, h, q);
  }

  /** Outside `ps` a change leaves every card where and as it was. */
  lemma AtOutside(g: Grid, h: Grid, ps: set<Pos>)
    requires OnlyAt(g, h, ps)
    ensures forall x :: InGrid(h, x) <==> InGrid(g, x)
    ensures forall x :: x !in ps && InGrid(g, x) ==> At(h, x) == At(g, x)
  {
    forall x | x !in ps && InGrid(g, x) ensures At(h, x) == At(g, x) {
      assert Pos(x.row, x.column) == x;
    }
  }

  /**
   * `q`'s pending marks stay harmless when `q` holds no card it did not
   * hold before and every card that changed is harmless for `q`.
   */
  lemma ConcealsKept(g: Grid, h: Grid, q: Player)
    requires |h| == |g| && forall i :: 0 <= i < |g| ==> |h[i]| == |g[i]|
    requires ConcealsOk(g, q)
    requires forall x :: Held(h, x, q) ==> Held(g, x, q)
    requires forall x :: InGrid(g, x) ==> At(h, x) == At(g, x) || ConcealOk(At(h, x), q)
    ensures ConcealsOk(h, q)
  {
    forall a, x | Held(h, a, q) && InGrid(h, x) ensures ConcealOk(At(h, x), q) {
      assert Held(g, a, q) && InGrid(g, x);
    }
  }

  /** A change that leaves every card but those at `ps` alone keeps every card consistent if the changed ones are. */
  lemma CardsOutside(g: Grid, h: Grid, ps: set<Pos>)
    requires OnlyAt(g, h, ps) && CardsOk(g)
    requires forall x :: x in ps ==> InGrid(h, x) && CardOk(At(h, x))
    ensures CardsOk(h)
  {
    forall i, j | 0 <= i < |h| && 0 <= j < |h[i]| ensures CardOk(h[i][j]) {
      if Pos(i, j) in ps {
        assert At(h, Pos(i, j)) == h[i][j];
      } else {
        assert CardOk(g[i][j]);
      }
    }
  }

  /** If no card `q` holds, before or after, has changed, `q`'s part of the invariant carries over. */
  lemma OthersKept(g: Grid, h: Grid, q: Player)
    requires |h| == |g| && forall i :: 0 <= i < |g| ==> |h[i]| == |g[i]|
    requires forall i, j :: 0 <= i < |g| && 0 <= j < |g[i]| && (g[i][j].owner == Some(q) || h[i][j].owner == Some(q)) ==>
      h[i][j] == g[i][j]
    requires PlayerOk(g, q)
    ensures PlayerOk(h, q)
  {
    forall x ensures (Held(h, x, q) <==> Held(g, x, q)) && (Held(h, x, q) ==> At(h, x) == At(g, x)) {
    }
    SameHand(g, h, q);
  }

  /** Boards that agree on every card's state, owner and marks satisfy the invariants together. */
  lemma SameTurnState(g: Grid, h: Grid)
    requires |h| == |g| && forall i :: 0 <= i < |g| ==> |h[i]| == |g[i]|
    requires forall i, j :: 0 <= i < |g| && 0 <= j < |g[i]| ==>
      h[i][j].state == g[i][j].state && h[i][j].owner == g[i][j].owner
      && h[i][j].matchedBy == g[i][j].matchedBy && h[i][j].pendingConcealBy == g[i][j].pendingConcealBy
    requires GameOk(g)
    ensures GameOk(h)
  {
    forall i, j | 0 <= i < |h| && 0 <= j < |h[i]| ensures CardOk(h[i][j]) {
      assert CardOk(g[i][j]);
    }
    forall q ensures PlayerOk(h, q) && ConcealsOk(h, q) {
      forall x ensures (Held(h, x, q) <==> Held(g, x, q)) && (Held(h, x, q) ==> At(h, x).matchedBy == At(g, x).matchedBy) {
      }
      SameHand(g, h, q);
      SameTurnConceals(g, h, q);
    }
  }

  /** Boards that agree on every card's state, owner and pending mark agree on `ConcealsOk`. */
  lemma SameTurnConceals(g: Grid, h: Grid, q: Player)
    requires |h| == |g| && forall i :: 0 <= i < |g| ==> |h[i]| == |g[i]|
    requires forall i, j :: 0 <= i < |g| && 0 <= j < |g[i]| ==>
      h[i][j].state == g[i][j].state && h[i][j].owner == g[i][j].owner && h[i][j].pendingConcealBy == g[i][j].pendingConcealBy
    requires ConcealsOk(g, q)
    ensures ConcealsOk(h, q)
  {
    forall a, x | Held(h, a, q) && InGrid(h, x) ensures ConcealOk(At(h, x), q) {
      assert Held(g, a, q) && InGrid(g, x);
    }
  }

  // ----- flip, step by step -----

  /** The sweep on one card keeps it consistent, and never gives away or alters a held card. */
  lemma FinalizeCardOk(c: Card, p: Player)
    requires CardOk(c)
    ensures CardOk(FinalizeCard(c, p))
    ensures FinalizeCard(c, p).owner.Some? ==> FinalizeCard(c, p) == c && c.matchedBy != Some(p)
    ensures c.owner.Some? && c.owner != Some(p) ==> FinalizeCard(c, p) == c
    ensures FinalizeCard(c, p) == c || FinalizeCard(c, p).state == Removed || FinalizeCard(c, p).pendingConcealBy == None
  {
  }

  /** The sweep leaves no card `p` released that `p` could take back while it is still marked. */
  lemma FinalizeCardConceal(c: Card, p: Player)
    requires CardOk(c)
    requires c.pendingConcealBy == Some(p) ==> c.owner != Some(p)
    ensures ConcealOk(FinalizeCard(c, p), p)
  {
  }

  /** After the sweep `p` holds only cards it held before and had not matched, unchanged. */
  lemma FinalizeHeld(g: Grid, p: Player)
    requires CardsOk(g)
    ensures forall a :: Held(FinalizeGrid(g, p), a, p) ==>
      Held(g, a, p) && At(FinalizeGrid(g, p), a) == At(g, a) && At(g, a).matchedBy != Some(p)
  {
    var h := FinalizeGrid(g, p);
    forall a | Held(h, a, p) ensures Held(g, a, p) && At(h, a) == At(g, a) && At(g, a).matchedBy != Some(p) {
      FinalizeCardOk(At(g, a), p);
    }
  }

  /** The sweep keeps the invariants. */
  lemma FinalizeKeepsGame(g: Grid, p: Player)
    requires GameOk(g)
    ensures GameOk(FinalizeGrid(g, p))
  {
    var h := FinalizeGrid(g, p);
    forall i, j | 0 <= i < |g| && 0 <= j < |g[i]|
      ensures CardOk(h[i][j])
      ensures g[i][j].owner.Some? && g[i][j].owner != Some(p) ==> h[i][j] == g[i][j]
      ensures h[i][j].owner.Some? ==> h[i][j] == g[i][j]
      ensures h[i][j] == g[i][j] || h[i][j].state == Removed || h[i][j].pendingConcealBy == None
    {
      FinalizeCardOk(g[i][j], p);
    }
    forall q ensures PlayerOk(h, q) && ConcealsOk(h, q) {
      if q != p {
        OthersKept(g, h, q);
      } else {
        FinalizeHeld(g, p);
        FinalizedHand(g, h, p);
      }
      forall x | Held(h, x, q) ensures Held(g, x, q) {
      }
      forall x | InGrid(g, x) ensures At(h, x) == At(g, x) || ConcealOk(At(h, x), q) {
      }
      ConcealsKept(g, h, q);
    }
  }

  /**
   * After the sweep of a player who held no card, or a pair, no card they
   * released is left for them to take back while still marked.
   */
  lemma FinalizeConceals(g: Grid, p: Player)
    requires GameOk(g)
    requires (forall b :: !Held(g, b, p)) || exists a, b :: a != b && Held(g, a, p) && Held(g, b, p)
    ensures forall x :: InGrid(FinalizeGrid(g, p), x) ==> ConcealOk(At(FinalizeGrid(g, p), x), p)
  {
    var h := FinalizeGrid(g, p);
    assert ConcealsOk(g, p);
    forall x | InGrid(g, x) ensures ConcealOk(At(h, x), p) {
      var c := At(g, x);
      assert CardOk(c);
      if c.owner == Some(p) {
        assert Held(g, x, p);
        assert ConcealOk(c, p);
      }
      FinalizeCardConceal(c, p);
    }
  }

  /** On a board the game can reach, sweeping twice in a row is sweeping once. */
  lemma GameOkSweepIdempotent(g: Grid, p: Player)
    requires GameOk(g)
    ensures FinalizeGrid(FinalizeGrid(g, p), p) == FinalizeGrid(g, p)
  {
    assert ConcealsOk(g, p);
    forall i, j | 0 <= i < |g| && 0 <= j < |g[i]|
      ensures !(g[i][j].matchedBy == Some(p) && g[i][j].pendingConcealBy == Some(p))
    {
      assert CardOk(g[i][j]);
      if g[i][j].matchedBy == Some(p) {
        assert Held(g, Pos(i, j), p);
        assert ConcealOk(At(g, Pos(i, j)), p);
      }
    }
    FinalizeGridIdempotent(g, p);
  }

  /** `p`'s part after the sweep: what it still holds it held before, unmatched. */
  lemma FinalizedHand(g: Grid, h: Grid, p: Player)
    requires PlayerOk(g, p)
    requires forall a :: Held(h, a, p) ==> Held(g, a, p) && At(h, a) == At(g, a) && At(g, a).matchedBy != Some(p)
    ensures PlayerOk(h, p)
  {
  }

  /**
   * A player who held no card, or a pair, holds none once the sweep has
   * run: the pair is matched and so removed.
   */
  lemma FinalizeFrees(g: Grid, p: Player)
    requires GameOk(g)
    requires (forall b :: !Held(g, b, p)) || exists a, b :: a != b && Held(g, a, p) && Held(g, b, p)
    ensures forall a :: !Held(FinalizeGrid(g, p), a, p)
  {
    FinalizeHeld(g, p);
    if exists a, b :: a != b && Held(g, a, p) && Held(g, b, p) {
      var a1, a2 :| a1 != a2 && Held(g, a1, p) && Held(g, a2, p);
      PairMatched(g, a1, a2, p);
    }
  }

  /**
   * A first flip by a player who holds nothing keeps the invariants, on a
   * board just swept for that player: none of the cards they released is
   * left face up and free with their mark on it.
   */
  lemma FirstFlipKeepsGame(g: Grid, pos: Pos, p: Player)
    requires InGrid(g, pos) && GameOk(g)
    requires forall a :: !Held(g, a, p)
    requires forall x :: InGrid(g, x) ==> ConcealOk(At(g, x), p)
    ensures GameOk(FirstFlip(g, pos, p).0)
  {
    var (h, v) := FirstFlip(g, pos, p);
    if v == Proceed {
      var c := At(g, pos);
      assert !Held(g, pos, p) && CardOk(c) && ConcealOk(c, p);
      assert OnlyAt(g, h, {pos}) && At(h, pos) == Taken(c, p);
      CardsOutside(g, h, {pos});
      AtOutside(g, h, {pos});
      forall q ensures PlayerOk(h, q) && ConcealsOk(h, q) {
        if q != p {
          OthersOutside(g, h, {pos}, q);
        } else {
          HeldOutside(g, h, {pos}, p);
          HoldsOne(h, pos, p);
          assert forall x :: InGrid(h, x) ==> ConcealOk(At(h, x), p);
        }
      }
    }
  }

  /**
   * A second flip by a player who holds exactly one card keeps the
   * invariants: on a match the player holds the matched pair, otherwise
   * nothing.
   */
  lemma SecondFlipKeepsGame(g: Grid, a: Pos, b: Pos, p: Player)
    requires InGrid(g, b) && GameOk(g)
    requires HoldsOnly(g, a, p)
    ensures GameOk(SecondFlip(g, a, b, p).0)
  {
    var (h, v) := SecondFlip(g, a, b, p);
    var ca := At(g, a);
    assert PlayerOk(g, p) && CardOk(ca);
    assert ca.matchedBy == None;
    if v != Proceed {
      assert h == RelinquishGrid(g, a, p);
      assert OnlyAt(g, h, {a}) && At(h, a) == Released(ca, p);
      CardsOutside(g, h, {a});
      forall q ensures PlayerOk(h, q) && ConcealsOk(h, q) {
        if q != p {
          OthersOutside(g, h, {a}, q);
        } else {
          HeldOutside(g, h, {a}, p);
          HoldsNone(h, p);
        }
      }
    } else if ca.value == At(g, b).value {
      SecondFlipMatches(g, a, b, p);
    } else {
      SecondFlipMismatches(g, a, b, p);
    }
  }

  /** A second flip that matches leaves `p` holding exactly the matched pair. */
  lemma SecondFlipMatches(g: Grid, a: Pos, b: Pos, p: Player)
    requires InGrid(g, b) && GameOk(g)
    requires HoldsOnly(g, a, p) && At(g, a).matchedBy == None
    requires SecondFlip(g, a, b, p).1 == Proceed && At(g, a).value == At(g, b).value
    ensures GameOk(SecondFlip(g, a, b, p).0)
  {
    var h := SecondFlip(g, a, b, p).0;
    var cb := At(g, b);
    assert CardOk(cb);
    assert cb.owner == None && cb.matchedBy == None;
    CardsOutside(g, h, {a, b});
    forall q ensures PlayerOk(h, q) && ConcealsOk(h, q) {
      if q != p {
        OthersOutside(g, h, {a, b}, q);
      } else {
        HeldOutside(g, h, {a, b}, p);
        HoldsPair(h, a, b, p);
        MatchConceals(g, a, b, p);
      }
    }
  }

  /** After a match no card is marked pending the matcher unless it is removed or held by another player. */
  lemma MatchConceals(g: Grid, a: Pos, b: Pos, p: Player)
    requires InGrid(g, b) && GameOk(g)
    requires HoldsOnly(g, a, p) && At(g, a).matchedBy == None
    requires SecondFlip(g, a, b, p).1 == Proceed && At(g, a).value == At(g, b).value
    ensures forall x :: InGrid(SecondFlip(g, a, b, p).0, x) ==> ConcealOk(At(SecondFlip(g, a, b, p).0, x), p)
  {
    var h := SecondFlip(g, a, b, p).0;
    assert CardOk(At(g, b));
    assert ConcealsOk(g, p) && Held(g, a, p);
    assert ConcealOk(At(g, a), p) && ConcealOk(At(g, b), p);
    AtOutside(g, h, {a, b});
    forall x | InGrid(h, x) ensures ConcealOk(At(h, x), p) {
      if x != a && x != b {
        assert ConcealOk(At(g, x), p);
      }
    }
  }

  /** A second flip that does not match leaves `p` holding nothing. */
  lemma SecondFlipMismatches(g: Grid, a: Pos, b: Pos, p: Player)
    requires InGrid(g, b) && GameOk(g)
    requires HoldsOnly(g, a, p) && At(g, a).matchedBy == None
    requires SecondFlip(g, a, b, p).1 == Proceed && At(g, a).value != At(g, b).value
    ensures GameOk(SecondFlip(g, a, b, p).0)
  {
    var h := SecondFlip(g, a, b, p).0;
    var cb := At(g, b);
    assert CardOk(cb);
    assert cb.owner == None && cb.matchedBy == None;
    CardsOutside(g, h, {a, b});
    forall q ensures PlayerOk(h, q) && ConcealsOk(h, q) {
      if q != p {
        OthersOutside(g, h, {a, b}, q);
      } else {
        HeldOutside(g, h, {a, b}, p);
        HoldsNone(h, p);
      }
    }
  }

  // ----- flip and map -----

  /**
   * `flip` keeps the invariants: every card stays consistent, no player
   * ever holds more than one card except a pair they just matched, and no
   * card a player holds is marked pending them.
   */
  lemma FlipKeepsGame(rows: int, columns: int, g: Grid, p: Player, row: int, column: int)
    requires Shaped(rows, columns, g) && GameOk(g)
    ensures GameOk(FlipSpec(rows, columns, g, p, row, column).0)
  {
    if 0 <= row < rows && 0 <= column < columns {
      var pos := Pos(row, column);
      if exists a :: HoldsOnly(g, a, p) {
        var a :| HoldsOnly(g, a, p);
        RouteForms(g, p);
        FlipRouteSecond(rows, columns, g, p, row, column, a);
        SecondFlipKeepsGame(g, a, pos, p);
      } else {
        NotOneHeld(g, p);
        RouteForms(g, p);
        FlipRouteFirst(rows, columns, g, p, row, column);
        FinalizeKeepsGame(g, p);
        FinalizeFrees(g, p);
        FinalizeConceals(g, p);
        FirstFlipKeepsGame(FinalizeGrid(g, p), pos, p);
      }
    }
  }

  /** A player who does not hold exactly one card holds none or two different ones. */
  lemma NotOneHeld(g: Grid, p: Player)
    requires !exists a :: HoldsOnly(g, a, p)
    ensures (forall b :: !Held(g, b, p)) || exists a, b :: a != b && Held(g, a, p) && Held(g, b, p)
  {
    if exists a :: Held(g, a, p) {
      var a :| Held(g, a, p);
      assert !HoldsOnly(g, a, p);
      var b :| Held(g, b, p) && b != a;
    }
  }

  /** `Held` spelled out, as the routing lemmas state it. */
  lemma RouteForms(g: Grid, p: Player)
    ensures forall b :: InGrid(g, b) && ControlledBy(At(g, b), p) <==> Held(g, b, p)
  {
  }

  /** `map` keeps the invariants: it touches no state, owner or mark. */
  lemma MapKeepsGame(g: Grid, from: string, to: string)
    requires GameOk(g)
    ensures GameOk(MapGrid(g, from, to))
  {
    SameTurnState(g, MapGrid(g, from, to));
  }

  // ----- flips that always succeed -----

  /**
   * On a well-formed board, a player who holds no card, or a matched pair,
   * and flips a face-down card gets the view: the previous play is swept,
   * and the card is then face up and held by that player.
   */
  lemma FlipDownSucceeds(rows: int, columns: int, g: Grid, p: Player, row: int, column: int)
    requires RepOk(rows, columns, g) && CardsOk(g)
    requires 0 <= row < rows && 0 <= column < columns
    requires (forall b :: !Held(g, b, p)) || exists a, b :: a != b && Held(g, a, p) && Held(g, b, p)
    requires g[row][column].state == Down
    ensures var r := FlipSpec(rows, columns, g, p, row, column);
      && r.0 == SetCard(FinalizeGrid(g, p), Pos(row, column), Taken(g[row][column], p))
      && At(r.0, Pos(row, column)).state == Up && At(r.0, Pos(row, column)).owner == Some(p)
      && r.1 == Done(Render(rows, columns, r.0, p))
  {
    var pos := Pos(row, column);
    RouteForms(g, p);
    FlipRouteFirst(rows, columns, g, p, row, column);
    var f := FinalizeGrid(g, p);
    assert CardOk(g[row][column]);
    assert At(f, pos) == At(g, pos);
    assert FirstFlip(f, pos, p).1 == Proceed;
    FlipKeepsRep(rows, columns, g, p, row, column);
  }

  /**
   * On a well-formed board, a player who holds exactly one card and flips
   * a card that is face down, or face up and held by nobody, gets the view
   * of the board the second-card rules leave.
   */
  lemma SecondFlipSucceeds(rows: int, columns: int, g: Grid, p: Player, row: int, column: int, a: Pos)
    requires RepOk(rows, columns, g)
    requires 0 <= row < rows && 0 <= column < columns
    requires HoldsOnly(g, a, p)
    requires g[row][column].state == Down || (g[row][column].state == Up && g[row][column].owner == None)
    ensures var r := FlipSpec(rows, columns, g, p, row, column);
      && r.0 == SecondFlip(g, a, Pos(row, column), p).0
      && r.1 == Done(Render(rows, columns, r.0, p))
  {
    RouteForms(g, p);
    FlipRouteSecond(rows, columns, g, p, row, column, a);
    FlipKeepsRep(rows, columns, g, p, row, column);
  }
}
