# Memory Scramble game server: a verified model of its core

The server runs the card game Memory Scramble for several players over HTTP. A board is a grid of
`rows` x `columns` cards. Each card record holds:

- a `value`;
- a `state`: down, up or removed;
- an `owner`: the player who controls the card, or none;
- two marks, `matched_by` and `pending_conceal_by`;
- a `mask`, used by `map`.

A player plays with four operations:

- `look` renders the board as that player sees it;
- `flip` turns cards over, following the first-card and second-card rules;
- `map` substitutes card values in two phases;
- `watch` answers with the view.

A request scheduler serialises these operations through three FIFO queues.

This project models, in Dafny:

- `results.dfy` (`Results`): the option, result and pass/fail types that stand in for Ruby's nil and exceptions.
- `text.dfy` (`Text`): the Ruby string operations the core relies on. These are `\s`, `String#strip`, `Integer#to_s`, `String#to_i` on digits, `Array#join`, and reading a text back line by line.
- `board.dfy` (`BoardModel`): the board (`lib/board/board.rb`). It covers:
  - the card record and the grid;
  - the representation check `check_rep`;
  - parsing a board file given as its lines;
  - the constructor;
  - the debug printer `to_s`.

  `Board` is a class whose `cards` field the operations update in place.
- `board_utils.dfy` (`BoardUtils`): the helpers of the rules (`lib/board/board_utils.rb`). These are `check_bounds`, `controlled_cards` (a nested loop), and the card updates `relinquish`, `mark_matched` and `mark_mismatch`.
- `board_operations.dfy` (`BoardOperations`): the rules (`lib/board/board_operations.rb`).
  - `look` and `watch` are functions over the grid.
  - `flip`, `handle_first_flip`, `handle_second_flip`, `finalize_previous_play` and `map` are methods that update the board in place.
  - Each of these methods is proved against a specification function on grids (`FirstFlip`, `SecondFlip`, `FinalizeGrid`, `FlipSpec`, `MapGrid`). The lemmas about those functions state what the game promises.
- `request_queue.dfy` (`Requests`): the scheduler (`lib/controllers/request_queue.rb`).
  - `Step` is one iteration of the worker loop, as a transition on the queues `main`, `waiting` and `watching` plus the results handed back.
  - The outcome of the request's block is a parameter.
  - `RequestQueue` is a class with the same queues as fields.
- `game_invariants.dfy` (`GameInvariants`): the invariants the game keeps between requests, beyond `check_rep`.
  - Per card (`CardOk`): only a face-up card has an owner; a card marked `matched_by` a player is face up and held by that player; a face-down card carries neither mark.
  - Per player (`PlayerOk`): a player holds at most two cards, and two only as a pair they have just matched. Holding one card is the middle of a turn. Holding the matched pair is the normal state after a match; the next flip sweeps it away (`flip`'s `else` branch for two controlled cards, `lib/board/board_operations.rb:58-60`).
  - Per player, on pending marks (`ConcealsOk`): while a player holds a card, every card marked `pending_conceal_by` that player is removed or held by someone else. The player's own release and mismatch leave them holding nothing, and their sweep before the next first flip turns the cards they released back down. So no card ever carries both of a player's marks, and on every reachable board a second sweep in a row changes nothing.
  - A parsed board satisfies all three, and `flip` and `map` keep them. On such a board, a flip onto a free card always answers with the view.
- `early_board_operations.dfy` (`EarlyBoardOperations`): the earlier iteration of the rules (`lib/board_operations.rb`).
  - Its `look` is built card by card in nested loops and proved equal to the later rendering.
  - Its `flip` indexes the grid the way Ruby does: negative indices count from the end, and an index out of range gives nil.

Two points where the model follows the code rather than the comments:

- A `0x0` header is refused by `each_slice(0)`, which raises before `check_rep` runs. `LayOut` therefore refuses zero columns with `InvalidSliceSize` (see `ZeroByZeroRefused`).
- `check_rep` runs at the end of `look`, after the text is built. A board whose values were broken (see Findings) makes every later `look`, `watch` and `flip` fail, so `Look` returns a `Result`.

## Model

| member | source | states |
|---|---|---|
| BoardModel.CheckRows | lib/board/board.rb:45-55 | the row loop passes exactly when every row has `columns` cards whose values are non-empty and free of whitespace; otherwise it names a column-count or a value violation |
| BoardModel.CheckRep | lib/board/board.rb:41-56 | `check_rep` passes if and only if the representation invariant holds (positive dimensions, `rows` rows of `columns` cards, valid values); the dimension errors come first, in the source's order: rows, then columns, then the row count |
| BoardModel.CheckRowsFirstBad | lib/board/board.rb:45-55 | the rows are checked in order: the error is that of the first unsound row, and within it a wrong column count is reported before a bad value |
| BoardModel.CheckRepFirstBad | lib/board/board.rb:41-56 | with good dimensions, `check_rep` reports the first unsound row's error: its column count if wrong, otherwise its bad value |
| BoardModel.ParseHeader | lib/board/board.rb:73-76 | the header is accepted exactly when it is digits, an `x`, digits (`^(\d+)x(\d+)$`) |
| BoardModel.KeptLines | lib/board/board.rb:66-68 | the kept lines are stripped and non-empty (no line starts or ends with whitespace), and there are no more of them than lines in the file |
| BoardModel.KeptNoneIffBlank | lib/board/board.rb:66-69 | no line is kept exactly when every line of the file is blank once stripped, which is when parsing reports an empty file |
| BoardModel.HeaderRoundTrip | lib/board/board.rb:73-76 | the header `RxC` that boards and views print reads back as the dimensions R and C |
| BoardModel.FlattenSlices | lib/board/board.rb:79 | `each_slice(columns)` keeps every value line, in order |
| BoardModel.SlicesLength | lib/board/board.rb:79 | slicing rows * columns lines by `columns` gives `rows` slices of exactly `columns` |
| BoardModel.LayOut | lib/board/board.rb:77-90 | the card count is wrong exactly when there are not rows * columns value lines; with the right count, zero columns is refused by the slicing; a success has the header's dimensions and satisfies the invariant; it never reports an empty file or a bad header |
| BoardModel.LaidOut | lib/board/board.rb:77-90 | a successful layout has the parsed dimensions, satisfies the invariant, its values read row-major are exactly the value lines, and every card starts down, unowned, unmarked, with mask equal to value |
| BoardModel.LaidOutAt | lib/board/board.rb:79-88 | card (i, j) holds value line i * columns + j |
| BoardModel.ParseLines | lib/board/board.rb:65-90 | an empty file is reported exactly when every line is blank; a bad header exactly when the first kept line does not spell `RxC`; a success has the dimensions the header spells and satisfies the invariant |
| BoardModel.ParsedBoard | lib/board/board.rb:65-90 | a parsed board satisfies `check_rep`, has the header's dimensions, holds the value lines row-major, and every card starts fresh |
| BoardModel.NewGridValid | lib/board/board.rb:79-90 | rows * columns non-empty, whitespace-free lines always give a board that satisfies the invariant |
| BoardModel.NewGridInvalid | lib/board/board.rb:50 | one value line holding whitespace makes the board fail the invariant, whatever the row count |
| BoardModel.LayOutAccepts | lib/board/board.rb:77-90 | laying out succeeds if and only if rows > 0, columns > 0, there are rows * columns lines and none holds whitespace |
| BoardModel.ParseAccepts | lib/board/board.rb:66-90 | parsing succeeds if and only if some line is not blank, the first kept line spells the dimensions, exactly rows * columns kept lines follow, none holds whitespace, and both dimensions are positive |
| BoardModel.ZeroByZeroRefused | lib/board/board.rb:77-79 | the file `0x0` is refused (the zero-column slicing raises) |
| BoardModel.DebugTextReadsBack | lib/board/board.rb:97-101 | on a well-formed board, `to_s` reads back as the header and one line per row, and each row line splits at its spaces into exactly that row's values |
| BoardModel.Board.New | lib/board/board.rb:30-35 | the constructor fails exactly when `check_rep` fails, with its error; otherwise it yields a fresh board holding the given fields |
| BoardModel.Board.ParseFromLines | lib/board/board.rb:65-91 | parsing a list of lines yields the board of `ParseLines`, or its error |
| BoardModel.Board.ToS | lib/board/board.rb:97-101 | the loop appending one line per row produces the header followed by each row's values joined by single spaces |
| BoardUtils.CheckBounds | lib/board/board_utils.rb:85-88 | passes if and only if 0 <= row < rows and 0 <= column < columns; a bad row is reported before a bad column |
| BoardUtils.ControlledInRowSound | lib/board/board_utils.rb:70-73 | the entries collected from a row are cards of that row that the player controls, with their true positions, left to right |
| BoardUtils.ControlledUpToSound | lib/board/board_utils.rb:69-74 | the entries collected from the first rows are cards the player controls (face up and owned by them), with their true positions, in strictly increasing row-major order |
| BoardUtils.ControlledOf | lib/board/board_utils.rb:67-76 | what `controlled_cards` returns lists only cards the player controls, at their true positions, each once, row-major |
| BoardUtils.ControlledOfComplete | lib/board/board_utils.rb:67-76 | every card the player controls appears in `controlled_cards` with its row and column; with the soundness and order above, the list holds exactly those cards, each once |
| BoardUtils.ControlledCards | lib/board/board_utils.rb:67-76 | the nested loop returns exactly `ControlledOf`: the controlled cards, row-major |
| BoardUtils.RelinquishGrid | lib/board/board_utils.rb:52-55 | the card loses its owner and gets `pending_conceal_by` = player; no other field or card changes |
| BoardUtils.MatchGrid | lib/board/board_utils.rb:28-32 | both cards get `matched_by` = player, keeping owner and state; nothing else changes |
| BoardUtils.MismatchGrid | lib/board/board_utils.rb:40-45 | both cards lose their owner and get `pending_conceal_by` = player; nothing else changes |
| BoardUtils.Relinquish | lib/board/board_utils.rb:52-55 | updates the board in place to `RelinquishGrid` |
| BoardUtils.MarkMatched | lib/board/board_utils.rb:28-32 | updates the board in place to `MatchGrid` |
| BoardUtils.MarkMismatch | lib/board/board_utils.rb:40-45 | updates the board in place to `MismatchGrid` |
| BoardOperations.Look | lib/board/board_operations.rb:11-32 | `look` answers with the rendered view exactly when the board satisfies `check_rep`, and otherwise with `check_rep`'s error; it changes nothing |
| BoardOperations.Watch | lib/board/board_operations.rb:101-103 | `watch` answers exactly as `look` does |
| BoardOperations.CellLine | lib/board/board_operations.rb:17-28 | the line printed for one card reads back as exactly what the viewer sees of it (removed, their own with its value, face down, or face up with its value), and is a single line when the value is valid |
| BoardOperations.Render | lib/board/board_operations.rb:11-29 | on a well-formed board the text reads back line by line as the header followed by one line per card, row-major |
| BoardOperations.LookShape | lib/board/board_operations.rb:16-29 | the view of a well-formed board reads back as the header `RxC` followed by one line per card, rows * columns + 1 lines in all |
| BoardOperations.LookCellAt | lib/board/board_operations.rb:17-28 | line 1 + i * columns + j of the view is the line of card (i, j): `none` if removed, else `my v` if the viewer owns it, else `down` if face down, else `up v` |
| BoardOperations.ViewReadsBack | lib/board/board_operations.rb:11-32 | a client parsing the view recovers the dimensions and, row-major, what the viewer sees of every card |
| BoardOperations.LookHidesConcealed | lib/board/board_operations.rb:19-27 | two boards that differ only in values the viewer may not see (face down and not theirs, or removed) render identically for that viewer |
| BoardOperations.FirstFlip | lib/board/board_operations.rb:119-138 | a removed target is refused; a face-up target owned by another player makes the flip wait and changes nothing; otherwise the target ends face up and owned by the player, and only it changes |
| BoardOperations.SecondFlip | lib/board/board_operations.rb:151-177 | a removed target, or one face up and owned by anyone, is refused after relinquishing the first card; the flip goes on exactly when the target is neither removed nor held, and then the target is taken and the two cards are matched (equal values: both keep owner and get `matched_by`) or released (unequal: no owner, `pending_conceal_by` = player); no other card changes |
| BoardOperations.FinalizeCard | lib/board/board_operations.rb:185-198 | only the first rule that applies is taken: a card the player matched becomes removed and unowned with `matched_by` cleared, and nothing else of it changes; otherwise a card they released that is face up and unowned is turned down with `pending_conceal_by` cleared; otherwise a removed card they released only loses `pending_conceal_by`; every other card (no mark of the player, face down, or held by someone) is unchanged; value and mask never change |
| BoardOperations.FinalizeIdempotent | lib/board/board_operations.rb:185-198 | sweeping a card twice equals sweeping it once if and only if it does not carry both of the player's marks |
| BoardOperations.FinalizeGridIdempotent | lib/board/board_operations.rb:185-198 | on a board where no card carries both of the player's marks, a second sweep changes nothing; `GameOkSweepIdempotent` shows every reachable board is such a board |
| BoardOperations.FinalizeGrid | lib/board/board_operations.rb:185-198 | the sweep treats every card in its place by `FinalizeCard`; the board keeps its shape, values and masks, no card stays marked matched by the player, every card they matched is removed and freed, and every card they released that nobody took is face down with its pending mark cleared |
| BoardOperations.FlipRules | lib/board/board_operations.rb:45-61 | the flip rules keep the board's shape |
| BoardOperations.FlipRouteSecond | lib/board/board_operations.rb:50-57 | a player who controls exactly one card plays the second-card rules with that card as the first card, and the board is not swept |
| BoardOperations.FlipRouteFirst | lib/board/board_operations.rb:50-61 | a player who controls no card, or two different cards (the matched pair they hold after a match), plays the first-card rules on the board swept of their previous play |
| BoardOperations.Conclude | lib/board/board_operations.rb:63-64 | after the rules, a view is given only when the rules went on and the board passes `check_rep`, and it is the rendering for the player; a wait answers with the target and the owner named by the rules; a refusal becomes that game error; a failed check reports its error; when the rules went on, a board that passes `check_rep` gives exactly its rendering and one that fails gives a broken-invariant failure |
| BoardOperations.FlipSpec | lib/board/board_operations.rb:45-65 | `flip` keeps the board's shape; it answers with a view only for a well-formed board, and then with that board's rendering; a wait names the target and a player other than the flipper; a failed closing check reports `check_rep`'s error; an out-of-range flip changes nothing and fails with a game error |
| BoardOperations.FlipOutOfBounds | lib/board/board_operations.rb:45-46 | an out-of-range flip fails with the row error (or, for a good row, the column error) and leaves the board unchanged |
| BoardOperations.FlipWaitKeepsSweep | lib/board/board_operations.rb:52-60 | a flip that has to wait is a first flip; the sweep of the player's previous play stays done, and the target is face up and held by the named other player |
| BoardOperations.FlipSecondRefused | lib/board/board_operations.rb:151-164 | with one controlled card, a removed or already held target fails the flip, and the first card stays relinquished |
| BoardOperations.FirstFlipKeepsValues | lib/board/board_operations.rb:119-138 | a first flip keeps every value and mask |
| BoardOperations.SecondFlipKeepsValues | lib/board/board_operations.rb:151-177 | a second flip keeps every value and mask |
| BoardOperations.FlipKeepsValues | lib/board/board_operations.rb:45-61 | no flip outcome changes a card's value or mask or the board's shape |
| BoardOperations.FlipKeepsRep | lib/board/board_operations.rb:63-64 | a flip keeps the invariant exactly when it held before; on a well-formed board the closing check never fails, and on a broken one no flip answers with a view |
| BoardOperations.FlipKeepsMasks | lib/board/board_operations.rb:45-65 | a flip keeps every mask equal to its value exactly when that held before |
| BoardOperations.MapSubstitutes | lib/board/board_operations.rb:77-88 | when every mask equals its value, after `map` each card that showed `from` has value and mask `to`, and every other card is exactly as before (state, owner and marks included) |
| BoardOperations.MapGrid | lib/board/board_operations.rb:77-88 | after both phases the board keeps its shape, a card that showed `from_card` shows `to_card`, any other card shows its staged mask, every mask equals its value, and no state, owner or mark changes |
| BoardOperations.MapIdempotent | lib/board/board_operations.rb:77-88 | repeating the same `map` changes nothing more |
| BoardOperations.MapBreaksRep | lib/board/board_operations.rb:77-90 | as written, a `to_card` that is empty or holds whitespace, put on any card showing `from_card`, makes the board fail `check_rep` |
| BoardOperations.MapBreaksOneByOne | lib/board/board_operations.rb:77-90 | the 1x1 board `A`, mapped from `A` to `B C`, passes `check_rep` before and fails it after |
| BoardOperations.MapCheckedKeepsRep | lib/board/board_operations.rb:77-90 | the corrected `map` succeeds exactly for a valid `to_card`, and then keeps the board well-formed with masks equal to values |
| BoardOperations.UpdateEachCard | lib/board/board_operations.rb:187-197 | the in-place sweep over every card applies the per-card update to each card in its place |
| BoardOperations.FinalizePreviousPlay | lib/board/board_operations.rb:185-198 | updates the board in place to `FinalizeGrid`: every card is swept in its place by the rules of `FinalizeCard` |
| BoardOperations.HandleFirstFlip | lib/board/board_operations.rb:119-138 | updates the board in place and answers as `FirstFlip` |
| BoardOperations.HandleSecondFlip | lib/board/board_operations.rb:151-177 | updates the board in place and answers as `SecondFlip` |
| BoardOperations.Flip | lib/board/board_operations.rb:45-65 | checks bounds, counts the controlled cards, runs the second-flip rules for exactly one controlled card and the sweep plus first-flip rules otherwise, then checks and renders; the board and answer are those of `FlipSpec`, and the board keeps its shape |
| BoardOperations.Map | lib/board/board_operations.rb:77-92 | stages the masks, commits them, and answers with `look`; the board becomes `MapGrid` |
| Requests.PendingAfterStep | lib/controllers/request_queue.rb:87-123 | after a step the queued requests are the same multiset, less the head unless it was parked |
| Requests.FilledAfterStep | lib/controllers/request_queue.rb:92-102 | a step adds the head's result (its output or its error) unless the head was parked, in which case no result is given |
| Requests.Drain | lib/controllers/request_queue.rb:119-123 | draining the watchers loses and duplicates no request, empties `watching`, and touches neither `waiting` nor the results |
| Requests.AdmitOne | lib/controllers/request_queue.rb:113-116 | re-admitting loses and duplicates no request; when `waiting` is not empty its head joins the tail of `main` and leaves `waiting`; `watching` and the results are untouched |
| Requests.Step | lib/controllers/request_queue.rb:87-105 | `main` is served first in, first out: whatever the outcome, what stood behind the head is now at the front of `main`, in order |
| Requests.StepConserves | lib/controllers/request_queue.rb:87-123 | a step never duplicates or drops a request: the head gets exactly one result or moves to `waiting`, all else stays queued once, earlier results are kept |
| Requests.StepReturned | lib/controllers/request_queue.rb:92-96 | on success the output is the result; after a flip or map all watchers join `main` in order and `watching` empties; after a flip only, the head of `waiting` (if any) follows; a look or watch moves nothing else |
| Requests.StepWaits | lib/controllers/request_queue.rb:97-99 | a request that must wait for a card is appended to `waiting`; no result is given and nothing else moves |
| Requests.StepRaised | lib/controllers/request_queue.rb:100-102 | any other error becomes the result, all watchers join `main`, and `waiting` is untouched |
| Requests.ServedInTurn | lib/controllers/request_queue.rb:88-110 | whatever the outcomes before it, the request at position k of `main` is at the head after exactly k steps |
| Requests.StepKeepsIds | lib/controllers/request_queue.rb:87-123 | a step hands out no new request, so every queued or served request keeps an id below the next one to be handed out |
| Requests.RequestQueue.constructor | lib/controllers/request_queue.rb:23-28 | the three queues start empty |
| Requests.RequestQueue.EnqueueLook | lib/controllers/request_queue.rb:46-50 | a look request with a fresh id (no queued or served request has it) joins the tail of `main`; the id counter advances by one; nothing else changes, and every id stays below the counter |
| Requests.RequestQueue.EnqueueFlip | lib/controllers/request_queue.rb:56-60 | a flip request with a fresh id (no queued or served request has it) joins the tail of `main`; the id counter advances by one; nothing else changes, and every id stays below the counter |
| Requests.RequestQueue.EnqueueMap | lib/controllers/request_queue.rb:66-70 | a map request with a fresh id (no queued or served request has it) joins the tail of `main`; the id counter advances by one; nothing else changes, and every id stays below the counter |
| Requests.RequestQueue.EnqueueWatch | lib/controllers/request_queue.rb:76-80 | a watch request with a fresh id joins `watching`, not `main`; the id counter advances by one; nothing else changes, and every id stays below the counter |
| Requests.RequestQueue.NextRequest | lib/controllers/request_queue.rb:108-110 | takes and returns the head of `main`; nothing else changes, the id counter included |
| Requests.RequestQueue.UpdateAllWatchers | lib/controllers/request_queue.rb:119-123 | the loop moves every watcher, in order, to the tail of `main` and empties `watching`; the id counter is unchanged |
| Requests.RequestQueue.PopOneWaitingRequest | lib/controllers/request_queue.rb:113-116 | moves the head of `waiting` to the tail of `main`, or does nothing when `waiting` is empty; the id counter is unchanged |
| Requests.RequestQueue.ProcessRequest | lib/controllers/request_queue.rb:87-105 | one worker iteration leaves the queues in the state `Step` gives, hands out no id, and keeps every id below the counter |
| GameInvariants.FreshBoardOk | lib/board/board.rb:80-88 | a board of cards that are all face down, unowned and unmarked satisfies the card, player and pending-mark invariants, and its masks equal its values |
| GameInvariants.ParsedGameOk | lib/board/board.rb:65-90 | a parsed board satisfies the card, player and pending-mark invariants, and its masks equal its values |
| GameInvariants.FinalizeHeld | lib/board/board_operations.rb:185-198 | after the sweep the player holds only cards they held before and had not matched, unchanged |
| GameInvariants.FinalizeKeepsGame | lib/board/board_operations.rb:185-198 | the sweep keeps the card, player and pending-mark invariants |
| GameInvariants.FinalizeFrees | lib/board/board_operations.rb:50-61 | a player who held no card, or two, holds none after the sweep: two held cards are a matched pair, and the sweep removes them |
| GameInvariants.FinalizeConceals | lib/board/board_operations.rb:185-198 | after the sweep of a player who held no card or a pair, every card marked pending them is removed or held by another player |
| GameInvariants.GameOkSweepIdempotent | lib/board/board_operations.rb:185-198 | on every board satisfying the invariants (so every board the game reaches), sweeping twice in a row equals sweeping once |
| GameInvariants.FirstFlipKeepsGame | lib/board/board_operations.rb:119-138 | a first flip by a player holding nothing, on a board just swept for them, keeps the invariants, leaving them holding at most the target |
| GameInvariants.SecondFlipKeepsGame | lib/board/board_operations.rb:151-177 | a second flip by a player holding exactly one card keeps the invariants, whether it is refused, matches or mismatches |
| GameInvariants.SecondFlipMatches | lib/board/board_operations.rb:166-172 | after a match the player holds exactly the matched pair, both marked `matched_by` them, and the invariants hold |
| GameInvariants.MatchConceals | lib/board/board_operations.rb:166-172 | after a match, every card marked pending the matcher is removed or held by another player |
| GameInvariants.SecondFlipMismatches | lib/board/board_operations.rb:166-176 | after a mismatch the player holds nothing and the invariants hold |
| GameInvariants.FlipKeepsGame | lib/board/board_operations.rb:45-65 | every `flip` keeps the card invariant, the player invariant (at most two cards held, two only as a matched pair) and the pending-mark invariant |
| GameInvariants.MapKeepsGame | lib/board/board_operations.rb:77-88 | `map` keeps the card, player and pending-mark invariants |
| GameInvariants.FlipDownSucceeds | lib/board/board_operations.rb:45-65 | on a well-formed board with consistent cards, a player holding no card or a pair who flips a face-down card gets the view: the previous play is swept and the card is then face up and held by them |
| GameInvariants.SecondFlipSucceeds | lib/board/board_operations.rb:45-65 | on a well-formed board, a player holding exactly one card who flips a card that is face down, or face up and unheld, gets the view of the board the second-card rules leave |
| EarlyBoardOperations.Look | lib/board_operations.rb:2-26 | the card-by-card loops build exactly the view of the later `look`: header, then `none` / `my v` / `down` / `up v` per card, row-major |
| EarlyBoardOperations.RubyIndex | lib/board_operations.rb:31 | an index selects an element exactly when -n <= i < n, counting from the end when negative |
| EarlyBoardOperations.EarlyFlipGrid | lib/board_operations.rb:28-41 | the earlier `flip` fails exactly when an index selects nil; otherwise only the target may change, and it is turned up for the player exactly when it was face down and unowned |
| EarlyBoardOperations.Flip | lib/board_operations.rb:28-41 | updates the board as `EarlyFlipGrid` and answers with `look` for the same player, or fails leaving the board unchanged |
| EarlyBoardOperations.Map | lib/board_operations.rb:43-45 | always fails as not implemented |
| EarlyBoardOperations.Watch | lib/board_operations.rb:47-49 | always fails as not implemented |

## Left out

- Threads, the blocking `Queue#pop`, and the worker-alive part of `RequestQueue#check_rep` are not modelled. The model takes one worker iteration, with the block's outcome as a parameter. `enqueue_*` returns a request label instead of blocking until its result arrives.
- `map` hands its commit to `board.queue.enqueue_look` and blocks on it. The model applies the commit directly, in the same place.
- `File.readlines` is not modelled: parsing takes the file's lines, each without its line feed.
- Ruby type checks in `check_rep` (integer dimensions, hash cards, present keys, state strings) are not modelled. The types `Card` and `CardState` enforce them.
- The nil half of `removed?`, and the nil check at `lib/board/board_operations.rb:48`, are not modelled. A position inside the bounds of a well-shaped grid always holds a card.
- Exception classes and message strings are not modelled. They become result variants (`GameError`, `RepError`, `ParseError`, `Verdict`, `FlipResult`). The `WaitForCard` card key string is reduced to the row, column and owner.
- `flip` runs `check_rep` twice: once itself, then again inside `look`. Both give the same answer on the same board, so the model runs it once.
- `main.rb` (HTTP routing), the loggers, `simulation.rb`, `lib/commands.rb`, `lib/board.rb` and `lib/request_queue.rb` are not part of this model.
- Player ids and card values are strings. The tests' integer values and ids, and their mock board, are not modelled.
- `Board.rows` and `Board.columns` are constants: no operation of the core assigns them.
- BoardModel.KeptLines: its contract states that kept lines are stripped, non-empty and no more numerous than the input, and `KeptNoneIffBlank` says when none is kept. That every non-blank line is kept, in order, is its body, and `ParseAccepts` is stated in terms of it.
- Text.Strip: its contract states only that the result is no longer than the input and starts and ends with a non-strippable character. That the result is the middle part of the input is in its body.

## Findings

| source | as written | input that shows it | evidently intended | confidence | as-written member | corrected member |
|---|---|---|---|---|---|---|
| lib/board/board_operations.rb:77-92 | `map` commits `to_card` into every matching card's value without checking it. Only then does `check_rep` raise, so the broken value stays. Flips never change values, so every later `look`, `watch` and `flip` fails until another `map` replaces it. | a 1x1 board `A`; `map(board, p, "A", "B C")` | refuse a `to_card` that is not a valid card value and leave the board unchanged | medium; not executed | BoardOperations.MapBreaksOneByOne | BoardOperations.MapCheckedKeepsRep |
