# A verified model of the GNU Backgammon engine

This project models, in Dafny, the parts of GNU Backgammon (`gnubg/`) whose
correctness is least obvious from the code, and proves what they promise:

* **The legal-play generator** (`eval.c`): a depth-first search over a board that is
  changed in place, with the bar-first and bear-off rules, a source-order cut for
  doubles, and a list that throws away what a longer play outdoes. `Plays` states the
  rules of backgammon without any search; `LegalPlays.GenerateMoves` is proved to list
  exactly the positions those rules allow, each once, with a move that replays to it,
  and never to fill its buffer.
* **The batched cubeful search** (`eval.c`): one walk of the board tree evaluates a
  vector of cube states that doubles in length at each ply, unavailable slots holding
  junk. `Cubeful.Value` is the one-state-at-a-time recursion it refines; `DoublingRules`
  and `RollAverages` say what that recursion means in terms of the rules of the cube and
  of the 36 rolls.
* **The move printer and parser** (`drawboard.c`): chains joined and folded in a flat
  16-cell array, text scanned with a set of marks. Showing a legal play, reading the
  text back and applying it reaches the play's board, in at most 28 characters.
* **The n-ply chequer search** (`eval.c`): filtering, sorting and the late promotion of
  the move asked about; the streaming choice of pruning candidates.
* **Evaluation algebra** (`eval.c`): finished games, averaging over rolls to any depth,
  equity as an expectation, Janowski's live-cube equities, and the sanity check, whose
  certain wins and losses are proved of the game itself, over every line of play.
* **The heuristic bear-off player and its table** (`bearoff.c`), **match statistics**
  (`analysis.c`) and **dice from bits and words** (`dice.c`).

Code that changes boards, arrays, lists and records step by step is modelled by methods
over arrays and classes, each proved against a specification; the theorems are about
those specifications. A board is two arrays of chequers, `us` (the mover) and `them`, each
numbered from its owner's side, so the mover's point p is the opponent's 23 - p.
Real numbers stand for floats.

## Where the code does not do what one might expect

* `GetECF3` asks slot 0 of its vector whether this is a match, for every slot
  (`gnubg/eval.c:4588-4591`). When slot 0 is unavailable its match length is junk, and a
  money position can be valued with the wrong scale: `Cubeful.JunkInSlotZeroLeaks` gives
  the vector, `Cubeful.ScaleFromSlotZero` says exactly when the answer is right. Every
  vector the search itself builds has slot 0 available (`Cubeful.BatchExpands`).
* `gnubg/eval.h:76-78` says an accepted count of 0 switches a filter level off; the code
  skips a level only if the count is negative (`gnubg/eval.c:5779`). A level in use keeps a
  move of every list exactly if it accepts one, or has an extra move and a threshold of at
  least 0 (`Search.KeepsSomeExactly`); with neither it drops every move
  (`Search.ZeroDropsAll`). Without a move asked about this does no harm. With one, the
  shift at `gnubg/eval.c:5873` counts down in unsigned arithmetic and leaves the list
  unless a candidate is left (`Search.ShiftEndsExactly`), which is so exactly if every
  level that was read keeps a move (`Search.RunKeepsSome`). The predefined filters do
  (`Search.PredefinedKeep`).
* A search that stops early because a filter left one move, and then scores the move asked
  about as deep, inserts that move at index 1 although other moves of the same depth
  follow. The moves of the greatest depth are in order exactly if this did not happen or
  the inserted move is no worse than the second best (`Search.FoundIsOrdered`);
  `Search.SearchDisorders` is a search that ends out of order. It cannot happen if no
  level with an accepted count of 0 follows another level in use
  (`Search.OrderFromFilters`), which covers filters that accept at least one move at every
  level and the predefined filters for one and two plies. The first move is the best of
  its depth in every case.
* `ParseMove` steps over the end of a text that stops inside a repeat count, such as
  "8/7(2", and a repeat count whose 32-bit product wraps round passes the size check at
  `gnubg/drawboard.c:831-835`: it then writes more points than `anUser` holds
  (`RepeatCounts.UnclosedCountRunsOver`, `LargeCountRunsOver`, `LeastCountRunsOver`).
  `RepeatCounts.OverrunExactly` says on which texts this happens;
  `RepeatCounts.SmallCountsStay` gives a condition on the repeat counts alone that rules
  it out.
* If both players have borne off all their chequers, which no game reaches, `EvalOver`
  tells each of them that they lost (`Evaluation.OverIsFair`).
* `FindBestCubeDecision` names a course other than the optimal one it reports when the
  double would be beavered at a loss, when the player cannot win, or when the gammon to
  play on for cannot be won (`CubeDecision.NamesAnother`).
* The chequer-play error of a game is what its moves lost against the first move of their
  lists. A list sorted after a rollout may start with a rolled-out move that is worse than
  one only evaluated (`gnubg/eval.c:4409-4417`), and the error can then be negative: it is
  not exactly if the moves gained nothing in all (`Statistics.CheckerplayIsLoss`, with an
  example in `Statistics.GainIsNegativeError`).
* The test for the post-Crawford game in `GetDPEq` (`gnubg/eval.c:3599`) never decides: a
  player one point from winning has a dead cube anyway (`DoublingRules.MayDoubleIsRule`).
* The sanity check takes a gammon to be impossible when the opponent has two turns for
  every crossing to a first chequer off (`gnubg/eval.c:1722-1724`). They need not be
  enough: with fours and fives none of the chequers stacked on the six point comes off
  (`RaceTurns.StackStays`), and in `RaceTurns.ImpossibleGammonIsWon` a gammon called
  impossible is won by legal plays.
* `HeuristicBearoff` may bear off its last chequer with one die where the rules oblige the
  player to use both; the position reached is the same (`Bearoff.BothDiceInstead`).
* `UpdateVariance` is right only if every added game passes the guard in
  `AddStatcontext`; the zero-sum invariant makes the guard true
  (`Statistics.AddingKeepsSound`).

## Model

| member | source | states |
|---|---|---|
| Boards.ApplySubMove | gnubg/eval.c:2626-2662 | the board and result after a sub-move, on every argument: rejected dice and sources change nothing, a made point is noticed after the source was lifted |
| Boards.SubMoveAccepted | gnubg/eval.c:2626-2662 | a sub-move is refused exactly if the die, the source or the point landed on is no good, and what is left behind in each case |
| Boards.StepApplies | gnubg/eval.c:2626-2662 | a legal sub-move is applied without error, with or without the die check, and a chequer borne off may be recorded as "to -1" |
| Boards.StepConserves | gnubg/eval.c:2626-2662 | no point becomes shared, the opponent keeps all chequers, the mover loses one exactly on a bear-off, the mover's pips fall by the die or by what the source had left, and a hit adds iDest + 1 opponent pips |
| Boards.RunConserves | gnubg/eval.c:2626-2662 | the same over every run of legal sub-moves, summed up |
| Boards.ApplyMove | gnubg/eval.c:2664-2674 | plays the recorded pairs in order up to the first negative source and stops at the first failure |
| Boards.LegalMove | gnubg/eval.c:2748-2765 | answers exactly the rule: an open point, or a bear-off with everyone home and either the exact number or nobody behind |
| Boards.PipCount | gnubg/eval.c:3012-3025 | both players' pip counts |
| Plays.SwapSteps | gnubg/eval.c:2767-2817 | two sub-moves with one die, the lower source first, are legal the other way round and reach the same board |
| Plays.PlayFromTheBack | gnubg/eval.c:2767-2817 | any legal sequence of same-die sub-moves, bar entries and bear-offs included, is legal in descending order of source and reaches the same board |
| Plays.MeasuresAgree | gnubg/eval.c:2676-2708 | "more dice, then more pips" is the same order as "more pips" alone, so the two running maxima never disagree |
| MoveGenerator.StoredMoveReplays | gnubg/eval.c:2664-2746 | a stored move applied with ApplyMove reaches the position it is stored under |
| MoveGenerator.SaveKeepsInv | gnubg/eval.c:2676-2746 | after each save the list holds one entry for each position of a kept play and nothing else, and its maxima are those of all plays saved |
| MoveGenerator.DistinctKeysFit | gnubg/eval.c:2676-2746 | a list with distinct positions taken from a set is no longer than the set |
| MoveGenerator.MoveList.SaveMoves | gnubg/eval.c:2676-2746 | one save has exactly the effect described: ignore, restart, replace or append, and the buffer has room |
| MoveGenerator.SavesThrough | gnubg/eval.c:2767-2817 | the plays saved below a node through one source are the plays below the child, and the node itself if nothing can follow |
| MoveGenerator.GenerateMovesSub | gnubg/eval.c:2767-2817 | hands to the list exactly the plays the search visits below the node, and reports whether there were none |
| Counting.FewEndsOf | gnubg/eval.h:64-74 | with at most fifteen chequers, plays of one length reach at most 3060 positions |
| Counting.FewEnds | gnubg/eval.h:64-74 | with at most fifteen chequers, plays of any length together reach at most 3874 positions |
| Counting.FewEndsDouble | gnubg/eval.h:64-74 | a double's plays of k sub-moves reach at most as many positions as there are multisets of k chequers |
| Counting.FifteenPointsCollide | gnubg/eval.h:64-74 | fifteen chequers on fifteen points cannot all move without one bearing off or meeting another, which saves the last position |
| LegalPlays.PlayIsVisited | gnubg/eval.c:2767-2817 | the search visits every play of two different dice and every double played from the back |
| LegalPlays.PlayIsSaved | gnubg/eval.c:2767-2817 | every play that cannot go on has a saved play of the same length and pips reaching the same board |
| LegalPlays.CompletePlayExists | gnubg/eval.c:2676-2708 | every play is matched or outdone by one the rules accept |
| LegalPlays.ListIsExact | gnubg/eval.c:2676-2899 | the list holds exactly the positions of plays using most dice and, of those, most pips |
| LegalPlays.PartialListIsExact | gnubg/eval.c:2676-2899 | with partial moves kept, it holds exactly the positions some play reaches |
| LegalPlays.ThereIsRoom | gnubg/eval.h:64-74 | the list never reaches MAX_INCOMPLETE_MOVES |
| LegalPlays.CompleteListFits | gnubg/eval.h:64-74 | a complete list never exceeds MAX_MOVES |
| LegalPlays.GenerateMoves | gnubg/eval.c:2878-2899 | for every board and roll: exactly the legal end positions, each once, each with a longest move that replays to it, at most MAX_MOVES of them |
| Cubeful.MakeCubePos | gnubg/eval.c:4628-4677 | slots 2k and 2k + 1 hold the undoubled and the doubled state of slot k, or -1 where there is none |
| Cubeful.GetECF3 | gnubg/eval.c:4573-4625 | combines each pair of slots with the scale slot 0 asks for |
| Cubeful.PairsGiveValues | gnubg/eval.c:4573-4677 | the combined pairs are the values of the original states |
| Cubeful.BatchExpands | gnubg/eval.c:4628-4677 | the vector passed down again starts with an available slot and belongs to the same match |
| Cubeful.EvaluatePositionCubeful4 | gnubg/eval.c:5985-6292 | at every ply each available state gets the value of the one-state recursion, whatever the unavailable slots hold, and the cubeless outputs those of the plain average |
| Cubeful.ScaleFromSlotZero | gnubg/eval.c:4573-4625 | the answer for a state is right whatever the equities if and only if the state cannot double or slot 0 agrees with it on whether a match is played |
| Cubeful.JunkInSlotZeroLeaks | gnubg/eval.c:4573-4625 | run on two vectors that differ only in the match length of an unavailable slot 0, with the same equities, it gives an available slot the values 0.5 and 0.25 |
| Cubeful.ValueIsTheRootChoice | gnubg/eval.c:5985-6292 | a state's value below the root is the choice between its two values at the root |
| Cubeful.GeneralCubeDecisionE | gnubg/eval.c:5891-5934 | the equities of no double and of double, take |
| DoublingRules.MayDoubleIsRule | gnubg/eval.c:3562-3613 | the player may double if and only if the opponent does not own the cube and, in a match, it is not the Crawford game and a win at the present cube would not win the match |
| DoublingRules.MayDoubleAtStart | gnubg/eval.c:3562-3613 | a centred cube may be turned for money and at the start of a match, not by a player one point from winning |
| DoublingRules.RecubeKeepsGame | gnubg/eval.c:4628-4677 | turning or passing on the cube leaves the match, the score and the rules of the game alone |
| DoublingRules.NotTwice | gnubg/eval.c:3562-3613 | nobody doubles twice in a row |
| DoublingRules.TakerMayRedouble | gnubg/eval.c:3562-3613 | the taker may redouble exactly while a win at the doubled cube would not win the match |
| DoublingRules.WholeMatchIsDead | gnubg/eval.c:3597-3600 | nobody may turn a cube worth the whole match |
| DoublingRules.TurnsEnd | gnubg/eval.c:3597-3600 | however often the players turn the cube, the last turn is at a value below the length of the match |
| DoublingRules.RightToDouble | gnubg/eval.c:4573-4625 | the right to double never costs anything; it is worth something exactly when both replies to a double beat playing on, and then what the cheaper reply leaves |
| RollAverages.TriangleIsSquare | gnubg/eval.c:6028-6064 | counting the 21 rolls by weight is counting the 36 ordered rolls |
| RollAverages.PlayOnIsAverage | gnubg/eval.c:5985-6292 | playing on is worth the average of the opponent's values over the 36 rolls, seen from the other side |
| RollAverages.PlayOnOfEqual | gnubg/eval.c:5985-6292 | if all replies are worth the same, so is playing on, turned round |
| RollAverages.PlayOnAtLeaf | gnubg/eval.c:5985-6292 | with no ply left, a finished game or, for money, a position a perfect database knows, the leaf equity stands |
| RollAverages.CubelessIsAverage | gnubg/eval.c:5985-6292 | each cubeless chance is the average of the opponent's, wins and losses changing sides |
| CubeDecision.FindBestCubeDecision | gnubg/eval.c:3363-3517 | the optimal equity is max(no double, min(take, pass)) when doubling is allowed; exactly when the course named is a double, an optional double, too good, and its reply a pass or a beaver, and exactly when it has the optimal equity |
| CubeDecision.ShownChoice | gnubg/eval.c:2507-2541 | converting match equities first and choosing then is choosing first |
| CubeDecision.FindCubeDecision | gnubg/eval.c:3520-3538 | the optimal equity shown is the converted choice, in money and match play |
| CubeDecision.CubeDecisionIsValue | gnubg/eval.c:5891-5934 | the decision shown to the player has the value the search gives the same state, on the scale it is shown on |
| Settling.RunSettles | gnubg/eval.c:2626-2662 | a legal run leaves on each point what arrived minus what left, and sends exactly the blots landed on to the bar |
| Settling.SettledIsUnique | gnubg/eval.c:2626-2662 | sub-moves with the same net movement and the same landings on blots leave the same board |
| Sorting.SortSorts | gnubg/drawboard.c:574-583 | a sorted permutation, for any consistent order; shared by the move order and the ranking of moves |
| PairOrder.SortedIsUnique | gnubg/drawboard.c:562-572 | any sort by source and destination gives one and the same list |
| PairOrder.CanonicalMoveOrder | gnubg/drawboard.c:574-583 | sorts the pairs before the first negative source and touches nothing else |
| Chains.ElisionKeepsEffect | gnubg/drawboard.c:610-622 | passing through an empty point is moving straight on |
| Chains.JoiningKeepsEffect | gnubg/drawboard.c:610-622 | joining a sub-move to a chain, its end kept only on a blot, loses no hit and no net movement |
| MoveFormatter.JoinRows | gnubg/drawboard.c:610-622 | joining rows in place overwrites no row in use: the one cell past a row is free when it is needed |
| MoveFormatter.CombineRows | gnubg/drawboard.c:610-622 | the joining loops leave printable chains with the effect of the move, the same sub-moves or fewer, in falling order of source, and nothing to join: no chain ends where one starts, no point but a blot is stopped at |
| MoveFormatter.Compact | gnubg/drawboard.c:624-638 | moves the rows in use to the front, in order, losing none |
| MoveFormatter.FoldDuplicates | gnubg/drawboard.c:643-664 | chains that read alike are counted once; the sub-moves they stand for stay the same |
| MoveFormatter.PrintRow | gnubg/drawboard.c:683-709 | a chain is printed with a mark on each blot it is the first to hit |
| MoveFormatter.FormatMove | gnubg/drawboard.c:585-714 | the text is one of distinct chains in falling order of source, none ending where another starts, stopping on the way only at blots, marked where a blot is first hit, with the effect of the move and at most its sub-moves |
| MoveParser.ParseMove | gnubg/drawboard.c:716-905 | for every text: -1 if it is malformed, else the sub-moves read, in canonical order, counted and terminated; nothing after a repeat count that leaves memory |
| MoveParser.ReadToken | gnubg/drawboard.c:728-853 | one turn of the scanner |
| MoveParser.ReadCount | gnubg/drawboard.c:800-844 | a repeat count: the chain it repeats, the 32-bit size check and the repetition |
| RepeatCounts.OverrunExactly | gnubg/drawboard.c:800-844 | memory is left exactly on texts with a parenthesis after a well-formed beginning whose count passes the size check and is too large or ends the text |
| RepeatCounts.SmallCountsStay | gnubg/drawboard.c:800-844 | no text runs over whose repeat counts are below 2^28 and followed by something |
| RepeatCounts.UnclosedCountRunsOver | gnubg/drawboard.c:800-850 | "8/7(2" is read past its end |
| RepeatCounts.LargeCountRunsOver | gnubg/drawboard.c:829-842 | "8/7(1073741826)" passes the size check |
| RepeatCounts.LeastCountRunsOver | gnubg/drawboard.c:801-842 | "8/7(-2147483648)" passes both checks |
| MoveParser.WriteSubMoves | gnubg/drawboard.c:859-905 | the pairing of points, an intermediate point written twice, and the error cases |
| ParserRules.CaseIsIgnored | gnubg/drawboard.c:716-905 | a text in capitals reads like one in small letters |
| ParserRules.Spellings | gnubg/drawboard.c:749-782 | "o", "of", "off" and "-" are off the board, "b", "ba" and "bar" the bar |
| ParserRules.Separators | gnubg/drawboard.c:728-853 | white space, hit marks, commas and closing parentheses mean nothing; a slash joins two points, once; anything else is an error |
| ParserRules.Numbers | gnubg/drawboard.c:732-746 | a number is a point from 0 to 25, and a ninth point is one too many |
| ParserRules.ReadMovesStayOnBoard | gnubg/drawboard.c:859-905 | whatever the text, at most four sub-moves are read, none from off the board or to the bar |
| TextScan.ScanGroup | gnubg/drawboard.c:728-853 | reading a printed chain adds its points, marked as one chain, as often as it is counted |
| RoundTrip.TextParses | gnubg/drawboard.c:585-905 | from FormatMove's text ParseMove reads exactly the sub-moves the text stands for |
| RoundTrip.NextSourceOccupied | gnubg/eval.c:2664-2674 | in canonical order every source is occupied when its turn comes |
| RoundTrip.ListApplies | gnubg/eval.c:2664-2674 | the sub-moves read apply without error and settle the board |
| RoundTrip.ReadMovesReachThePlay | gnubg/eval.c:2664-2674 | they reach the board the play reaches |
| RoundTrip.ParseMoveToAnMove | gnubg/play.c:1000-1014 | points from 0 again, unused pairs -1, canonical order |
| RoundTrip.ShowAndReadBack | gnubg/drawboard.c:585-905 | showing a play, reading it back and applying it reaches the play's board |
| TextLength.PlayTextFits | gnubg/drawboard.h:30-33 | FormatMove's text of a legal play has at most 28 characters |
| TextLength.OneEntry | gnubg/drawboard.c:643-664 | a double's text has at most one uncounted entry from the bar, the only chain longer than seven characters a sub-move |
| TextLength.ShowListedMove | gnubg/drawboard.c:585-905 | every move the generator lists is shown in 28 characters and read back to the position it is listed for |
| PlainText.FormatMovePlain | gnubg/drawboard.c:532-560 | the pairs as plain numbers, the first landing on each blot marked |
| PlainText.PlainParses | gnubg/drawboard.c:518-905 | ParseMove reads the plain text of any sub-moves back, in canonical order |
| PlainText.WriteAndRead | gnubg/drawboard.c:518-905 | writing and reading gives the right count, pairs and terminator |
| Bearoff.ChoosePoint | gnubg/bearoff.c:148-190 | the order of preference of the player; the point found is occupied and legal, so both assertions hold |
| Bearoff.BearOffLater | gnubg/bearoff.c:161-172 | the chequer the fewest further dice bear off exactly, if there is one |
| Bearoff.FillGap | gnubg/bearoff.c:174-181 | a stacked point with an empty destination, the one with most chequers |
| Bearoff.Unstack | gnubg/bearoff.c:183-190 | the point with most chequers, then fewest on its destination |
| Bearoff.StepIsOneMove | gnubg/bearoff.c:117-202 | a sub-move of n pips always brings the mover exactly one move of n pips closer to being off |
| Bearoff.EmptiedByDouble | gnubg/bearoff.c:117-202 | if some play of a double empties the board, every play of it stops as soon |
| Bearoff.BothDiceInstead | gnubg/bearoff.c:117-202 | where the smaller die keeps the last chequer on, the play the rules ask for ends in the same position |
| Bearoff.StopsLegally | gnubg/bearoff.c:117-202 | wherever the player stops, the rules allow the turn to end there |
| Bearoff.PlaysToIsUnique | gnubg/bearoff.c:117-202 | the order of preference leaves the player one way to play a roll |
| Bearoff.HeuristicBearoff | gnubg/bearoff.c:117-202 | from every home-board race position and roll, the player plays by its order of preference, and the board reached is one the rules allow; an empty board is left alone |
| BearoffIndex.Numbering | gnubg/bearoff.c:204-256 | the numbering is a bijection between positions of at most fifteen chequers and the rows of the table |
| BearoffIndex.RankIsInjective | gnubg/bearoff.c:204-214 | different positions have different rows |
| BearoffIndex.EveryPlayLowers | gnubg/bearoff.c:212-216 | every play from a home-board race leads to a lower row |
| BearoffTable.AllRollsWeigh36 | gnubg/bearoff.c:210-226 | the 21 rolls weigh 36 |
| BearoffTable.ShiftedFits | gnubg/bearoff.c:227-231 | a rounded entry never exceeds 16 bits |
| BearoffTable.AddReply | gnubg/bearoff.c:217-225 | the 32-bit sums never wrap round |
| BearoffTable.MassIsKept | gnubg/bearoff.c:204-232 | a row's total is within 16 units of its successors' weighted average, but for the units in the column that drops out |
| BearoffTable.RowStays | gnubg/bearoff.c:234-256 | a finished row is not disturbed by later ones |
| BearoffTable.ReplyIsUnique | gnubg/bearoff.c:204-216 | the reply a row is filled from is determined by position and roll |
| BearoffTable.GenerateBearoff | gnubg/bearoff.c:204-232 | fills one row, and nothing else, from the rows the heuristic player reaches with each of the 21 rolls, all of lower number and legal |
| BearoffTable.HeuristicDatabase | gnubg/bearoff.c:234-256 | every row is the rounded, shifted average of the finished rows the heuristic player reaches |
| Search.SortPrefix | gnubg/eval.c:5790 | a sorted permutation of the first n moves, the others untouched |
| Search.KeepBest | gnubg/eval.c:5793-5805 | keeps the accepted count, and extra moves within the threshold, for every filter and list |
| Search.KeptExactly | gnubg/eval.c:5793-5805 | a move of the sorted list is kept if and only if it is among the accepted ones, or among the extra ones and within the threshold of the best |
| Search.KeepsSomeExactly | gnubg/eval.h:76-78 | a level in use keeps a move of a nonempty list if and only if it accepts one, or has an extra move and a threshold of at least 0 |
| Search.ZeroDropsAll | gnubg/eval.c:5793-5805 | an accepted count of 0 with no extra moves drops every move |
| Search.PredefinedKeep | gnubg/movefilters.inc:22-50 | every predefined row keeps a move at each level a search reads; those for one, two and three plies have levels that would not, which are never read |
| Search.SearchPlies | gnubg/eval.c:5770-5829 | from any list and filters, the search ends as a run of the levels read can end |
| Search.RunKeepsMoves | gnubg/eval.c:5770-5829 | every run keeps exactly the moves of the list |
| Search.RunRanks | gnubg/eval.c:5770-5829 | after every run all moves are scored, the deepest first, best of those first; the candidates left are those ranked last |
| Search.RunKeepsSome | gnubg/eval.c:5779-5812 | candidates are left if and only if every level that was read keeps a move |
| Search.RunStopsAtZero | gnubg/eval.c:5809-5812 | a run that stops early with several moves ranked stopped at a level with an accepted count of 0 |
| Search.ShiftEndsExactly | gnubg/eval.c:5873-5874 | the unsigned shift stays in the list and ends if and only if a candidate is left and the move is not the first |
| Search.RegroupedLeads | gnubg/eval.c:5865-5880 | moving the key move up and sorting leaves the best move of the greatest depth first, and the moves of that depth together |
| Search.EarlyStopOrder | gnubg/eval.c:5809-5880 | after an early stop the moves behind the key move are in order if and only if it is no worse than the second best |
| Search.Promote | gnubg/eval.c:5844-5883 | what becomes of the list when the key move is scored deeper, both are scored at the full depth, or neither, whether or not the evaluations succeed; `PromotedDepth` says when each happens |
| Search.PromotedKey | gnubg/eval.c:5844-5883 | the move asked about ends at the depth of the first move |
| Search.PromotedDepth | gnubg/eval.c:5844-5864 | the first move ends at the full depth if and only if the plies got there or the move asked about and the best differed by more than the threshold where they stopped; short of it the two are within the threshold |
| Search.FoundIsOrdered | gnubg/eval.c:5770-5889 | every search ends with the legal moves, all scored, the moves of the greatest depth first, the best of them first of all and the move asked about among them; they are in order if and only if it did not jump ahead |
| Search.OrderFromFilters | gnubg/eval.c:5770-5889 | they are in order if no level with an accepted count of 0 follows another level in use |
| Search.FindnSaveBestMoves | gnubg/eval.c:5733-5889 | all of this for the moves of every board and roll, each exactly once, for every filter whose levels in use keep a move, and without a move asked about for every filter; the move asked about and the best are scored at the full depth exactly if they differ by more than the threshold or the plies got there |
| Search.EarlyStopCanDisorder | gnubg/eval.c:5809-5880 | every search of three different moves with falling scores and two levels ends with the worst move, the one asked about, ahead of the second best |
| Search.SearchDisorders | gnubg/eval.c:5770-5889 | there is such a search |
| Pruning.LogCube | gnubg/matchid.c:41-49 | the integer part of the base-2 logarithm |
| Pruning.CandidatesFit | gnubg/eval.c:5319-5347 | the candidates never exceed MAX_PRUNE_MOVES |
| Pruning.Consider | gnubg/eval.c:5404-5421 | after each move the slots hold different moves with the lowest scores so far, the highest of them in slot 0 |
| Pruning.SelectMoves | gnubg/eval.c:5357-5425 | all moves are scanned if and only if they are of one class, and the slots then hold the lowest scores of the whole list |
| Pruning.BestOf | gnubg/eval.c:5611-5682 | the best-scored of the given moves |
| Pruning.FindBestMoveInEval | gnubg/eval.c:5322-5432 | the reply is a candidate, a legal position, and no candidate beats it in score or, at the same score, in the second score; with no legal move the board is unchanged |
| MoneyEquity.InvertEvaluation | gnubg/eval.c:2388-2404 | the chances seen from the other side |
| MoneyEquity.UtilityIsExpected | gnubg/eval.c:2454-2504 | the utility is the expected payoff over plain, gammon and backgammon wins and losses: 1, 2 and 3 points cubeless for money, the gammon prices of winner and loser added otherwise |
| MoneyEquity.PassIsAWonGame | gnubg/eval.c:3562-3613 | for money a pass is worth a certain plain win |
| MoneyEquity.UtilityIsZeroSum | gnubg/eval.c:2454-2504 | inverting the outputs and the player on move negates the utility, in money and match play |
| MoneyEquity.MoneyEquityInRange | gnubg/eval.c:2488-2504 | coherent chances are worth between -3 and 3 points, 3 only for a certain backgammon |
| MoneyEquity.MoneyLiveIsCurve | gnubg/eval.c:3617-3674 | the three interpolations are one piecewise linear curve whose pieces meet at the take and cash points |
| MoneyEquity.MoneyLiveIsContinuous | gnubg/eval.c:3617-3674 | the live equity never falls with the chance of winning and rises at most by a fixed factor |
| MoneyEquity.MoneyLiveEnds | gnubg/eval.c:3617-3674 | certain loss costs rL, certain victory earns rW |
| MoneyEquity.PointsAreIndifferent | gnubg/eval.c:3617-3674 | at the take point the taker of a doubled cube does as well as by passing, and so does the opponent at the cash point |
| MoneyEquity.JacobyCapsAtOne | gnubg/eval.c:3617-3674 | with the Jacoby rule a centred cube is worth one point beyond the take and cash points and what it is worth without the rule between them |
| MoneyEquity.CubeIsWorthOwning | gnubg/eval.c:3617-3674 | owned is worth at least centred, centred at least unavailable, at every chance |
| MoneyEquity.MoneyLiveIsZeroSum | gnubg/eval.c:3617-3674 | one player's live equity is the other's negated, with and without the Jacoby rule |
| MoneyEquity.AveragesAreEquity | gnubg/eval.c:3677-3713 | the average win by its chance less the average loss by its chance is the cubeless equity |
| MoneyEquity.EfficiencyRuns | gnubg/eval.c:3677-3713 | at efficiency 0 the cubeful equity is the dead one, at 1 the live one, and in between it runs straight from one to the other |
| MoneyEquity.Cl2CfMoneyIsZeroSum | gnubg/eval.c:3677-3713 | the cubeful money equity is exactly zero-sum |
| MoneyEquity.CubefulMoneyInOrder | gnubg/eval.c:3677-3713 | the order of the three cubes carries over to any cube efficiency |
| Evaluation.EvalOver | gnubg/eval.c:2165-2240 | the vector of a game lost or won single, gammon or backgammon, for the chequers of any variation |
| Evaluation.OverIsFair | gnubg/eval.c:2165-2240 | on the swapped board the vector is the inverted one, if and only if not both players have borne off |
| Evaluation.OverIsWorth | gnubg/eval.c:2165-2240 | for money the vector is worth the one, two or three points the rules give the winner |
| Evaluation.CountSide | gnubg/eval.c:1657-1700 | the rear chequer, the chequers and the quadrants to cross |
| Evaluation.SanityCheck | gnubg/eval.c:1643-1781 | corrects what is certain about the position, then clamps |
| Evaluation.SaneFollowsFacts | gnubg/eval.c:1714-1779 | what is certain is so in the checked vector, what is impossible has no chance, and a coherent vector of a position about which nothing is known stays as it is |
| RaceFacts.CountsAreCrossings | gnubg/eval.c:1657-1700 | the weights counted are the quadrants each chequer has to cross to be borne off, and to come home |
| RaceFacts.FactsCountCrossings | gnubg/eval.c:1702-1750 | each fact is claimed exactly when the crossings left outnumber the sub-moves in the turns granted, two turns a crossing where no database bounds them |
| RaceFacts.RunCrosses | gnubg/eval.c:1702-1750 | once the sides have passed each other, a legal run of k sub-moves crosses at most k quadrants, and bears none off before all are home |
| RaceFacts.LineCrosses | gnubg/eval.c:1702-1750 | the same over any number of turns by both players |
| RaceFacts.CertainWinIsWon | gnubg/eval.c:1714-1716 | certain win: in no line of play is the opponent off while the player takes the turns granted |
| RaceFacts.CertainLossIsLost | gnubg/eval.c:1733-1735 | certain loss: in no line of play is the player off while the opponent takes them |
| RaceFacts.CertainGammonIsWon | gnubg/eval.c:1721-1727 | certain gammon: nor has the opponent borne off a chequer |
| RaceFacts.CertainGammonIsLost | gnubg/eval.c:1740-1746 | certain gammon loss: nor has the player |
| RaceFacts.NoGammonInTime | gnubg/eval.c:1721-1743 | gammon impossible: whoever is off has left the other at least two turns for every crossing to a first chequer off |
| RaceFacts.NoBackgammonIsPlayed | gnubg/eval.c:1728-1749 | backgammon impossible: no line of play leaves a chequer in the winner's home board or on the bar |
| RaceTurns.RollDoes | gnubg/eval.c:1707 | every roll can be played so as to do half a crossing of work, on a measure of work that is at most two turns a crossing |
| RaceTurns.TurnsSuffice | gnubg/eval.c:1707 | two turns a crossing are enough to be off, whatever the dice and whatever the opponent does |
| RaceTurns.CertainWinIsForced | gnubg/eval.c:1702-1716 | a certain win can be forced within the turns granted |
| RaceTurns.CertainLossIsForced | gnubg/eval.c:1702-1735 | the opponent can force a certain loss, whatever the player does first |
| RaceTurns.StackStays | gnubg/eval.c:1722-1724 | chequers stacked on the six point: a run of fours and fives bears none off |
| RaceTurns.ImpossibleGammonIsWon | gnubg/eval.c:1722-1724 | nine chequers on the ace point against fifteen on the six point: a line of legal plays wins a gammon the check calls impossible |
| Evaluation.SaneIsCoherent | gnubg/eval.c:1755-1779 | whatever was in [0, 1], the checked vector is coherent for both players |
| Evaluation.SaneTwice | gnubg/eval.c:1643-1781 | checking twice is checking once |
| Evaluation.ValueIsCoherent | gnubg/eval.c:5434-5530 | at every depth 0 <= backgammon <= gammon <= win <= 1 for both sides |
| Evaluation.LeafCases | gnubg/eval.c:5434-5530 | a leaf is the final vector, the static evaluation or the checked one, by class, and with noise the checked noisy one |
| RollAverages.ValueIsAverage | gnubg/eval.c:5434-5530 | above a leaf each chance is the average of the opponent's over the 36 rolls, wins and losses changing sides |
| Evaluation.EvaluationsAreInRange | gnubg/eval.c:5434-5530 | at every depth the money equity lies in [-3, 3] |
| Evaluation.EvaluatePositionFull | gnubg/eval.c:5434-5530 | the loop over the rolls computes the average over the replies, turned round, and the leaf the checked evaluation |
| Variance.SpreadMoves | gnubg/analysis.c:1427-1450 | the squared deviations about a moved centre |
| Variance.NextVariance | gnubg/analysis.c:1427-1450 | the update formula is the sample variance with one sample more |
| Variance.UpdatedIsSampleVariance | gnubg/analysis.c:1427-1450 | kept up sample by sample, the running variance is the sample variance |
| Variance.UpdateVariance | gnubg/analysis.c:1427-1450 | computes that update |
| Statistics.StatContext.Update | gnubg/analysis.c:390-677 | the counters, errors, luck and results after one record |
| Statistics.RecordKeepsSound | gnubg/analysis.c:390-677 | every record keeps the counters consistent and the results zero-sum |
| Statistics.GameIsSound | gnubg/analysis.c:390-677 | over every game: skill buckets sum to total moves, unforced <= total moves, doubles + takes + passes <= close <= total cubes, cube errors are counted and never negative, there is no error without a decision, luck-adjusted results are zero-sum and account for all luck |
| Statistics.GameIsCounted | gnubg/analysis.c:390-677 | every counter is the number of records showing what it is meant to count, stated record by record, and every error what those records gave up |
| Statistics.ResultIsPointsWon | gnubg/analysis.c:407-425 | the result of a player is the points, or match chances, the player won less those the opponent won |
| Statistics.CheckerplayIsLoss | gnubg/analysis.c:511-539 | the chequer-play error is what the unforced moves lost, and not negative if and only if they gained nothing in all |
| Statistics.NothingGained | gnubg/analysis.c:511-539 | they gained nothing if the first move of every list is its best |
| Statistics.GainIsNegativeError | gnubg/analysis.c:511-539 | a game with a move better than the first of its list, and a negative error |
| Statistics.AddingKeepsSound | gnubg/analysis.c:1452-1523 | adding a game keeps all this, and the guard on results is always true |
| Statistics.StatContext.Add | gnubg/analysis.c:1452-1523 | the session after one more game |
| Statistics.SessionIsSummary | gnubg/analysis.c:1452-1523 | over any sequence of games, sums and running variances are the sums and sample variances of the results |
| Statistics.SessionIsWinnings | gnubg/analysis.c:390-1523 | over a session the results add up to what the player won less what the opponent won |
| Statistics.SessionLoss | gnubg/analysis.c:1452-1523 | the chequer-play error of a session is that of its games |
| Statistics.StatContext.constructor | gnubg/analysis.c:1742-1798 | everything starts at zero |
| Statistics.AnalyseSession | gnubg/analysis.c:390-1523 | analysing any games record by record and adding them up gives their sound summary, and each player's result is the points won less the points lost |
| Dice.BBSGetTrit | gnubg/dice.c:231-276 | the digit the state machine returns on a supply of bits, and the bits it takes |
| Dice.TritIsFair | gnubg/dice.c:231-276 | of the 2^(2k+1) bit strings exactly (2^(2k+1) - 2) / 3 give each digit and two give none |
| Dice.BBSDie | gnubg/dice.c:774 | the digit, then the next bit times three, plus one |
| Dice.DieIsFair | gnubg/dice.c:774-775 | every face comes from equally many strings |
| Dice.RollDice | gnubg/dice.c:774-775 | two dice, the second from the bits the first leaves |
| Dice.RollsMultiply | gnubg/dice.c:774-775 | the two dice are independent: the strings of a roll are as many as those of its faces multiplied |
| Dice.RollsAreFair | gnubg/dice.c:774-775 | the 36 rolls come from equally many strings of bits |
| Dice.DieFromWords | gnubg/dice.c:782-787 | the die is that of the first accepted word |
| Dice.WordsAreFair | gnubg/dice.c:760-787 | each face has exactly 715827882 of the 2^32 words, and four are rejected |

## Left out

- Neural networks, input encoders, bear-off file formats, match-equity tables, noise generation and random number generators are parameters: the static evaluation, the class of a position, the leaf equity of a cube state, the value of a pass in a match, the reply chosen inside the cubeful search and the noise are functions about which nothing is assumed except where a theorem says so.
- The evaluation cache: its key leaves out the cube of the player whose moves are chosen, so cached and uncached search are not claimed equal; the model is the uncached one.
- Interrupts and missing databases appear as calls that may fail at any time; a failed search promises nothing about its arrays.
- Rounding of floats; the integer rounding of the bear-off table is exact.
- PositionKey and the other position codes: the key of a position is the board itself. The bear-off index, which is not part of the sources modelled here, is the numbering in `BearoffIndex`.
- MoveParser.ParseMove: promises nothing once the original has stepped over the end of its text or past its array; on which texts that happens is proved in `RepeatCounts`. Signed overflow is taken to wrap round, as on the machines the program runs on.
- Search.FindnSaveBestMoves: the stored evaluation vector and the comment marks of a move are not modelled; qsort is a sort that may order equal scores any way. With a move asked about, a level in use that drops every move and a negative error threshold are excluded, because the original then shifts the list out of bounds (`Search.ShiftEndsExactly`).
- Search.PromotedOrder: when an evaluation fails inside the last stage the original ignores it; `Search.Promote` says what becomes of the list, but depth and order are promised only if the evaluations succeed.
- Pruning.FindBestMoveInEval: full evaluations are assumed to lie above -99999.9, the value the original starts its maximum from.
- Cubeful.EvaluatePositionCubeful4: the vector must start with an available slot, the condition `Cubeful.ScaleFromSlotZero` shows to be needed.
- CubeDecision.FindCubeDecision: the match equities of winning and losing the game at the current cube are parameters, the first larger than the second.
- CompareMovesGeneral: its order is not a consistent comparison, so nothing is built on it.
- Bearoff.HeuristicBearoff: the roll is given with its larger number first, as the original asserts for two different numbers.
- BearoffTable.HeuristicDatabase: the 40-byte header before the table and the progress callback.
- RaceFacts.NoGammonInTime: states how many turns the opponent has had, not that they were enough to save the gammon, which `RaceTurns.ImpossibleGammonIsWon` shows to be false; whether they are depends on the dice still to come.
- RaceTurns.CertainWinIsForced: for positions without a database bound; the turns a bear-off database reports are a parameter, so that they are enough is not proved.
- Evaluation.SanityCheck: its input is required to lie in [0, 1], which the original asserts.
- Statistics.StatContext.Update: the analysis settings are part of the record (no cube, luck or move analysis in it), and so is the conversion of an equity to a cost.
- Dice.DieIsFair: the digit is drawn before the bit that adds three; C leaves the order of the two calls open.
- Dice.DieFromWords: the MD5 generator, which draws both dice's words together, and the manual, file and network sources of dice.
- Threads, locks, rollouts, the user interface, import and export.
