# Royal casino games, modelled in Dafny

A model of the play-money casino web app's game logic. The model covers:

- the shared wallet (`context/CasinoContext.tsx`);
- the eight game pages: Baccarat, Blackjack, Video Poker, Texas Hold'em, Roulette, Mines, Slots and Crash.

Each page is a React component whose handlers update its state fields and call the wallet's `updateBalance`. The model follows the same shape:

- Each page is a `class` whose fields are the page's state variables. Its methods are the page's handlers, and a `const wallet` refers to the shared `Casino.Wallet`.
- The pure helpers are functions and lemmas: `getDeck`, `calculateScore`, `evaluateHand`, `getNumberColor`, `calculateMultiplier`, `checkWin`, `generateCrashPoint` and the like.
- The helpers' loops are methods, proved against those functions.

Randomness, timers and animation frames are inputs to the model:

- a shuffled deck is any permutation of the 52 cards;
- the roulette number, the mine draws, the slot draws and the crash draw `r` are parameters;
- a timeout or an animation frame is a separate method call.

Money is a `real`, since several games credit fractional amounts. Card values are `int`. Nothing in the core relies on fixed-width integers.

Modules:

- `Casino` (casino.dfy): the user record, `updateBalance`, `login` and `logout`.
- `Cards` (cards.dfy): the card type, the ordered deck, numeric sorts, and the counting dictionaries the poker and slot pages build.
- `Baccarat`, `Blackjack`, `VideoPoker`, `TexasHoldem`, `Roulette`, `Mines`, `Slots`, `Crash`: one module per page.

## Model

| member | source | states |
|---|---|---|
| Casino.DefaultUser | context/CasinoContext.tsx:26-30 | the initial user has balance 1000, an empty name and is logged out |
| Casino.WithDelta | context/CasinoContext.tsx:40-42 | `updateBalance` shifts the balance by exactly the amount and keeps name and login flag |
| Casino.LoggedIn | context/CasinoContext.tsx:44-51 | login sets the name and the flag, keeps a positive balance, tops anything else up to 1000, so the balance is positive afterwards |
| Casino.DeltasCompose | context/CasinoContext.tsx:40-42 | two balance updates act as one update by their sum |
| Casino.LoginIdempotent | context/CasinoContext.tsx:44-51 | logging in twice with one name equals logging in once |
| Casino.Wallet.constructor | context/CasinoContext.tsx:17-31 | with nothing stored, the session starts as the default user |
| Casino.Wallet.UpdateBalance | context/CasinoContext.tsx:40-42 | the new user is the old one with the balance moved by `amount`, with no lower bound |
| Casino.Wallet.Login | context/CasinoContext.tsx:44-51 | the new user is `LoggedIn(old user, name)` |
| Casino.Wallet.Logout | context/CasinoContext.tsx:53-60 | whatever the state, the user becomes the default user |
| Cards.SuitIndex | pages/VideoPoker.tsx:9 | every suit sits at one index of `SUITS` |
| Cards.ValueIndex | pages/VideoPoker.tsx:10 | every face sits at one index of `VALUES` |
| Cards.NumericValue | pages/VideoPoker.tsx:16-20 | the poker `numericValue` is the face's index in `VALUES` plus 2, so 2..14 with J, Q, K, A as 11..14 |
| Cards.Nums | pages/VideoPoker.tsx:43 | the value list has one entry per card, each that card's numeric value |
| Cards.OrderedDeck | pages/VideoPoker.tsx:12-23 | the unshuffled deck has 52 cards, card i being suit i/13 with face i%13 |
| Cards.Position | pages/VideoPoker.tsx:12-23 | every card occurs at some index of the ordered deck |
| Cards.OrderedDeckComplete | pages/VideoPoker.tsx:12-23 | every card occurs exactly once in the ordered deck |
| Cards.OnlyAt | pages/VideoPoker.tsx:12-23 | a value found at one index only has multiplicity 1 |
| Cards.GetDeck | pages/VideoPoker.tsx:12-23 | the nested `forEach` loops build the ordered deck: 52 cards, each card once |
| Cards.SortAscSorts | pages/VideoPoker.tsx:42 | the ascending numeric sort yields ascending values with the same multiset |
| Cards.InsertAscSorts | pages/VideoPoker.tsx:42 | one insertion step keeps ascending order and adds exactly the inserted value |
| Cards.SortDescSorts | pages/TexasHoldem.tsx:30 | the descending numeric sort yields descending values with the same multiset |
| Cards.InsertDescSorts | pages/TexasHoldem.tsx:30 | one insertion step keeps descending order and adds exactly the inserted value |
| Cards.CountIsMultiplicity | pages/VideoPoker.tsx:62-63 | a dictionary count is the value's multiplicity in the list |
| Cards.CountSnoc | pages/VideoPoker.tsx:63 | counting one more element raises its count by one and leaves every other count alone |
| Cards.CountValues | pages/VideoPoker.tsx:62-63 | the counting pass yields a dictionary whose keys are exactly the values present, each mapped to its number of occurrences |
| Cards.CountTests | pages/VideoPoker.tsx:64-69 | `countsArr.includes(n)` holds exactly when some value occurs n times, and the number of keys counted twice is the number of pairs |
| Baccarat.BaccaratValue | pages/Baccarat.tsx:22-26 | pip value is 0 exactly for tens and pictures, 1 exactly for the ace, the face value otherwise, never above 9 |
| Baccarat.Score | pages/Baccarat.tsx:28-31 | a hand's score is a digit 0..9 |
| Baccarat.ScoreAppend | pages/Baccarat.tsx:28-31 | adding a card adds its pips to the score modulo 10 |
| Baccarat.PipSumBound | pages/Baccarat.tsx:28-31 | the pip sum is at most 9 per card |
| Baccarat.Natural | pages/Baccarat.tsx:169 | for two-card scores a natural is an 8 or a 9 on either side |
| Baccarat.PlayerDraws | pages/Baccarat.tsx:169-176 | the player never draws against a natural and otherwise draws exactly on 0..5 |
| Baccarat.BankerDraws | pages/Baccarat.tsx:178-187 | the banker always draws on 0..2 and always stands on 7 or more; a player third card worth 8 leaves only 0..2 drawing |
| Baccarat.BankerRuleIsTable | pages/Baccarat.tsx:178-187 | the banker's third-card conditions coincide, for every banker score 0..7 and player third card 0..9, with the standard printed drawing table |
| Baccarat.Play | pages/Baccarat.tsx:163-193 | each hand ends with 2 or 3 cards and keeps its first two; the deck loses exactly the drawn cards from its end, the player's from the very end |
| Baccarat.PlayDrawingRule | pages/Baccarat.tsx:169-193 | a natural stops both hands; the player draws exactly on 0..5; a banker facing a standing player draws exactly on 0..5; otherwise the banker follows the third-card rule |
| Baccarat.PlayFollowsTable | pages/Baccarat.tsx:178-187 | when the player drew, the banker draws exactly where the printed table says D |
| Baccarat.PlayDrawsFromEnd | pages/Baccarat.tsx:169-193 | the deck before the draw is the deck after it followed by the banker's and then the player's third card |
| Baccarat.PlayConservesCards | pages/Baccarat.tsx:160-193 | the drawing phase neither creates nor loses cards (hands plus deck keep their multiset) |
| Baccarat.DrawThirdCards | pages/Baccarat.tsx:163-193 | the step-by-step pops reach the same hands and deck as the drawing rule |
| Baccarat.Winner | pages/Baccarat.tsx:201-206 | Player exactly when the player's score is higher, Banker exactly when the banker's is, Tie exactly when equal |
| Baccarat.Payout | pages/Baccarat.tsx:211-237 | Player or Banker pays twice the stake when that side wins; Tie pays nine times the stake on a tie; Winner-even pays twice the stake when the higher final score is even; a loss pays nothing, and a credit never exceeds 9 stakes |
| Baccarat.PushHistory | pages/Baccarat.tsx:209 | the history keeps the 14 latest outcomes before the new one, which is last, so at most 15 |
| Baccarat.Settle | pages/Baccarat.tsx:211-237 | the wallet is credited exactly the payout of the bet |
| Baccarat.Table.constructor | pages/Baccarat.tsx:63-75 | the page mounts with a shuffled deck, no bet, the 10 chip, empty history |
| Baccarat.Table.SelectChip | pages/Baccarat.tsx:362-365 | the selected chip becomes the one clicked |
| Baccarat.Table.PlaceBet | pages/Baccarat.tsx:103-131 | outside betting or without the chip's worth nothing changes; a bet on the same side grows by one chip; a bet on another side is refunded and replaced by one chip |
| Baccarat.Table.ClearBet | pages/Baccarat.tsx:133-138 | the bet is removed and its stake refunded in full |
| Baccarat.Table.DealGame | pages/Baccarat.tsx:140-158 | without a bet nothing happens; otherwise a fresh deck replaces one under 10 cards and the top four cards go player, player, banker, banker |
| Baccarat.Table.RunGameLogic | pages/Baccarat.tsx:160-238 | the hands follow the drawing rule, the outcome is appended to the history and the wallet gets the bet's payout |
| Baccarat.Table.Reset | pages/Baccarat.tsx:240-247 | hands and bet are cleared and betting reopens |
| Blackjack.BlackjackValue | pages/Blackjack.tsx:11-20 | the ace counts 11, tens and pictures 10, the rest their face value |
| Blackjack.AceCount | pages/Blackjack.tsx:26 | there are no more aces than cards |
| Blackjack.Demotions | pages/Blackjack.tsx:27-30 | the loop demotes no more aces than the hand has |
| Blackjack.HandScore | pages/Blackjack.tsx:24-31 | the score never exceeds the raw sum, and a score over 21 means every ace already counts 1 |
| Blackjack.DemoteIsBestTotal | pages/Blackjack.tsx:24-31 | the score is the raw total minus 10 per demoted ace; it demotes the fewest aces that reach 21 or less, or all of them |
| Blackjack.RawSumBound | pages/Blackjack.tsx:25 | each ace adds 11 and every other card at least 2 |
| Blackjack.HandScoreAtLeastSize | pages/Blackjack.tsx:24-31 | every card still counts at least 1 after demotion |
| Blackjack.CalculateScore | pages/Blackjack.tsx:24-31 | the reduce, the ace filter and the while loop compute the hand score |
| Blackjack.EndGamePayout | pages/Blackjack.tsx:121-145 | a natural pays 2.5 stakes, a bust nothing; in a comparison a dealer bust or a higher player score pays 2 stakes, a higher dealer score nothing, a tie returns the stake |
| Blackjack.DealerDraw | pages/Blackjack.tsx:112-114 | the dealer's drawing ends on 17 or more and moves cards from the deck to the hand without losing any |
| Blackjack.DealerDrawKeeps | pages/Blackjack.tsx:106-114 | the hand keeps its cards and the deck is cut to a prefix of itself |
| Blackjack.DealerDrawRule | pages/Blackjack.tsx:106-114 | the dealer ends on 17 or more; every card was drawn from the deck's end while the hand was under 17; the hand keeps its cards and the deck loses exactly the drawn ones |
| Blackjack.DealerLoop | pages/Blackjack.tsx:108-114 | `stand`'s loop reaches the dealer-draw result and 17 or more |
| Blackjack.Game.constructor | pages/Blackjack.tsx:67-72 | the page mounts with no cards, betting, a stake of 20 |
| Blackjack.Game.DecreaseBet | pages/Blackjack.tsx:205 | the stake drops by 10 but never below 10 |
| Blackjack.Game.IncreaseBet | pages/Blackjack.tsx:207 | the stake rises by 10 but never above the balance |
| Blackjack.Game.EndGame | pages/Blackjack.tsx:121-145 | the round is over and the wallet is credited the settlement of the reason and the two scores |
| Blackjack.Game.StartGame | pages/Blackjack.tsx:74-93 | refused when the stake exceeds the balance; otherwise the stake is debited, the top four cards go player, player, dealer, dealer, and a two-card 21 settles at once for a net gain of 1.5 stakes |
| Blackjack.Game.Hit | pages/Blackjack.tsx:95-104 | the player gains the deck's last card; over 21 the round is lost with no credit, otherwise play continues |
| Blackjack.Game.Stand | pages/Blackjack.tsx:106-119 | the dealer draws to 17 or more and the wallet gets the comparison settlement |
| Blackjack.TwoCardSums | pages/Blackjack.tsx:24-26 | the raw sum and ace count of two cards |
| Blackjack.TwoCardsNeverBust | pages/Blackjack.tsx:81-92 | no two-card hand scores over 21, so the opening deal can only end the round with a natural |
| Blackjack.TwoCard21 | pages/Blackjack.tsx:90-92 | a two-card 21 is exactly an ace with a ten-valued card |
| Blackjack.AceExamples | pages/Blackjack.tsx:24-31 | A-A-9 scores 21 and A-A-A-9 scores 12 |
| VideoPoker.PayLine.Multiplier | pages/VideoPoker.tsx:27-37 | every pay line pays between 1 and 250 times the bet |
| VideoPoker.PaytableInjective | pages/VideoPoker.tsx:27-37 | the pay table lists strictly decreasing multipliers, so no line twice |
| VideoPoker.FirstIndex | pages/VideoPoker.tsx:77-87 | the search result lies between its start and 9 |
| VideoPoker.FirstIndexIsFirst | pages/VideoPoker.tsx:77-87 | the search stops at line k exactly when k holds (or k = 9) and no earlier line does |
| VideoPoker.Best | pages/VideoPoker.tsx:77-87 | a selected line is one of the pay table's |
| VideoPoker.Evaluate | pages/VideoPoker.tsx:39-40 | fewer than five cards evaluate to nothing; a result is a pay table line |
| VideoPoker.EvaluatePrecedence | pages/VideoPoker.tsx:77-85 | a hand gets line k exactly when it meets line k's condition and no earlier line's |
| VideoPoker.EvaluateNone | pages/VideoPoker.tsx:87 | a hand gets nothing exactly when it meets no line's condition |
| VideoPoker.StraightFromTen | pages/VideoPoker.tsx:49-60 | a five-value straight starting at 10 is exactly 10-J-Q-K-A |
| VideoPoker.RoyalIsTenToAce | pages/VideoPoker.tsx:77 | the royal flush line is exactly 10-J-Q-K-A of one suit |
| VideoPoker.WheelFlushIsStraightFlush | pages/VideoPoker.tsx:49-78 | a one-suit A-2-3-4-5 is paid as a straight flush, not a royal flush |
| VideoPoker.ScanStraight | pages/VideoPoker.tsx:49-60 | the loop with its break reports a straight exactly for five consecutive values or the wheel |
| VideoPoker.ComputeTests | pages/VideoPoker.tsx:42-75 | sorting, the suit check, the scan and the counts dictionary compute the tests of the specification |
| VideoPoker.PickLine | pages/VideoPoker.tsx:77-87 | the if-chain returns the first line whose condition holds |
| VideoPoker.EvaluateHand | pages/VideoPoker.tsx:39-88 | `evaluateHand` returns exactly the specified result |
| VideoPoker.Popped | pages/VideoPoker.tsx:174-177 | no more cards are popped before position i than there are positions |
| VideoPoker.DrawnCard | pages/VideoPoker.tsx:173-177 | a held position keeps its card; any other takes one of the deck's last five cards |
| VideoPoker.PoppedInIndexOrder | pages/VideoPoker.tsx:174-177 | a later replaced position takes a card from further down the deck, so no deck card is used twice |
| VideoPoker.Winnings | pages/VideoPoker.tsx:181-189 | no line pays nothing; a line pays between 1 and 250 stakes for a non-negative stake |
| VideoPoker.LowPairPaysNothing | pages/VideoPoker.tsx:72-87 | a pair of twos with nothing else (2 2 5 9 K) pays nothing |
| VideoPoker.LowPairTests | pages/VideoPoker.tsx:49-75 | on the values 2 2 5 9 13 there is no straight, no quads or trips, one pair and no jacks-or-better pair |
| VideoPoker.RoyalFlushPays250 | pages/VideoPoker.tsx:77-186 | 10-J-Q-K-A of one suit is a royal flush and credits 250 stakes |
| VideoPoker.RoyalQualifies | pages/VideoPoker.tsx:77 | 10-J-Q-K-A of one suit meets the royal condition |
| VideoPoker.SortAscOfAscending | pages/VideoPoker.tsx:42 | sorting values already in order leaves them unchanged |
| VideoPoker.SortedUnique | pages/VideoPoker.tsx:42 | two ascending lists with the same elements are equal, so the sort's result is determined |
| VideoPoker.Without | pages/VideoPoker.tsx:167 | the filter keeps exactly the elements different from the index |
| VideoPoker.Game.constructor | pages/VideoPoker.tsx:129-135 | the page mounts with no cards, betting, a stake of 10 |
| VideoPoker.Game.DecreaseBet | pages/VideoPoker.tsx:259-260 | the stake drops by 10 but never below 10 |
| VideoPoker.Game.IncreaseBet | pages/VideoPoker.tsx:265-266 | the stake rises by 10 but never above the balance |
| VideoPoker.Game.Deal | pages/VideoPoker.tsx:141-162 | refused without the stake; otherwise the stake is debited and the top five cards are dealt, nothing held |
| VideoPoker.Game.ToggleHold | pages/VideoPoker.tsx:164-169 | while holding, the index's held status flips and every other index keeps its status; otherwise nothing changes |
| VideoPoker.Game.Draw | pages/VideoPoker.tsx:171-190 | held cards stay; the others are replaced in index order from the deck's end; the wallet gets the winnings of the final hand |
| VideoPoker.Game.Pay | pages/VideoPoker.tsx:181-189 | a winning line credits stake times multiplier and is shown; otherwise nothing is credited |
| TexasHoldem.UniqueValues | pages/TexasHoldem.tsx:41 | the de-duplicated values are the same set of values, and no more of them |
| TexasHoldem.UniqueValuesDescending | pages/TexasHoldem.tsx:30-41 | de-duplicating descending values gives strictly descending ones |
| TexasHoldem.FirstRun | pages/TexasHoldem.tsx:44-50 | a found index has a value exactly four above the value four places on |
| TexasHoldem.FirstRunIsFirst | pages/TexasHoldem.tsx:44-50 | the scan stops at the first such index |
| TexasHoldem.RunAtIsRun | pages/TexasHoldem.tsx:45 | in strictly descending values a drop of four over four places is five consecutive values |
| TexasHoldem.RunIsRunAt | pages/TexasHoldem.tsx:44-50 | five consecutive values among strictly descending ones sit at five consecutive places, so the scan finds them |
| TexasHoldem.StraightIsHighestRun | pages/TexasHoldem.tsx:40-55 | the straight flag holds exactly when five consecutive values or A-2-3-4-5 occur; the straight's high card is the top of the highest run, or 5 for a wheel alone |
| TexasHoldem.RunTopAboveWheel | pages/TexasHoldem.tsx:51-55 | a run of card values tops at 6 or more, above the wheel's 5 |
| TexasHoldem.SuitsOf | pages/TexasHoldem.tsx:32 | the suit list matches the cards position by position |
| TexasHoldem.HandStraightIsHighestRun | pages/TexasHoldem.tsx:28-55 | on a whole hand, the straight test and its high card describe the highest run among the cards' values |
| TexasHoldem.Rank | pages/TexasHoldem.tsx:66-78 | the category score is the highest one the hand qualifies for, a multiple of 100 up to 800 |
| TexasHoldem.Label | pages/TexasHoldem.tsx:68-78 | every category from Pair to Straight Flush has its own label; any other score reads "High Card" |
| TexasHoldem.TieBreaker | pages/TexasHoldem.tsx:69-75 | the tie-breaker is the straight's top card when a straight is the best category and the highest value otherwise |
| TexasHoldem.RankVal | pages/TexasHoldem.tsx:81 | `rankVal` lies between the category score plus 2 and plus 14, so it never reaches the next category |
| TexasHoldem.SortedValuesRange | pages/TexasHoldem.tsx:30-31 | every sorted value is a card value 2..14 |
| TexasHoldem.StraightHighRange | pages/TexasHoldem.tsx:43-55 | the straight's high card is a card value |
| TexasHoldem.TieBreakerRange | pages/TexasHoldem.tsx:69-75 | the tie-breaker is between 2 and 14, too small to bridge two categories |
| TexasHoldem.HigherCategoryWins | pages/TexasHoldem.tsx:81 | a better category always gives a strictly higher `rankVal`, whatever the kickers |
| TexasHoldem.FlushAndStraightScore800 | pages/TexasHoldem.tsx:71 | a flush plus a straight anywhere among the cards scores as a straight flush |
| TexasHoldem.FindFlush | pages/TexasHoldem.tsx:34-38 | the suit-count pass finds a suit exactly when some suit occurs five times or more |
| TexasHoldem.ScanRuns | pages/TexasHoldem.tsx:42-50 | the loop with its break finds a straight exactly when the first-run scan does, with that run's top |
| TexasHoldem.ComputeFeatures | pages/TexasHoldem.tsx:28-64 | the page's passes compute the hand's specified features |
| TexasHoldem.EvaluateHand | pages/TexasHoldem.tsx:28-84 | `evaluateHand` returns the specified `rankVal` and the label of its category |
| TexasHoldem.ShowdownCredit | pages/TexasHoldem.tsx:190-198 | the player is credited the pot when ahead, nothing when behind, half the pot on a tie |
| TexasHoldem.ShowdownSharesPot | pages/TexasHoldem.tsx:190-198 | the player's credit and what the dealer's cards would have won add up to the whole pot |
| TexasHoldem.Table.constructor | pages/TexasHoldem.tsx:115-128 | the page mounts with a shuffled deck, empty table and pot 0 |
| TexasHoldem.Table.DealGame | pages/TexasHoldem.tsx:130-146 | refused under 50; otherwise 50 is debited, the pot is 100, the top four cards go player, player, dealer, dealer, and pre-flop starts |
| TexasHoldem.Table.DetermineWinner | pages/TexasHoldem.tsx:186-199 | both seven-card hands are scored and the wallet is credited the showdown share of the pot |
| TexasHoldem.Table.DealStreet | pages/TexasHoldem.tsx:165-178 | the flop takes the top three cards, turn and river one each, and the phase advances |
| TexasHoldem.Table.Raise | pages/TexasHoldem.tsx:156-163 | the player pays 50 and the pot grows by 100 |
| TexasHoldem.Table.NextPhase | pages/TexasHoldem.tsx:148-184 | a fold ends the hand at pot 0; an unaffordable raise changes nothing; otherwise the next street is dealt, or at the river the hand is settled on the pot from before the raise |
| TexasHoldem.Table.Reset | pages/TexasHoldem.tsx:201-208 | the table is cleared for the next hand |
| Roulette.NumberColor | pages/Roulette.tsx:12-15 | exactly zero is green |
| Roulette.ColorRule | pages/Roulette.tsx:10 | the red list is the European layout: in 1..10 and 19..28 odd numbers are red, in 11..18 and 29..36 even ones |
| Roulette.ParityOf | pages/Roulette.tsx:88 | only zero has no parity |
| Roulette.FindBet | pages/Roulette.tsx:40 | the index found is the first bet on the spot, or past the end when none is |
| Roulette.Stack | pages/Roulette.tsx:38-45 | existing records keep their spots and order; a record of one chip is appended exactly when the spot had none |
| Roulette.StackAddsChip | pages/Roulette.tsx:38-45 | stacking a chip raises the table total by exactly that chip |
| Roulette.StackRaisesSpot | pages/Roulette.tsx:38-45 | stacking raises the chosen spot's stake by the chip and leaves every other spot's stake as it was |
| Roulette.StackKeepsSpotsUnique | pages/Roulette.tsx:40-44 | a record is appended only for an empty spot, so no spot ever holds two records |
| Roulette.StackKeepsWellPlaced | pages/Roulette.tsx:30-46 | stacking a positive chip on an offered spot keeps every bet positive, offered and alone on its spot |
| Roulette.WinningsByStake | pages/Roulette.tsx:85-109 | a spin returns 36 times the stake on the number plus twice the stakes on its colour and its parity |
| Roulette.WinningsBounds | pages/Roulette.tsx:85-109 | with non-negative stakes the return is between 0 and 36 times the table |
| Roulette.StakeOnEmptySpot | pages/Roulette.tsx:28 | a spot nobody bet on carries no stake |
| Roulette.ZeroLosesOutside | pages/Roulette.tsx:87-103 | on zero only the straight-up bet on 0 pays; colour and parity bets all lose |
| Roulette.ResolveBets | pages/Roulette.tsx:86-109 | the `forEach` accumulates exactly the specified winnings |
| Roulette.Table.constructor | pages/Roulette.tsx:21-26 | the page mounts with an empty table, not spinning, the 10 chip |
| Roulette.Table.SelectChip | pages/Roulette.tsx:258 | the selected chip becomes the one clicked |
| Roulette.Table.PlaceBet | pages/Roulette.tsx:30-46 | ignored while spinning or when table plus chip exceed the balance; otherwise the chip is stacked, raising the total and that spot by one chip |
| Roulette.Table.ClearBets | pages/Roulette.tsx:48-52 | the table is emptied unless spinning |
| Roulette.Table.SpinWheel | pages/Roulette.tsx:54-83 | refused with no bets or an uncovered table; otherwise the whole table is debited once and the result is pending |
| Roulette.Table.Resolve | pages/Roulette.tsx:78-112 | the pending number is shown and a positive win is credited |
| Mines.OddsAtLeastOne | pages/Mines.tsx:26-33 | every factor of the product is at least 1, so the odds are at least 1 |
| Mines.OddsGrow | pages/Mines.tsx:30-32 | with a mine on the grid every diamond strictly raises the odds |
| Mines.OddsIncreasing | pages/Mines.tsx:26-35 | the multiplier strictly increases with the diamonds found |
| Mines.CalculateMultiplier | pages/Mines.tsx:26-35 | the loop computes the product of (25−i)/(25−i−m) times 0.95 |
| Mines.Multiplier | pages/Mines.tsx:26-35 | the multiplier is at least 0.95, and exactly 0.95 before any diamond |
| Mines.CurrentMultiplier | pages/Mines.tsx:37 | it shows 1 before the first diamond and at least 0.95 after |
| Mines.FirstRevealDrops | pages/Mines.tsx:26-37 | with the offered mine counts the first diamond lowers the shown multiplier exactly when there is one mine |
| Mines.AddStep | pages/Mines.tsx:50-52 | one loop turn keeps the mines distinct and the pool of placed and pending values unchanged |
| Mines.Place | pages/Mines.tsx:49-54 | placed mines stay in place and in order; no more than m are placed; distinct mines stay distinct; every mine comes from the draws |
| Mines.PlaceMines | pages/Mines.tsx:48-54 | the set loop places exactly `mineCount` distinct mines, all drawn |
| Mines.Game.constructor | pages/Mines.tsx:13-17 | the page mounts idle with a stake of 10 and 3 mines |
| Mines.Game.DecreaseBet | pages/Mines.tsx:139 | the stake drops by 10 but never below 10 |
| Mines.Game.IncreaseBet | pages/Mines.tsx:143 | the stake rises by 10 but never above the balance |
| Mines.Game.SetMineCount | pages/Mines.tsx:150-155 | the mine count becomes the one chosen from the offered counts |
| Mines.Game.StartGame | pages/Mines.tsx:41-58 | refused without the stake; otherwise the stake is debited once and exactly `mineCount` distinct mines are placed |
| Mines.Game.CashOut | pages/Mines.tsx:80-88 | outside a round nothing; otherwise the stake times the multiplier of the diamonds found is credited |
| Mines.Game.RevealTile | pages/Mines.tsx:60-78 | a repeat or idle click does nothing; a mine ends the round unpaid; a diamond is recorded and the last one cashes out |
| Slots.ThemesWellFormed | pages/Slots.tsx:25-71 | every theme has seven distinct symbols and a wild that is none of them |
| Slots.ThemeWellFormed | pages/Slots.tsx:25-71 | the same, theme by theme |
| Slots.Pool | pages/Slots.tsx:136 | the pool is the symbols followed by the wild |
| Slots.PoolDistinct | pages/Slots.tsx:136 | the pool of a theme has no repeated symbol |
| Slots.FallbackIndex | pages/Slots.tsx:147 | the fallback picks an index from 2 to the pool's last |
| Slots.ChooseRule | pages/Slots.tsx:142-147 | each cell is a pool symbol; the top symbol exactly for r in (0.90, 0.95], the second exactly for (0.80, 0.90], the wild for r > 0.95 or when the fallback lands on the pool's last slot |
| Slots.Choose | pages/Slots.tsx:142-147 | every cell of a spin is a symbol of the pool |
| Slots.FallbackYieldsWild | pages/Slots.tsx:147 | the fallback branch can yield the wild |
| Slots.FinalGrid | pages/Slots.tsx:135-151 | the nested loops give a 5×3 grid whose cells are the choices of their draws |
| Slots.Flatten | pages/Slots.tsx:167 | a grid of 3-cell reels flattens to 3 cells per reel |
| Slots.CountsPartition | pages/Slots.tsx:166-169 | when all cells are pool symbols, the pool's counts add up to the number of cells |
| Slots.GridCountsSumTo15 | pages/Slots.tsx:166-169 | on a final grid the pool's counts add up to 15 |
| Slots.CountPairBound | pages/Slots.tsx:166-169 | two different symbols share the cells |
| Slots.AtMostOneBigCluster | pages/Slots.tsx:181-184 | on 15 cells at most one symbol can reach the 8-of-a-kind tier |
| Slots.SymbolsWinSign | pages/Slots.tsx:174-190 | symbol prizes are never negative, and positive exactly when some symbol shows five times or more |
| Slots.TotalWinPositive | pages/Slots.tsx:158-201 | with a positive stake a spin pays exactly when some symbol reached five or three wilds showed |
| Slots.SomeFiveExists | pages/Slots.tsx:174-190 | the recursive "some symbol reached five" test matches its existential statement |
| Slots.SymbolPrizes | pages/Slots.tsx:174-190 | the `forEach` accumulates the specified symbol prizes and flags a win exactly when some symbol reached five |
| Slots.CheckWin | pages/Slots.tsx:158-201 | `checkWin` computes the specified total and flags a win exactly when the spin pays |
| Slots.TotalWin | pages/Slots.tsx:166-197 | with a non-negative stake the total is never negative, and three wilds alone bring at least 20 stakes |
| Slots.Pick | pages/Slots.tsx:95 | the symbol `selectGame` puts in a cell is a plain symbol of the theme |
| Slots.PickSlice | pages/Slots.tsx:95 | each plain symbol is picked exactly on its own slice of width 1/n of the draw, so all are equally likely |
| Slots.Machine.constructor | pages/Slots.tsx:78-86 | the page mounts on the first theme with a grid of "?", not spinning, stake 10 |
| Slots.Machine.SelectGame | pages/Slots.tsx:91-99 | the theme is switched and every cell (i, j) holds `Pick` of its draw, a plain symbol of the theme |
| Slots.Machine.DecreaseBet | pages/Slots.tsx:296 | the stake drops by 10 but never below 10 |
| Slots.Machine.IncreaseBet | pages/Slots.tsx:301 | the stake rises by 10 but never above the balance |
| Slots.Machine.StartSpin | pages/Slots.tsx:101-112 | refused without the stake; otherwise it is debited once and the spin keeps the theme and stake of this render |
| Slots.Machine.FinalizeSpin | pages/Slots.tsx:131-156 | the final grid is drawn with the spin's theme, and a positive total win of the spin's theme and stake is credited |
| Crash.RawPoint | pages/Crash.tsx:42 | the raw point times 1 − r gives back 0.99 |
| Crash.CrashPoint | pages/Crash.tsx:38-44 | the crash point is never below 1.00 |
| Crash.CrashPointTruncates | pages/Crash.tsx:42-43 | the point is the raw value cut to whole cents, except where the 1.00 floor raises it |
| Crash.InstantCrash | pages/Crash.tsx:39-43 | the round crashes at 1.00 exactly when r < 2/101 |
| Crash.RawPointMonotone | pages/Crash.tsx:42 | a larger draw never gives a smaller raw point, and a strictly larger draw gives a strictly larger one |
| Crash.CrashPointMonotone | pages/Crash.tsx:38-44 | a larger draw never gives a lower crash point |
| Crash.PushHistory | pages/Crash.tsx:123 | the new point goes first and at most ten are kept |
| Crash.HistoryShifts | pages/Crash.tsx:123 | after several crashes the strip lists them newest first, capped at ten |
| Crash.Round.constructor | pages/Crash.tsx:11-19 | the page starts idle at 1.00 with a stake of 10 and no bet |
| Crash.Round.StartGameLoop | pages/Crash.tsx:74-82 | a new crash point and a ten-second countdown with no bet and no cash-out |
| Crash.Round.PlaceBet | pages/Crash.tsx:46-55 | accepted only before take-off with the stake covered, debiting it once |
| Crash.Round.CancelBet | pages/Crash.tsx:57-62 | before take-off the bet is cleared and the stake refunded |
| Crash.Round.CashOut | pages/Crash.tsx:64-71 | while flying, with a bet and no earlier cash-out, the stake times the multiplier is credited once |
| Crash.Round.CountdownTick | pages/Crash.tsx:85-97 | each second counts down; at zero the rocket takes off |
| Crash.Round.Update | pages/Crash.tsx:100-118 | at or past the crash point the multiplier is clamped to it and the round crashes; the multiplier never exceeds the crash point |
| Crash.Round.Crash | pages/Crash.tsx:120-123 | the round ends and its point heads the history |
| Crash.Round.DecreaseBet | pages/Crash.tsx:274 | the stake drops by 10 but never below 10 |
| Crash.Round.IncreaseBet | pages/Crash.tsx:278 | the stake rises by 10 but never above the balance |
| Crash.Round.SetBet | pages/Crash.tsx:280-290 | a quick-stake button sets the stake to its value |

## Left out

- Local storage (the saved user and its persistence effect, `context/CasinoContext.tsx:17-38`) is not modelled; the wallet starts as the default user.
- The shuffle `sort(() => Math.random() - 0.5)` is biased; the model accepts any permutation of the 52 cards as a shuffled deck and says nothing about the distribution.
- Every `Math.random()` result (roulette number, mine positions, slot cells, crash draw) is an input; its distribution is not modelled.
- Timers are separate events, not scheduled callbacks: the Baccarat betting countdown and its auto-deal, the 1.5-second dealing delay, the roulette 3-second timeout, the Slots animation interval and the Crash countdown, animation frames and 5-second restart.
- Crash's growth curve `e^(0.12·t)` and its `toFixed(2)` rounding are the `growth` input of `Crash.Round.Update`.
- Money is exact real arithmetic; JavaScript floating-point rounding and `toFixed` display are not modelled.
- Messages, the rotation of the roulette wheel, the rocket, the Mines "next tile" multiplier (display only; it divides by zero once 25 − m tiles are revealed), colours and all rendering are left out.
- Slots' intermediate animation grids (`pages/Slots.tsx:113-128`) are not modelled; only the final grid is.
- Slots' `selectedTheme` null check cannot fire, since the theme is never set to null; the model always has a theme.
- Texas Hold'em's `betAmount` is never changed by the page, so it is the constant 50.
- Mines.Game.Sound bounds the mine count by 1..24 rather than by membership in the offered counts, which is all the multiplier needs.
- VideoPoker.Game.Deal states which cards are dealt but not that they are distinct; that follows from the deck being a permutation.
- The login page, navigation bar, bank modal, AI pit boss (`services/`) and home page are not part of this model.
