# Card games in Dafny

A Dafny model of the rule engines shared by two Java modules. One is a card-game server with rooms for fixed-limit seven-card stud, blackjack and baccarat. The other is a set of console games over the same rules. The model covers:

- **Poker hand evaluation.** Both versions of `PokerEval.evaluate` are modelled: five cards give a category and a tie-breaker list ordered by `compareTo`. One shared evaluator takes a per-version choice of suit order and of how a wheel's suit tie-breaker is found. The best-of-seven search over all 21 five-card choices is built on it, and one search serves the server's `bestFiveScore` and the console's `best5Score` and `best5`.
- **The seven-card-stud table (`SevenPokerGame`).** Seating, the initial deal and antes, and the lead computed from the open cards. Bet, raise, call, check and fold, with the raise cap of three. Street completion and turn passing, settlement when all but one seat has folded, and the showdown that splits the pot, remainder included. Also the bots' move loop, with the bot's choice passed in as a parameter (see Left out).
- **The console seven-card games.** `SevenPoker` (one-shot seven cards against the dealer) and `SevenStudFixedLimit` (bet sizing, ante clamp, the betting round's raise counting and the pot accounting).
- **Blackjack.** The solo `BlackjackGame` (split, double, surrender), the multi-seat `BlackjackRoom`, the console `BlackJack` helpers, and `Application1.HandUtils`, which lowers aces in place.
- **Baccarat.** The bet ledger and settlement of `BaccaratRoom`, single-bet `BaccaratGame`, and the console `Baccarat` with the punto-banco drawing table.
- **Console utilities.** `Wallet`, `Shoe` and `CardStrings`.

## How the model is organised

**Card types and the global contract.**
- The server's card (ranks two to ace, an ace counted as 14) and the console card (ace first) are separate datatypes.
- A deck is an oracle: an arbitrary infinite stream of cards and a position in it. Every deal is stated in terms of the stream.
- Integer arithmetic is unbounded. Java's truncating `/` and `%` are written out where negative values can occur (`Arith`).

**Stateful code becomes classes.** Where the source updates an object in place, the model is a class with those fields, and each method states its new state as a function of the old:

| class | models |
|---|---|
| `SevenTable.State` | the stud table |
| `BlackjackGame.Game` | the solo blackjack game |
| `BlackjackRoom.Room` | the multi-seat blackjack room |
| `BaccaratRoom.Room` | the baccarat room |
| `BaccaratGame.Game` | the single-bet baccarat game |
| `WalletModel.Wallet` | the wallet |
| `ShoeModel.Shoe` | the shoe |

That function is then given its properties by lemmas. For example, `s.View() == BetOutcome(old(s.View()), u, amount)` is paired with `BetRaises`, `BetPays` and `BetValid`. The properties include:
- pot conservation and the pending and turn invariants;
- payouts that add up to the pot;
- the dealer stopping at 17 or more;
- one settle value per seat or ledger user.

**Loops are proved against specifications.** Loops in the source are `while` loops with invariants, each proved against a recursive specification function.

## Model

| member | source | states |
|---|---|---|
| PokerScore.IntCompare | cardgame/src/main/java/com/cardgame/cardserver/core/poker/PokerEval.java:35 | `Integer.compare`: -1, 0 or 1, negative exactly when x < y and positive exactly when x > y |
| PokerScore.OrdinalInjective | cardgame/src/main/java/com/cardgame/cardserver/core/poker/PokerEval.java:12-22 | the nine categories have distinct ordinals, in declaration order |
| PokerScore.CompareReflexive | cardgame/src/main/java/com/cardgame/cardserver/core/poker/PokerEval.java:34-47 | a score compares equal to itself |
| PokerScore.CompareAntisymmetric | cardgame/src/main/java/com/cardgame/cardserver/core/poker/PokerEval.java:34-47 | `compareTo` yields -1, 0 or 1 and swapping its arguments negates it |
| PokerScore.CompareZeroIffEqual | cardgame/src/main/java/com/cardgame/cardserver/core/poker/PokerEval.java:34-47 | `compareTo` is 0 exactly when category and whole tie-breaker array are equal (a shorter prefix ranks lower) |
| PokerScore.CompareTransitive | cardgame/src/main/java/com/cardgame/cardserver/core/poker/PokerEval.java:34-47 | `compareTo` is transitive, strictly when either step is strict, so it is a total order |
| PokerScore.LexFromZero | cardgame/src/main/java/com/cardgame/cardserver/core/poker/PokerEval.java:39-46 | the tie-breaker loop from position i finds no difference exactly when the two suffixes are equal |
| PokerScore.LexFromTransitive | cardgame/src/main/java/com/cardgame/cardserver/core/poker/PokerEval.java:39-46 | the tie-breaker comparison is transitive |
| PokerScore.CompareTo | blackjack/src/main/java/com/cardgame/sevenpoker/PokerEval.java:25-33 | the loop over the common prefix then the length comparison computes the reference order `Compare` (same code in both copies) |
| PokerSpec.RankCounts | cardgame/src/main/java/com/cardgame/cardserver/core/poker/PokerEval.java:60-65 | the rank-count table has 15 slots |
| PokerSpec.StraightHighSpec | cardgame/src/main/java/com/cardgame/cardserver/core/poker/PokerEval.java:165-183 | the straight high is the highest h in 14..6 with all of h-4..h present, else 5 for A-2-3-4-5, else -1; -1 exactly when the hand holds no run |
| PokerSpec.StraightHighFromSpec | cardgame/src/main/java/com/cardgame/cardserver/core/poker/PokerEval.java:166-177 | the scan from `high` down returns the first run it meets and skips only heights without a run |
| PokerSpec.RanksWithCountSpec | cardgame/src/main/java/com/cardgame/cardserver/core/poker/PokerEval.java:78-84 | the ranks from `lo` upwards held `cnt` times, each exactly once, strictly descending |
| PokerSpec.GroupSpec | cardgame/src/main/java/com/cardgame/cardserver/core/poker/PokerEval.java:78-84 | `groups[cnt]` holds exactly the ranks the hand holds `cnt` times, highest first |
| PokerSpec.GroupHead | cardgame/src/main/java/com/cardgame/cardserver/core/poker/PokerEval.java:91-93 | the first and second entries of a group are ranks held `cnt` times, the first higher |
| PokerSpec.MaxSuitOfSpec | cardgame/src/main/java/com/cardgame/cardserver/core/poker/PokerEval.java:185-193 | the running maximum is -1 exactly when no card matches, else the suit value of a matching card and no smaller than any |
| PokerSpec.SuitTieSpec | cardgame/src/main/java/com/cardgame/cardserver/core/poker/PokerEval.java:185-204 | `maxSuitAmong`/`highestSuitForRank` return 0..3: the highest suit value among matching cards, 0 when none matches |
| PokerSpec.InsertSpec | cardgame/src/main/java/com/cardgame/cardserver/core/poker/PokerEval.java:110-113 | insertion into a descending key list keeps it descending and adds exactly the one key |
| PokerSpec.SortDescSpec | cardgame/src/main/java/com/cardgame/cardserver/core/poker/PokerEval.java:110-113 | sorting by card key reversed yields a descending permutation of the keys |
| PokerSpec.DescendingDistinct | cardgame/src/main/java/com/cardgame/cardserver/core/poker/PokerEval.java:141-144 | a descending list without repeats is strictly descending |
| PokerSpec.KickerKeysLength | cardgame/src/main/java/com/cardgame/cardserver/core/poker/PokerEval.java:206-213 | `limit(need)` keeps `need` keys or all of them when fewer remain |
| PokerSpec.KickersAvailable | cardgame/src/main/java/com/cardgame/cardserver/core/poker/PokerEval.java:120-139 | beside trips, two pairs or one pair a five-card hand has the 2, 1 or 3 kickers that `evaluate` indexes, so it never reads past the array |
| PokerFacts.CategoryFromFacts | cardgame/src/main/java/com/cardgame/cardserver/core/poker/PokerEval.java:86-145 | each rung of the ladder is reached only when its own test holds |
| PokerFacts.CategoryFromHighest | cardgame/src/main/java/com/cardgame/cardserver/core/poker/PokerEval.java:86-145 | no category above the chosen rung qualifies on the same facts |
| PokerFacts.LadderFacts | cardgame/src/main/java/com/cardgame/cardserver/core/poker/PokerEval.java:75-93 | the facts the code branches on (straight high, group lists) agree with reference conditions stated on rank counts (a run, a rank held 4/3/2 times, two pairs) |
| PokerFacts.StraightIff | cardgame/src/main/java/com/cardgame/cardserver/core/poker/PokerEval.java:75-76 | `straight` holds exactly when the hand holds a run of five or the wheel |
| PokerFacts.LadderFrom | cardgame/src/main/java/com/cardgame/cardserver/core/poker/PokerEval.java:86-145 | the ladder on the computed booleans is the hand's category |
| PokerFacts.LadderQualifies | cardgame/src/main/java/com/cardgame/cardserver/core/poker/PokerEval.java:86-145 | the hand qualifies for the category the ladder picks |
| PokerFacts.LadderNoHigher | cardgame/src/main/java/com/cardgame/cardserver/core/poker/PokerEval.java:86-145 | the hand qualifies for no higher category |
| PokerFacts.ScoreIsHighestQualifying | cardgame/src/main/java/com/cardgame/cardserver/core/poker/PokerEval.java:55-146 | fixed precedence: the reported category is one the hand qualifies for and none above it qualifies |
| PokerFacts.ScoreCategory | cardgame/src/main/java/com/cardgame/cardserver/core/poker/PokerEval.java:86-145 | the score's category is the ladder's |
| PokerFacts.LadderStraight | cardgame/src/main/java/com/cardgame/cardserver/core/poker/PokerEval.java:86-118 | a (flush) straight has a straight high |
| PokerFacts.LadderFour | cardgame/src/main/java/com/cardgame/cardserver/core/poker/PokerEval.java:95-96 | four of a kind has a non-empty `fours` list, so `fours.get(0)` is defined |
| PokerFacts.LadderTrips | cardgame/src/main/java/com/cardgame/cardserver/core/poker/PokerEval.java:102-121 | a full house and three of a kind have a non-empty `trips` list |
| PokerFacts.LadderPairs | cardgame/src/main/java/com/cardgame/cardserver/core/poker/PokerEval.java:102-135 | a full house and one pair have a non-empty `pairs` list |
| PokerFacts.LadderOnePair | cardgame/src/main/java/com/cardgame/cardserver/core/poker/PokerEval.java:134 | one pair has exactly one paired rank |
| PokerFacts.LadderTwoPair | cardgame/src/main/java/com/cardgame/cardserver/core/poker/PokerEval.java:126-128 | two pair has at least two paired ranks, so `pairs.get(1)` is defined |
| PokerFacts.ScoreStraights | cardgame/src/main/java/com/cardgame/cardserver/core/poker/PokerEval.java:86-89 | a (flush) straight scores [straight high, highest suit at the high card, aces too on a server wheel] |
| PokerFacts.ScoreFour | cardgame/src/main/java/com/cardgame/cardserver/core/poker/PokerEval.java:95-101 | four of a kind scores [four, its best suit, the kicker from the count-1 group, its suit] |
| PokerFacts.ScoreFullHouse | cardgame/src/main/java/com/cardgame/cardserver/core/poker/PokerEval.java:102-108 | a full house scores [trips, suit, pair, suit] |
| PokerFacts.ScoreSortedKeys | cardgame/src/main/java/com/cardgame/cardserver/core/poker/PokerEval.java:109-115 | a flush and a high card score their sorted card keys |
| PokerFacts.ScoreThree | cardgame/src/main/java/com/cardgame/cardserver/core/poker/PokerEval.java:120-125 | three of a kind scores [trips, suit] then two kickers outside the trips' rank |
| PokerFacts.ScoreTwoPair | cardgame/src/main/java/com/cardgame/cardserver/core/poker/PokerEval.java:126-133 | two pair scores [high pair, suit, low pair, suit] then one kicker |
| PokerFacts.ScoreOnePair | cardgame/src/main/java/com/cardgame/cardserver/core/poker/PokerEval.java:134-139 | one pair scores [pair, suit] then three kickers |
| PokerFacts.ScoreTieBreakerLength | cardgame/src/main/java/com/cardgame/cardserver/core/poker/PokerEval.java:86-145 | the tie-breaker array has its category's fixed length (2, 4, 4, 5, 2, 4, 5, 5, 5) |
| PokerFacts.ScoreKeysDescending | cardgame/src/main/java/com/cardgame/cardserver/core/poker/PokerEval.java:141-145 | flush and high-card tie-breakers are descending |
| PokerFacts.ScoreKeysPermutation | cardgame/src/main/java/com/cardgame/cardserver/core/poker/PokerEval.java:141-145 | and a permutation of the five card keys |
| PokerFacts.ScoreKeysStrict | cardgame/src/main/java/com/cardgame/cardserver/core/poker/PokerEval.java:141-145 | and strictly descending when no card repeats |
| PokerFacts.ScoreStraightHigh | cardgame/src/main/java/com/cardgame/cardserver/core/poker/PokerEval.java:116-118 | a straight's first tie-breaker is its straight high |
| PokerFacts.ScoreStraightSuit | cardgame/src/main/java/com/cardgame/cardserver/core/poker/PokerEval.java:195-204 | a straight's second tie-breaker is the suit of some card at the high rank, none higher; on a wheel the aces count with the server flag only |
| PokerFacts.FourKicker | cardgame/src/main/java/com/cardgame/cardserver/core/poker/PokerEval.java:98 | the four-of-a-kind kicker is a rank held once |
| PokerFacts.FourKickerOnes | cardgame/src/main/java/com/cardgame/cardserver/core/poker/PokerEval.java:98 | beside four of a kind the count-1 group is non-empty and does not hold the four's rank |
| PokerFacts.HighestOfAbsent | cardgame/src/main/java/com/cardgame/cardserver/core/poker/PokerEval.java:215-221 | removing an absent rank leaves the group's head |
| PokerFacts.ScoreFourRanks | cardgame/src/main/java/com/cardgame/cardserver/core/poker/PokerEval.java:95-101 | four of a kind: the first entry is held 4 times, the third once, each followed by its best suit |
| PokerFacts.ScoreFullHouseRanks | cardgame/src/main/java/com/cardgame/cardserver/core/poker/PokerEval.java:102-108 | a full house leads with the rank held 3 times, then the rank held twice |
| PokerFacts.FullHouseGroups | cardgame/src/main/java/com/cardgame/cardserver/core/poker/PokerEval.java:102-104 | a full house has a trips group and a pairs group whose heads are held 3 and 2 times |
| PokerFacts.ScoreThreeRank | cardgame/src/main/java/com/cardgame/cardserver/core/poker/PokerEval.java:120-125 | three of a kind leads with the rank held 3 times |
| PokerFacts.ScoreTwoPairRanks | cardgame/src/main/java/com/cardgame/cardserver/core/poker/PokerEval.java:126-133 | two pair leads with the higher of two paired ranks, the lower third |
| PokerFacts.ScoreOnePairRank | cardgame/src/main/java/com/cardgame/cardserver/core/poker/PokerEval.java:134-139 | one pair leads with the paired rank |
| PokerFacts.SuitCountAll | cardgame/src/main/java/com/cardgame/cardserver/core/poker/PokerEval.java:61-65 | a suit count is at most the hand size, and equal to it exactly when every card has that suit |
| PokerFacts.FlushIffOneSuit | cardgame/src/main/java/com/cardgame/cardserver/core/poker/PokerEval.java:67-73 | `flush` holds exactly when all five cards share the first card's suit |
| PokerEval.StraightHigh | cardgame/src/main/java/com/cardgame/cardserver/core/poker/PokerEval.java:165-183 | the nested loop over the count array returns the reference straight high |
| PokerEval.MaxSuitAmong | cardgame/src/main/java/com/cardgame/cardserver/core/poker/PokerEval.java:185-193 | the loop returns the reference suit tie for the rank |
| PokerEval.HighestSuitForRank | cardgame/src/main/java/com/cardgame/cardserver/core/poker/PokerEval.java:195-204 | the loop returns the reference suit tie, counting aces on a wheel only in the server copy |
| PokerEval.CountCards | cardgame/src/main/java/com/cardgame/cardserver/core/poker/PokerEval.java:60-65 | fresh arrays holding each rank's and each suit's count |
| PokerEval.AnySuitFive | cardgame/src/main/java/com/cardgame/cardserver/core/poker/PokerEval.java:67-73 | `flush` holds exactly when some suit count is 5 |
| PokerEval.GroupRanks | cardgame/src/main/java/com/cardgame/cardserver/core/poker/PokerEval.java:78-84 | for every positive count, `getOrDefault(count)` is the reference group list |
| PokerEval.Evaluate | cardgame/src/main/java/com/cardgame/cardserver/core/poker/PokerEval.java:55-146 | throws exactly when the hand does not have five cards, otherwise returns the reference score |
| PokerSpec.Score | cardgame/src/main/java/com/cardgame/cardserver/core/poker/PokerEval.java:86-145 | the reference score of five cards (properties in `PokerFacts.ScoreIsHighestQualifying` and the `PokerFacts.Score*` lemmas) |
| PokerEval.Classify | cardgame/src/main/java/com/cardgame/cardserver/core/poker/PokerEval.java:86-145 | the ladder on the computed counts, flush, straight and groups gives the reference score |
| PokerEval.ClassifyFour | cardgame/src/main/java/com/cardgame/cardserver/core/poker/PokerEval.java:91-101 | the four-of-a-kind rung and everything below it give the reference score |
| PokerEval.ClassifyFullHouse | cardgame/src/main/java/com/cardgame/cardserver/core/poker/PokerEval.java:102-108 | the full-house rung and below give the reference score |
| PokerEval.ClassifyFlush | cardgame/src/main/java/com/cardgame/cardserver/core/poker/PokerEval.java:109-115 | the flush rung and below give the reference score |
| PokerEval.ClassifyStraight | cardgame/src/main/java/com/cardgame/cardserver/core/poker/PokerEval.java:116-119 | the straight rung and below give the reference score |
| PokerEval.LadderNoFlush | cardgame/src/main/java/com/cardgame/cardserver/core/poker/PokerEval.java:116-145 | past the flush rung a hand is a straight when it has one and otherwise ranks three of a kind or lower |
| PokerEval.CategoryNoFlush | cardgame/src/main/java/com/cardgame/cardserver/core/poker/PokerEval.java:116-145 | the same on the ladder's booleans |
| PokerEval.StraightScore | cardgame/src/main/java/com/cardgame/cardserver/core/poker/PokerEval.java:86-89 | the (flush) straight score built from the straight high is the reference score |
| PokerEval.FourScore | cardgame/src/main/java/com/cardgame/cardserver/core/poker/PokerEval.java:95-101 | the four-of-a-kind score built is the reference score |
| PokerEval.FullHouseScore | cardgame/src/main/java/com/cardgame/cardserver/core/poker/PokerEval.java:102-108 | the full-house score built is the reference score |
| PokerEval.ClassifyPairs | cardgame/src/main/java/com/cardgame/cardserver/core/poker/PokerEval.java:120-145 | the rungs from three of a kind down give the reference score |
| PokerEval.ThreeOfAKindScore | cardgame/src/main/java/com/cardgame/cardserver/core/poker/PokerEval.java:120-125 | the three-of-a-kind score built is the reference score |
| PokerEval.SortedKeysScore | cardgame/src/main/java/com/cardgame/cardserver/core/poker/PokerEval.java:109-115 | a flush or high card scores exactly its sorted keys |
| PokerEval.ThreeScore | cardgame/src/main/java/com/cardgame/cardserver/core/poker/PokerEval.java:120-125 | three of a kind scores [trips, suit, kicker 0, kicker 1] with exactly two kickers |
| PokerEval.ThreeKickers | cardgame/src/main/java/com/cardgame/cardserver/core/poker/PokerEval.java:123 | two kickers are left beside three of a kind |
| PokerEval.TwoPairScore | cardgame/src/main/java/com/cardgame/cardserver/core/poker/PokerEval.java:126-133 | the two-pair score built is the reference score |
| PokerEval.OnePairScore | cardgame/src/main/java/com/cardgame/cardserver/core/poker/PokerEval.java:134-139 | the one-pair score built is the reference score |
| ServerPoker.RankValue | cardgame/src/main/java/com/cardgame/cardserver/core/poker/PokerEval.java:148-150 | rank values run 2..14, TWO is 2 and ACE 14 |
| ServerPoker.RankValueOrder | cardgame/src/main/java/com/cardgame/cardserver/core/poker/PokerEval.java:148-150 | rank values follow declaration order and tell ranks apart |
| ServerPoker.SuitValue | cardgame/src/main/java/com/cardgame/cardserver/core/poker/PokerEval.java:152-159 | suit values 0..3, clubs lowest and spades highest |
| ServerPoker.SuitValueInjective | cardgame/src/main/java/com/cardgame/cardserver/core/poker/PokerEval.java:152-159 | suit values tell suits apart |
| ServerPoker.CardKeyOrder | cardgame/src/main/java/com/cardgame/cardserver/core/poker/PokerEval.java:161-163 | card keys order by rank value, then by suit value |
| ServerPoker.CardKeyInjective | cardgame/src/main/java/com/cardgame/cardserver/core/poker/PokerEval.java:161-163 | equal card keys exactly for equal rank and suit |
| ServerPoker.KeyedHand | cardgame/src/main/java/com/cardgame/cardserver/core/poker/PokerEval.java:62-65 | the evaluator's view of a hand, card by card |
| ServerPoker.Evaluate | cardgame/src/main/java/com/cardgame/cardserver/core/poker/PokerEval.java:55-146 | `evaluate` on server cards: an error exactly off five cards, else the hand's value |
| ServerPoker.FlushIsOneSuit | cardgame/src/main/java/com/cardgame/cardserver/core/poker/PokerEval.java:67-73 | a server flush is exactly five cards of one suit |
| ServerPoker.DistinctKeyed | cardgame/src/main/java/com/cardgame/cardserver/core/poker/PokerEval.java:161-163 | distinct cards give distinct keys |
| ServerPoker.KeyedChoose | cardgame/src/main/java/com/cardgame/cardserver/core/SevenPokerGame.java:878-906 | choosing five cards commutes with reading them for the evaluator |
| ServerPoker.BestScoreUnique | cardgame/src/main/java/com/cardgame/cardserver/core/SevenPokerGame.java:878-906 | the best score of a set of cards is unique |
| ServerPoker.BestFiveScore | cardgame/src/main/java/com/cardgame/cardserver/core/SevenPokerGame.java:878-906 | throws exactly on fewer than five cards; otherwise a score some five-card choice reaches and none exceeds |
| ConsolePoker.RankValue | blackjack/src/main/java/com/cardgame/sevenpoker/PokerEval.java:126-133 | rank values 2..14, ace 14, others face value |
| ConsolePoker.RankValueInjective | blackjack/src/main/java/com/cardgame/sevenpoker/PokerEval.java:126-133 | rank values tell ranks apart |
| ConsolePoker.SuitValueVsOrdinal | blackjack/src/main/java/com/cardgame/sevenpoker/PokerEval.java:136-140 | the console suit value differs from the ordinal `evaluate` counts by exactly on the red suits, which it swaps |
| ConsolePoker.SuitInjective | blackjack/src/main/java/com/cardgame/sevenpoker/PokerEval.java:136-140 | suit values and ordinals each tell suits apart |
| ConsolePoker.CardKeyOrder | blackjack/src/main/java/com/cardgame/sevenpoker/PokerEval.java:143-145 | card keys order by rank value, then by suit value |
| ConsolePoker.CardKeyInjective | blackjack/src/main/java/com/cardgame/sevenpoker/PokerEval.java:143-145 | equal keys exactly for equal cards |
| ConsolePoker.KeyedHand | blackjack/src/main/java/com/cardgame/sevenpoker/PokerEval.java:45-48 | the evaluator's view of a hand, card by card |
| ConsolePoker.Evaluate | blackjack/src/main/java/com/cardgame/sevenpoker/PokerEval.java:40-121 | `evaluate` on console cards: an error exactly off five cards, else the hand's value (wheel aces not counted for the suit tie) |
| ConsolePoker.FlushIsOneSuit | blackjack/src/main/java/com/cardgame/sevenpoker/PokerEval.java:50-51 | a console flush is exactly five cards of one suit |
| ConsolePoker.DistinctKeyed | blackjack/src/main/java/com/cardgame/sevenpoker/PokerEval.java:143-145 | distinct cards give distinct keys |
| ConsolePoker.KeyedChoose | blackjack/src/main/java/com/cardgame/sevenpoker/SevenPoker.java:50-69 | choosing five cards commutes with reading them for the evaluator |
| ConsolePoker.BestOfSeven | blackjack/src/main/java/com/cardgame/sevenpoker/SevenPoker.java:50-69 | the 21-choice search returns a pick whose score no choice beats and that every earlier choice scores strictly below |
| ConsolePoker.BestScoreUnique | blackjack/src/main/java/com/cardgame/sevenpoker/SevenPoker.java:50-69 | the best score of seven cards is unique |
| ConsolePoker.Best5Score | blackjack/src/main/java/com/cardgame/sevenpoker/SevenPoker.java:50-69 | throws exactly when there are not seven cards; otherwise the best score over the 21 choices |
| ConsolePoker.FirstBestIsBest | blackjack/src/main/java/com/cardgame/sevenpoker/SevenStudFixedLimit.java:301-318 | the choice `best5` keeps carries the best score |
| ConsolePoker.FirstBestUnique | blackjack/src/main/java/com/cardgame/sevenpoker/SevenStudFixedLimit.java:301-318 | the first unbeaten choice in loop order is unique |
| ConsolePoker.Best5 | blackjack/src/main/java/com/cardgame/sevenpoker/SevenStudFixedLimit.java:301-318 | throws exactly when there are not seven cards; otherwise the five cards of the first unbeaten choice, carrying the best score |
| BestFive.Choose | cardgame/src/main/java/com/cardgame/cardserver/core/SevenPokerGame.java:884-897 | the five cards at the loop indices a<b<c<d<e, in order |
| BestFive.BeforeTotal | cardgame/src/main/java/com/cardgame/cardserver/core/SevenPokerGame.java:884-897 | the loops visit any two different choices one before the other |
| BestFive.Search | cardgame/src/main/java/com/cardgame/cardserver/core/SevenPokerGame.java:878-906 | the five nested loops keep the first maximal choice: its score is the running best, no choice scores higher and every earlier one scores strictly lower |
| BestFive.BestOf | cardgame/src/main/java/com/cardgame/cardserver/core/SevenPokerGame.java:878-906 | the same search scored by `evaluate` |
| SevenPoker.Draw7 | blackjack/src/main/java/com/cardgame/sevenpoker/SevenPoker.java:43-47 | the seven cards are the next seven of the deck in draw order, and the deck moves on by seven |
| SevenPoker.RoundDelta | blackjack/src/main/java/com/cardgame/sevenpoker/SevenPoker.java:36-39 | without a stake 0; with one, +bet exactly on a win, -bet exactly on a loss, 0 exactly on a tie |
| SevenPoker.RoundDeltaSwap | blackjack/src/main/java/com/cardgame/sevenpoker/SevenPoker.java:32-39 | swapping the two hands turns the player's gain into the same loss |
| SevenPoker.PlayOneRoundForBet | blackjack/src/main/java/com/cardgame/sevenpoker/SevenPoker.java:19-40 | the player holds the first seven cards and the dealer the next seven; the delta follows the comparison of their best scores; fourteen cards are used |
| SevenStud.SmallBet | blackjack/src/main/java/com/cardgame/sevenpoker/SevenStudFixedLimit.java:28 | the small bet is the ante, but at least 1 |
| SevenStud.BigBet | blackjack/src/main/java/com/cardgame/sevenpoker/SevenStudFixedLimit.java:29 | the big bet is twice the small bet, hence larger |
| SevenStud.AntePaid | blackjack/src/main/java/com/cardgame/sevenpoker/SevenStudFixedLimit.java:44-46 | the ante paid is the ante or the whole stack, whichever is smaller |
| SevenStud.AnteAllIn | blackjack/src/main/java/com/cardgame/sevenpoker/SevenStudFixedLimit.java:47-50 | the ante puts the player all in exactly when the stack is short of it |
| SevenStud.UpMaxRank | blackjack/src/main/java/com/cardgame/sevenpoker/SevenStudFixedLimit.java:286-298 | the highest up-card rank value, reached by some up card; 0 without up cards |
| SevenStud.BettingRound | blackjack/src/main/java/com/cardgame/sevenpoker/SevenStudFixedLimit.java:137-255 | at most three raises; the stack falls by exactly what the player pays, which stays within the stack; unless the player folds both sides pay the same, or the player is all in for less; a check, a dealer's bet and a short call leave the player all in for the stack against the whole bet |
| SevenStud.ShortCallLeavesExcess | blackjack/src/main/java/com/cardgame/sevenpoker/SevenStudFixedLimit.java:176-231 | as written, a check, the dealer's bet of 10 and a call from a stack of 5 leave 5 against 10 in the pot |
| SevenStud.ShortCallWinsUnmatched | blackjack/src/main/java/com/cardgame/sevenpoker/SevenStudFixedLimit.java:122-126 | after the ante and a short call of s against the dealer's bet b, a win nets the whole of b though the player matched only s |
| SevenStud.CorrectedBettingRound | blackjack/src/main/java/com/cardgame/sevenpoker/SevenStudFixedLimit.java:137-255 | the corrected round hands the dealer's unmatched excess back: unless the player folds, both sides pay the same; a short call costs each side the stack |
| SevenStud.AfterAnte | blackjack/src/main/java/com/cardgame/sevenpoker/SevenStudFixedLimit.java:39-50 | the ledger after the ante is balanced (pot = player's and dealer's totals, delta = -player's total, stack + paid = start); all-in exactly when the stack is short |
| SevenStud.AfterStreetBalanced | blackjack/src/main/java/com/cardgame/sevenpoker/SevenStudFixedLimit.java:58-60 | adding a street's payments keeps the ledger balanced |
| SevenStud.Street | blackjack/src/main/java/com/cardgame/sevenpoker/SevenStudFixedLimit.java:64-73 | one street keeps the ledger balanced, the stack non-negative and the player's total non-decreasing; through the corrected round, the gap between the two sides' totals does not change |
| SevenStud.ShowdownGain | blackjack/src/main/java/com/cardgame/sevenpoker/SevenStudFixedLimit.java:122-132 | a win takes the pot, a loss nothing, a tie half the pot rounded down |
| SevenStud.PlayerSeven | blackjack/src/main/java/com/cardgame/sevenpoker/SevenStudFixedLimit.java:35-37 | the player's seven cards in deal order |
| SevenStud.DealerSeven | blackjack/src/main/java/com/cardgame/sevenpoker/SevenStudFixedLimit.java:35-37 | the dealer's seven cards, each drawn right after the player's |
| SevenStud.PlayOneRoundForBet | blackjack/src/main/java/com/cardgame/sevenpoker/SevenStudFixedLimit.java:27-134 | the ledger ends balanced; a fold returns minus what the player paid; otherwise that plus the showdown gain on the two sides' best scores; unless the player folds, the player's total is the dealer's plus the ante paid; the shared deck moves on by two cards per side for each street dealt, 6 after 3rd street up to 14 at the showdown, and is returned |
| SevenStud.BestHandScore | blackjack/src/main/java/com/cardgame/sevenpoker/SevenStudFixedLimit.java:117-118 | `evaluate(best5(cards))` is the best score of the seven cards |
| SevenStud.Showdown | blackjack/src/main/java/com/cardgame/sevenpoker/SevenStudFixedLimit.java:110-133 | the delta gains the showdown share decided by the two best scores |
| Arith.Div | blackjack/src/main/java/com/cardgame/sevenpoker/SevenStudFixedLimit.java:131 | Java `/` agrees with the mathematical quotient on non-negative operands |
| Arith.Rem | cardgame/src/main/java/com/cardgame/cardserver/core/SevenPokerGame.java:636 | Java `%` agrees with the mathematical remainder on non-negative operands |
| Arith.DivNegate | blackjack/src/main/java/com/cardgame/sevenpoker/SevenStudFixedLimit.java:131 | Java division truncates toward zero: `(-a)/b == -(a/b)` |
| Arith.DivBounds | cardgame/src/main/java/com/cardgame/cardserver/core/SevenPokerGame.java:635-636 | the Java remainder is smaller than the divisor and has the dividend's sign |
| SevenTable.State.constructor | cardgame/src/main/java/com/cardgame/cardserver/core/SevenPokerGame.java:167-169 | `createState`: an idle table, no seats, no pot, no turn |
| SevenTable.ActiveInSpec | cardgame/src/main/java/com/cardgame/cardserver/core/SevenPokerGame.java:604-610 | the seats of a list still in the hand are exactly its members that are seated and not folded, without repeats when the list has none |
| SevenTable.ActiveInSnoc | cardgame/src/main/java/com/cardgame/cardserver/core/SevenPokerGame.java:604-610 | the contenders loop appends a seat exactly when it is in the hand |
| SevenTable.FirstActive | cardgame/src/main/java/com/cardgame/cardserver/core/SevenPokerGame.java:556-563 | `settleByFold`'s winner is a seat in the hand; there is none exactly when every seat has folded |
| SevenTable.FirstActiveIsHead | cardgame/src/main/java/com/cardgame/cardserver/core/SevenPokerGame.java:556-563 | that winner is the first seat still in the hand, in seating order |
| SevenTable.Without | cardgame/src/main/java/com/cardgame/cardserver/core/SevenPokerGame.java:314 | `pending.remove(u)` keeps exactly the other pending seats, without repeats |
| SevenTable.IndexOf | cardgame/src/main/java/com/cardgame/cardserver/core/SevenPokerGame.java:290 | `order.indexOf(u)` is the first position holding u, -1 exactly when u is absent |
| SevenTable.IndexOfNoDup | cardgame/src/main/java/com/cardgame/cardserver/core/SevenPokerGame.java:290 | in an order without repeats, each seat's index is its position |
| SevenTable.PaidAdd | cardgame/src/main/java/com/cardgame/cardserver/core/SevenPokerGame.java:852-860 | raising one seat's `contributed` by an amount raises the seats' total paid by that amount |
| SevenTable.PaidSame | cardgame/src/main/java/com/cardgame/cardserver/core/SevenPokerGame.java:852-860 | a seat change that keeps `contributed` keeps the total paid |
| SevenTable.PaidNewSeat | cardgame/src/main/java/com/cardgame/cardserver/core/SevenPokerGame.java:200-206 | a new seat with nothing paid keeps the total paid |
| SevenTable.RotateIndex | cardgame/src/main/java/com/cardgame/cardserver/core/SevenPokerGame.java:428-430 | offset k from the lead is seat `(lead + k) % size` |
| SevenTable.RotateSame | cardgame/src/main/java/com/cardgame/cardserver/core/SevenPokerGame.java:428-437 | the rotation visits the same seats as the order, once each when the order has no repeats |
| SevenTable.NextOffset | cardgame/src/main/java/com/cardgame/cardserver/core/SevenPokerGame.java:487-500 | the search returns the first offset whose seat is pending and in the hand, skipping only seats that are not |
| SevenTable.NextSeat | cardgame/src/main/java/com/cardgame/cardserver/core/SevenPokerGame.java:474-503 | the turn index is -1 or a seat index |
| SevenTable.OffsetsCover | cardgame/src/main/java/com/cardgame/cardserver/core/SevenPokerGame.java:487-488 | offsets 1..size from any index reach every index |
| SevenTable.NextSeatSpec | cardgame/src/main/java/com/cardgame/cardserver/core/SevenPokerGame.java:474-503 | the seat `advanceTurnFrom` picks is pending and in the hand; it picks none exactly when no seat is both |
| SevenTable.DealToSpec | cardgame/src/main/java/com/cardgame/cardserver/core/SevenPokerGame.java:375-390 | dealing adds no seat, changes only cards, and gives each dealt seat (skipping folded ones on later streets) n more cards on top of its old ones |
| SevenTable.DealToFields | cardgame/src/main/java/com/cardgame/cardserver/core/SevenPokerGame.java:464-472 | dealing adds no seat and changes nothing of a seat but its cards |
| SevenTable.DealToCards | cardgame/src/main/java/com/cardgame/cardserver/core/SevenPokerGame.java:464-472 | each dealt seat's cards grow by n, the others' not at all |
| SevenLead.OpenCards | cardgame/src/main/java/com/cardgame/cardserver/core/SevenPokerGame.java:814-833 | at most four open cards, each one of the seat's cards |
| SevenLead.OpenCardsAreUpCards | cardgame/src/main/java/com/cardgame/cardserver/core/SevenPokerGame.java:814-833 | on each street the open cards are exactly the cards dealt face up, in deal order; the 7th-street card stays hidden |
| SevenLead.LeadCompareReflexive | cardgame/src/main/java/com/cardgame/cardserver/core/SevenPokerGame.java:110-124 | a lead score compares equal to itself |
| SevenLead.LeadCompareAntisymmetric | cardgame/src/main/java/com/cardgame/cardserver/core/SevenPokerGame.java:110-124 | swapping the lead scores negates the comparison |
| SevenLead.LeadCompareTransitive | cardgame/src/main/java/com/cardgame/cardserver/core/SevenPokerGame.java:110-124 | the lead comparison is transitive, strictly when either step is strict |
| SevenLead.LeadCompareTo | cardgame/src/main/java/com/cardgame/cardserver/core/SevenPokerGame.java:110-124 | the loop computes the reference lead order |
| SevenLead.LeadStraightWithoutSize | cardgame/src/main/java/com/cardgame/cardserver/core/SevenPokerGame.java:1017-1041 | `isStraight` on ranks holds exactly when three consecutive ranks are held or ace, two and three are |
| SevenLead.LeadCategory | cardgame/src/main/java/com/cardgame/cardserver/core/SevenPokerGame.java:716-770 | the open-card category is between 0 and 8 |
| SevenLead.LeadCategoryOneCard | cardgame/src/main/java/com/cardgame/cardserver/core/SevenPokerGame.java:716-770 | a single open card is category 0 |
| SevenLead.CountGroups | cardgame/src/main/java/com/cardgame/cardserver/core/SevenPokerGame.java:726-736 | the loop over rank counts returns the largest count and the numbers of ranks held twice and three times |
| SevenLead.AnySuitAll | cardgame/src/main/java/com/cardgame/cardserver/core/SevenPokerGame.java:737-743 | `flush` holds exactly when some suit that occurs holds every open card |
| SevenLead.RunToThree | cardgame/src/main/java/com/cardgame/cardserver/core/SevenPokerGame.java:1021-1035 | a run counter reaching 3 at rank v means v-2, v-1, v are held |
| SevenLead.IsStraight | cardgame/src/main/java/com/cardgame/cardserver/core/SevenPokerGame.java:1017-1041 | the loop with its resetting run counter returns the reference three-card straight test |
| SevenLead.LeadCategoryOf | cardgame/src/main/java/com/cardgame/cardserver/core/SevenPokerGame.java:716-770 | the counting, group and flush loops and the ladder compute the reference category |
| SevenLead.LeadKeys | cardgame/src/main/java/com/cardgame/cardserver/core/SevenPokerGame.java:703-714 | a lead score's keys are the open cards' keys, as a multiset, highest first |
| SevenLead.LeadOfThree | cardgame/src/main/java/com/cardgame/cardserver/core/SevenPokerGame.java:703-714 | on 3rd street a seat's lead score is category 0 with its up card's key |
| SevenLead.LeadThirdStreet | cardgame/src/main/java/com/cardgame/cardserver/core/SevenPokerGame.java:682-714 | on 3rd street one seat leads another exactly when its up card has the higher key (rank, then suit) |
| SevenLead.LeadScoreOf | cardgame/src/main/java/com/cardgame/cardserver/core/SevenPokerGame.java:703-714 | `leadScore` with its loops computes the reference lead score |
| SevenLead.Lead | cardgame/src/main/java/com/cardgame/cardserver/core/SevenPokerGame.java:703-714 | `leadScore` on values: the open cards' category and keys, or none for a seat without open cards (properties in `LeadOfThree` and `LeadThirdStreet`) |
| SevenRules.AccountedFrom | cardgame/src/main/java/com/cardgame/cardserver/core/SevenPokerGame.java:852-860 | the chips invariant (pot = all that seats paid while the hand runs; bets mirror contributed; payouts sum to the settled pot) depends only on the pot, bets, settlement and what each seat paid |
| SevenRules.SeatedFrom | cardgame/src/main/java/com/cardgame/cardserver/core/SevenPokerGame.java:40-62 | the seats invariant (order without repeats, each seat seated, pending seats in the hand once each, turn on a pending seat, at most three raises) depends only on those fields |
| SevenRules.BetUnit | cardgame/src/main/java/com/cardgame/cardserver/core/SevenPokerGame.java:843-850 | the bet unit is the ante before the first street, max(10, ante) on 3rd and 4th street and twice that from 5th street on |
| SevenRules.NeededToCall | cardgame/src/main/java/com/cardgame/cardserver/core/SevenPokerGame.java:835-841 | what a seat must add is never negative, zero exactly when there is no bet or it has matched it, and otherwise brings its street total to the bet |
| SevenRules.PayBalanced | cardgame/src/main/java/com/cardgame/cardserver/core/SevenPokerGame.java:852-860 | `contribute` moves the pot and the seats' total paid by the same non-negative amount |
| SevenRules.PayKeeps | cardgame/src/main/java/com/cardgame/cardserver/core/SevenPokerGame.java:852-860 | `contribute` changes no seat's place in the hand, nor pending seats, street contributions, bet or raise count |
| SevenRules.PayValid | cardgame/src/main/java/com/cardgame/cardserver/core/SevenPokerGame.java:852-860 | `contribute` keeps every table invariant |
| SevenRules.StreetStateValid | cardgame/src/main/java/com/cardgame/cardserver/core/SevenPokerGame.java:404-441 | resetting the street's betting state keeps the invariants when the pending seats are distinct seats in the hand |
| SevenRules.Others | cardgame/src/main/java/com/cardgame/cardserver/core/SevenPokerGame.java:795-812 | the seats visited after the aggressor are all seats but one |
| SevenRules.OthersIndex | cardgame/src/main/java/com/cardgame/cardserver/core/SevenPokerGame.java:799-801 | offset k+1 from the aggressor is seat `(i + k + 1) % size` |
| SevenRules.OthersSpec | cardgame/src/main/java/com/cardgame/cardserver/core/SevenPokerGame.java:795-812 | the seats visited are exactly the seats other than the aggressor, once each |
| SevenRules.ZeroFill | cardgame/src/main/java/com/cardgame/cardserver/core/SevenPokerGame.java:809 | `putIfAbsent(uid, 0)` adds the seats without changing any street total |
| SevenRules.ReopenSpec | cardgame/src/main/java/com/cardgame/cardserver/core/SevenPokerGame.java:795-812 | after a bet or raise the pending seats are exactly the other seats still in the hand, once each |
| SevenRules.IsLeadUnique | cardgame/src/main/java/com/cardgame/cardserver/core/SevenPokerGame.java:682-701 | there is one lead seat: the first strictly highest lead score |
| SevenRules.RotatedActive | cardgame/src/main/java/com/cardgame/cardserver/core/SevenPokerGame.java:425-437 | from a lead in the hand, the rotation's seats in the hand are all of them, once each, the lead first |
| SevenRules.OpenedPending | cardgame/src/main/java/com/cardgame/cardserver/core/SevenPokerGame.java:419-437 | a street opened at the lead owes an action to every seat in the hand, once each |
| SevenRules.OpenedSpec | cardgame/src/main/java/com/cardgame/cardserver/core/SevenPokerGame.java:404-441 | opening a street keeps the invariants and gives the turn to the lead, which is pending |
| SevenRules.FoldSettlementSpec | cardgame/src/main/java/com/cardgame/cardserver/core/SevenPokerGame.java:555-601 | settling by fold ends the hand with the invariants kept; with a seat left, its single payout is the whole pot, which is all that seats paid in, and the pot is emptied |
| SevenRules.FoldPayoutsKeep | cardgame/src/main/java/com/cardgame/cardserver/core/SevenPokerGame.java:572-593 | settling by fold seats no one new and changes no seat's chips paid |
| SevenRules.TiedSpec | cardgame/src/main/java/com/cardgame/cardserver/core/SevenPokerGame.java:626-632 | the winners are exactly the contenders whose score equals the highest, once each |
| SevenRules.Winners | cardgame/src/main/java/com/cardgame/cardserver/core/SevenPokerGame.java:626-632 | the contenders tied at the top score, in seat order (properties in `TiedSpec` and `ShowdownWinners`) |
| SevenRules.PayoutsKeys | cardgame/src/main/java/com/cardgame/cardserver/core/SevenPokerGame.java:645-659 | the winners and no one else get a payout entry |
| SevenRules.PayoutsAt | cardgame/src/main/java/com/cardgame/cardserver/core/SevenPokerGame.java:645-659 | the i-th of distinct winners gets `pot / w` plus one chip when i < `pot % w` |
| SevenRules.Payouts | cardgame/src/main/java/com/cardgame/cardserver/core/SevenPokerGame.java:633-659 | the split of the pot over the winners, remainder chips to the first ones (properties in `PayoutsAt`, `PayoutsKeys` and `PayoutsSumToPot`) |
| SevenRules.PayoutsSum | cardgame/src/main/java/com/cardgame/cardserver/core/SevenPokerGame.java:635-659 | k distinct winners receive k shares plus one chip each for those among the first `pot % w` |
| SevenRules.PayoutsSumToPot | cardgame/src/main/java/com/cardgame/cardserver/core/SevenPokerGame.java:635-659 | split among all its winners, the payouts add up to exactly the pot |
| SevenRules.ShowdownWinners | cardgame/src/main/java/com/cardgame/cardserver/core/SevenPokerGame.java:603-632 | the winners are exactly the contenders whose best score equals the highest, once each |
| SevenRules.ShowdownPayouts | cardgame/src/main/java/com/cardgame/cardserver/core/SevenPokerGame.java:633-659 | the payouts add up to the pot, the i-th winner getting the i-th share |
| SevenRules.ShowdownSeatsKeep | cardgame/src/main/java/com/cardgame/cardserver/core/SevenPokerGame.java:638-670 | settling the showdown seats no one new and changes no seat's chips paid |
| SevenRules.EndedValid | cardgame/src/main/java/com/cardgame/cardserver/core/SevenPokerGame.java:594-600 | a hand ended with the same seats and chips, an empty pot and nobody pending keeps the invariants |
| SevenRules.ShowdownValid | cardgame/src/main/java/com/cardgame/cardserver/core/SevenPokerGame.java:603-680 | a showdown ends the hand, empties the pot into `settledPot` and keeps every invariant |
| SevenRules.TrimStart | cardgame/src/main/java/com/cardgame/cardserver/core/SevenPokerGame.java:196 | `trim` drops exactly the leading characters up to the space |
| SevenRules.TrimEnd | cardgame/src/main/java/com/cardgame/cardserver/core/SevenPokerGame.java:196 | `trim` drops exactly the trailing characters up to the space |
| SevenRules.TrimPlain | cardgame/src/main/java/com/cardgame/cardserver/core/SevenPokerGame.java:196 | an id with no blank around it is kept as it is |
| SevenRules.AiUserExamples | cardgame/src/main/java/com/cardgame/cardserver/core/SevenPokerGame.java:1083-1086 | "ai_1", "dealer_AI" and "AI" are bots, in any case |
| SevenRules.AiUserNonExamples | cardgame/src/main/java/com/cardgame/cardserver/core/SevenPokerGame.java:1083-1086 | "alice" is not a bot, while "kai" is one because it ends in "ai" |
| SevenRules.SeatOrderSpec | cardgame/src/main/java/com/cardgame/cardserver/core/SevenPokerGame.java:195-208 | the corrected seating lists each non-blank trimmed id once, the same ids as the source's `order` |
| SevenRules.SeatOrderAsWrittenSnoc | cardgame/src/main/java/com/cardgame/cardserver/core/SevenPokerGame.java:195-208 | the source's `order` gains each non-blank trimmed id, repeats included |
| SevenRules.SeatOrderSnoc | cardgame/src/main/java/com/cardgame/cardserver/core/SevenPokerGame.java:195-208 | the corrected seating gains an id only when it is not already seated |
| SevenRules.RepeatedIdSeatedTwice | cardgame/src/main/java/com/cardgame/cardserver/core/SevenPokerGame.java:195-208 | an id given twice is listed twice in the source's `order` |
| SevenRules.SeatOrderAsWritten | cardgame/src/main/java/com/cardgame/cardserver/core/SevenPokerGame.java:195-208 | the source's `order`: every non-blank trimmed id appended, repeats included (properties in `SeatOrderAsWrittenSnoc` and `RepeatedIdSeatedTwice`) |
| SevenRules.RepeatedIdSeatedOnce | cardgame/src/main/java/com/cardgame/cardserver/core/SevenPokerGame.java:195-208 | the corrected seating lists it once |
| SevenRules.DuplicateSeatRepeats | cardgame/src/main/java/com/cardgame/cardserver/core/SevenPokerGame.java:195-208 | with ids "a", "a", "b" the source's `order` repeats "a" while `players` keeps one seat for it |
| SevenRules.DuplicateSeatLosesChips | cardgame/src/main/java/com/cardgame/cardserver/core/SevenPokerGame.java:626-659 | if that "a" wins, both entries are winners: a pot of 30 is split in two and the one payout entry keeps 15, so 15 chips vanish |
| SevenRules.DuplicateSeatCorrected | cardgame/src/main/java/com/cardgame/cardserver/core/SevenPokerGame.java:195-208 | seated once per id, the same ids give two seats |
| SevenActions.ActedValid | cardgame/src/main/java/com/cardgame/cardserver/core/SevenPokerGame.java:314 | a seat that has acted is no longer pending, and the invariants are kept |
| SevenActions.CheckSpec | cardgame/src/main/java/com/cardgame/cardserver/core/SevenPokerGame.java:351-360 | a check is refused exactly when a bet stands, and then nothing changes; an accepted check moves no chips, clears the seat from pending and keeps the invariants |
| SevenActions.CheckOutcome | cardgame/src/main/java/com/cardgame/cardserver/core/SevenPokerGame.java:351-360 | `handleCheck` on the table value (properties in `CheckSpec`) |
| SevenActions.MatchedValid | cardgame/src/main/java/com/cardgame/cardserver/core/SevenPokerGame.java:343-344 | after a call the seat's street total is the standing bet, and the invariants are kept |
| SevenActions.CallSpec | cardgame/src/main/java/com/cardgame/cardserver/core/SevenPokerGame.java:335-349 | with nothing to call a call is a check; otherwise it pays exactly what the seat lacks, brings its street total to the standing bet, clears it from pending and keeps the invariants |
| SevenActions.CallOutcome | cardgame/src/main/java/com/cardgame/cardserver/core/SevenPokerGame.java:335-349 | `handleCall` on the table value (properties in `CallSpec`) |
| SevenActions.RaisedValid | cardgame/src/main/java/com/cardgame/cardserver/core/SevenPokerGame.java:322-326 | recording a higher standing bet keeps the invariants while the raise count is at most three |
| SevenActions.ReopenValid | cardgame/src/main/java/com/cardgame/cardserver/core/SevenPokerGame.java:795-812 | reopening the street after a bet keeps the invariants |
| SevenActions.RaiseStepsValid | cardgame/src/main/java/com/cardgame/cardserver/core/SevenPokerGame.java:322-331 | the steps of a bet or raise together keep the invariants |
| SevenActions.BetValid | cardgame/src/main/java/com/cardgame/cardserver/core/SevenPokerGame.java:298-333 | a bet or raise keeps the invariants |
| SevenActions.BetCapped | cardgame/src/main/java/com/cardgame/cardserver/core/SevenPokerGame.java:318-320 | with a bet standing and three raises made, a bet is handled as a call |
| SevenActions.BetRaises | cardgame/src/main/java/com/cardgame/cardserver/core/SevenPokerGame.java:298-333 | below the cap a bet is accepted as BET on an open street or RAISE otherwise; the standing bet rises by max(bet unit, amount); the raise count resets on a BET and grows by one on a RAISE |
| SevenActions.BetOutcome | cardgame/src/main/java/com/cardgame/cardserver/core/SevenPokerGame.java:298-333 | `handleBet` on the table value (properties in `BetCapped`, `BetRaises`, `BetPays` and `BetReopens`) |
| SevenActions.BetPays | cardgame/src/main/java/com/cardgame/cardserver/core/SevenPokerGame.java:305-327 | after a bet or raise the seat's street total is the new standing bet, and the pot grows by what it paid |
| SevenActions.BetReopens | cardgame/src/main/java/com/cardgame/cardserver/core/SevenPokerGame.java:313-331 | after a bet or raise the pending seats are exactly the other seats still in the hand |
| SevenActions.FoldedValid | cardgame/src/main/java/com/cardgame/cardserver/core/SevenPokerGame.java:362-368 | folding keeps the invariants and takes exactly the folding seat out of the hand |
| SevenActions.FoldedSeats | cardgame/src/main/java/com/cardgame/cardserver/core/SevenPokerGame.java:362-368 | a fold changes nothing but the folding seat's flags: no seat added, no chips moved |
| SevenActions.SettleIfAloneValid | cardgame/src/main/java/com/cardgame/cardserver/core/SevenPokerGame.java:369-371 | settling when at most one seat is left keeps the invariants |
| SevenActions.FoldValid | cardgame/src/main/java/com/cardgame/cardserver/core/SevenPokerGame.java:362-373 | a fold is always accepted with nothing paid and keeps the invariants; if the hand goes on, the folder is out of it and not pending |
| SevenActions.SoleWinner | cardgame/src/main/java/com/cardgame/cardserver/core/SevenPokerGame.java:555-601 | with one seat left in the hand, settling by fold ends the hand with that seat as the only winner, paid the whole pot |
| SevenActions.FoldSpec | cardgame/src/main/java/com/cardgame/cardserver/core/SevenPokerGame.java:362-373 | a fold that leaves one seat in the hand ends it, and that seat wins the whole pot |
| SevenActions.FoldOutcome | cardgame/src/main/java/com/cardgame/cardserver/core/SevenPokerGame.java:362-373 | `handleFold` on the table value (properties in `FoldValid` and `FoldSpec`) |
| SevenActions.TurnAfterSpec | cardgame/src/main/java/com/cardgame/cardserver/core/SevenPokerGame.java:474-503 | passing the turn keeps the invariants, gives it only to a pending seat, and to some seat whenever one is pending in a running hand |
| SevenActions.DealStreetSeats | cardgame/src/main/java/com/cardgame/cardserver/core/SevenPokerGame.java:464-472 | dealing a street gives each seat in the hand one card and changes no seat's chips or place in the hand |
| SevenActions.StreetDeals | cardgame/src/main/java/com/cardgame/cardserver/core/SevenPokerGame.java:13-19 | every street after the 3rd deals a card |
| SevenActions.DealtStreetValid | cardgame/src/main/java/com/cardgame/cardserver/core/SevenPokerGame.java:455-461 | moving to the next street with each seat in the hand one card richer keeps the invariants |
| SevenActions.NextStreetIs | cardgame/src/main/java/com/cardgame/cardserver/core/SevenPokerGame.java:455-459 | on a street before the last, the next street deals one card to each seat still in the hand, in seat order |
| SevenActions.NextStreetValid | cardgame/src/main/java/com/cardgame/cardserver/core/SevenPokerGame.java:455-459 | dealing the next street keeps the invariants |
| SevenActions.NextStreetOpened | cardgame/src/main/java/com/cardgame/cardserver/core/SevenPokerGame.java:455-461 | opening the next street keeps the invariants and gives the turn to its lead |
| SevenActions.AdvancedSpec | cardgame/src/main/java/com/cardgame/cardserver/core/SevenPokerGame.java:443-462 | closing a street keeps the invariants and leaves the turn on a pending seat, if any |
| SevenDeal.Draw | cardgame/src/main/java/com/cardgame/cardserver/core/SevenPokerGame.java:862-866 | `draw`: the seat's cards gain the next n cards of the deck, in order, and the deck moves on by n |
| SevenDeal.DealRound | cardgame/src/main/java/com/cardgame/cardserver/core/SevenPokerGame.java:375-390 | one dealing round in seat order is the reference deal |
| SevenDeal.DealInitial | cardgame/src/main/java/com/cardgame/cardserver/core/SevenPokerGame.java:375-390 | `dealInitial` is two cards to every seat, then one more each |
| SevenDeal.InitialSpec | cardgame/src/main/java/com/cardgame/cardserver/core/SevenPokerGame.java:375-390 | the initial deal gives every seat three more cards on top of its old ones and changes nothing else |
| SevenDeal.InitialFields | cardgame/src/main/java/com/cardgame/cardserver/core/SevenPokerGame.java:375-390 | the initial deal adds no seat and changes nothing of a seat but its cards |
| SevenDeal.InitialCards | cardgame/src/main/java/com/cardgame/cardserver/core/SevenPokerGame.java:375-390 | every seat's cards grow by three |
| SevenDeal.Antes | cardgame/src/main/java/com/cardgame/cardserver/core/SevenPokerGame.java:392-402 | collecting antes changes only the pot, seats and bets, and adds no seat |
| SevenDeal.CollectAntes | cardgame/src/main/java/com/cardgame/cardserver/core/SevenPokerGame.java:392-402 | the loop is the reference ante collection |
| SevenDeal.PaySeat | cardgame/src/main/java/com/cardgame/cardserver/core/SevenPokerGame.java:852-860 | `contribute` raises only the paying seat's `contributed`, by the amount when positive |
| SevenDeal.AntesSeats | cardgame/src/main/java/com/cardgame/cardserver/core/SevenPokerGame.java:392-402 | each listed seat pays the ante once (nothing when it is not positive), others nothing, and nothing else of a seat changes |
| SevenDeal.AntesPot | cardgame/src/main/java/com/cardgame/cardserver/core/SevenPokerGame.java:392-402 | the pot grows by the ante once per seat |
| SevenDeal.AntesValid | cardgame/src/main/java/com/cardgame/cardserver/core/SevenPokerGame.java:392-402 | collecting the antes keeps every invariant |
| SevenSeating.SeatsSnoc | cardgame/src/main/java/com/cardgame/cardserver/core/SevenPokerGame.java:200-207 | seating one more id adds its fresh seat and a zero bet |
| SevenSeating.BegunSnoc | cardgame/src/main/java/com/cardgame/cardserver/core/SevenPokerGame.java:195-208 | a blank id or one already seated changes nothing; otherwise the id gets a fresh seat at the end |
| SevenSeating.Seat | cardgame/src/main/java/com/cardgame/cardserver/core/SevenPokerGame.java:205-207 | `players.put`, `bets.put(u, 0)` and `order.add` |
| SevenSeating.ClearHand | cardgame/src/main/java/com/cardgame/cardserver/core/SevenPokerGame.java:172-178 | the first resets of `start`, with the ante raised to at least 10 |
| SevenSeating.ClearSeats | cardgame/src/main/java/com/cardgame/cardserver/core/SevenPokerGame.java:179-187 | the seat-order, deck and betting resets of `start` |
| SevenSeating.ClearStreet | cardgame/src/main/java/com/cardgame/cardserver/core/SevenPokerGame.java:188-193 | the street and settlement resets of `start` |
| SevenSeating.Begin | cardgame/src/main/java/com/cardgame/cardserver/core/SevenPokerGame.java:171-208 | the setup of `start` yields the corrected seating (each id once; see Findings), whatever the table held before |
| SevenSeating.InitialBegunSeats | cardgame/src/main/java/com/cardgame/cardserver/core/SevenPokerGame.java:195-210 | after the initial deal the seats are exactly the seated ids, each a fresh seat with three cards |
| SevenSeating.InitialBegunPaid | cardgame/src/main/java/com/cardgame/cardserver/core/SevenPokerGame.java:195-210 | nothing is paid before the antes |
| SevenSeating.InitialBegunValid | cardgame/src/main/java/com/cardgame/cardserver/core/SevenPokerGame.java:171-210 | the invariants hold after the initial deal |
| SevenSeating.StartedSeats | cardgame/src/main/java/com/cardgame/cardserver/core/SevenPokerGame.java:195-211 | after the antes each seated id holds a fresh seat with three cards and max(10, ante) paid |
| SevenSeating.StartedSpec | cardgame/src/main/java/com/cardgame/cardserver/core/SevenPokerGame.java:171-211 | `start` before the first street: in progress on 3rd street, seats in seating order, a pot of one ante per seat, invariants holding |
| SevenSeating.StartedValid | cardgame/src/main/java/com/cardgame/cardserver/core/SevenPokerGame.java:171-211 | the invariants hold once the antes are in |
| SevenSeating.StartedPot | cardgame/src/main/java/com/cardgame/cardserver/core/SevenPokerGame.java:392-402 | the pot holds max(10, ante) per seat |
| SevenGame.Contribute | cardgame/src/main/java/com/cardgame/cardserver/core/SevenPokerGame.java:852-860 | `contribute` is the reference payment |
| SevenGame.ZeroFillSnoc | cardgame/src/main/java/com/cardgame/cardserver/core/SevenPokerGame.java:809 | `putIfAbsent(uid, 0)` after the earlier seats is the reference zero-fill with uid |
| SevenGame.ResetPending | cardgame/src/main/java/com/cardgame/cardserver/core/SevenPokerGame.java:795-812 | `resetPendingAfterAggressiveAction` reopens the street for every other seat still in the hand |
| SevenGame.ReopenLoop | cardgame/src/main/java/com/cardgame/cardserver/core/SevenPokerGame.java:796-811 | the loop lists the other seats in the hand in visiting order and zero-fills their street totals |
| SevenGame.ResetStep | cardgame/src/main/java/com/cardgame/cardserver/core/SevenPokerGame.java:799-811 | one offset of that loop keeps both of its invariants |
| SevenGame.PendingStep | cardgame/src/main/java/com/cardgame/cardserver/core/SevenPokerGame.java:799-811 | one offset adds the visited seat exactly when it is another seat still in the hand |
| SevenGame.HandleCheck | cardgame/src/main/java/com/cardgame/cardserver/core/SevenPokerGame.java:351-360 | `handleCheck` is the reference check outcome |
| SevenGame.HandleCall | cardgame/src/main/java/com/cardgame/cardserver/core/SevenPokerGame.java:335-349 | `handleCall` is the reference call outcome |
| SevenGame.RaiseTo | cardgame/src/main/java/com/cardgame/cardserver/core/SevenPokerGame.java:305-314 | the steps of a bet or raise: standing bet, payment, reopening, acted |
| SevenGame.HandleBet | cardgame/src/main/java/com/cardgame/cardserver/core/SevenPokerGame.java:298-333 | `handleBet` is the reference bet outcome |
| SevenGame.ActivePlayers | cardgame/src/main/java/com/cardgame/cardserver/core/SevenPokerGame.java:868-876 | `activePlayers` counts the seats still in the hand |
| SevenGame.FirstActiveAt | cardgame/src/main/java/com/cardgame/cardserver/core/SevenPokerGame.java:557-563 | the winner search stops at the first seat in the hand |
| SevenGame.PayLosersSpec | cardgame/src/main/java/com/cardgame/cardserver/core/SevenPokerGame.java:582-593 | the loop sets a zero payout on exactly the visited seats other than the winner, seating no one |
| SevenGame.PayLosersAll | cardgame/src/main/java/com/cardgame/cardserver/core/SevenPokerGame.java:572-593 | over the whole order, after the winner's update, the loop gives the reference fold payouts |
| SevenGame.FoldSettlementIs | cardgame/src/main/java/com/cardgame/cardserver/core/SevenPokerGame.java:555-601 | with a winner, `settleByFold`'s new table is the reference one |
| SevenGame.FirstInHand | cardgame/src/main/java/com/cardgame/cardserver/core/SevenPokerGame.java:556-563 | the search returns the first seat still in the hand |
| SevenGame.PayLosersLoop | cardgame/src/main/java/com/cardgame/cardserver/core/SevenPokerGame.java:582-593 | the loop is the reference loser payout |
| SevenGame.Award | cardgame/src/main/java/com/cardgame/cardserver/core/SevenPokerGame.java:573-581 | the settlement stores: seats, winners, payouts, and the pot as settled pot |
| SevenGame.CloseHand | cardgame/src/main/java/com/cardgame/cardserver/core/SevenPokerGame.java:594-600 | the closing stores: pot emptied, hand over, no turn, nobody pending, stage past the last |
| SevenGame.SettleByFold | cardgame/src/main/java/com/cardgame/cardserver/core/SevenPokerGame.java:555-601 | `settleByFold` is the reference fold settlement |
| SevenGame.HandleFold | cardgame/src/main/java/com/cardgame/cardserver/core/SevenPokerGame.java:362-373 | `handleFold` is the reference fold outcome |
| SevenGame.IsStreetComplete | cardgame/src/main/java/com/cardgame/cardserver/core/SevenPokerGame.java:772-793 | the street is complete exactly when the hand is over, or nobody is pending and every seat in the hand has matched the standing bet |
| SevenGame.NextSeatLoop | cardgame/src/main/java/com/cardgame/cardserver/core/SevenPokerGame.java:485-502 | the loop finds the reference next seat |
| SevenGame.AdvanceTurnFrom | cardgame/src/main/java/com/cardgame/cardserver/core/SevenPokerGame.java:474-503 | `advanceTurnFrom` is the reference turn passing |
| SevenGame.Candidates | cardgame/src/main/java/com/cardgame/cardserver/core/SevenPokerGame.java:685-694 | each seat in the hand has its lead score, the others none |
| SevenGame.LeadAmongIsLead | cardgame/src/main/java/com/cardgame/cardserver/core/SevenPokerGame.java:682-701 | the search over every seat finds the lead |
| SevenGame.LeadKeep | cardgame/src/main/java/com/cardgame/cardserver/core/SevenPokerGame.java:688-698 | a seat out of the hand, or one not beating the lead so far, keeps the lead |
| SevenGame.LeadFirst | cardgame/src/main/java/com/cardgame/cardserver/core/SevenPokerGame.java:695-698 | the first seat in the hand becomes the lead so far |
| SevenGame.LeadBeat | cardgame/src/main/java/com/cardgame/cardserver/core/SevenPokerGame.java:695-698 | a seat beating the lead so far becomes the lead |
| SevenGame.FindLeadIndex | cardgame/src/main/java/com/cardgame/cardserver/core/SevenPokerGame.java:682-701 | `findLeadIndex` returns the lead seat |
| SevenGame.OpenFrom | cardgame/src/main/java/com/cardgame/cardserver/core/SevenPokerGame.java:427-437 | the loop from the lead lists the seats in the hand in rotation and zeroes their street totals |
| SevenGame.OpenStreet | cardgame/src/main/java/com/cardgame/cardserver/core/SevenPokerGame.java:408-426 | the stores of `startStreet` |
| SevenGame.StartStreet | cardgame/src/main/java/com/cardgame/cardserver/core/SevenPokerGame.java:404-441 | a finished hand is left alone; otherwise the street opens at the lead |
| SevenPlay.Contenders | cardgame/src/main/java/com/cardgame/cardserver/core/SevenPokerGame.java:604-610 | the contenders are the seats still in the hand, in seat order |
| SevenPlay.TopIsBest | cardgame/src/main/java/com/cardgame/cardserver/core/SevenPokerGame.java:626-632 | a contender no one beats is exactly one whose score equals the highest |
| SevenPlay.TopContenders | cardgame/src/main/java/com/cardgame/cardserver/core/SevenPokerGame.java:626-632 | the winners loop returns the tied contenders, in seat order, and at least one |
| SevenPlay.SplitPot | cardgame/src/main/java/com/cardgame/cardserver/core/SevenPokerGame.java:633-659 | the payout loop is the reference split |
| SevenPlay.RecordScores | cardgame/src/main/java/com/cardgame/cardserver/core/SevenPokerGame.java:615-621 | records the showdown scores |
| SevenPlay.ShowdownIs | cardgame/src/main/java/com/cardgame/cardserver/core/SevenPokerGame.java:603-680 | the table after the showdown is the reference showdown outcome |
| SevenPlay.ResolveShowdown | cardgame/src/main/java/com/cardgame/cardserver/core/SevenPokerGame.java:603-680 | with nobody left in the hand it settles by fold; otherwise it gives the reference showdown outcome |
| SevenScore.NewBest | cardgame/src/main/java/com/cardgame/cardserver/core/SevenPokerGame.java:622-624 | a score above the highest so far is above all scores so far |
| SevenScore.KeysStep | cardgame/src/main/java/com/cardgame/cardserver/core/SevenPokerGame.java:617-621 | scoring one more contender records its score |
| SevenScore.JudgedStep | cardgame/src/main/java/com/cardgame/cardserver/core/SevenPokerGame.java:617-621 | each recorded score is that seat's best five-card score |
| SevenScore.HighestStep | cardgame/src/main/java/com/cardgame/cardserver/core/SevenPokerGame.java:622-624 | one more contender becomes the highest exactly when it beats the highest so far |
| SevenScore.ScoredAll | cardgame/src/main/java/com/cardgame/cardserver/core/SevenPokerGame.java:615-625 | once every contender is scored, the scores are exactly the contenders' best scores and the highest is the maximum, held by a contender |
| SevenScore.SeatScore | cardgame/src/main/java/com/cardgame/cardserver/core/SevenPokerGame.java:619 | a contender's score is the best five-card score of its cards |
| SevenScore.Beats | cardgame/src/main/java/com/cardgame/cardserver/core/SevenPokerGame.java:622 | `best == null \|\| score.compareTo(best) > 0` |
| SevenScore.ScoreContenders | cardgame/src/main/java/com/cardgame/cardserver/core/SevenPokerGame.java:615-625 | the scoring loop records each contender's best score and finds the highest, held by a contender |
| SevenFlow.NextStage | cardgame/src/main/java/com/cardgame/cardserver/core/SevenPokerGame.java:455 | `s.stage++` |
| SevenFlow.AdvanceStreetOrFinish | cardgame/src/main/java/com/cardgame/cardserver/core/SevenPokerGame.java:443-462 | settles by fold with at most one seat in the hand, resolves the showdown after 7th street, otherwise deals and opens the next street |
| SevenFlow.CheckKeeps | cardgame/src/main/java/com/cardgame/cardserver/core/SevenPokerGame.java:351-360 | a check keeps the invariants and seat order; a refused one changes nothing |
| SevenFlow.CallKeeps | cardgame/src/main/java/com/cardgame/cardserver/core/SevenPokerGame.java:335-349 | so does a call |
| SevenFlow.BetKeeps | cardgame/src/main/java/com/cardgame/cardserver/core/SevenPokerGame.java:298-333 | so does a bet |
| SevenFlow.FoldKeeps | cardgame/src/main/java/com/cardgame/cardserver/core/SevenPokerGame.java:362-373 | a fold is never refused and keeps the invariants and seat order |
| SevenFlow.HandledSpec | cardgame/src/main/java/com/cardgame/cardserver/core/SevenPokerGame.java:262-272 | every handler keeps the invariants and seat order; a refused action changes nothing; a fold is always accepted and an action type other than the four never is |
| SevenFlow.ActionPlaying | cardgame/src/main/java/com/cardgame/cardserver/core/SevenPokerGame.java:247-296 | an action keeps the invariant that holds between public operations |
| SevenFlow.Dispatch | cardgame/src/main/java/com/cardgame/cardserver/core/SevenPokerGame.java:262-268 | the switch dispatches to the reference handler |
| SevenFlow.EndTurn | cardgame/src/main/java/com/cardgame/cardserver/core/SevenPokerGame.java:278-281 | a hand that ended clears the turn |
| SevenFlow.MayActNow | cardgame/src/main/java/com/cardgame/cardserver/core/SevenPokerGame.java:248-260 | the guards: hand running, seat present and in the hand, holding the turn if any, pending if anyone is |
| SevenFlow.Proceed | cardgame/src/main/java/com/cardgame/cardserver/core/SevenPokerGame.java:274-295 | after the handler: a finished hand clears the turn, a complete street advances, otherwise the turn passes from the actor |
| SevenFlow.ApplyAction | cardgame/src/main/java/com/cardgame/cardserver/core/SevenPokerGame.java:247-296 | `applyAction` gives the reference outcome, and reports whether the action went through |
| SevenFlow.AutoAct | cardgame/src/main/java/com/cardgame/cardserver/core/SevenPokerGame.java:505-519 | bots move while one holds the turn, at most 20 times; the invariant is kept, and the table ends as `BotsMoved` says: each move is the turn-holding bot's move through `applyAction`, and the run stops before 20 moves only when no bot is left to move |
| SevenFlow.FirstMoveNeedsBot | cardgame/src/main/java/com/cardgame/cardserver/core/SevenPokerGame.java:505-519 | a run of bot moves can only start where a bot holds the turn of a running hand and has a move |
| SevenFlow.NoBotStays | cardgame/src/main/java/com/cardgame/cardserver/core/SevenPokerGame.java:505-519 | where no bot holds the turn, `autoAct` changes nothing |
| SevenFlow.ActedWithoutBots | cardgame/src/main/java/com/cardgame/cardserver/core/SevenPokerGame.java:247-296 | when the bots never have a move, a player's action leaves the table exactly as `applyAction` does |
| SevenFlow.Act | cardgame/src/main/java/com/cardgame/cardserver/core/SevenPokerGame.java:217-235 | a player's action leaves the table as `applyAction` does (`ActionOutcome`: guards, handler, then turn or street), followed by the bots' run when it went through with the hand still running; the invariant is kept, and an action the guards refuse changes nothing |
| SevenFlow.Bet | cardgame/src/main/java/com/cardgame/cardserver/core/SevenPokerGame.java:217-220 | `bet` is that action with type BET and the amount floored at 0, so the handler's part is `BetOutcome` (see `SevenActions.BetRaises` and `SevenActions.BetPays`) |
| SevenFlow.Call | cardgame/src/main/java/com/cardgame/cardserver/core/SevenPokerGame.java:222-225 | `call` is that action with type CALL, so the handler's part is `CallOutcome` (see `SevenActions.CallSpec`) |
| SevenFlow.Check | cardgame/src/main/java/com/cardgame/cardserver/core/SevenPokerGame.java:227-230 | `check` is that action with type CHECK, so the handler's part is `CheckOutcome` (see `SevenActions.CheckSpec`) |
| SevenFlow.Fold | cardgame/src/main/java/com/cardgame/cardserver/core/SevenPokerGame.java:232-235 | `fold` is that action with type FOLD, so the handler's part is `FoldOutcome`, which settles the pot when one seat is left (see `SevenActions.FoldSpec`) |
| SevenFlow.ClearPending | cardgame/src/main/java/com/cardgame/cardserver/core/SevenPokerGame.java:241 | `pending.clear()` |
| SevenFlow.ClearedValid | cardgame/src/main/java/com/cardgame/cardserver/core/SevenPokerGame.java:241 | forgetting who is pending keeps the invariants |
| SevenFlow.Next | cardgame/src/main/java/com/cardgame/cardserver/core/SevenPokerGame.java:237-245 | `next` on a finished hand changes nothing; otherwise the table with nobody pending has its street closed (`Advanced`), then the bots move; the invariant is kept |
| SevenFlow.Open | cardgame/src/main/java/com/cardgame/cardserver/core/SevenPokerGame.java:171-212 | `start` up to the bots: the first street opened at its lead on the started table, on the corrected seating (see Left out) |
| SevenFlow.OpenedStarted | cardgame/src/main/java/com/cardgame/cardserver/core/SevenPokerGame.java:171-212 | the opened first street satisfies the invariant between public operations |
| SevenFlow.Start | cardgame/src/main/java/com/cardgame/cardserver/core/SevenPokerGame.java:171-215 | `start` ends with the bots' run from the first street of the started table opened at its lead, and the invariant holds; on the corrected seating (see Left out) |
| CardStrings.RankSymbol | blackjack/src/main/java/com/cardgame/card/CardStrings.java:10-19 | an ace is A, ten 10, the faces J, Q and K, and every other rank the digit of its ordinal plus one |
| CardStrings.RankSymbolInjective | blackjack/src/main/java/com/cardgame/card/CardStrings.java:10-19 | rank symbols are one or two characters long and different ranks have different symbols |
| CardStrings.CardText | blackjack/src/main/java/com/cardgame/card/CardStrings.java:22-27 | the rank symbol followed by the suit symbol, inside the red escape and reset only when colour is on and the suit is red |
| CardStrings.Show | blackjack/src/main/java/com/cardgame/card/CardStrings.java:38-40 | the coloured text of a card |
| CardStrings.ShowMono | blackjack/src/main/java/com/cardgame/card/CardStrings.java:42-44 | the uncoloured text of a card |
| CardStrings.ShowSpec | blackjack/src/main/java/com/cardgame/card/CardStrings.java:22-44 | the coloured text is the plain text, wrapped in the escapes for a red suit; the plain text ends in the suit symbol; different cards have different plain texts |
| CardStrings.HandTextSpec | blackjack/src/main/java/com/cardgame/card/CardStrings.java:29-36 | an empty hand is `[]`, one card is its text in brackets, and each further card adds `, ` and its text before the closing bracket |
| CardStrings.Hand | blackjack/src/main/java/com/cardgame/card/CardStrings.java:29-36 | the buffer loop produces the bracketed hand text |
| WalletModel.MayBetSafe | blackjack/src/main/java/com/cardgame/app/Wallet.java:12 | a bet `canBet` allows can be lost in full without the balance going negative |
| WalletModel.MayBetRange | blackjack/src/main/java/com/cardgame/app/Wallet.java:12 | without a positive balance nothing can be bet; otherwise exactly the amounts 1 to the balance |
| WalletModel.Wallet.constructor | blackjack/src/main/java/com/cardgame/app/Wallet.java:5-8 | the balance starts at the initial amount |
| WalletModel.Wallet.Balance | blackjack/src/main/java/com/cardgame/app/Wallet.java:9 | `balance` is the stored balance |
| WalletModel.Wallet.CanBet | blackjack/src/main/java/com/cardgame/app/Wallet.java:12 | `canBet` answers whether the amount is positive and at most the balance |
| WalletModel.MayBet | blackjack/src/main/java/com/cardgame/app/Wallet.java:12 | the bet test on values (properties in `MayBetSafe` and `MayBetRange`) |
| WalletModel.Wallet.ApplyDelta | blackjack/src/main/java/com/cardgame/app/Wallet.java:15 | the balance moves by the delta, with no lower bound |
| WalletModel.NewWallet | blackjack/src/main/java/com/cardgame/app/Wallet.java:5-8 | a negative initial balance is refused, any other gives a wallet holding it |
| ShoeModel.OneDeck | blackjack/src/main/java/com/cardgame/card/Shoe.java:34-38 | one deck has 52 cards |
| ShoeModel.OneDeckOnce | blackjack/src/main/java/com/cardgame/card/Shoe.java:34-38 | one deck holds every card exactly once |
| ShoeModel.Decks | blackjack/src/main/java/com/cardgame/card/Shoe.java:33-39 | n decks hold 52 n cards |
| ShoeModel.DecksCount | blackjack/src/main/java/com/cardgame/card/Shoe.java:33-39 | n decks hold every card exactly n times |
| ShoeModel.ShuffledKeeps | blackjack/src/main/java/com/cardgame/card/Shoe.java:40 | shuffling keeps the length and exactly the same cards |
| ShoeModel.Cut | blackjack/src/main/java/com/cardgame/card/Shoe.java:45 | the cut, rounded half up, lies between 0 and the shoe's size |
| ShoeModel.Shoe.constructor | blackjack/src/main/java/com/cardgame/card/Shoe.java:21-30 | a new shoe is full: 52 cards per deck, every card once per deck; its cards and random stream are those Shuffled leaves from the given stream |
| ShoeModel.Shoe.Reshuffle | blackjack/src/main/java/com/cardgame/card/Shoe.java:31-42 | the cards become the shuffled decks, every card once per deck |
| ShoeModel.Shoe.Draw | blackjack/src/main/java/com/cardgame/card/Shoe.java:49-52 | the shoe is refilled and shuffled when empty or at its cut; the last card is removed and returned; the shoe keeps only cards of its decks; the random stream is advanced by that shuffle and is otherwise unchanged |
| ShoeModel.Shoe.Remaining | blackjack/src/main/java/com/cardgame/card/Shoe.java:54-55 | `remaining` is 0 exactly when the shoe is empty |
| ShoeModel.Shuffle | blackjack/src/main/java/com/cardgame/card/Shoe.java:40 | the swap loop is the reference shuffle |
| ShoeModel.Shuffled | blackjack/src/main/java/com/cardgame/card/Shoe.java:40 | `Collections.shuffle` as its swap loop over the random stream (a permutation, by `ShuffledKeeps`) |
| ShoeModel.NewShoe | blackjack/src/main/java/com/cardgame/card/Shoe.java:21-30 | fewer than one deck or a penetration outside (0, 1] is refused; otherwise the shoe is full |
| ShoeModel.NewFullShoe | blackjack/src/main/java/com/cardgame/card/Shoe.java:17-19 | fewer than one deck is refused; otherwise the shoe has penetration 1 |
| ShoeModel.FullShoeCut | blackjack/src/main/java/com/cardgame/card/Shoe.java:43-47 | a shoe with penetration 1 is shuffled again exactly when it is empty |
| ShoeModel.BuildDecks | blackjack/src/main/java/com/cardgame/card/Shoe.java:32-39 | the nested loops build the decks in order |
| ShoeModel.AddSuit | blackjack/src/main/java/com/cardgame/card/Shoe.java:35-37 | the inner loop adds one suit's thirteen cards in order |
| HandUtils.IndexOf11 | blackjack/src/main/java/com/cardgame/blackjack/Application1.java:42-45 | the first position holding 11, or -1 exactly when there is none |
| HandUtils.Adjusted | blackjack/src/main/java/com/cardgame/blackjack/Application1.java:12-18 | the adjustment keeps the hand's length |
| HandUtils.SumUpdate | blackjack/src/main/java/com/cardgame/blackjack/Application1.java:16 | setting one value changes the sum by the difference |
| HandUtils.RewriteOne | blackjack/src/main/java/com/cardgame/blackjack/Application1.java:16 | turning an 11 into 1 lowers the sum by 10 and removes one 11 |
| HandUtils.AdjustedSpec | blackjack/src/main/java/com/cardgame/blackjack/Application1.java:12-18 | after the adjustment the hand is not bust or holds no 11; each value is kept or is an 11 turned into 1; the sum drops 10 per rewrite |
| HandUtils.AdjustedLeftmostFirst | blackjack/src/main/java/com/cardgame/blackjack/Application1.java:13-16 | aces are lowered leftmost first |
| HandUtils.AdjustedIdempotent | blackjack/src/main/java/com/cardgame/blackjack/Application1.java:12-18 | adjusting twice is adjusting once |
| HandUtils.RawSum | blackjack/src/main/java/com/cardgame/blackjack/Application1.java:37-41 | `rawSum` is the sum of the values |
| HandUtils.IndexOfAce11 | blackjack/src/main/java/com/cardgame/blackjack/Application1.java:42-45 | `indexOfAce11` finds the first 11 |
| HandUtils.AdjustAcesIfBust | blackjack/src/main/java/com/cardgame/blackjack/Application1.java:12-18 | the hand is rewritten in place to its adjustment |
| HandUtils.Value | blackjack/src/main/java/com/cardgame/blackjack/Application1.java:21-23 | `value` is the sum |
| HandUtils.IsBusted | blackjack/src/main/java/com/cardgame/blackjack/Application1.java:26-28 | bust exactly when the sum is over 21 |
| HandUtils.IsSoft | blackjack/src/main/java/com/cardgame/blackjack/Application1.java:31-34 | soft exactly when an 11 remains |
| HandUtils.SoftAfterAdjustNotBust | blackjack/src/main/java/com/cardgame/blackjack/Application1.java:12-34 | a hand still soft after the adjustment is not bust |
| ConsoleBlackjack.CardPoints | blackjack/src/main/java/com/cardgame/blackjack/BlackJack.java:130-135 | an ace adds 11, ten-valued cards 10, any other rank its ordinal plus one, between 2 and 9 |
| ConsoleBlackjack.ValueSpec | blackjack/src/main/java/com/cardgame/blackjack/BlackJack.java:128-139 | the value lies between the sums with aces as 1 and as 11, differs from the latter by tens, is 21 or less unless every ace counts 1, and an ace counts 1 only when 11 would bust |
| ConsoleBlackjack.HardSumGrows | blackjack/src/main/java/com/cardgame/blackjack/BlackJack.java:83-85 | each card adds at least 1 to the hard sum, so the dealer's loop ends |
| ConsoleBlackjack.ComputeValue | blackjack/src/main/java/com/cardgame/blackjack/BlackJack.java:128-139 | `value`'s loops compute the value |
| ConsoleBlackjack.CanSplitSpec | blackjack/src/main/java/com/cardgame/blackjack/BlackJack.java:116-126 | a hand can be split exactly when it has two cards worth the same points |
| ConsoleBlackjack.SettleDelta | blackjack/src/main/java/com/cardgame/blackjack/BlackJack.java:107-114 | with a bet: a player bust loses it first, then a dealer bust or higher total wins it, a lower total loses it, a tie pushes; without a bet it is 0 |
| ConsoleBlackjack.SettleDeltaAgrees | blackjack/src/main/java/com/cardgame/blackjack/BlackJack.java:107-114 | it is the server's return on the hand less the bet, and zero-sum between two standing totals |
| ConsoleBlackjack.DealerDrawsTo17 | blackjack/src/main/java/com/cardgame/blackjack/BlackJack.java:83-85 | the dealer ends at 17 or more and draws nothing from 17 |
| ConsoleBlackjack.DealerDrawsFromDeck | blackjack/src/main/java/com/cardgame/blackjack/BlackJack.java:83-85 | the dealer's new cards are the next cards of the deck, which advances by as many |
| ConsoleBlackjack.DealerTurn | blackjack/src/main/java/com/cardgame/blackjack/BlackJack.java:83-86 | the loop is the reference dealer draw |
| ConsoleBlackjack.TotalDeltaBounds | blackjack/src/main/java/com/cardgame/blackjack/BlackJack.java:89-104 | a round wins or loses at most the bet per hand, and nothing without a bet |
| ConsoleBlackjack.SettleRound | blackjack/src/main/java/com/cardgame/blackjack/BlackJack.java:89-104 | the settlement sums `settleDelta` over the hands |
| BlackjackRules.Aces | cardgame/src/main/java/com/cardgame/cardserver/core/BlackjackGame.java:15 | the number of aces is at most the number of cards |
| BlackjackRules.DemoteSpec | cardgame/src/main/java/com/cardgame/cardserver/core/BlackjackGame.java:16 | demoting takes off 10 at most once per ace and only while over 21: the result is 21 or less unless every ace was demoted, and a lowered total stays above 11 |
| BlackjackRules.BestTotalSpec | cardgame/src/main/java/com/cardgame/cardserver/core/BlackjackGame.java:13-18 | `bestTotal` counts each ace 11 or 1: between the hard and the raw sum, a multiple of 10 below the raw sum, at most 21 unless all aces count 1, and an ace counts 1 only when 11 would bust |
| BlackjackRules.HardSumGrows | cardgame/src/main/java/com/cardgame/cardserver/core/BlackjackGame.java:52 | each card adds at least 1 to the hard sum, so the dealer's loop ends |
| BlackjackRules.ComputeBestTotal | cardgame/src/main/java/com/cardgame/cardserver/core/BlackjackGame.java:13-18 | the two loops of `bestTotal` compute the best total |
| BlackjackRules.BestTotal | cardgame/src/main/java/com/cardgame/cardserver/core/BlackjackGame.java:13-18 | the best total: every ace 11, then 10 off per ace while over 21 (properties in `BestTotalSpec`) |
| BlackjackRules.DealerDrawsSpec | cardgame/src/main/java/com/cardgame/cardserver/core/BlackjackGame.java:52 | the dealer ends at 17 or more, holding its cards then the next cards of the deck, which advances by as many; at 17 or more it draws nothing |
| BlackjackRules.Returned | cardgame/src/main/java/com/cardgame/cardserver/core/BlackjackGame.java:56-64 | a bust returns nothing, a win (dealer bust or higher total) twice the bet, a push the bet, a loss nothing |
| BlackjackGame.OpeningHands | cardgame/src/main/java/com/cardgame/cardserver/core/BlackjackGame.java:25-28 | the player gets the first and third card, the dealer the second and fourth, each hand totalled |
| BlackjackGame.Game.constructor | cardgame/src/main/java/com/cardgame/cardserver/core/BlackjackGame.java:12 | a new game is idle with no hands, an empty dealer and the given deck count |
| BlackjackGame.Game.Start | cardgame/src/main/java/com/cardgame/cardserver/core/BlackjackGame.java:22-30 | `start` gives the reference started table |
| BlackjackGame.Game.CanSplitNow | cardgame/src/main/java/com/cardgame/cardserver/core/BlackjackGame.java:31-37 | `canSplit` is the reference split test |
| BlackjackGame.Game.Split | cardgame/src/main/java/com/cardgame/cardserver/core/BlackjackGame.java:38-48 | `split` gives the reference split table |
| BlackjackGame.AfterSplit | cardgame/src/main/java/com/cardgame/cardserver/core/BlackjackGame.java:38-48 | `split` on the game value (properties in `SplitSpec`) |
| BlackjackGame.Game.AllHandsDone | cardgame/src/main/java/com/cardgame/cardserver/core/BlackjackGame.java:50 | the scan answers whether every hand is done |
| BlackjackGame.Game.DealerPlay | cardgame/src/main/java/com/cardgame/cardserver/core/BlackjackGame.java:52 | the dealer loop is the reference dealer draw, totalled |
| BlackjackGame.Game.SettleIfAllDone | cardgame/src/main/java/com/cardgame/cardserver/core/BlackjackGame.java:49-67 | `settleIfAllDone` gives the reference settlement |
| BlackjackGame.Game.NextHand | cardgame/src/main/java/com/cardgame/cardserver/core/BlackjackGame.java:79-82 | `nextHand` gives the reference move |
| BlackjackGame.Game.Hit | cardgame/src/main/java/com/cardgame/cardserver/core/BlackjackGame.java:68-74 | `hit` gives the reference hit |
| BlackjackGame.AfterHit | cardgame/src/main/java/com/cardgame/cardserver/core/BlackjackGame.java:68-74 | `hit` on the game value (properties in `HitSpec`) |
| BlackjackGame.Game.Stand | cardgame/src/main/java/com/cardgame/cardserver/core/BlackjackGame.java:75-78 | `stand` gives the reference stand |
| BlackjackGame.AfterStand | cardgame/src/main/java/com/cardgame/cardserver/core/BlackjackGame.java:75-78 | `stand` on the game value (properties in `StandSpec`) |
| BlackjackGame.Game.Double | cardgame/src/main/java/com/cardgame/cardserver/core/BlackjackGame.java:83-89 | `dbl` gives the corrected double, see Findings |
| BlackjackGame.AfterDoubleAsWritten | cardgame/src/main/java/com/cardgame/cardserver/core/BlackjackGame.java:83-89 | `dbl` as written: hit, then stand while the game runs (its flaw in `DoubleStandsNextHand`) |
| BlackjackGame.Game.Surrender | cardgame/src/main/java/com/cardgame/cardserver/core/BlackjackGame.java:90-93 | `surrender` gives the reference surrender |
| BlackjackGame.AfterSurrender | cardgame/src/main/java/com/cardgame/cardserver/core/BlackjackGame.java:90-93 | `surrender` on the game value (properties in `SurrenderSpec`) |
| BlackjackGame.StartedSpec | cardgame/src/main/java/com/cardgame/cardserver/core/BlackjackGame.java:22-30 | a started game runs with the bet, no delta, one two-card hand to play holding the first and third cards, and the dealer the second and fourth |
| BlackjackGame.SplitSpec | cardgame/src/main/java/com/cardgame/cardserver/core/BlackjackGame.java:38-48 | a split leaves two hands, each one card of the pair and then the next card of the deck, the first to play, and keeps the invariant |
| BlackjackGame.HandsReturned | cardgame/src/main/java/com/cardgame/cardserver/core/BlackjackGame.java:54-65 | the loop adds up what each hand returns |
| BlackjackGame.SettledSpec | cardgame/src/main/java/com/cardgame/cardserver/core/BlackjackGame.java:49-67 | once every hand is done the game ends, the dealer reaches 17 or more drawing only from the deck, the hands are kept and the delta is the sum of their returns |
| BlackjackGame.TotalReturnedBounds | cardgame/src/main/java/com/cardgame/cardserver/core/BlackjackGame.java:54-66 | the delta lies between 0 and twice the bet per hand |
| BlackjackGame.FirstOpen | cardgame/src/main/java/com/cardgame/cardserver/core/BlackjackGame.java:80 | the skip loop stops at the first hand not done, past only done hands |
| BlackjackGame.NextHandValid | cardgame/src/main/java/com/cardgame/cardserver/core/BlackjackGame.java:79-82 | moving on from done hands keeps the invariant and never moves play back |
| BlackjackGame.DrawnValid | cardgame/src/main/java/com/cardgame/cardserver/core/BlackjackGame.java:71 | drawing a card to the active hand keeps the invariant and appends the deck's top card |
| BlackjackGame.FinishedNext | cardgame/src/main/java/com/cardgame/cardserver/core/BlackjackGame.java:72 | finishing the active hand and moving on keeps the invariant and moves play past it |
| BlackjackGame.HitSpec | cardgame/src/main/java/com/cardgame/cardserver/core/BlackjackGame.java:68-74 | a hit gives the active hand the next card and keeps the invariant; over 21 the hand is done and play moves past it |
| BlackjackGame.StandSpec | cardgame/src/main/java/com/cardgame/cardserver/core/BlackjackGame.java:75-78 | a stand finishes the active hand, moves play past it and keeps the invariant |
| BlackjackGame.DoubleStandsNextHand | cardgame/src/main/java/com/cardgame/cardserver/core/BlackjackGame.java:83-89 | as written, doubling a split hand into a bust makes the following stand finish the next hand, which never played |
| BlackjackGame.DoubleSpec | cardgame/src/main/java/com/cardgame/cardserver/core/BlackjackGame.java:83-89 | the corrected double doubles the bet, gives the active hand one card and finishes it, changes no other hand and keeps the invariant |
| BlackjackGame.IdleSpec | cardgame/src/main/java/com/cardgame/cardserver/core/BlackjackGame.java:38-93 | outside a running game split, hit, stand, double and surrender change nothing |
| BlackjackGame.SurrenderSpec | cardgame/src/main/java/com/cardgame/cardserver/core/BlackjackGame.java:90-93 | surrender ends a running game with delta minus half the bet, rounded toward zero, and keeps the invariant |
| BlackjackRoom.Deal | cardgame/src/main/java/com/cardgame/cardserver/core/BlackjackRoom.java:44-49 | each user takes two cards, so the deck advances by two per user |
| BlackjackRoom.DealHands | cardgame/src/main/java/com/cardgame/cardserver/core/BlackjackRoom.java:44-49 | the dealing loop gives the reference deal |
| BlackjackRoom.TwoCards | cardgame/src/main/java/com/cardgame/cardserver/core/BlackjackRoom.java:46-47 | two cards never total more than 21 |
| BlackjackRoom.DealSpec | cardgame/src/main/java/com/cardgame/cardserver/core/BlackjackRoom.java:44-49 | dealing keeps the order free of repeats and matching the hands, adds exactly the dealt users with fresh two-card hands and keeps the earlier order as a prefix |
| BlackjackRoom.DealHandsSpec | cardgame/src/main/java/com/cardgame/cardserver/core/BlackjackRoom.java:44-49 | every dealt user gets a fresh hand, and no other user appears |
| BlackjackRoom.DealOrderSpec | cardgame/src/main/java/com/cardgame/cardserver/core/BlackjackRoom.java:44-49 | the insertion order lists each hand once and extends the earlier one |
| BlackjackRoom.StartedSpec | cardgame/src/main/java/com/cardgame/cardserver/core/BlackjackRoom.java:39-53 | a started room runs with the bet, no delta, a two-card undone hand for exactly the listed users, a two-card dealer, nobody finished, nothing settled, and the deck advanced by two per user plus two |
| BlackjackRoom.Returns | cardgame/src/main/java/com/cardgame/cardserver/core/BlackjackRoom.java:85-98 | the settle map has exactly one entry per hand |
| BlackjackRoom.SubsetFull | cardgame/src/main/java/com/cardgame/cardserver/core/BlackjackRoom.java:76 | a subset at least as large as its superset is all of it |
| BlackjackRoom.SubsetSize | cardgame/src/main/java/com/cardgame/cardserver/core/BlackjackRoom.java:76 | a subset is no larger than its superset |
| BlackjackRoom.AllFinished | cardgame/src/main/java/com/cardgame/cardserver/core/BlackjackRoom.java:76 | in a valid room the finished count reaches the hand count exactly when every hand is done |
| BlackjackRoom.SettledWaits | cardgame/src/main/java/com/cardgame/cardserver/core/BlackjackRoom.java:76 | while some hand is not done, settling changes nothing |
| BlackjackRoom.SettledValid | cardgame/src/main/java/com/cardgame/cardserver/core/BlackjackRoom.java:75-101 | settling keeps the room valid and leaves hands, order and finished users alone |
| BlackjackRoom.SettledDealer | cardgame/src/main/java/com/cardgame/cardserver/core/BlackjackRoom.java:78-100 | once all hands are done the round ends and the dealer reaches 17 or more drawing only from the deck |
| BlackjackRoom.SettledReturns | cardgame/src/main/java/com/cardgame/cardserver/core/BlackjackRoom.java:83-99 | once all hands are done, every user has a settle value equal to its hand's return against the dealer's final total, and the room total is their sum |
| BlackjackRoom.ReturnsBounds | cardgame/src/main/java/com/cardgame/cardserver/core/BlackjackRoom.java:88-95 | each settle value lies between 0 and twice the bet |
| BlackjackRoom.HitHand | cardgame/src/main/java/com/cardgame/cardserver/core/BlackjackRoom.java:59-61 | a hit hand gains the card, is totalled, and is bust and done once over 21 |
| BlackjackRoom.SettledHands | cardgame/src/main/java/com/cardgame/cardserver/core/BlackjackRoom.java:75-101 | settling never touches the hands or the finished users |
| BlackjackRoom.PutKeyed | cardgame/src/main/java/com/cardgame/cardserver/core/BlackjackRoom.java:57-61 | replacing a listed user's hand keeps the keys in step |
| BlackjackRoom.PutValid | cardgame/src/main/java/com/cardgame/cardserver/core/BlackjackRoom.java:57-61 | replacing an undone hand by a consistent one keeps the room valid |
| BlackjackRoom.HitValid | cardgame/src/main/java/com/cardgame/cardserver/core/BlackjackRoom.java:55-63 | a hit keeps the room valid and changes nothing for a user who may not act |
| BlackjackRoom.HitSpec | cardgame/src/main/java/com/cardgame/cardserver/core/BlackjackRoom.java:55-63 | a hit gives the user's hand the deck's next card and changes no other hand |
| BlackjackRoom.HitBust | cardgame/src/main/java/com/cardgame/cardserver/core/BlackjackRoom.java:59-61 | after a hit the hand is bust, done and its user finished exactly when its total is over 21 |
| BlackjackRoom.StandValid | cardgame/src/main/java/com/cardgame/cardserver/core/BlackjackRoom.java:65-73 | a stand keeps the room valid and changes nothing for a user who may not act |
| BlackjackRoom.StandSpec | cardgame/src/main/java/com/cardgame/cardserver/core/BlackjackRoom.java:65-73 | a stand finishes the user's hand with its cards unchanged, marks the user finished and changes no other hand |
| BlackjackRoom.ReturnsOver | cardgame/src/main/java/com/cardgame/cardserver/core/BlackjackRoom.java:85-98 | the users entered so far each have their hand's return |
| BlackjackRoom.SettleHands | cardgame/src/main/java/com/cardgame/cardserver/core/BlackjackRoom.java:83-99 | the settling loop builds the reference settle map and its sum |
| BlackjackRoom.SettleHandsStep | cardgame/src/main/java/com/cardgame/cardserver/core/BlackjackRoom.java:96-97 | one more user adds its return to the map and to the sum |
| BlackjackRoom.SettleHandsAll | cardgame/src/main/java/com/cardgame/cardserver/core/BlackjackRoom.java:83-99 | over the whole order the loop builds the settle map and its sum |
| BlackjackRoom.SumOverMapSum | cardgame/src/main/java/com/cardgame/cardserver/core/BlackjackRoom.java:96-99 | with each user once, the running total is the sum of the settle map |
| BlackjackRoom.MapsAgree | cardgame/src/main/java/com/cardgame/cardserver/core/BlackjackRoom.java:97 | a map with exactly the hands' keys and their returns is the settle map |
| BlackjackRoom.ReturnOf | cardgame/src/main/java/com/cardgame/cardserver/core/BlackjackRoom.java:88-95 | the loop body is the reference return |
| BlackjackRoom.Room.constructor | cardgame/src/main/java/com/cardgame/cardserver/core/BlackjackRoom.java:27-30 | a new room is idle and valid, with no hands, and keeps `decks` as given |
| BlackjackRoom.Room.Reset | cardgame/src/main/java/com/cardgame/cardserver/core/BlackjackRoom.java:40-43 | the resets of `start` |
| BlackjackRoom.Room.Start | cardgame/src/main/java/com/cardgame/cardserver/core/BlackjackRoom.java:39-53 | `start` gives the reference started room |
| BlackjackRoom.Room.DealerPlay | cardgame/src/main/java/com/cardgame/cardserver/core/BlackjackRoom.java:78-81 | the dealer loop is the reference dealer draw, totalled |
| BlackjackRoom.Room.SettleMaybe | cardgame/src/main/java/com/cardgame/cardserver/core/BlackjackRoom.java:75-101 | `settleMaybe` gives the reference settlement |
| BlackjackRoom.Room.Hit | cardgame/src/main/java/com/cardgame/cardserver/core/BlackjackRoom.java:55-63 | `hit` gives the reference hit |
| BlackjackRoom.Room.Stand | cardgame/src/main/java/com/cardgame/cardserver/core/BlackjackRoom.java:65-73 | `stand` gives the reference stand |
| BaccaratRules.Point | cardgame/src/main/java/com/cardgame/cardserver/core/BaccaratRoom.java:19 | the point is a digit congruent to the pip sum modulo 10 |
| BaccaratRules.ComputePoint | cardgame/src/main/java/com/cardgame/cardserver/core/BaccaratRoom.java:19 | the loop of `point` computes the point |
| BaccaratRules.CoupSpec | cardgame/src/main/java/com/cardgame/cardserver/core/BaccaratRoom.java:60-65 | both sides get two cards dealt alternately, player first; each takes a third exactly when its two-card point is 5 or less, the player's before the banker's; the points are recomputed and the deck advances by the cards dealt |
| BaccaratRules.Coup | cardgame/src/main/java/com/cardgame/cardserver/core/BaccaratRoom.java:60-65 | the coup on the deck stream (properties in `CoupSpec`) |
| BaccaratRules.WinnerOf | cardgame/src/main/java/com/cardgame/cardserver/core/BaccaratRoom.java:66 | a tie exactly on equal points, otherwise the side with the higher point |
| BaccaratRules.BankerProfit | cardgame/src/main/java/com/cardgame/cardserver/core/BaccaratRoom.java:47 | without commission the profit is the stake; with it, 95% of the stake rounded half up |
| BaccaratRules.BankerProfitBounds | cardgame/src/main/java/com/cardgame/cardserver/core/BaccaratRoom.java:47 | with a stake that is not negative the profit lies between 0 and the stake |
| BaccaratRules.MainReturn | cardgame/src/main/java/com/cardgame/cardserver/core/BaccaratRoom.java:39-57 | a player bet returns twice the stake on a player win and the stake on a tie; a banker bet the stake plus its profit on a banker win and the stake on a tie; a tie bet nine times the stake on a tie; anything else nothing |
| BaccaratRules.MainReturnWin | cardgame/src/main/java/com/cardgame/cardserver/core/BaccaratRoom.java:39-57 | a return lies between 0 and nine times the stake, and a winning bet returns more than its stake |
| BaccaratRoom.KeyNameSpec | cardgame/src/main/java/com/cardgame/cardserver/core/BaccaratRoom.java:30-76 | only main keys start with `MAIN_`, what follows is their pick, and distinct keys have distinct names |
| BaccaratRoom.Get | cardgame/src/main/java/com/cardgame/cardserver/core/BaccaratRoom.java:33 | `getOrDefault(k, 0)` is 0 for a missing key |
| BaccaratRoom.Add | cardgame/src/main/java/com/cardgame/cardserver/core/BaccaratRoom.java:33-36 | adding to an entry creates it if missing, raises it by the amount and keeps every other entry |
| BaccaratRoom.PlaceBets | cardgame/src/main/java/com/cardgame/cardserver/core/BaccaratRoom.java:32-36 | the updates of `place` give the reference bets |
| Text.UpperAll | cardgame/src/main/java/com/cardgame/cardserver/core/BaccaratRoom.java:33 | upper-casing keeps the length and upper-cases each character |
| BaccaratRoom.SideBetsSpec | cardgame/src/main/java/com/cardgame/cardserver/core/BaccaratRoom.java:34-36 | each flagged side bet grows by the amount, every other entry is kept |
| BaccaratRoom.PlacedSpec | cardgame/src/main/java/com/cardgame/cardserver/core/BaccaratRoom.java:30-37 | `place` adds the user to the ledger, adds the amount to the user's main entry for the upper-cased pick and to each flagged side bet, and changes no other user or entry |
| BaccaratRoom.EntryReturn | cardgame/src/main/java/com/cardgame/cardserver/core/BaccaratRoom.java:75-80 | a main entry returns `settleMain` of its pick; a pair bet twelve times its stake on that side's pair; SUPER6 thirteen times its stake on a banker win with 6; otherwise nothing |
| BaccaratRoom.EntryReturns | cardgame/src/main/java/com/cardgame/cardserver/core/BaccaratRoom.java:73-81 | every entry of a user's bets has its return |
| BaccaratRoom.Settlement | cardgame/src/main/java/com/cardgame/cardserver/core/BaccaratRoom.java:70-83 | every ledger user, and no one else, has a settle value |
| BaccaratRoom.DealtSpec | cardgame/src/main/java/com/cardgame/cardserver/core/BaccaratRoom.java:59-85 | after `dealAndSettle` the round is over, the ledger is kept, each ledger user's settle value is the sum of its entries' returns against the coup, and the points are those of the cards |
| BaccaratRoom.ReturnAdd | cardgame/src/main/java/com/cardgame/cardserver/core/BaccaratRoom.java:33-81 | a new entry adds its return to the user's total |
| BaccaratRoom.EntryReturnsUpdate | cardgame/src/main/java/com/cardgame/cardserver/core/BaccaratRoom.java:73-81 | setting one entry changes only its return |
| BaccaratRoom.SideReturns | cardgame/src/main/java/com/cardgame/cardserver/core/BaccaratRoom.java:34-80 | the side bets add their returns to bets that held none |
| BaccaratRoom.SingleBetReturn | cardgame/src/main/java/com/cardgame/cardserver/core/BaccaratRoom.java:30-83 | one placed bet settles as the main return plus the flagged side bets' returns |
| BaccaratRoom.ReadyEdges | cardgame/src/main/java/com/cardgame/cardserver/core/BaccaratRoom.java:88-90 | a missing or empty collection is never ready; one of only null users is |
| BaccaratRoom.PlacedReady | cardgame/src/main/java/com/cardgame/cardserver/core/BaccaratRoom.java:87-100 | a user who placed a positive main bet makes the room ready for that user |
| BaccaratRoom.FindMain | cardgame/src/main/java/com/cardgame/cardserver/core/BaccaratRoom.java:93-96 | the scan finds a main entry with a positive stake exactly when there is one |
| BaccaratRoom.DoneSumStep | cardgame/src/main/java/com/cardgame/cardserver/core/BaccaratRoom.java:73-81 | one more entry summed adds its return |
| BaccaratRoom.DoneSumEnds | cardgame/src/main/java/com/cardgame/cardserver/core/BaccaratRoom.java:72-81 | the inner loop starts at 0 and ends at the user's total |
| BaccaratRoom.EntryReturnOf | cardgame/src/main/java/com/cardgame/cardserver/core/BaccaratRoom.java:74-80 | the loop body is the reference entry return |
| BaccaratRoom.SettleUser | cardgame/src/main/java/com/cardgame/cardserver/core/BaccaratRoom.java:72-82 | the inner loop computes the user's total return |
| BaccaratRoom.SettleAll | cardgame/src/main/java/com/cardgame/cardserver/core/BaccaratRoom.java:70-83 | the outer loop builds the reference settlement |
| BaccaratRoom.SettlementStep | cardgame/src/main/java/com/cardgame/cardserver/core/BaccaratRoom.java:82 | one more user settled adds its total to the map |
| BaccaratRoom.DealSides | cardgame/src/main/java/com/cardgame/cardserver/core/BaccaratRoom.java:61-65 | the draws of `dealAndSettle` give the reference coup |
| BaccaratRoom.Room.constructor | cardgame/src/main/java/com/cardgame/cardserver/core/BaccaratRoom.java:17 | a new room holds an empty round over the given deck |
| BaccaratRoom.Room.ResetRound | cardgame/src/main/java/com/cardgame/cardserver/core/BaccaratRoom.java:21-28 | `resetRound` clears the sides, the ledger and the settlement and keeps the deck |
| BaccaratRoom.Room.Place | cardgame/src/main/java/com/cardgame/cardserver/core/BaccaratRoom.java:30-37 | `place` changes only the ledger, to the reference placement |
| BaccaratRoom.Room.DealAndSettle | cardgame/src/main/java/com/cardgame/cardserver/core/BaccaratRoom.java:59-85 | `dealAndSettle` gives the reference dealt round |
| BaccaratRoom.Room.Ready | cardgame/src/main/java/com/cardgame/cardserver/core/BaccaratRoom.java:87-100 | `ready` is the reference readiness |
| BaccaratGame.SoloReturnIsUserReturn | cardgame/src/main/java/com/cardgame/cardserver/core/BaccaratGame.java:9-47 | the single-player return of a bet with a pick is the room's return of the same bets |
| BaccaratGame.SettlementOfOne | cardgame/src/main/java/com/cardgame/cardserver/core/BaccaratGame.java:9-47 | the room's settlement of a one-user ledger is that user's return |
| BaccaratGame.SoloDealsAsRoom | cardgame/src/main/java/com/cardgame/cardserver/core/BaccaratGame.java:10-15 | the single-player game deals the room's coup and leaves the same deck |
| BaccaratGame.SoloSettlesAsRoom | cardgame/src/main/java/com/cardgame/cardserver/core/BaccaratGame.java:9-47 | the single-player game settles a bet exactly as the room settles the same bet placed alone |
| BaccaratGame.SoloSettlement | cardgame/src/main/java/com/cardgame/cardserver/core/BaccaratGame.java:17-47 | against any outcome, the room's settlement of the one placed bet is the single-player return |
| BaccaratGame.AfterBetSpec | cardgame/src/main/java/com/cardgame/cardserver/core/BaccaratGame.java:9-47 | after `bet` the round is over, the points are those of the cards, the deck advances by the cards dealt, a stake that is not negative never returns a negative amount, and nothing bet returns nothing |
| BaccaratGame.Game.constructor | cardgame/src/main/java/com/cardgame/cardserver/core/BaccaratGame.java:7 | a new game holds the given deck |
| BaccaratGame.Game.Bet | cardgame/src/main/java/com/cardgame/cardserver/core/BaccaratGame.java:9-47 | `bet` gives the reference state and deck |
| BaccaratGame.SwitchMain | cardgame/src/main/java/com/cardgame/cardserver/core/BaccaratGame.java:18-42 | the `switch` adds the main bet's return, nothing for an unknown pick |
| BaccaratGame.SideStakes | cardgame/src/main/java/com/cardgame/cardserver/core/BaccaratGame.java:43-47 | the side bets add their returns |
| ConsoleBaccarat.CardValue | blackjack/src/main/java/com/cardgame/baccarat/Baccarat.java:81-84 | an ace is 1, two to nine their number, tens and faces 0 |
| ConsoleBaccarat.Value | blackjack/src/main/java/com/cardgame/baccarat/Baccarat.java:78-88 | the value is a digit congruent to the sum of card values modulo 10 |
| ConsoleBaccarat.ValueSumAppend | blackjack/src/main/java/com/cardgame/baccarat/Baccarat.java:80-86 | the sum over two runs of cards is the sum of their sums |
| ConsoleBaccarat.ValueSwap | blackjack/src/main/java/com/cardgame/baccarat/Baccarat.java:39-42 | a two-card value does not depend on the order of the cards |
| ConsoleBaccarat.ValueSumOne | blackjack/src/main/java/com/cardgame/baccarat/Baccarat.java:80-86 | a single card's sum is its value |
| ConsoleBaccarat.ComputeValue | blackjack/src/main/java/com/cardgame/baccarat/Baccarat.java:78-88 | the loop of `value` computes the value |
| ConsoleBaccarat.ThirdCardValue | blackjack/src/main/java/com/cardgame/baccarat/Baccarat.java:114-120 | `thirdCardValue` is the value of that card alone |
| ConsoleBaccarat.BankerTable | blackjack/src/main/java/com/cardgame/baccarat/Baccarat.java:93-112 | the banker draws on 5 or less after a player stand; after a third card worth p, on 2 or less, on 3 unless p is 8, and on 4 to 6 when p lies between twice (total - 3) and 7 |
| ConsoleBaccarat.BankerShouldDraw | blackjack/src/main/java/com/cardgame/baccarat/Baccarat.java:93-112 | `bankerShouldDraw` on values (properties in `BankerTable` and `BankerExtremes`) |
| ConsoleBaccarat.BankerExtremes | blackjack/src/main/java/com/cardgame/baccarat/Baccarat.java:93-112 | the banker always stands on 7 or more and always draws on 2 or less |
| ConsoleBaccarat.Commission | blackjack/src/main/java/com/cardgame/baccarat/Baccarat.java:142 | the commission is 5% of the bet rounded half up |
| ConsoleBaccarat.SettleDelta | blackjack/src/main/java/com/cardgame/baccarat/Baccarat.java:125-158 | nothing without a bet; a player bet wins or loses the bet on the higher or lower point and pushes on a tie; a banker bet the same, less the commission on a win; a tie bet wins 8 times the bet on a tie and loses it otherwise |
| ConsoleBaccarat.SettleDeltaBounds | blackjack/src/main/java/com/cardgame/baccarat/Baccarat.java:125-158 | a bet loses at most itself and wins at most 8 times itself; a player bet mirrors under swapped points; a banker win pays between 0 and the bet, less than the bet from 10 on |
| ConsoleBaccarat.DealSpec | blackjack/src/main/java/com/cardgame/baccarat/Baccarat.java:33-75 | the round deals player, player, banker, banker; a natural stops at two cards each; otherwise the player draws on 5 or less, the banker by its table, and the deck advances by the cards dealt |
| ConsoleBaccarat.RoundBounds | blackjack/src/main/java/com/cardgame/baccarat/Baccarat.java:33-75 | no bet settles nothing; with a bet the result lies between minus the bet and 8 times it |
| ConsoleBaccarat.SettleAndPrint | blackjack/src/main/java/com/cardgame/baccarat/Baccarat.java:125-158 | the branches give the reference delta |
| ConsoleBaccarat.DealTwoEach | blackjack/src/main/java/com/cardgame/baccarat/Baccarat.java:37-40 | the first four draws: player, player, banker, banker |
| ConsoleBaccarat.DealCoup | blackjack/src/main/java/com/cardgame/baccarat/Baccarat.java:39-68 | the dealing gives the reference coup and its values |
| ConsoleBaccarat.PlayOneRoundForBet | blackjack/src/main/java/com/cardgame/baccarat/Baccarat.java:33-75 | the round gives the reference delta and deck |
| ConsoleBaccarat.PlayOneRound | blackjack/src/main/java/com/cardgame/baccarat/Baccarat.java:20-23 | a round with nothing bet leaves the deck as the deal does |

## Left out

- Integer width: Java `int` overflow is not modelled. All amounts, pots and balances are unbounded integers.
- Floating point: the commissions (`Math.round(amount * 0.95)` in the server, `Math.round(bet * 0.05)` in the console baccarat) and the shoe's cut (`Math.round(total * (1.0 - penetration))`) are computed in exact arithmetic with rounding half up. Double rounding error at exact halves is not modelled.
- Randomness is a parameter:
  - `Random` is an oracle stream (`ShoeModel.Rng`).
  - The server `Deck` and the console `Deck` are card streams.
  - `Collections.shuffle` is written as its swap loop over that stream.
  - `DealerProfile.random` is not modelled.
- The bots' decision policy (`decideFor`, `evaluateStrength`, `hasDrawPotential` and the `DealerProfile` parameters, `SevenPokerGame.java:521-976`) is floating-point and random. It is an arbitrary function from the table and the seat to an optional move. `SevenFlow.AutoAct` keeps the real loop: its guard of 20 moves, its stopping conditions, and the bot's move applied through `applyAction` without re-entering the loop.
- The `lastAction`, `lastActor`, `lastActionType` and `lastActionAmount` fields and the `profile` field of `SevenPokerGame` only record what happened for display. They are not part of the model.
- The read-only accessors have no members of their own: the model exposes the fields directly. These are `minRaise`, `toCall`, `pendingOrder`, `currentBet` and `winners` of `SevenPokerGame` (`SevenPokerGame.java:1060-1081`), and `currentBet` and `handCount` of `BlackjackGame`.
- Null arguments are not modelled except for:
  - a missing main bet in `BaccaratGame.bet`, which is an `Option`;
  - the null users `BaccaratRoom.ready` skips;
  - a missing hand in `BlackjackRoom.hit`/`stand`.
- `Text.UpperAll`: upper-casing changes only the ASCII letters a to z. Java's locale and Unicode case mapping are not modelled.
- Iteration order:
  - `LinkedHashMap` order is a sequence (`BlackjackRoom`'s `order`, the stud table's `order`, `pending`).
  - The baccarat ledger and settle maps, and the order of the entry loop in `dealAndSettle`, are finite maps, and the sums are proved order-independent. Insertion order is therefore not modelled there.
  - Ledger keys are a datatype (`BaccaratRoom.KeyName` gives back the source's strings: `MAIN_<pick>`, `PAIR_P`, `PAIR_B`, `SUPER6`).
- Exceptions:
  - The constructors of `Wallet` and `Shoe` that throw are the factories `WalletModel.NewWallet`, `ShoeModel.NewShoe` and `ShoeModel.NewFullShoe`, which return an error.
  - `evaluate` on a list whose size is not 5, `bestFiveScore` on fewer than 5 cards, and `best5Score` and `best5` on a list whose size is not 7 return an error value (see the rows above).
- Printing, the console prompts and every other kind of I/O are not modelled: the `System.out` output, `Scanner`, `askInt`, `dealerMasked` and `printState`. The console blackjack player's HIT/STAND/SPLIT choices (`BlackJack.java:19-80`) are interactive and left out. Its value, split test, dealer draw and settlement are modelled.
- `Application1.main`, the Spring controllers and services, the session and room registry, and the front-end are outside the modelled core.
- SevenSeating.Begin: seats each id once, as the corrected seating of the first Findings row does; `SevenPokerGame.java:195-208` appends a repeated id to `order` again. The as-written order is `SevenRules.SeatOrderAsWritten`.
- SevenFlow.Open: opens the first street on the corrected seating of `SevenSeating.Begin`, not on an `order` with repeated ids.
- SevenFlow.Start: likewise runs `start` on the corrected seating.
- BlackjackGame.Game.Double: runs the corrected double of the second Findings row, which stands only when the doubled hand is still open; `BlackjackGame.java:86-87` stands whenever the game is still running. The as-written state is `BlackjackGame.AfterDoubleAsWritten`.
- SevenStud.Street: bets through `SevenStud.CorrectedBettingRound`, which hands the dealer's unmatched excess back, as the third Findings row says; `SevenStudFixedLimit.java:228-231` leaves it in the pot.
- SevenStud.PlayOneRoundForBet: likewise plays the corrected rounds.
- ConsoleBlackjack.SettleRound: takes the finished hands as input rather than playing them, because the play loop that produces them is interactive.

## Findings

| source | as written | input that shows it | evidently intended | confidence | as-written member | corrected member |
|---|---|---|---|---|---|---|
| cardgame/src/main/java/com/cardgame/cardserver/core/SevenPokerGame.java:195-208 | `start` seats every non-blank id: `players.put` keeps one seat per id, but `order.add` appends a repeated id again, so `order` lists that seat twice; if it wins, the showdown lists it twice among the winners and splits the pot in two, overwriting one payout with the other | `start(["a", "a", "b"], …)`, then "a" winning a pot of 30 at showdown: payouts hold 15 for "a" and the other 15 go to nobody | each id seated once, so the payouts add up to the pot | not executed | SevenRules.DuplicateSeatLosesChips | SevenRules.DuplicateSeatCorrected |
| cardgame/src/main/java/com/cardgame/cardserver/core/BlackjackGame.java:83-89 | `dbl` hits and then, when the game is still running, stands; if the hit busted the active hand, `hit` has already moved play to the next hand, so that `stand` finishes the next hand, which was never played | after a split into 16 and 20, doubling the first hand onto a ten: the second hand is marked done with its two cards | the double finishes only the doubled hand | not executed | BlackjackGame.DoubleStandsNextHand | BlackjackGame.DoubleSpec |
| blackjack/src/main/java/com/cardgame/sevenpoker/SevenStudFixedLimit.java:122-231 | the comment at line 124 says the pot is only what both sides matched, but when the player checks, the dealer bets and the player calls with less than the bet (lines 228-231), the dealer's whole bet stays in the pot; a win then pays the player the unmatched part too, and a tie splits it | after an ante of 10 from a stack of 15, a check, the dealer's bet of 10 and a call of 5: the pot is 25, a win nets the player 10 although the dealer matched only 5 | the unmatched excess goes back to the dealer, so a win nets what the dealer matched | not executed | SevenStud.ShortCallLeavesExcess | SevenStud.CorrectedBettingRound |
