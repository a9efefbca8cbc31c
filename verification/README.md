# Slot machine game engine in Dafny

This project models the game-resolution engine of a three-reel slot machine
React component (`src/components/SlotMachine.jsx`). The engine has these parts:

- **the symbol table:** six symbols, each with a sampling weight and the
  multipliers paid for three and for two of a kind;
- **the weighted bag:** each symbol repeated `weight` times, with three uniform
  positions drawn from it per spin;
- **settlement:** the jackpot for three 7s, `payout3` for any other triple,
  `payout2` for a pair, and the lost bet otherwise;
- **the progressive jackpot:** it resets to its seed on a hit and grows by
  10–50 % of the bet on every spin that does not hit it;
- **the spin sequence:** a guard, generic decoy frames, the extended
  third-reel tease for a 777, then the final frame;
- **the session state:** balance, bet, reels, busy flag, last result and
  jackpot, changed by spin, bet entry and reset.

All randomness is explicit. Every `Math.random()` result is a `real` in [0, 1)
carried in a `Rolls` record. A bag position is `floor(u * |bag|)`, as in the
component. The number of generic-phase frames depends on the wall clock, so it
is the length of a sequence parameter. Delays are data, in milliseconds.
Money is `real`. Labels are tags that carry what the formatted text shows.

Modules:

| file | module | contents |
|---|---|---|
| `wrappers.dfy` | `Wrappers` | `Option`, standing for the component's `null` |
| `symbols.dfy` | `Symbols` | the `Symbol` enum, its weights and payouts, the table, `JACKPOT_SEED`, and the `Draw` triple |
| `bag.dfy` | `Bag` | `WeightedBag`, its reference `Expand`, the catalogue's bag, and sampling |
| `settlement.dfy` | `Settlement` | `Settle` and the two-of-a-kind choice |
| `animation.dfy` | `Animation` | the frames and delays of a spin |
| `session.dfy` | `Session` | the machine state, `Spin`, `Reset`, `SetBet`, and session runs |

Behaviour of the code worth noting:

- **No-match multiplier:** a draw with no matching symbols reports
  multiplier 0, not `null` (`SlotMachine.jsx` lines 57 and 82).
- **Zero-payout pairs:** a Cherry or Lemon pair keeps its "two of a kind"
  label with multiplier 0 (line 78). It loses the bet, but it is not
  reported with the plain loss label.
- **Bet values:** the "All In" button (line 262) can set the bet to the
  balance, which need not be a whole number. The spin guard itself rejects a
  bet ≤ 0 and a bet above the balance (lines 86-96).
- **Decoy frames:** decoys are drawn independently from the same bag
  (lines 120 and 138), so a decoy frame can show the outcome before the
  terminal frame. The model states what the code guarantees: the last frame
  is the outcome, and the settlement depends on the outcome alone.

## Model

| member | source | states |
|---|---|---|
| Symbols.CatalogueWellFormed | src/components/SlotMachine.jsx:9-16 | every symbol is listed exactly once, with a positive weight and a positive three-of-a-kind multiplier |
| Bag.WeightedBag | src/components/SlotMachine.jsx:27-33 | the pushing loop builds exactly the blocks of each table entry, `weight` copies each, in table order |
| Bag.ExpandLength | src/components/SlotMachine.jsx:27-33 | the bag's length is the sum of the table's weights |
| Bag.ExpandCount | src/components/SlotMachine.jsx:27-33 | each symbol occurs `weight` times in the bag for each time it is listed in the table |
| Bag.BagBlock | src/components/SlotMachine.jsx:29-31 | the copies of table entry k form one contiguous block, starting at the total weight of the entries before it |
| Bag.ExpandPrefix | src/components/SlotMachine.jsx:29-31 | the bag built from the first j table entries is a prefix of the whole bag, so later entries only append |
| Bag.BagAt | src/components/SlotMachine.jsx:29-31 | every position inside the block of entry k holds that entry |
| Bag.CatalogueOffsets | src/components/SlotMachine.jsx:9-16 | the catalogue's cumulative weights are 0, 120, 240, 330, 390, 420 and 429 in total |
| Bag.CatalogueBag | src/components/SlotMachine.jsx:9-36 | the catalogue's bag has 429 entries; each symbol occurs exactly `weight` times; position i holds the symbol whose cumulative-weight range (120, 240, 330, 390, 420, 429) contains i |
| Bag.RandomIndex | src/components/SlotMachine.jsx:47-49 | `floor(u * n)` for u in [0, 1) is a valid position below n |
| Bag.RandomIndexInterval | src/components/SlotMachine.jsx:47-49 | position i is drawn exactly when u lies in [i/n, (i+1)/n), an interval of the same width for every position |
| Bag.PickInterval | src/components/SlotMachine.jsx:27-33 | one draw `bag[floor(u * 429)]` from the catalogue's bag yields symbol s exactly when u × 429 lies in the block of s, an interval of width weight(s), so s is drawn with probability weight(s)/429 |
| Bag.SpinOnceIntervals | src/components/SlotMachine.jsx:45-51 | each reel of a spin's draw shows s exactly when that reel's own uniform value, times 429, lies in the block of s; the reels are decided independently |
| Bag.JackpotPositions | src/components/SlotMachine.jsx:45-51 | a draw is 777 exactly when all three drawn positions fall in the last nine (420 to 428) |
| Settlement.MatchedSymbol | src/components/SlotMachine.jsx:74-77 | once some pair matches, the chosen symbol is the only one shown at least twice, so the fourth arm of the conditional is unreachable |
| Settlement.Settle | src/components/SlotMachine.jsx:54-83 | rules in priority order: jackpot hit iff 777, which pays the whole jackpot with null multiplier whatever the bet; any other triple pays bet × payout3; a pair pays bet × payout2 of the symbol shown twice, or loses the bet when that is 0; three distinct symbols lose the bet with multiplier 0 |
| Settlement.DeltaSign | src/components/SlotMachine.jsx:57-81 | for a positive bet and jackpot, the delta is either −bet or strictly positive; it is negative exactly when there is no jackpot and the multiplier is 0 |
| Settlement.PaytableExamples | src/components/SlotMachine.jsx:54-83 | Diamond triple at bet 10 pays 200; Clover pair pays 20; Cherry pair loses 10 with multiplier 0; no match loses 10; 777 pays the same for bets 1 and 1000; a 7 pair pays 800 |
| Animation.GenericPhase | src/components/SlotMachine.jsx:117-124 | each generic frame shows its decoy draw followed by an 80 ms pause |
| Animation.TeasePhase | src/components/SlotMachine.jsx:135-145 | every tease frame keeps reels 0 and 1 on the given symbols and shows its decoy on reel 3; pauses strictly increase |
| Animation.Frames | src/components/SlotMachine.jsx:117-152 | the generic frames come first; a 777 adds exactly 7 tease frames plus a lock frame; from the lock frame on, reels 0 and 1 show the outcome's first two symbols; the terminal frame is the outcome in both branches |
| Animation.JackpotTease | src/components/SlotMachine.jsx:126-148 | for 777 the lock frame shows the outcome's first two symbols and a decoy; tease step i shows decoy i with a pause of 120 + 40 i ms; the tease lasts 1680 ms in all |
| Animation.TeaseTotalDelay | src/components/SlotMachine.jsx:136-144 | n tease steps pause 120 n + 20 n (n − 1) ms in all |
| Session.NextJackpot | src/components/SlotMachine.jsx:187-194 | on a hit the jackpot is exactly the seed; otherwise it grows by at least 0.1 × bet and by less than 0.5 × bet, wins included |
| Session.Celebrate | src/components/SlotMachine.jsx:170-175 | the celebration cue fires iff jackpot hit or at least two diamonds are shown, paid or not |
| Session.Spin | src/components/SlotMachine.jsx:85-96 | busy or bet ≤ 0 leaves the state and frames untouched and fires no cue; a bet above the balance changes only the last result, to the warning with amount 0; otherwise the spin is played |
| Session.Play | src/components/SlotMachine.jsx:98-196 | the reels end on the draw made before any frame, which is also the terminal frame; balance is never negative; bet is kept and busy is cleared; jackpot is reset on 777 and otherwise grows by a fraction of the bet in [0.1, 0.5); the result is a win iff the balance did not fall; the cue rule holds |
| Session.PlayReport | src/components/SlotMachine.jsx:154-168 | the result line of a played spin carries the label and multiplier settled from the outcome draw, the absolute value of the delta as amount, and "win" exactly when the delta is not negative |
| Session.Reset | src/components/SlotMachine.jsx:199-203 | balance back to 100, bet to 5, and the result cleared; the jackpot, reels and busy flag are unchanged |
| Session.SetBet | src/components/SlotMachine.jsx:245 | the entered bet is taken as is when at least 1 and is exactly 1 otherwise; nothing else changes |
| Session.SpinPreservesValid | src/components/SlotMachine.jsx:162-194 | a spin keeps the balance non-negative and the jackpot at or above its seed |
| Session.DecoysIrrelevant | src/components/SlotMachine.jsx:110-160 | settlement depends only on the outcome draw and the growth factor, never on a displayed decoy frame |
| Session.SpinBalance | src/components/SlotMachine.jsx:162-168 | since the bet is at most the balance, the floor at 0 never binds: the balance moves by exactly the settlement delta, the reported amount is the size of that move, and a loss takes exactly the bet |
| Session.RunPreservesValid | src/components/SlotMachine.jsx:85-203 | any sequence of spins, bet entries and resets keeps the balance non-negative and the jackpot at or above its seed |
| Session.ReachableValid | src/components/SlotMachine.jsx:38-43 | the initial state (balance 100, bet 5, jackpot at its seed) is valid, so every reachable state is |

## Left out

- Rendering: JSX, CSS classes, the paytable and stats display, and `src/App.jsx` are presentation only.
- Bet buttons: the buttons' `disabled` conditions, the fixed bet buttons and "All In" are JSX. Only the clamp of the typed bet is modelled.
- Audio: the `Audio` objects and their `play()` calls are browser I/O. Only the two boolean cues remain.
- Timing: the `performance.now()` / `setTimeout` loop is wall-clock time. The generic-phase frame count is a parameter of at least 1, because the time limit is first tested right after the start time is read; pauses are numbers.
- Randomness: `Math.random()` becomes explicit reals in [0, 1).
- Text: `formatCurrency` and the label strings are library formatting. Labels are tags.
- Floating point: money is exact `real`. Rounding is not modelled.
- `parseInt`: bet text parsing is a library call. The entered number is already an integer here.
- Intermediate state: a spin is one atomic step, so the states in between are not exposed. These include `busy` being true during the animation and the result cleared at spin start.
- Interleaving: intents that arrive during the asynchronous animation are not modelled. This includes a bet typed while a spin is running. React's state batching is not modelled either.
- Icons and names: a symbol's icon and name are represented by its enum constructor.
