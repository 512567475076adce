# Crash-game round lifecycle and bet ledger, modelled in Dafny

This project models the core of a crash-betting server. A round opens with
the multiplier at 1.00 and counts down from 9 to 1 while bets are taken.
The round then starts running with a crash point drawn for it. The
multiplier then climbs by 0.01 per tick until it reaches the crash point,
and the next round begins five seconds later. While the round runs, a
player may cash out once, for the stake times the current multiplier,
truncated to whole cents. Accounts are created with 1000.00 in each of
SOL, CHIPPY and DEMO.

Modules, one per piece of the program:

- `Protocol` (`protocol.dfy`): the direct replies (`ERROR`, `BET_PLACED`,
  `CASHOUT_SUCCESS`, `USER_CREATED`) and the broadcast events
  (`GAME_WAITING`, `COUNTDOWN`, `SECOND_BEFORE_START`, `ROUND_STARTED`,
  `CNT_MULTIPLY`, `ROUND_CRASHED`). The step methods return these in place of
  sending them.
- `UserController` (`users.dfy`): the `User` collection as a `UserStore`
  class whose `users` map the handlers update in place. It holds
  `handleCreateUser`, `createUser`, `getUser` and the placeholder
  `handleCashout`.
- `GameRules` (`rules.dfy`): the value-level rules of the game controller.
  These are the payout formula, the `bets.find` lookup, the two ordered
  check chains of the bet and cashout handlers, and the tick on which a
  round crashes.
- `GameController` (`game.dfy`): a `Game` class. Its fields are the
  module-level `gameState`, `isRunning` and `currentMultiplier`, the drawn
  crash point, the countdown variable, and the current round document (its
  `crashMultiplier` and its `bets`). A field `pending` names the timer
  callback due next. `StartGame`, `CountdownTick`, `BeginRunning`, `Tick`
  and `EndGame` each stand for one timer callback; `PlaceBet` and
  `Cashout` stand for the two message handlers.
- `Scenarios` (`scenarios.dfy`): whole rounds driven through those methods.

Units: the multiplier is in integer hundredths (100 is 1.00) and money is
in integer cents. The payout `floor(amount × multiplier × 100) / 100` is
therefore `amount * multiplier / 100` in cents. Dafny's division by a
positive divisor is floor division, so negative stakes round the same way
as `Math.floor`.

`gameState` and `isRunning` are kept as separate fields, as in the code.
The bet handler reads `gameState` and the cashout handler reads
`isRunning`. A crash clears `isRunning`, but no code ever sets `gameState`
to `'ended'`. So from the moment the round starts running until the next
`startGame`, every bet is refused with the first error, and after the crash
every cashout is refused as well.

Facts about the code that the model keeps:

- Bets are accepted only while `gameState` is `'waiting'` or `'ended'`, and
  no code assigns `'ended'`. So bets after a crash are refused until the next
  `startGame` (`GameController.BetsClosedUntilReset`,
  `Scenarios.CrashBeforeCashout`).
- The bet handler does not check the sign of `amount`. A negative stake is
  accepted and credits the balance, and cashing it out can push the balance
  below zero (`Scenarios.NegativeStake`).
- Cashout reads `isRunning`, not `gameState`.
- The drawn crash point is never checked by the code. `BeginRunning` requires
  it to be at least 1.00.
- With commands handled one at a time, the "already cashed out in this round"
  bet check cannot decide a reply. A cashout needs the round to be running,
  and bets are refused from then until `startGame` empties the bet list
  (`GameController.NoCashedOutBetWhileWaiting`).
- The game controller and the user controller share one account store. The
  bet and cashout handlers change one balance of one account and issue no id,
  so they keep the store invariant that account creation relies on
  (`Scenarios.AccountAfterBet`).

## Model

| member | source | states |
|---|---|---|
| `GameController.Game.constructor` | controllers/gameController.js:5-7 | the state after the module loads and the server boots into the first `startGame`: waiting, not running, multiplier 1.00, an empty round with crash multiplier 0, countdown at 9 |
| `GameController.Game.StartGame` | controllers/gameController.js:16-30 | sets waiting, not running and exactly 1.00; opens a new round with no bets and crash multiplier 0; leaves the previous round stored unchanged; announces `GAME_WAITING`; arms the countdown at 9 |
| `GameController.Game.CountdownTick` | controllers/gameController.js:33-47 | shows the current countdown value, decrements it, and clears the interval once it drops below 1; `gameState` is untouched |
| `GameController.Game.RunCountdown` | controllers/gameController.js:33-47 | the countdown shows exactly 9, 8, …, 1, then stops, with the game waiting throughout |
| `GameController.Game.BeginRunning` | controllers/gameController.js:50-63 | flips `gameState` to running and `isRunning` to true, announces the start, and records the drawn crash point on the round |
| `GameController.Game.Tick` | controllers/gameController.js:65-79 | raises the multiplier by exactly 0.01. When the tick reaches the crash point: the tick is the first n ≥ 1 with 1.00 + 0.01·n at or above it; `isRunning` becomes false; `gameState` stays running; the recorded outcome equals the multiplier. Otherwise the round keeps running |
| `GameController.Game.RunToCrash` | controllers/gameController.js:65-79 | the broadcast multipliers rise by 0.01 each, strictly increasing, up to 1.00 + 0.01 × (ticks to crash); the round ends crashed with that value recorded |
| `GameController.Game.EndGame` | controllers/gameController.js:83-95 | records the current multiplier as the round's `crashMultiplier`, broadcasts `ROUND_CRASHED` with it, and schedules the next `startGame` |
| `GameController.Game.PlaceBet` | controllers/gameController.js:97-154 | the reply is the first failing check of `BetVerdict`, and then balances and bets are unchanged; on success the balance drops by exactly `amount`, one uncashed bet is appended, the user then holds exactly one bet, and the reply carries the new balance; only the balance table may change in the store, and a well-formed store stays well-formed |
| `GameController.Game.Cashout` | controllers/gameController.js:156-214 | the reply is the first failing check of `CashoutVerdict`, and then nothing changes; on success the truncated winnings at the current multiplier are added to the balance (missing counts as 0), the bet is flagged cashed out so the next attempt finds it so, and the reply reports winnings, new balance and multiplier; only the balance table may change in the store, and a well-formed store stays well-formed |
| `GameController.BetsClosedUntilReset` | controllers/gameController.js:101-104 | from the flip to running, through the crash, until the next `startGame`, every bet is refused by the first check |
| `GameController.NoCashedOutBetWhileWaiting` | controllers/gameController.js:120-126 | while bets are taken, the "cannot bet after cashing out" check never fires |
| `GameController.CashoutClosedUnlessTicking` | controllers/gameController.js:161-164 | outside the running tick loop, including after the crash has cleared `isRunning`, every cashout is refused by the first check |
| `GameRules.BetVerdict` | controllers/gameController.js:101-138 | the six bet checks in the code's order, first failure wins: state not waiting/ended, unsupported currency, unknown user, a cashed-out bet this round, balance < amount, any existing bet; accepted exactly when all pass, so an amount equal to the balance is accepted |
| `GameRules.CashoutVerdict` | controllers/gameController.js:161-213 | the cashout checks in order: not running, no bet, bet already cashed out, then an unknown user (the handler throws and reports a failed cashout); accepted exactly when all pass |
| `GameRules.FindBet` | controllers/gameController.js:122 | `bets.find` by user: the index of the first bet of that user, or none when no bet is theirs |
| `GameRules.BetsOfAppend` | controllers/gameController.js:145 | pushing a bet adds one to its owner's bet count and nothing to anyone else's |
| `GameRules.BetsOfFound` | controllers/gameController.js:134-138 | with at most one bet per user, a user holds exactly one bet when `find` succeeds and none when it fails |
| `GameRules.FindBetAfterFlag` | controllers/gameController.js:196 | setting `cashedOut` on a bet leaves the result of `find` unchanged |
| `GameRules.Winnings` | controllers/gameController.js:183-184 | the payout in cents; at a multiplier of exactly 1.00 it is the stake itself |
| `GameRules.WinningsTruncate` | controllers/gameController.js:184 | the winnings are the product truncated down to whole cents: `w·100 ≤ amount·multiplier < w·100 + 100` |
| `GameRules.WinningsCoverStake` | controllers/gameController.js:184 | for a non-negative stake and a multiplier of at least 1.00, the winnings are at least the stake |
| `GameRules.WinningsMonotonic` | controllers/gameController.js:184 | for a non-negative stake, a later (higher) multiplier never pays less |
| `GameRules.TicksToCrash` | controllers/gameController.js:65-79 | the number of ticks a round runs: the least n ≥ 1 with 1.00 + 0.01·n at or above the crash point |
| `GameRules.CrashOutcome` | controllers/gameController.js:74-85 | the recorded outcome is 1.01 for crash points up to 1.01, and the crash point itself otherwise, so it is never below 1.01 |
| `Protocol.Message` | controllers/gameController.js:97-213 | the `message` text of each `ERROR` reply, as the handlers send it; none is empty. The two account-creation texts are those of controllers/userController.js:7 and :15, and "User not found." is also the text of the placeholder cashout at controllers/userController.js:59 |
| `UserController.Balance` | controllers/gameController.js:187-192 | a currency the account has no entry for reads as 0; on an account holding the three currencies it is the stored balance |
| `UserController.UserStore.Insert` | controllers/userController.js:20-24 | `new User` and `save`: one account with the default balances under an id not yet used, nothing else in the table changes, and the store invariant is kept |
| `UserController.UserStore.SetBalance` | controllers/gameController.js:141-142 | writes one balance of one existing account and saves it; every other account and currency stays as it was, no id is issued, and writing one of the three currencies keeps the store invariant |
| `UserController.UserStore.HandleCreateUser` | controllers/userController.js:3-36 | a missing or empty name gives the "Username is required." error and a name in use gives "Username already exists.", both leaving the table unchanged; otherwise exactly one account with SOL = CHIPPY = DEMO = 1000.00 is added under a new id, the table grows by one, the account is findable, and the reply echoes id, name and balances |
| `UserController.UserStore.CreateUser` | controllers/userController.js:39-46 | inserts an account with the default balances under a new id; an empty or taken name makes the save reject, and then nothing is stored |
| `UserController.UserStore.GetUser` | controllers/userController.js:48-50 | lookup by id: none exactly for an unknown id; a found account carries that id and the three currencies |
| `UserController.UserStore.CashoutStub` | controllers/userController.js:52-68 | an unknown user gives the "User not found." error; a known one gets `amount` echoed in `CASHOUT_SUCCESS`; it is a function of the table, so no balance changes |
| `UserController.BalanceUpdateKeepsWellFormed` | controllers/gameController.js:192-193 | overwriting one existing balance of one account keeps the store invariant: ids filed correctly, exactly three currencies, unique non-empty names |
| `Scenarios.BetThenCashOut` | controllers/gameController.js:141-209 | 1000.00 SOL, a bet of 100.00, cashed out at 2.50: the bet leaves 900.00; the cashout pays 250.00 and leaves 1150.00 |
| `Scenarios.DuplicateCashout` | controllers/gameController.js:176-197 | two cashout messages for one bet in turn: the first pays, the second gets the once-per-game error, and only one payout is credited |
| `Scenarios.BetWhileRunning` | controllers/gameController.js:101-104 | a bet while the round runs is refused and the balance stays 1000.00 |
| `Scenarios.CrashBeforeCashout` | controllers/gameController.js:74-95 | a round crashing at 1.37 before cashout: 1.37 is recorded; the cashout is refused; the bet stays in the round uncashed; the balance stays at the post-bet 900.00; a new bet is refused until the next round opens with no bets |
| `Scenarios.AccountAfterBet` | controllers/userController.js:11-31 | after a bet of 100.00 SOL, a second account can still be created with the default balances, and the first keeps its 900.00; the table then holds two accounts |
| `Scenarios.NegativeStake` | controllers/gameController.js:129-141 | a stake of −1000.00 DEMO is accepted, raising the balance to 2000.00; its cashout at 3.00 pays −3000.00; the balance is then −1000.00 |
| `Scenarios.CreateUsers` | controllers/userController.js:6-31 | a missing name and an empty name are refused, a new name gets the default balances, and the same name again is refused; the table then holds one account |

## Left out

- WebSocket fan-out (`wss.clients.forEach`, `readyState`, `JSON.stringify`) and the server and message dispatch in `index.js`: I/O. Each step method returns the events it would broadcast, and each handler returns its reply.
- Timers and `async`/`await`. `setInterval`, `setTimeout` and `sleep` become step methods, and `pending` says which callback is due next. Real-time periods (1 s, 10 s, 50 ms, 5 s) are not modelled, only their order.
- Concurrency. Commands run one at a time, each to completion. The race-prone "latest round by `startTime`" lookup becomes the game's current round. Interleavings across `await` points are not modelled, including the check-then-flip of `cashedOut` across the two saves. In particular, a bet can arrive while `startGame` waits for the new round's `save` (gameController.js:23), after `gameState` is already `'waiting'` (lines 17-19). The lookup at line 121 then still returns the crashed round. So the "already cashed out" check can fire, and a bet that passes is pushed onto the previous round. The model does not express this window.
- Floating point: the `+= 0.01` drift and the `parseFloat`/`toFixed(2)` rounding. Integer hundredths and cents are used instead, with the payout's floor kept exactly.
- `generateCrashMultiplier`: `utils/gameUtils` is not part of this model. The drawn value is a parameter of `BeginRunning`.
- `GameController.Game.BeginRunning`: takes the crash point in whole hundredths. A crash point between two hundredths (such as 1.234) crashes on the first tick at or above it, which this model does not express.
- Persistence: Mongoose documents, `save` and `findById` become in-memory updates. Database failures and the catch branches they reach are not modelled ("Failed to create user.", and "Failed to process cashout." apart from the unknown-user case). `startTime` and `isActive` are not modelled.
- User ids are compared by identity, one `nat` equality for both lookups. The code looks an account up with `User.findById`, which casts the id to an ObjectId (gameController.js:114, :187). It finds a bet by comparing `bet.userId.toString()` with the id as sent (:122, :170). A valid id spelled some other way, such as in upper-case hex, would pass the first lookup and fail the second. The same account could then place a second bet in one round, and its cashout would get "No active bet found.". Non-canonical spellings of a valid id are not modelled.
- Malformed input: non-numeric amounts, a `userId` that is not a valid ObjectId (its cast error is unhandled in the bet handler), and non-string usernames.
- `GameRules.BetVerdict`: reads an unset balance as 0, where the code's `undefined < amount` is false. The store invariant gives every account all three currencies, so this case cannot arise.
- The Express route (`routes/userRoutes.js`) and the unused `DELAY_PER_DELTA_MULT`.
