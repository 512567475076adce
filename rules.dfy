/** The value-level rules of controllers/gameController.js: the round
    record, the payout formula, the lookup of a user's bet, the two ordered
    check chains of the bet and cashout handlers, and the tick on which a
    round crashes. Multipliers are integer hundredths (100 is 1.00) and
    money is integer cents. */
module GameRules {
  import opened Protocol
  import opened UserController

  /** The values of `gameState`. The bet handler accepts `Ended`, but no
      code ever assigns it. */
  datatype GameState = Waiting | Running | Ended

  /** One entry of a round's `bets` array (models/GameRound.js). */
  datatype Bet = Bet(userId: UserId, amount: int, currency: string, cashedOut: bool)

  /** A stored round document: its `crashMultiplier` field and its bets. */
  datatype Round = Round(crashMultiplier: int, bets: seq<Bet>)

  /** The multiplier a round opens with, 1.00. */
  const Start: int := 100
  /** The increase per tick, 0.01. */
  const Step: int := 1
  /** The first countdown value shown; the countdown shows 9, 8, ..., 1. */
  const CountdownFrom: int := 9

  /** The states in which the bet handler takes bets. */
  predicate BetsOpen(state: GameState)
  {
    state == Waiting || state == Ended
  }

  predicate Supported(currency: string)
  {
    currency in Currencies
  }

  /** The payout of `handleCashout`, in cents: the stake times the
      multiplier, truncated to whole cents. At 1.00 it is the stake itself. */
  function Winnings(amount: int, multiplier: int): (r: int)
    ensures multiplier == Start ==> r == amount
  {
    amount * multiplier / 100
  }

  /** The payout is the exact product truncated (not rounded) down to whole
      cents, for stakes of either sign. */
  lemma WinningsTruncate(amount: int, multiplier: int)
    ensures Winnings(amount, multiplier) * 100 <= amount * multiplier < Winnings(amount, multiplier) * 100 + 100
  {
  }

  /** Cashing out never pays less than the stake, since the multiplier is at
      least 1.00. */
  lemma WinningsCoverStake(amount: int, multiplier: int)
    requires amount >= 0 && multiplier >= Start
    ensures Winnings(amount, multiplier) >= amount
  {
  }

  /** A later cashout never pays less than an earlier one. */
  lemma WinningsMonotonic(amount: int, m1: int, m2: int)
    requires amount >= 0 && m1 <= m2
    ensures Winnings(amount, m1) <= Winnings(amount, m2)
  {
  }

  /** `bets.find(bet => bet.userId === userId)`, as an index: the first bet
      of `userId`, or None when the user has none. */
  function FindBet(bets: seq<Bet>, userId: UserId): (r: Option<nat>)
    ensures r.Some? ==> r.value < |bets| && bets[r.value].userId == userId
    ensures r.Some? ==> forall j :: 0 <= j < r.value ==> bets[j].userId != userId
    ensures r.None? ==> forall j :: 0 <= j < |bets| ==> bets[j].userId != userId
  {
    if bets == [] then None
    else if bets[0].userId == userId then Some(0)
    else match FindBet(bets[1..], userId)
      case None => None
      case Some(k) => Some(k + 1)
  }

  /** The bet `find` returns, itself rather than its index. */
  function ExistingBet(bets: seq<Bet>, userId: UserId): (r: Option<Bet>)
  {
    match FindBet(bets, userId)
    case None => None
    case Some(i) => Some(bets[i])
  }

  /** The number of bets `userId` holds in a round. */
  function BetsOf(bets: seq<Bet>, userId: UserId): (n: nat)
  {
    if bets == [] then 0
    else (if bets[0].userId == userId then 1 else 0) + BetsOf(bets[1..], userId)
  }

  /** No user appears twice in a round's bets. */
  predicate OneBetPerUser(bets: seq<Bet>)
  {
    forall i, j :: 0 <= i < j < |bets| ==> bets[i].userId != bets[j].userId
  }

  /** Appending a bet adds one to its owner's count and nothing to anyone else's. */
  lemma {:induction false} BetsOfAppend(bets: seq<Bet>, b: Bet, userId: UserId)
    ensures BetsOf(bets + [b], userId) == BetsOf(bets, userId) + (if b.userId == userId then 1 else 0)
  {
    if bets != [] {
      assert (bets + [b])[1..] == bets[1..] + [b];
      BetsOfAppend(bets[1..], b, userId);
    }
  }

  /** With one bet per user, a user holds exactly one bet when `find`
      succeeds and none when it fails. */
  lemma {:induction false} BetsOfFound(bets: seq<Bet>, userId: UserId)
    requires OneBetPerUser(bets)
    ensures BetsOf(bets, userId) == if FindBet(bets, userId).Some? then 1 else 0
  {
    if bets != [] {
      assert OneBetPerUser(bets[1..]) by {
        forall i, j | 0 <= i < j < |bets[1..]|
          ensures bets[1..][i].userId != bets[1..][j].userId
        {
          assert bets[1..][i] == bets[i + 1] && bets[1..][j] == bets[j + 1];
        }
      }
      BetsOfFound(bets[1..], userId);
      if bets[0].userId == userId {
        assert FindBet(bets[1..], userId).None? by {
          forall j | 0 <= j < |bets[1..]|
            ensures bets[1..][j].userId != userId
          {
            assert bets[1..][j] == bets[j + 1];
          }
        }
      }
    }
  }

  /** Flagging a bet as cashed out changes no owner, so `find` still
      returns the same index. */
  lemma FindBetAfterFlag(bets: seq<Bet>, i: nat, userId: UserId)
    requires i < |bets|
    ensures FindBet(bets[i := bets[i].(cashedOut := true)], userId) == FindBet(bets, userId)
  {
    var flagged := bets[i := bets[i].(cashedOut := true)];
    assert forall j :: 0 <= j < |bets| ==> flagged[j].userId == bets[j].userId;
  }

  /** The check chain of `handleBet`; the first failing check decides the
      reply and None means every check passed. `balance` is read with an
      unset currency as 0. */
  function BetVerdict(state: GameState, currency: string, user: Option<User>,
                      existing: Option<Bet>, amount: int): (r: Option<Failure>)
    ensures r.None? <==>
              && BetsOpen(state) && Supported(currency) && user.Some? && existing.None?
              && amount <= Balance(user.value, currency)
    ensures r == Some(BetsClosed) <==> !BetsOpen(state)
    ensures r == Some(UnsupportedCurrency) <==> BetsOpen(state) && !Supported(currency)
    ensures r == Some(UserNotFound) <==> BetsOpen(state) && Supported(currency) && user.None?
    ensures r == Some(CashedOutThisRound) <==>
              && BetsOpen(state) && Supported(currency) && user.Some?
              && existing.Some? && existing.value.cashedOut
    ensures r == Some(InsufficientBalance) <==>
              && BetsOpen(state) && Supported(currency) && user.Some?
              && !(existing.Some? && existing.value.cashedOut)
              && Balance(user.value, currency) < amount
    ensures r == Some(ActiveBetExists) <==>
              && BetsOpen(state) && Supported(currency) && user.Some?
              && existing.Some? && !existing.value.cashedOut
              && amount <= Balance(user.value, currency)
  {
    if state != Waiting && state != Ended then Some(BetsClosed)
    else if !Supported(currency) then Some(UnsupportedCurrency)
    else if user.None? then Some(UserNotFound)
    else if existing.Some? && existing.value.cashedOut then Some(CashedOutThisRound)
    else if Balance(user.value, currency) < amount then Some(InsufficientBalance)
    else if existing.Some? then Some(ActiveBetExists)
    else None
  }

  /** The check chain of the game controller's `handleCashout`. A user
      missing from the store makes the handler throw, which its `catch`
      reports as a failed cashout. */
  function CashoutVerdict(isRunning: bool, existing: Option<Bet>, user: Option<User>): (r: Option<Failure>)
    ensures r.None? <==> isRunning && existing.Some? && !existing.value.cashedOut && user.Some?
    ensures r == Some(NotRunning) <==> !isRunning
    ensures r == Some(NoActiveBet) <==> isRunning && existing.None?
    ensures r == Some(CashoutOnce) <==> isRunning && existing.Some? && existing.value.cashedOut
    ensures r == Some(CashoutFailed) <==> isRunning && existing.Some? && !existing.value.cashedOut && user.None?
  {
    if !isRunning then Some(NotRunning)
    else if existing.None? then Some(NoActiveBet)
    else if existing.value.cashedOut then Some(CashoutOnce)
    else if user.None? then Some(CashoutFailed)
    else None
  }

  /** The number of ticks a round with crash point `crash` runs: the first
      n >= 1 whose multiplier 1.00 + 0.01·n reaches the crash point. */
  function TicksToCrash(crash: int): (n: nat)
    requires crash >= Start
    ensures n >= 1 && Start + n * Step >= crash
    ensures forall k :: 1 <= k < n ==> Start + k * Step < crash
  {
    if crash <= Start + Step then 1 else crash - Start
  }

  /** The smallest outcome a round can record is 1.01, and otherwise it is
      the crash point itself. */
  lemma CrashOutcome(crash: int)
    requires crash >= Start
    ensures Start + TicksToCrash(crash) * Step == if crash <= Start + Step then Start + Step else crash
  {
  }
}
