/** The round lifecycle and the bet/cashout ledger of
    controllers/gameController.js. The module-level `currentMultiplier`,
    `isRunning` and `gameState` and the current round document become the
    fields of one `Game` object; every timer callback and message handler
    becomes a method that runs to completion before the next one starts. */
module GameController {
  import opened Protocol
  import opened UserController
  import opened GameRules

  /** The timer callback the event loop runs next. */
  datatype Pending =
    | CountdownInterval  // the one-second countdown interval
    | StartTimeout       // the ten-second timeout that starts the round
    | TickInterval       // the 50 ms multiplier interval
    | Crashing           // the interval is cleared and `endGame` is under way
    | RestartTimeout     // the five-second timeout before the next `startGame`

  class Game {
    /** The `User` collection, shared with the user controller. */
    const accounts: UserStore

    var gameState: GameState
    var isRunning: bool
    /** `currentMultiplier`, in hundredths. */
    var multiplier: int
    /** The crash point drawn when the round started, in hundredths. */
    var crashPoint: int
    /** The countdown value the next countdown tick shows. */
    var countdown: int
    var pending: Pending
    /** The current round document: its `crashMultiplier` and its bets. */
    var roundCrash: int
    var bets: seq<Bet>
    /** The round documents of earlier rounds, oldest first. */
    var past: seq<Round>

    /** The invariant kept between callbacks. Before the round runs, the
        multiplier is 1.00 and no bet is cashed out; while it runs, no tick
        so far has reached the crash point; after the crash, `isRunning` is
        false, `gameState` is still running, and the multiplier is the one
        of the crash tick. */
    ghost predicate Valid()
      reads this
    {
      && OneBetPerUser(bets)
      && (forall i :: 0 <= i < |bets| ==> Supported(bets[i].currency))
      && match pending
         case CountdownInterval =>
           && gameState == Waiting && !isRunning && multiplier == Start && roundCrash == 0
           && 1 <= countdown <= CountdownFrom
           && (forall i :: 0 <= i < |bets| ==> !bets[i].cashedOut)
         case StartTimeout =>
           && gameState == Waiting && !isRunning && multiplier == Start && roundCrash == 0
           && countdown == 0
           && (forall i :: 0 <= i < |bets| ==> !bets[i].cashedOut)
         case TickInterval =>
           && gameState == Running && isRunning && crashPoint >= Start && roundCrash == crashPoint
           && Start <= multiplier && multiplier - Start < TicksToCrash(crashPoint)
         case Crashing =>
           && gameState == Running && !isRunning && crashPoint >= Start
           && multiplier == Start + TicksToCrash(crashPoint)
         case RestartTimeout =>
           && gameState == Running && !isRunning && crashPoint >= Start
           && multiplier == Start + TicksToCrash(crashPoint) && roundCrash == multiplier
    }

    /** Module load (multiplier 1.00, not running, waiting) followed by the
        first `startGame`, made when the server boots. */
    constructor (accounts: UserStore)
      ensures Valid() && this.accounts == accounts
      ensures gameState == Waiting && !isRunning && multiplier == Start
      ensures bets == [] && roundCrash == 0 && past == []
      ensures countdown == CountdownFrom && pending == CountdownInterval
    {
      this.accounts := accounts;
      gameState, isRunning, multiplier := Waiting, false, Start;
      crashPoint := 0;
      roundCrash, bets, past := 0, [], [];
      countdown, pending := CountdownFrom, CountdownInterval;
    }

    /** `startGame`: reset to waiting with multiplier 1.00, open a new round
        with no bets and crash multiplier 0, announce it, and arm the
        countdown. The previous round stays stored as it was. */
    method StartGame() returns (events: seq<Event>)
      requires Valid() && pending == RestartTimeout
      modifies this
      ensures Valid()
      ensures gameState == Waiting && !isRunning && multiplier == Start
      ensures bets == [] && roundCrash == 0 && past == old(past) + [Round(old(roundCrash), old(bets))]
      ensures countdown == CountdownFrom && pending == CountdownInterval && crashPoint == old(crashPoint)
      ensures events == [GameWaiting]
    {
      gameState := Waiting;
      isRunning := false;
      multiplier := Start;
      past := past + [Round(roundCrash, bets)];
      roundCrash, bets := 0, [];
      events := [GameWaiting];
      countdown := CountdownFrom;
      pending := CountdownInterval;
    }

    /** One firing of the countdown interval: show the value, decrement it,
        and clear the interval once it drops below 1. */
    method CountdownTick() returns (events: seq<Event>)
      requires Valid() && pending == CountdownInterval
      modifies this`countdown, this`pending
      ensures Valid()
      ensures events == [Countdown(old(countdown)), SecondBeforeStart(old(countdown))]
      ensures countdown == old(countdown) - 1
      ensures pending == if countdown < 1 then StartTimeout else CountdownInterval
    {
      events := [Countdown(countdown), SecondBeforeStart(countdown)];
      countdown := countdown - 1;
      if countdown < 1 {
        pending := StartTimeout;
      }
    }

    /** The start timeout: flip to running, announce it, and record the
        crash point drawn by `generateCrashMultiplier` (at least 1.00) on the round. */
    method BeginRunning(crash: int) returns (events: seq<Event>)
      requires Valid() && pending == StartTimeout && crash >= Start
      modifies this`gameState, this`isRunning, this`crashPoint, this`roundCrash, this`pending
      ensures Valid()
      ensures gameState == Running && isRunning && pending == TickInterval
      ensures crashPoint == crash && roundCrash == crash
      ensures events == [RoundStarted]
    {
      gameState := Running;
      isRunning := true;
      events := [RoundStarted];
      crashPoint := crash;
      roundCrash := crash;
      pending := TickInterval;
    }

    /** One firing of the multiplier interval: raise the multiplier by 0.01
        and broadcast it; on the first tick that reaches the crash point,
        clear the interval and `isRunning` and end the game. `gameState`
        stays running either way. */
    method Tick() returns (events: seq<Event>)
      requires Valid() && pending == TickInterval
      modifies this`multiplier, this`isRunning, this`pending, this`roundCrash
      ensures Valid()
      ensures multiplier == old(multiplier) + Step && gameState == Running
      ensures multiplier >= crashPoint ==>
                && !isRunning && pending == RestartTimeout
                && multiplier == Start + TicksToCrash(crashPoint) && roundCrash == multiplier
                && events == [Multiply(multiplier), RoundCrashed(multiplier)]
      ensures multiplier < crashPoint ==>
                && isRunning && pending == TickInterval && roundCrash == old(roundCrash)
                && events == [Multiply(multiplier)]
    {
      multiplier := multiplier + Step;
      events := [Multiply(multiplier)];
      if multiplier >= crashPoint {
        pending := Crashing;
        isRunning := false;
        var crashed := EndGame();
        events := events + crashed;
      }
    }

    /** `endGame`: record the final multiplier as the round's outcome,
        broadcast the crash, and schedule the next round. */
    method EndGame() returns (events: seq<Event>)
      requires Valid() && pending == Crashing
      modifies this`roundCrash, this`pending
      ensures Valid()
      ensures roundCrash == multiplier && pending == RestartTimeout
      ensures events == [RoundCrashed(multiplier)]
    {
      roundCrash := multiplier;
      events := [RoundCrashed(multiplier)];
      pending := RestartTimeout;
    }

    /** `handleBet`: the checks of `BetVerdict` in order; on success debit
        exactly `amount` and append one uncashed bet. A failure changes
        nothing. */
    method PlaceBet(userId: UserId, amount: int, currency: string) returns (reply: Reply)
      requires Valid()
      modifies this`bets, accounts`users
      ensures Valid() && (old(accounts.Valid()) ==> accounts.Valid())
      ensures var verdict := BetVerdict(gameState, currency, old(accounts.GetUser(userId)),
                                        old(ExistingBet(bets, userId)), amount);
              && (verdict.Some? ==>
                    reply == Error(verdict.value) && bets == old(bets) && accounts.users == old(accounts.users))
              && (verdict.None? ==>
                    var u := old(accounts.users[userId]);
                    var balance := Balance(u, currency) - amount;
                    && bets == old(bets) + [Bet(userId, amount, currency, false)]
                    && accounts.users == old(accounts.users)[userId := u.(balances := u.balances[currency := balance])]
                    && reply == BetPlaced(currency, amount, balance)
                    && BetsOf(bets, userId) == 1)
    {
      var verdict := BetVerdict(gameState, currency, accounts.GetUser(userId), ExistingBet(bets, userId), amount);
      if verdict.Some? {
        return Error(verdict.value);
      }
      var user := accounts.users[userId];
      var balance := Balance(user, currency) - amount;
      accounts.SetBalance(userId, currency, balance);
      BetsOfFound(bets, userId);
      BetsOfAppend(bets, Bet(userId, amount, currency, false), userId);
      bets := bets + [Bet(userId, amount, currency, false)];
      reply := BetPlaced(currency, amount, balance);
    }

    /** `handleCashout`: the checks of `CashoutVerdict` in order; on success
        credit the truncated winnings at the current multiplier (a missing
        balance counting as 0), flag the bet as cashed out, and report the
        multiplier. A failure changes nothing. */
    method Cashout(userId: UserId) returns (reply: Reply)
      requires Valid()
      modifies this`bets, accounts`users
      ensures Valid() && (old(accounts.Valid()) ==> accounts.Valid())
      ensures var verdict := CashoutVerdict(isRunning, old(ExistingBet(bets, userId)),
                                            old(accounts.GetUser(userId)));
              && (verdict.Some? ==>
                    reply == Error(verdict.value) && bets == old(bets) && accounts.users == old(accounts.users))
              && (verdict.None? ==>
                    var i := FindBet(old(bets), userId).value;
                    var b := old(bets)[i];
                    var u := old(accounts.users[userId]);
                    var winnings := Winnings(b.amount, multiplier);
                    var balance := Balance(u, b.currency) + winnings;
                    && bets == old(bets)[i := b.(cashedOut := true)]
                    && accounts.users == old(accounts.users)[userId := u.(balances := u.balances[b.currency := balance])]
                    && reply == CashoutSuccess(b.currency, winnings, balance, multiplier)
                    && ExistingBet(bets, userId) == Some(b.(cashedOut := true)))
    {
      ghost var bets0, users0 := bets, accounts.users;
      var verdict := CashoutVerdict(isRunning, ExistingBet(bets, userId), accounts.GetUser(userId));
      if verdict.Some? {
        return Error(verdict.value);
      }
      var i := FindBet(bets, userId).value;
      var bet := bets[i];
      var winnings := Winnings(bet.amount, multiplier);
      var user := accounts.users[userId];
      var balance := Balance(user, bet.currency) + winnings;
      accounts.SetBalance(userId, bet.currency, balance);
      assert accounts.users == users0[userId := user.(balances := user.balances[bet.currency := balance])];
      FindBetAfterFlag(bets, i, userId);
      bets := bets[i := bet.(cashedOut := true)];
      assert ExistingBet(bets, userId) == Some(bet.(cashedOut := true));
      reply := CashoutSuccess(bet.currency, winnings, balance, multiplier);
    }

    /** The countdown interval run to its end: it shows 9, 8, ..., 1 and
        stops, with the game waiting throughout. */
    method RunCountdown() returns (shown: seq<int>)
      requires Valid() && pending == CountdownInterval && countdown == CountdownFrom
      modifies this`countdown, this`pending
      ensures Valid()
      ensures shown == [9, 8, 7, 6, 5, 4, 3, 2, 1]
      ensures pending == StartTimeout && gameState == Waiting
    {
      shown := [];
      while pending == CountdownInterval
        invariant Valid()
        invariant pending == CountdownInterval ==> |shown| + countdown == CountdownFrom
        invariant pending == StartTimeout ==> |shown| == CountdownFrom
        invariant pending == CountdownInterval || pending == StartTimeout
        invariant forall k :: 0 <= k < |shown| ==> shown[k] == CountdownFrom - k
        decreases countdown
      {
        var events := CountdownTick();
        shown := shown + [events[0].time];
      }
    }

    /** The multiplier interval run until the crash: it broadcasts
        old multiplier + 0.01, + 0.02, ... up to the crash tick, strictly
        increasing, and leaves the round crashed. */
    method RunToCrash() returns (shown: seq<int>)
      requires Valid() && pending == TickInterval
      modifies this`multiplier, this`isRunning, this`pending, this`roundCrash
      ensures Valid()
      ensures pending == RestartTimeout && !isRunning && gameState == Running
      ensures multiplier == Start + TicksToCrash(crashPoint) && roundCrash == multiplier
      ensures |shown| == multiplier - old(multiplier)
      ensures forall k :: 0 <= k < |shown| ==> shown[k] == old(multiplier) + (k + 1) * Step
    {
      shown := [];
      while pending == TickInterval
        invariant Valid() && gameState == Running && crashPoint == old(crashPoint)
        invariant pending == TickInterval || pending == RestartTimeout
        invariant |shown| == multiplier - old(multiplier)
        invariant forall k :: 0 <= k < |shown| ==> shown[k] == old(multiplier) + (k + 1) * Step
        decreases Start + TicksToCrash(crashPoint) - multiplier
      {
        var events := Tick();
        shown := shown + [events[0].multiplier];
      }
    }
  }

  /** From the flip to running (and through the crash, since `gameState` is
      never set to ended) until the next `startGame`, every bet is refused
      by the first check. */
  lemma BetsClosedUntilReset(g: Game, userId: UserId, amount: int, currency: string)
    requires g.Valid()
    requires g.pending == TickInterval || g.pending == Crashing || g.pending == RestartTimeout
    ensures BetVerdict(g.gameState, currency, g.accounts.GetUser(userId), ExistingBet(g.bets, userId), amount)
            == Some(BetsClosed)
  {
  }

  /** While bets are taken no bet of the round is cashed out, so the
      "cannot bet after cashing out" check never decides a reply. */
  lemma NoCashedOutBetWhileWaiting(g: Game, userId: UserId, amount: int, currency: string)
    requires g.Valid() && g.gameState == Waiting
    ensures BetVerdict(g.gameState, currency, g.accounts.GetUser(userId), ExistingBet(g.bets, userId), amount)
            != Some(CashedOutThisRound)
  {
  }

  /** Outside the running interval every cashout is refused by the first
      check, in particular after the crash has cleared `isRunning`. */
  lemma CashoutClosedUnlessTicking(g: Game, userId: UserId)
    requires g.Valid() && g.pending != TickInterval
    ensures CashoutVerdict(g.isRunning, ExistingBet(g.bets, userId), g.accounts.GetUser(userId)) == Some(NotRunning)
  {
  }
}
