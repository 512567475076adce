/** Whole-round scenarios driven through the handlers and timer steps, each
    from a fresh account store and game: what a client of the two
    controllers can conclude from the contracts alone. */
module Scenarios {
  import opened Protocol
  import opened UserController
  import opened GameRules
  import opened GameController

  /** A store holding one freshly created account, and a game just booted
      over it. */
  method Boot(name: string) returns (store: UserStore, g: Game, id: UserId)
    requires name != []
    ensures fresh(store) && fresh(g) && g.accounts == store
    ensures g.Valid() && g.pending == CountdownInterval && g.countdown == CountdownFrom
    ensures g.gameState == Waiting && g.bets == []
    ensures store.Valid() && store.users == map[id := User(id, name, DefaultBalances)]
  {
    store := new UserStore();
    var created := store.HandleCreateUser(Some(name));
    id := created.userId;
    g := new Game(store);
  }

  /** A booted game holding one bet of `amount` in `currency`, placed by
      the store's only account during the countdown. */
  method OpenWithBet(name: string, amount: int, currency: string)
      returns (store: UserStore, g: Game, id: UserId, placed: Reply)
    requires name != [] && currency in DefaultBalances && amount <= 100000
    ensures fresh(store) && fresh(g) && g.accounts == store
    ensures g.Valid() && g.pending == CountdownInterval && g.countdown == CountdownFrom
    ensures g.bets == [Bet(id, amount, currency, false)]
    ensures store.Valid() && store.users == map[id := User(id, name, DefaultBalances[currency := 100000 - amount])]
    ensures placed == BetPlaced(currency, amount, 100000 - amount)
  {
    store, g, id := Boot(name);
    placed := g.PlaceBet(id, amount, currency);
  }

  /** The countdown run out and the round started with crash point `crash`. */
  method StartRound(g: Game, crash: int)
    requires g.Valid() && g.pending == CountdownInterval && g.countdown == CountdownFrom && crash >= Start
    modifies g
    ensures g.Valid() && g.pending == TickInterval && g.isRunning
    ensures g.multiplier == Start && g.crashPoint == crash && g.roundCrash == crash
    ensures g.bets == old(g.bets)
  {
    var shown := g.RunCountdown();
    var started := g.BeginRunning(crash);
  }

  /** Ticks until the multiplier shows `target`, short of the crash point. */
  method ClimbTo(g: Game, target: int)
    requires g.Valid() && g.pending == TickInterval && g.multiplier <= target < g.crashPoint
    modifies g`multiplier, g`isRunning, g`pending, g`roundCrash
    ensures g.Valid() && g.pending == TickInterval && g.isRunning && g.multiplier == target
  {
    while g.multiplier < target
      invariant g.Valid() && g.pending == TickInterval && g.isRunning
      invariant g.multiplier <= target && g.crashPoint == old(g.crashPoint)
      decreases target - g.multiplier
    {
      var events := g.Tick();
    }
  }

  /** A bet of 100.00 SOL from 1000.00, cashed out at 2.50: the bet leaves
      900.00, the cashout pays 250.00 and leaves 1150.00. */
  method BetThenCashOut() returns (placed: Reply, paid: Reply, balance: int)
    ensures placed == BetPlaced("SOL", 10000, 90000)
    ensures paid == CashoutSuccess("SOL", 25000, 115000, 250)
    ensures balance == 115000
  {
    var store, g, id;
    store, g, id, placed := OpenWithBet("alice", 10000, "SOL");
    StartRound(g, 300);
    ClimbTo(g, 250);
    paid := g.Cashout(id);
    balance := store.users[id].balances["SOL"];
  }

  /** Two cashout messages for one bet, handled one after the other: the
      first pays, the second is refused, and one payout is credited. */
  method DuplicateCashout() returns (paid: Reply, again: Reply, balance: int)
    ensures paid == CashoutSuccess("SOL", 10000, 100000, 100)
    ensures again == Error(CashoutOnce)
    ensures balance == 100000
  {
    var store, g, id, placed := OpenWithBet("frank", 10000, "SOL");
    StartRound(g, 200);
    paid := g.Cashout(id);
    again := g.Cashout(id);
    balance := store.users[id].balances["SOL"];
  }

  /** A bet while the round runs is refused and the balance stays 1000.00. */
  method BetWhileRunning() returns (reply: Reply, balance: int)
    ensures reply == Error(BetsClosed)
    ensures balance == 100000
  {
    var store, g, id := Boot("bob");
    StartRound(g, 200);
    reply := g.PlaceBet(id, 10000, "SOL");
    balance := store.users[id].balances["SOL"];
  }

  /** A round that crashes at 1.37 before the player cashes out: the
      outcome 1.37 is recorded, the cashout is refused, the bet stays
      uncashed, nothing is credited, and, `gameState` still being running,
      a new bet is refused until the next round opens with no bets. */
  method CrashBeforeCashout()
      returns (id: UserId, cashout: Reply, rebet: Reply, balance: int, outcome: int,
               crashedBets: seq<Bet>, nextBets: seq<Bet>)
    ensures cashout == Error(NotRunning)
    ensures rebet == Error(BetsClosed)
    ensures balance == 90000
    ensures outcome == 137
    ensures crashedBets == [Bet(id, 10000, "SOL", false)]
    ensures nextBets == []
  {
    var store, g, placed;
    store, g, id, placed := OpenWithBet("carol", 10000, "SOL");
    StartRound(g, 137);
    var climb := g.RunToCrash();
    outcome := g.roundCrash;
    cashout := g.Cashout(id);
    rebet := g.PlaceBet(id, 500, "SOL");
    balance := store.users[id].balances["SOL"];
    crashedBets := g.bets;
    var waiting := g.StartGame();
    nextBets := g.bets;
  }

  /** The two controllers share one store: after a bet has been placed, a
      second account can still be created, and the first account keeps its
      debited balance. */
  method AccountAfterBet() returns (id: UserId, created: Reply, balance: int, size: nat)
    ensures created.UserCreated? && created.userId != id && created.balances == DefaultBalances
    ensures balance == 90000
    ensures size == 2
  {
    var store, g, placed;
    store, g, id, placed := OpenWithBet("grace", 10000, "SOL");
    created := store.HandleCreateUser(Some("henry"));
    balance := store.users[id].balances["SOL"];
    size := |store.users|;
  }

  /** No amount check exists: a negative stake is accepted, credits the
      balance, and its cashout debits more than it credited, driving the
      balance below zero. */
  method NegativeStake() returns (placed: Reply, paid: Reply, balance: int)
    ensures placed == BetPlaced("DEMO", -100000, 200000)
    ensures paid == CashoutSuccess("DEMO", -300000, -100000, 300)
    ensures balance < 0
  {
    var store, g, id;
    store, g, id, placed := OpenWithBet("dave", -100000, "DEMO");
    StartRound(g, 500);
    ClimbTo(g, 300);
    paid := g.Cashout(id);
    balance := store.users[id].balances["DEMO"];
  }

  /** Account creation: a missing name, an empty name and a name in use are
      refused; a new name gets the default balances. */
  method CreateUsers() returns (missing: Reply, empty: Reply, first: Reply, duplicate: Reply, size: nat)
    ensures missing == Error(UsernameRequired) && empty == Error(UsernameRequired)
    ensures first.UserCreated? && first.username == "erin" && first.balances == DefaultBalances
    ensures duplicate == Error(UsernameTaken)
    ensures size == 1
  {
    var store := new UserStore();
    missing := store.HandleCreateUser(None);
    empty := store.HandleCreateUser(Some(""));
    first := store.HandleCreateUser(Some("erin"));
    duplicate := store.HandleCreateUser(Some("erin"));
    size := |store.users|;
  }
}
