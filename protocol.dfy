/** Message shapes shared by the two controllers: the direct replies sent to
    the connection that issued a command, and the events broadcast to every
    listener. Money is in integer cents, multipliers in integer hundredths. */
module Protocol {

  datatype Option<+T> = None | Some(value: T)

  type UserId = nat

  /** Every `ERROR` reply the core can send, one constructor per message. */
  datatype Failure =
    | BetsClosed            // bet outside the waiting/ended state
    | UnsupportedCurrency
    | UserNotFound
    | CashedOutThisRound    // a new bet after cashing out in the same round
    | InsufficientBalance
    | ActiveBetExists
    | NotRunning            // cashout while the round is not running
    | NoActiveBet
    | CashoutOnce           // second cashout of the same bet
    | CashoutFailed         // the catch-all of the cashout handler
    | UsernameRequired
    | UsernameTaken

  /** The `message` text of each `ERROR` reply; none is empty. */
  function Message(f: Failure): (r: string)
    ensures r != []
  {
    match f
    case BetsClosed => "Bets can only be placed when the game is waiting or has ended."
    case UnsupportedCurrency => "Unsupported currency."
    case UserNotFound => "User not found."
    case CashedOutThisRound => "You cannot place a new bet after cashing out."
    case InsufficientBalance => "Insufficient balance."
    case ActiveBetExists => "You already have an active bet in this round."
    case NotRunning => "Cannot cashout when game is not running."
    case NoActiveBet => "No active bet found."
    case CashoutOnce => "You can only cash out once per game."
    case CashoutFailed => "Failed to process cashout."
    case UsernameRequired => "Username is required."
    case UsernameTaken => "Username already exists."
  }

  /** Direct-to-sender replies. */
  datatype Reply =
    | Error(failure: Failure)
    | BetPlaced(currency: string, amount: int, balance: int)
    | CashoutSuccess(currency: string, winnings: int, balance: int, crashPoint: int)
    | UserCreated(userId: UserId, username: string, balances: map<string, int>)
    | CashoutEcho(amount: int)

  /** Broadcast events, in the order one step sends them. */
  datatype Event =
    | GameWaiting
    | Countdown(time: int)
    | SecondBeforeStart(seconds: int)
    | RoundStarted
    | Multiply(multiplier: int)
    | RoundCrashed(multiplier: int)
}
