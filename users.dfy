/** The account store and the user-creation handlers of
    controllers/userController.js. The collection of `User` documents is a
    class whose table the handlers update in place; `save` is the table update. */
module UserController {
  import opened Protocol

  /** The currencies every account holds (models/User.js). */
  const Currencies: seq<string> := ["SOL", "CHIPPY", "DEMO"]

  /** The balances a new account starts with: 1000.00 of each currency. */
  const DefaultBalances: map<string, int> := map["SOL" := 100000, "CHIPPY" := 100000, "DEMO" := 100000]

  datatype User = User(id: UserId, username: string, balances: map<string, int>)

  /** A balance, where a currency the account has no entry for reads as 0;
      on an account holding the three currencies it is the stored balance. */
  function Balance(u: User, currency: string): (r: int)
    ensures currency !in u.balances ==> r == 0
    ensures u.balances.Keys == DefaultBalances.Keys && currency in DefaultBalances ==> r == u.balances[currency]
  {
    if currency in u.balances then u.balances[currency] else 0
  }

  /** The store invariant: every account is filed under its own id (below
      the next fresh id), holds exactly the three currencies, and has a
      non-empty username that no other account has. */
  ghost predicate WellFormed(users: map<UserId, User>, nextId: UserId)
  {
    && (forall id | id in users :: Filed(users[id], id, nextId))
    && (forall i, j | i in users && j in users && i != j :: users[i].username != users[j].username)
  }

  /** One account of a well-formed store, filed under `id`. */
  ghost predicate Filed(u: User, id: UserId, nextId: UserId)
  {
    id < nextId && u.id == id && u.balances.Keys == DefaultBalances.Keys && u.username != []
  }

  /** The ledger's balance updates keep the store invariant: they touch one
      existing balance of one account. */
  lemma BalanceUpdateKeepsWellFormed(users: map<UserId, User>, nextId: UserId, id: UserId, currency: string, amount: int)
    requires WellFormed(users, nextId) && id in users && currency in DefaultBalances
    ensures WellFormed(users[id := users[id].(balances := users[id].balances[currency := amount])], nextId)
  {
  }

  class UserStore {
    var users: map<UserId, User>
    // the identifier the next saved document receives
    var nextId: UserId

    ghost predicate Valid()
      reads this
    {
      WellFormed(users, nextId)
    }

    /** `User.findOne({ username })` finds a document. */
    predicate Taken(username: string)
      reads this
    {
      exists id | id in users :: users[id].username == username
    }

    constructor ()
      ensures Valid() && users == map[]
    {
      users := map[];
      nextId := 0;
    }

    /** `new User({ username, balances })` followed by `save()`. */
    method Insert(username: string) returns (user: User)
      requires Valid()
      requires username != [] && !Taken(username)
      modifies this
      ensures Valid()
      ensures user.id !in old(users) && user == User(user.id, username, DefaultBalances)
      ensures users == old(users)[user.id := user]
    {
      user := User(nextId, username, DefaultBalances);
      users := users[nextId := user];
      nextId := nextId + 1;
    }

    /** `handleCreateUser`: a missing or empty name and a name in use are
        refused and leave the table alone; otherwise exactly one account
        with the default balances is added and echoed back. */
    method HandleCreateUser(username: Option<string>) returns (reply: Reply)
      requires Valid()
      modifies this
      ensures Valid()
      ensures username.None? || username.value == [] ==>
                reply == Error(UsernameRequired) && users == old(users)
      ensures username.Some? && username.value != [] && old(Taken(username.value)) ==>
                reply == Error(UsernameTaken) && users == old(users)
      ensures reply.UserCreated? <==> username.Some? && username.value != [] && !old(Taken(username.value))
      ensures reply.UserCreated? ==>
                && reply.userId !in old(users)
                && reply.username == username.value
                && reply.balances == DefaultBalances
                && users == old(users)[reply.userId := User(reply.userId, reply.username, DefaultBalances)]
                && |users| == |old(users)| + 1
                && GetUser(reply.userId) == Some(User(reply.userId, reply.username, DefaultBalances))
    {
      if username.None? || username.value == [] {
        return Error(UsernameRequired);
      }
      if Taken(username.value) {
        return Error(UsernameTaken);
      }
      var user := Insert(username.value);
      reply := UserCreated(user.id, user.username, user.balances);
    }

    /** `createUser`: no validation of its own, but the schema's `required`
        and `unique` constraints make `save` reject an empty or taken name,
        in which case nothing is stored. */
    method CreateUser(username: string) returns (r: Option<User>)
      requires Valid()
      modifies this
      ensures Valid()
      ensures r.None? <==> username == [] || old(Taken(username))
      ensures r.None? ==> users == old(users)
      ensures r.Some? ==>
                && r.value.id !in old(users)
                && r.value == User(r.value.id, username, DefaultBalances)
                && users == old(users)[r.value.id := r.value]
    {
      if username == [] || Taken(username) {
        return None;
      }
      var user := Insert(username);
      r := Some(user);
    }

    /** `getUser`: lookup by id. */
    function GetUser(id: UserId): (r: Option<User>)
      reads this
      ensures r.None? <==> id !in users
      ensures Valid() && r.Some? ==> r.value.id == id && r.value.balances.Keys == DefaultBalances.Keys
    {
      if id in users then Some(users[id]) else None
    }

    /** The placeholder `handleCashout` of the user controller: an unknown
        user is an error, a known one gets its `amount` echoed back; no
        balance is touched (it is a function of the table). */
    function CashoutStub(userId: UserId, amount: int): (r: Reply)
      reads this
      ensures r == Error(UserNotFound) <==> userId !in users
      ensures userId in users ==> r == CashoutEcho(amount)
    {
      if userId !in users then Error(UserNotFound) else CashoutEcho(amount)
    }

    /** Overwrite one balance and save the document; no id is issued, and
        writing one of the three currencies keeps the store invariant. */
    method SetBalance(id: UserId, currency: string, amount: int)
      requires id in users
      modifies this`users
      ensures old(Valid()) && currency in DefaultBalances ==> Valid()
      ensures users == old(users)[id := old(users)[id].(balances := old(users)[id].balances[currency := amount])]
    {
      if Valid() && currency in DefaultBalances {
        BalanceUpdateKeepsWellFormed(users, nextId, id, currency, amount);
      }
      users := users[id := users[id].(balances := users[id].balances[currency := amount])];
    }
  }
}
