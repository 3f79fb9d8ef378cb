/** The shared wallet of the casino (context/CasinoContext.tsx).
    Every game page reads `user.balance` and asks the wallet for signed
    balance deltas; persistence to local storage is not modelled. */
module Casino {

  /** A value that may be absent (`null` in the source). */
  datatype Option<T> = None | Some(value: T)

  /** The `UserState` record of types.ts. Money is a real number, because
      several games credit fractional amounts. */
  datatype UserState = UserState(balance: real, username: string, isLoggedIn: bool)

  /** Starting (and post-logout) balance. */
  const StartingBalance: real := 1000.0

  /** The user a fresh session starts with, and the one `logout` restores. */
  function DefaultUser(): (u: UserState)
    ensures u.balance == StartingBalance && u.username == "" && !u.isLoggedIn
  {
    UserState(StartingBalance, "", false)
  }

  /** The record `updateBalance(amount)` produces from `prev`. */
  function WithDelta(prev: UserState, amount: real): (u: UserState)
    ensures u.balance - prev.balance == amount
    ensures u.username == prev.username && u.isLoggedIn == prev.isLoggedIn
  {
    prev.(balance := prev.balance + amount)
  }

  /** The record `login(name)` produces from `prev`: a positive balance is kept,
      anything else is topped up to the starting balance. */
  function LoggedIn(prev: UserState, name: string): (u: UserState)
    ensures u.username == name && u.isLoggedIn
    ensures prev.balance > 0.0 ==> u.balance == prev.balance
    ensures prev.balance <= 0.0 ==> u.balance == StartingBalance
    ensures u.balance > 0.0
  {
    UserState(if prev.balance > 0.0 then prev.balance else StartingBalance, name, true)
  }

  /** Two successive deltas act as their sum. */
  lemma DeltasCompose(u: UserState, a: real, b: real)
    ensures WithDelta(WithDelta(u, a), b) == WithDelta(u, a + b)
  {
  }

  /** Logging in twice with the same name is the same as logging in once. */
  lemma LoginIdempotent(u: UserState, name: string)
    ensures LoggedIn(LoggedIn(u, name), name) == LoggedIn(u, name)
  {
  }

  /** The single `user` state field of the provider. */
  class Wallet {
    var user: UserState

    /** A session with nothing in local storage. */
    constructor ()
      ensures user == DefaultUser()
    {
      user := DefaultUser();
    }

    /** Adds `amount` (a debit when negative) to the balance; there is no
        non-negativity check. */
    method UpdateBalance(amount: real)
      modifies this
      ensures user == WithDelta(old(user), amount)
      ensures user.balance == old(user.balance) + amount
    {
      user := user.(balance := user.balance + amount);
    }

    method Login(name: string)
      modifies this
      ensures user == LoggedIn(old(user), name)
    {
      var balance := if user.balance > 0.0 then user.balance else StartingBalance;
      user := UserState(balance, name, true);
    }

    /** Restores the default user whatever the prior state. */
    method Logout()
      modifies this
      ensures user == DefaultUser()
    {
      user := UserState(StartingBalance, "", false);
    }
  }
}
