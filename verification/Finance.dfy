/**
 * The four balance statements. `None` means that the statement raised: a CHECK of
 * `restaurant_balances` failed, or a value left the INT range.
 */
module Finance {
  import opened Domain

  type Balances = map<Account, Balance>

  const INT_MAX: int := 0x7FFF_FFFF

  predicate Storable(b: Balance) {
    && 0 <= b.pending <= INT_MAX
    && 0 <= b.available <= INT_MAX
    && 0 <= b.totalEarned <= INT_MAX
  }

  function Store(balances: Balances, account: Account, b: Balance): Option<Balances> {
    if Storable(b) then Some(balances[account := b]) else None
  }

  function Max(x: int, y: int): int { if x < y then y else x }

  /** INSERT … ON CONFLICT DO UPDATE. */
  function Credit(balances: Balances, account: Account, amount: int): Option<Balances> {
    if account in balances then
      var b := balances[account];
      Store(balances, account, Balance(b.pending + amount, b.available, b.totalEarned + amount))
    else
      Store(balances, account, Balance(amount, 0, amount))
  }

  function Drained(b: Balance, amount: int): Balance {
    Balance(
      Max(b.pending - amount, 0),
      b.available - Max(amount - b.pending, 0),
      b.totalEarned - amount)
  }

  /** An UPDATE that matches no row changes nothing and raises nothing. */
  function Debit(balances: Balances, account: Account, amount: int): Option<Balances> {
    if account in balances then Store(balances, account, Drained(balances[account], amount)) else Some(balances)
  }

  function Settle(balances: Balances, account: Account, amount: int, commission: int): Option<Balances> {
    if account in balances then
      var b := balances[account];
      Store(balances, account, Balance(b.pending - amount, b.available + (amount - commission), b.totalEarned))
    else
      Some(balances)
  }

  /** The guard of the payout's WHERE clause. */
  predicate Payable(balances: Balances, account: Account, amount: int) {
    account in balances && balances[account].available >= amount
  }

  function Payout(balances: Balances, account: Account, amount: int): Option<Balances>
    requires Payable(balances, account, amount)
  {
    var b := balances[account];
    Store(balances, account, b.(available := b.available - amount))
  }

  /** What the restaurant holds, in either bucket. */
  function Holdings(b: Balance): int { b.pending + b.available }

  /**
   * A debit takes exactly the amount out of the restaurant's holdings, the pending bucket first,
   * and it goes through exactly when the holdings and the earnings cover it.
   */
  lemma DebitDrainsPendingFirst(balances: Balances, account: Account, amount: int)
    requires account in balances && Storable(balances[account]) && amount > 0
    ensures var b := balances[account];
            Debit(balances, account, amount).Some? <==> amount <= Holdings(b) && amount <= b.totalEarned
    ensures Debit(balances, account, amount).Some? ==>
              var b, after := balances[account], Debit(balances, account, amount).value;
              && after.Keys == balances.Keys
              && Holdings(after[account]) == Holdings(b) - amount
              && (after[account].available < b.available ==> after[account].pending == 0)
              && after[account].totalEarned == b.totalEarned - amount
              && forall other :: other in balances && other != account ==> after[other] == balances[other]
  {
  }

  /** Settlement moves money between the buckets and only the commission leaves the restaurant. */
  lemma SettleConserves(balances: Balances, account: Account, amount: int, commission: int)
    requires account in balances && Settle(balances, account, amount, commission).Some?
    ensures var b, after := balances[account], Settle(balances, account, amount, commission).value[account];
            && Holdings(after) == Holdings(b) - commission
            && after.totalEarned == b.totalEarned
            && after.pending == b.pending - amount
  {
  }
}
