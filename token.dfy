/** The fungible token contract the ledgers and the pool call through
    `token::Client`. It is a foreign contract; the model keeps only what the
    callers rely on: a balance per holder and a transfer that either moves
    the whole amount or fails without changing anything. */
module Token {
  import opened Types

  class TokenContract {
    const address: Address
    var balances: map<Address, int>

    constructor (address: Address, balances: map<Address, int>)
      ensures this.address == address && this.balances == balances
    {
      this.address := address;
      this.balances := balances;
    }

    /** `balance(holder)`: an unknown holder has balance 0. */
    function Balance(holder: Address): int
      reads this
    {
      if holder in balances then balances[holder] else 0
    }

    /** A transfer succeeds exactly when the amount is non-negative and
        covered by the sender's balance. */
    predicate CanTransfer(from: Address, amount: int)
      reads this
    {
      0 <= amount <= Balance(from)
    }

    /** The balances a successful transfer leaves behind. */
    ghost function AfterTransfer(from: Address, to: Address, amount: int): map<Address, int>
      reads this
    {
      if from == to then balances
      else balances[from := Balance(from) - amount][to := Balance(to) + amount]
    }

    /** `transfer(from, to, amount)`. The callers check the sender's
        authorisation themselves, so only the balance can make it fail. */
    method Transfer(from: Address, to: Address, amount: int) returns (r: Result<()>)
      modifies this`balances
      ensures r.Ok? <==> old(CanTransfer(from, amount))
      ensures r.Err? ==> r.error == TransferFailed && balances == old(balances)
      ensures r.Ok? ==> balances == old(AfterTransfer(from, to, amount))
      ensures r.Ok? && from != to ==>
        Balance(from) == old(Balance(from)) - amount && Balance(to) == old(Balance(to)) + amount
      ensures r.Ok? ==> forall h :: h != from && h != to ==> Balance(h) == old(Balance(h))
    {
      if !CanTransfer(from, amount) {
        return Err(TransferFailed);
      }
      if from != to {
        var fb, tb := Balance(from), Balance(to);
        balances := balances[from := fb - amount][to := tb + amount];
      }
      return Ok(());
    }
  }
}
