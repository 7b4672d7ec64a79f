/**
 * The external token contracts the quiz contract pays through
 * (`TokenClient::transfer`), seen as one ledger of balances keyed by
 * (token contract, holder). A transfer is rejected, aborting the calling
 * transaction, when the amount is negative or exceeds the payer's balance,
 * as a standard token contract does.
 */
module TokenLedger {
  import opened Outcomes
  import opened QuizTypes

  datatype Holding = Holding(token: Address, holder: Address)

  type Balances = map<Holding, int>

  function BalanceOf(b: Balances, token: Address, holder: Address): int {
    if Holding(token, holder) in b then b[Holding(token, holder)] else 0
  }

  /** `token.transfer(from, to, amount)`; `None` when the token contract rejects it. */
  function TokenTransfer(b: Balances, token: Address, from: Address, to: Address, amount: int): (r: Option<Balances>)
    ensures r.Some? <==> 0 <= amount <= BalanceOf(b, token, from)
    ensures r.Some? && from != to ==>
      && BalanceOf(r.value, token, from) == BalanceOf(b, token, from) - amount
      && BalanceOf(r.value, token, to) == BalanceOf(b, token, to) + amount
    ensures r.Some? && from == to ==> BalanceOf(r.value, token, from) == BalanceOf(b, token, from)
    ensures r.Some? ==> forall t, h :: (t != token || (h != from && h != to)) ==>
      BalanceOf(r.value, t, h) == BalanceOf(b, t, h)
  {
    if amount < 0 || BalanceOf(b, token, from) < amount then None
    else
      var debited := b[Holding(token, from) := BalanceOf(b, token, from) - amount];
      Some(debited[Holding(token, to) := BalanceOf(debited, token, to) + amount])
  }
}
