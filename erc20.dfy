/** challenges/03_ERC20.py: the validator of the ERC20 challenge. After
    deployment it funds the contract with a fixed amount; the challenge
    counts as hacked once the contract holds less than that amount.

    The chain is reduced to the balances of its accounts. A balance query
    for an account the chain does not know answers 0. */
module Erc20 {
  import opened Wrappers

  /** The amount `setup` deposits, in the chain's smallest unit. */
  const SetupDeposit: nat := 50000000000000000

  function BalanceOf(balances: map<string, nat>, account: string): nat
  {
    if account in balances then balances[account] else 0
  }

  /** The verdict for one queried balance. */
  predicate Hacked(balance: nat)
  {
    balance < SetupDeposit
  }

  /** Exactly the deposited amount still counts as intact. */
  lemma HackedBoundary()
    ensures !Hacked(SetupDeposit)
    ensures Hacked(SetupDeposit - 1)
  {
  }

  /** Less money than a hacked balance is hacked too. */
  lemma HackedMonotone(b: nat, c: nat)
    requires Hacked(b) && c <= b
    ensures Hacked(c)
  {
  }

  /** The chain as seen through the web3 gateway. */
  class Chain {
    var balances: map<string, nat>

    constructor (balances: map<string, nat>)
      ensures this.balances == balances
    {
      this.balances := balances;
    }

    /** Credit `amount` to `account`. */
    method Deposit(account: string, amount: nat)
      modifies this
      ensures balances == old(balances)[account := BalanceOf(old(balances), account) + amount]
    {
      balances := balances[account := BalanceOf(balances, account) + amount];
    }
  }

  /** The challenge's validator object, holding the addresses the base
      class declares. */
  class Contract {
    var contractAddress: string
    var userAddress: string

    constructor (contractAddress: string, userAddress: string)
      ensures this.contractAddress == contractAddress && this.userAddress == userAddress
    {
      this.contractAddress := contractAddress;
      this.userAddress := userAddress;
    }

    /** `setup`: deposit the fixed amount into the contract. Only the
        contract's balance changes, and right afterwards it is not hacked. */
    method Setup(chain: Chain)
      modifies chain
      ensures chain.balances ==
                old(chain.balances)[contractAddress := BalanceOf(old(chain.balances), contractAddress) + SetupDeposit]
      ensures BalanceOf(chain.balances, contractAddress) == BalanceOf(old(chain.balances), contractAddress) + SetupDeposit
      ensures forall a :: a != contractAddress ==> BalanceOf(chain.balances, a) == BalanceOf(old(chain.balances), a)
      ensures !Hacked(BalanceOf(chain.balances, contractAddress))
    {
      chain.Deposit(contractAddress, SetupDeposit);
    }

    /** `has_been_hacked`: a query of the contract's balance against the
        deposited amount; it changes nothing. */
    method HasBeenHacked(chain: Chain) returns (hacked: bool)
      ensures hacked <==> BalanceOf(chain.balances, contractAddress) < SetupDeposit
      ensures hacked ==> forall b: nat :: b <= BalanceOf(chain.balances, contractAddress) ==> Hacked(b)
      ensures !hacked ==> BalanceOf(chain.balances, contractAddress) >= SetupDeposit
    {
      var balance := BalanceOf(chain.balances, contractAddress);
      if balance < SetupDeposit {
        hacked := true;
      } else {
        hacked := false;
      }
    }
  }

  /** Ask `has_been_hacked` of each polled balance in turn, stopping at the
      first positive verdict: the answer is the index of the first balance
      below the deposit, or None when every polled balance is intact. */
  method FirstHackedPoll(polled: seq<nat>) returns (verdictAt: Option<nat>)
    ensures verdictAt.Some? ==>
              verdictAt.value < |polled| && Hacked(polled[verdictAt.value]) &&
              forall j :: 0 <= j < verdictAt.value ==> !Hacked(polled[j])
    ensures verdictAt.None? ==> forall j :: 0 <= j < |polled| ==> !Hacked(polled[j])
  {
    var i := 0;
    while i < |polled|
      invariant 0 <= i <= |polled|
      invariant forall j :: 0 <= j < i ==> !Hacked(polled[j])
    {
      if Hacked(polled[i]) {
        return Some(i);
      }
      i := i + 1;
    }
    return None;
  }

  /** Balances intact, intact, one unit short: the third poll is the first
      positive verdict. */
  method ThirdPollDetectsHack() returns (verdictAt: Option<nat>)
    ensures verdictAt == Some(2)
  {
    var polled := [SetupDeposit, SetupDeposit, SetupDeposit - 1];
    assert !Hacked(polled[0]) && !Hacked(polled[1]) && Hacked(polled[2]);
    verdictAt := FirstHackedPoll(polled);
  }

  /** A freshly funded contract is reported intact, whatever it held before. */
  method SetupThenCheck(contract: Contract, chain: Chain) returns (hacked: bool)
    modifies chain
    ensures !hacked
  {
    contract.Setup(chain);
    hacked := contract.HasBeenHacked(chain);
  }
}
