/** The balance ledger (`CoinFlip` in main.py): a map from player address to
    balance in mutez, the running total of those balances, and the owner,
    oracle and escrow configuration. Each entry point is one atomic step. */
module CoinFlipContract {
  import opened Tezos

  /** One constructor per failed `sp.verify` message, plus the failure of
      Michelson's mutez subtraction when its result would be negative. */
  datatype Error =
    | DepositNotPositive
    | SenderNotRegistered
    | InsufficientBalance
    | OnlyAdminCanSetEscrow
    | InvalidEscrowContract
    | OnlyAdminCanSetOracle
    | BetExceedsMaximum
    | EscrowNotSet
    | OnlyOwnerCanWithdraw
    | WithdrawNotPositive
    | InsufficientContractBalance
    | OnlyOracleCanFinish
    | PlayerNotFound
    | MutezUnderflow

  /** Some key of a non-empty map: the one Sum takes first. */
  ghost function Pick(m: map<Address, nat>): (k: Address)
    requires |m| > 0
    ensures k in m
  {
    var k :| k in m; k
  }

  /** The sum of all balances in a player map. */
  ghost function Sum(m: map<Address, nat>): nat
    decreases |m|
  {
    if |m| == 0 then 0
    else
      var k := Pick(m);
      m[k] + Sum(m - {k})
  }

  lemma CardRemove(m: map<Address, nat>, k: Address)
    requires k in m
    ensures |m - {k}| == |m| - 1
  {
  }

  /** Sum does not depend on which key it takes first. */
  lemma {:induction false} SumRemove(m: map<Address, nat>, k: Address)
    requires k in m
    ensures Sum(m) == m[k] + Sum(m - {k})
    decreases |m|
  {
    var j := Pick(m);
    if j != k {
      var mj, mk := m - {j}, m - {k};
      CardRemove(m, j);
      CardRemove(m, k);
      SumRemove(mj, k);
      SumRemove(mk, j);
      assert mj - {k} == mk - {j};
    }
  }

  /** Writing `v` at key `k` changes the sum by `v` minus what was there. */
  lemma SumUpdate(m: map<Address, nat>, k: Address, v: nat)
    ensures Sum(m[k := v]) + (if k in m then m[k] else 0) == Sum(m) + v
  {
    SumRemove(m[k := v], k);
    assert m[k := v] - {k} == m - {k};
    if k in m {
      SumRemove(m, k);
    } else {
      assert m - {k} == m;
    }
  }

  /** No single balance exceeds the sum of all balances. */
  lemma SumBound(m: map<Address, nat>, k: Address)
    requires k in m
    ensures m[k] <= Sum(m)
  {
  }

  /** Zeroing a positive balance lowers the sum by exactly that balance, so
      an aggregate left as it was no longer equals the sum. */
  lemma ZeroingLowersSum(m: map<Address, nat>, k: Address)
    requires k in m && m[k] > 0
    ensures Sum(m[k := 0]) + m[k] == Sum(m)
    ensures Sum(m[k := 0]) < Sum(m)
  {
    SumUpdate(m, k, 0);
  }

  /** The bet ceiling of `bet`: 2% of the caller-reported contract balance,
      rounded down. */
  function MaxBet(contractBalance: nat): (limit: nat)
    ensures 50 * limit <= contractBalance < 50 * (limit + 1)
  {
    contractBalance / 50
  }

  class CoinFlip {
    var players: map<Address, nat>
    var escrow: Option<Address>
    const owner: Address
    var oracle: Address
    var totalPlayersBalance: nat
    /** every operation emitted so far, oldest first */
    var emitted: seq<Operation>

    /** The bookkeeping invariant: the aggregate equals the sum of balances. */
    ghost predicate Balanced()
      reads this
    {
      Sum(players) == totalPlayersBalance
    }

    /** The weaker invariant that keeps every subtraction from the aggregate
        from going below zero. */
    ghost predicate Covered()
      reads this
    {
      Sum(players) <= totalPlayersBalance
    }

    constructor (owner: Address, oracle: Address)
      ensures this.owner == owner && this.oracle == oracle
      ensures players == map[] && escrow == None
      ensures totalPlayersBalance == 0 && emitted == []
      ensures Balanced()
    {
      this.owner := owner;
      this.oracle := oracle;
      players := map[];
      escrow := None;
      totalPlayersBalance := 0;
      emitted := [];
    }

    /** The `get_balance` view: a registered address's balance, 0 for any
        other address. */
    function GetBalance(address: Address): (balance: nat)
      reads this
      ensures address in players ==> balance == players[address]
      ensures address !in players ==> balance == 0
      ensures Covered() ==> balance <= totalPlayersBalance
    {
      if address in players then
        SumBound(players, address);
        players[address]
      else
        0
    }

    /** `add_player`: no caller check; overwrites the entry and adds the
        amount to the aggregate. */
    method AddPlayer(address: Address, amount: nat)
      modifies this
      ensures players == old(players)[address := amount]
      ensures totalPlayersBalance == old(totalPlayersBalance) + amount
      ensures escrow == old(escrow) && oracle == old(oracle) && emitted == old(emitted)
      ensures old(Covered()) ==> Covered()
      ensures old(Balanced()) ==> (Balanced() <==> old(GetBalance(address)) == 0)
    {
      SumUpdate(players, address, amount);
      players := players[address := amount];
      totalPlayersBalance := totalPlayersBalance + amount;
    }

    /** `deposit`: credits the attached amount to the sender, registering
        the sender if needed. */
    method Deposit(sender: Address, amount: nat) returns (r: Outcome<Error>)
      modifies this
      ensures r.Fail? <==> amount == 0
      ensures r.Fail? ==> r.error == DepositNotPositive && unchanged(this)
      ensures r.Pass? ==>
        && players == old(players)[sender := old(GetBalance(sender)) + amount]
        && totalPlayersBalance == old(totalPlayersBalance) + amount
        && escrow == old(escrow) && oracle == old(oracle) && emitted == old(emitted)
      ensures old(Balanced()) ==> Balanced()
      ensures old(Covered()) ==> Covered()
    {
      if amount == 0 {
        return Fail(DepositNotPositive);
      }
      var balance := if sender in players then players[sender] else 0;
      SumUpdate(players, sender, balance + amount);
      players := players[sender := balance + amount];
      totalPlayersBalance := totalPlayersBalance + amount;
      r := Pass;
    }

    /** `withdraw`: pays the sender's whole balance out and zeroes it. */
    method Withdraw(sender: Address) returns (r: Outcome<Error>)
      modifies this
      ensures sender !in old(players) ==> r == Fail(SenderNotRegistered)
      ensures sender in old(players) && old(players)[sender] == 0 ==> r == Fail(InsufficientBalance)
      ensures sender in old(players) && 0 < old(players)[sender] ==>
        r == (if old(players)[sender] <= old(totalPlayersBalance) then Pass else Fail(MutezUnderflow))
      ensures r.Fail? ==> unchanged(this)
      ensures r.Pass? ==>
        && sender in old(players)
        && var paid := old(players)[sender];
        && players == old(players)[sender := 0]
        && totalPlayersBalance == old(totalPlayersBalance) - paid
        && emitted == old(emitted) + [Send(sender, paid)]
        && escrow == old(escrow) && oracle == old(oracle)
      ensures old(Covered()) ==> r != Fail(MutezUnderflow)
      ensures old(Balanced()) ==> Balanced()
      ensures old(Covered()) ==> Covered()
    {
      if sender !in players {
        return Fail(SenderNotRegistered);
      }
      if players[sender] == 0 {
        return Fail(InsufficientBalance);
      }
      var amount := players[sender];
      SumBound(players, sender);
      if totalPlayersBalance < amount {
        return Fail(MutezUnderflow);
      }
      SumUpdate(players, sender, 0);
      players := players[sender := 0];
      totalPlayersBalance := totalPlayersBalance - amount;
      emitted := emitted + [Send(sender, amount)];
      r := Pass;
    }

    /** `withdraw` as the text of main.py:43-46 runs. `amount` there names
        the storage entry itself, not a copy of its value, so once main.py:44
        has zeroed the entry, the subtraction and the send both read 0: the
        aggregate keeps the withdrawn balance and the player is sent nothing. */
    method WithdrawAsWritten(sender: Address) returns (r: Outcome<Error>)
      modifies this
      ensures sender !in old(players) ==> r == Fail(SenderNotRegistered)
      ensures sender in old(players) && old(players)[sender] == 0 ==> r == Fail(InsufficientBalance)
      ensures r.Pass? <==> sender in old(players) && old(players)[sender] > 0
      ensures r.Fail? ==> unchanged(this)
      ensures r.Pass? ==>
        && players == old(players)[sender := 0]
        && totalPlayersBalance == old(totalPlayersBalance)
        && emitted == old(emitted) + [Send(sender, 0)]
        && escrow == old(escrow) && oracle == old(oracle)
      ensures r.Pass? ==> Sum(players) + old(players)[sender] == old(Sum(players))
      ensures old(Balanced()) && r.Pass? ==> !Balanced()
      ensures old(Covered()) ==> Covered()
    {
      if sender !in players {
        return Fail(SenderNotRegistered);
      }
      if players[sender] == 0 {
        return Fail(InsufficientBalance);
      }
      ZeroingLowersSum(players, sender);
      players := players[sender := 0];
      totalPlayersBalance := totalPlayersBalance - players[sender];
      emitted := emitted + [Send(sender, players[sender])];
      r := Pass;
    }

    /** `set_escrow`: owner only. `entryPointFound` is whether the lookup of
        the escrow's entry point at `escrowAddress` succeeded. */
    method SetEscrow(sender: Address, escrowAddress: Address, entryPointFound: bool)
      returns (r: Outcome<Error>)
      modifies this
      ensures sender != owner ==> r == Fail(OnlyAdminCanSetEscrow)
      ensures sender == owner && !entryPointFound ==> r == Fail(InvalidEscrowContract)
      ensures r.Pass? <==> sender == owner && entryPointFound
      ensures r.Fail? ==> unchanged(this)
      ensures r.Pass? ==>
        && escrow == Some(escrowAddress)
        && players == old(players) && totalPlayersBalance == old(totalPlayersBalance)
        && oracle == old(oracle) && emitted == old(emitted)
    {
      if sender != owner {
        return Fail(OnlyAdminCanSetEscrow);
      }
      if !entryPointFound {
        return Fail(InvalidEscrowContract);
      }
      escrow := Some(escrowAddress);
      r := Pass;
    }

    /** `set_oracle`: owner only. */
    method SetOracle(sender: Address, newOracle: Address) returns (r: Outcome<Error>)
      modifies this
      ensures r.Fail? <==> sender != owner
      ensures r.Fail? ==> r.error == OnlyAdminCanSetOracle && unchanged(this)
      ensures r.Pass? ==>
        && oracle == newOracle
        && players == old(players) && totalPlayersBalance == old(totalPlayersBalance)
        && escrow == old(escrow) && emitted == old(emitted)
    {
      if sender != owner {
        return Fail(OnlyAdminCanSetOracle);
      }
      oracle := newOracle;
      r := Pass;
    }

    /** `bet`: debits the stake from the sender and forwards it, with the
        prediction, to the escrow. `contractBalance` is the caller-reported
        balance the 2% ceiling is computed from. */
    method Bet(sender: Address, amount: nat, prediction: bool, contractBalance: nat)
      returns (r: Outcome<Error>)
      modifies this
      ensures sender !in old(players) ==> r == Fail(SenderNotRegistered)
      ensures sender in old(players) && old(players)[sender] < amount ==> r == Fail(InsufficientBalance)
      ensures sender in old(players) && amount <= old(players)[sender] && amount > MaxBet(contractBalance) ==>
        r == Fail(BetExceedsMaximum)
      ensures sender in old(players) && amount <= old(players)[sender] && amount <= MaxBet(contractBalance) ==>
        r == (if old(escrow).None? then Fail(EscrowNotSet)
              else if old(totalPlayersBalance) < amount then Fail(MutezUnderflow)
              else Pass)
      ensures r.Fail? ==> unchanged(this)
      ensures r.Pass? ==>
        && sender in old(players) && old(escrow).Some?
        && players == old(players)[sender := old(players)[sender] - amount]
        && totalPlayersBalance == old(totalPlayersBalance) - amount
        && emitted == old(emitted) + [Call(old(escrow).value, 0, PlaceBetArgs(sender, amount, prediction))]
        && escrow == old(escrow) && oracle == old(oracle)
      ensures old(Covered()) ==> r != Fail(MutezUnderflow)
      ensures old(Balanced()) ==> Balanced()
      ensures old(Covered()) ==> Covered()
    {
      if sender !in players {
        return Fail(SenderNotRegistered);
      }
      if players[sender] < amount {
        return Fail(InsufficientBalance);
      }
      if amount > MaxBet(contractBalance) {
        return Fail(BetExceedsMaximum);
      }
      if escrow.None? {
        return Fail(EscrowNotSet);
      }
      SumBound(players, sender);
      if totalPlayersBalance < amount {
        return Fail(MutezUnderflow);
      }
      SumUpdate(players, sender, players[sender] - amount);
      players := players[sender := players[sender] - amount];
      totalPlayersBalance := totalPlayersBalance - amount;
      emitted := emitted + [Call(escrow.value, 0, PlaceBetArgs(sender, amount, prediction))];
      r := Pass;
    }

    /** `owner_withdraw`: sends contract funds that are not owed to players.
        `contractBalance` is the contract's own balance (`sp.balance`). */
    method OwnerWithdraw(sender: Address, destination: Address, amount: nat, contractBalance: nat)
      returns (r: Outcome<Error>)
      modifies this
      ensures sender != owner ==> r == Fail(OnlyOwnerCanWithdraw)
      ensures sender == owner && amount == 0 ==> r == Fail(WithdrawNotPositive)
      ensures sender == owner && amount > 0 && contractBalance < amount + old(totalPlayersBalance) ==>
        r == Fail(InsufficientContractBalance)
      ensures r.Pass? <==> sender == owner && amount > 0 && amount + old(totalPlayersBalance) <= contractBalance
      ensures r.Fail? ==> unchanged(this)
      ensures r.Pass? ==>
        && emitted == old(emitted) + [Send(destination, amount)]
        && players == old(players) && totalPlayersBalance == old(totalPlayersBalance)
        && escrow == old(escrow) && oracle == old(oracle)
    {
      if sender != owner {
        return Fail(OnlyOwnerCanWithdraw);
      }
      if amount == 0 {
        return Fail(WithdrawNotPositive);
      }
      if contractBalance < amount + totalPlayersBalance {
        return Fail(InsufficientContractBalance);
      }
      emitted := emitted + [Send(destination, amount)];
      r := Pass;
    }

    /** `finish_game`: the oracle credits a round's refund to a registered
        player. */
    method FinishGame(sender: Address, player: Address, refund: nat) returns (r: Outcome<Error>)
      modifies this
      ensures sender != old(oracle) ==> r == Fail(OnlyOracleCanFinish)
      ensures sender == old(oracle) && player !in old(players) ==> r == Fail(PlayerNotFound)
      ensures r.Pass? <==> sender == old(oracle) && player in old(players)
      ensures r.Fail? ==> unchanged(this)
      ensures r.Pass? ==>
        && players == old(players)[player := old(players)[player] + refund]
        && totalPlayersBalance == old(totalPlayersBalance) + refund
        && escrow == old(escrow) && oracle == old(oracle) && emitted == old(emitted)
      ensures old(Balanced()) ==> Balanced()
      ensures old(Covered()) ==> Covered()
    {
      if sender != oracle {
        return Fail(OnlyOracleCanFinish);
      }
      if player !in players {
        return Fail(PlayerNotFound);
      }
      SumUpdate(players, player, players[player] + refund);
      players := players[player := players[player] + refund];
      totalPlayersBalance := totalPlayersBalance + refund;
      r := Pass;
    }
  }
}
