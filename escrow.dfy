/** The round escrow (`Escrow` in escrow.py): one round at a time, with the
    player's stake and prediction, the counter-stake from the main contract,
    and the randomness request flag. */
module EscrowContract {
  import opened Tezos

  /** One constructor per failed `sp.verify` message, plus the failure of
      `open_some` on an empty option. */
  datatype Error =
    | PlayerAddressNotSet
    | BetNotPositive
    | UnauthorizedSender
    | RandomValueNotRequested
    | OnlyMainContractCanSetPlayer
    | InvalidPlayerAddress
    | OpenedNone

  /** What `place_bet` pays the LINK token contract for one request, in
      mutez, and the LINK amount written in the request. */
  const RequestFee: nat := 1000

  /** The randomness request `place_bet` sends to the LINK token contract,
      asking for a callback to `receive_randomness` at `escrowAddress`. */
  function RandomnessRequest(escrowAddress: Address, linkToken: Address): Operation
  {
    Call(linkToken, RequestFee,
         RandomnessRequestArgs("coin_flip", escrowAddress, "receive_randomness", RequestFee))
  }

  /** The player wins when the prediction matches "the random value is
      even". Michelson's remainder, like Dafny's, is never negative. */
  predicate Won(prediction: bool, randomValue: int)
  {
    prediction == (randomValue % 2 == 0)
  }

  /** `_compute_refund`: on a win the player gets the stake back plus the
      counter-stake less a 2% fee, rounded down; on a loss nothing. */
  function ComputeRefund(playerBet: nat, contractBet: nat, prediction: bool, randomValue: int)
    : (refund: nat)
    ensures !Won(prediction, randomValue) ==> refund == 0
    ensures Won(prediction, randomValue) ==>
      && playerBet <= refund <= playerBet + contractBet
      && 100 * (refund - playerBet) <= 98 * contractBet < 100 * (refund - playerBet + 1)
  {
    if Won(prediction, randomValue) then playerBet + contractBet * 98 / 100 else 0
  }

  /** The escrow keeps between 2% of the counter-stake and 2% plus one mutez
      on a win, and both stakes on a loss. */
  lemma RetainedFee(playerBet: nat, contractBet: nat, prediction: bool, randomValue: int)
    ensures var retained := playerBet + contractBet - ComputeRefund(playerBet, contractBet, prediction, randomValue);
      if Won(prediction, randomValue) then
        2 * contractBet <= 100 * retained < 2 * contractBet + 100
      else
        retained == playerBet + contractBet
  {
  }

  /** The refund depends on the random value only through its parity. */
  lemma OnlyParityMatters(playerBet: nat, contractBet: nat, prediction: bool, v: int, w: int)
    requires v % 2 == w % 2
    ensures ComputeRefund(playerBet, contractBet, prediction, v)
         == ComputeRefund(playerBet, contractBet, prediction, w)
  {
  }

  /** Once the player has staked, exactly one of the two predictions is paid
      for a given random value. */
  lemma ExactlyOnePredictionPaid(playerBet: nat, contractBet: nat, v: int)
    requires playerBet > 0
    ensures ComputeRefund(playerBet, contractBet, true, v) > 0
       <==> ComputeRefund(playerBet, contractBet, false, v) == 0
  {
  }

  /** `_compute_refund` as the text of escrow.py:43-47 builds it. The helper
      body runs once, when the contract is built, and its first `return`,
      inside the `with sp.if_` block, ends it: the `sp.else` branch is never
      built and the win condition is never tested. */
  function ComputeRefundAsWritten(playerBet: nat, contractBet: nat, prediction: bool, randomValue: int)
    : (refund: nat)
    ensures playerBet <= refund <= playerBet + contractBet
    ensures 100 * (refund - playerBet) <= 98 * contractBet < 100 * (refund - playerBet + 1)
  {
    playerBet + contractBet * 98 / 100
  }

  /** The as-written refund pays every round as a win. In the test round of
      escrow.py:89-102 (stakes 50 and 50, prediction `true`, the odd value
      123456789) it pays 99 where the conditional refund pays 0. */
  lemma AsWrittenPaysLosingRound()
    ensures !Won(true, 123456789)
    ensures ComputeRefundAsWritten(50, 50, true, 123456789) == 99
    ensures ComputeRefund(50, 50, true, 123456789) == 0
  {
  }

  /** In general, every losing round with a staked player is paid by the
      as-written refund and not by the conditional one. */
  lemma AsWrittenIgnoresOutcome(playerBet: nat, contractBet: nat, prediction: bool, randomValue: int)
    requires playerBet > 0 && !Won(prediction, randomValue)
    ensures ComputeRefundAsWritten(playerBet, contractBet, prediction, randomValue)
          > ComputeRefund(playerBet, contractBet, prediction, randomValue) == 0
  {
  }

  class Escrow {
    /** the escrow's own address, the callback target of its requests */
    const address: Address
    const mainContract: Address
    const oracle: Address
    const linkToken: Address
    var player: Option<Address>
    var playerBet: nat
    var playerPrediction: Option<bool>
    var contractBet: nat
    var randomValue: Option<int>
    var randomValueRequested: bool
    /** every operation emitted so far, oldest first */
    var emitted: seq<Operation>

    /** What holds between entry points: the prediction is set exactly when
        the player has staked; a request is outstanding exactly when both
        sides have staked; and a random value never outlives the step that
        received it. */
    ghost predicate Consistent()
      reads this
    {
      && (playerBet > 0 <==> playerPrediction.Some?)
      && (randomValueRequested <==> playerBet > 0 && contractBet > 0)
      && (randomValueRequested ==> player.Some?)
      && randomValue.None?
    }

    /** The round is empty: no stakes, no prediction, nothing requested. */
    ghost predicate RoundEmpty()
      reads this
    {
      playerBet == 0 && contractBet == 0 && playerPrediction.None?
      && randomValue.None? && !randomValueRequested
    }

    constructor (address: Address, mainContract: Address, oracle: Address, linkToken: Address)
      ensures this.address == address && this.mainContract == mainContract
      ensures this.oracle == oracle && this.linkToken == linkToken
      ensures player.None? && RoundEmpty() && emitted == []
      ensures Consistent()
    {
      this.address := address;
      this.mainContract := mainContract;
      this.oracle := oracle;
      this.linkToken := linkToken;
      player := None;
      playerBet := 0;
      playerPrediction := None;
      contractBet := 0;
      randomValue := None;
      randomValueRequested := false;
      emitted := [];
    }

    /** `place_bet`: the player or the main contract stakes the attached
        `amount`; once both sides have staked, randomness is requested. */
    method PlaceBet(sender: Address, amount: nat, prediction: bool) returns (r: Outcome<Error>)
      modifies this
      ensures old(player).None? ==> r == Fail(PlayerAddressNotSet)
      ensures old(player).Some? && amount == 0 ==> r == Fail(BetNotPositive)
      ensures old(player).Some? && amount > 0 && sender != old(player).value && sender != mainContract ==>
        r == Fail(UnauthorizedSender)
      ensures r.Pass? <==>
        old(player).Some? && amount > 0 && (sender == old(player).value || sender == mainContract)
      ensures r.Fail? ==> unchanged(this)
      ensures r.Pass? ==>
        && player == old(player)
        && (if sender == old(player).value
            then playerBet == amount && playerPrediction == Some(prediction) && contractBet == old(contractBet)
            else contractBet == amount && playerBet == old(playerBet) && playerPrediction == old(playerPrediction))
        && (if playerBet > 0 && contractBet > 0
            then randomValue.None? && randomValueRequested
                 && emitted == old(emitted) + [RandomnessRequest(address, linkToken)]
            else randomValue == old(randomValue) && randomValueRequested == old(randomValueRequested)
                 && emitted == old(emitted))
      ensures old(Consistent()) ==> Consistent()
    {
      if player.None? {
        return Fail(PlayerAddressNotSet);
      }
      if amount == 0 {
        return Fail(BetNotPositive);
      }
      if sender != player.value && sender != mainContract {
        return Fail(UnauthorizedSender);
      }
      if sender == player.value {
        playerBet := amount;
        playerPrediction := Some(prediction);
      } else {
        contractBet := amount;
      }
      if playerBet > 0 && contractBet > 0 {
        randomValue := None;
        randomValueRequested := true;
        emitted := emitted + [RandomnessRequest(address, linkToken)];
      }
      r := Pass;
    }

    /** `perform_payout`: when a random value is present, reports the refund
        to the main contract's `finish_game` and clears the round. */
    method PerformPayout() returns (r: Outcome<Error>)
      modifies this
      ensures old(randomValue).None? ==> r.Pass? && unchanged(this)
      ensures old(randomValue).Some? && (old(playerPrediction).None? || old(player).None?) ==>
        r == Fail(OpenedNone)
      ensures old(randomValue).Some? && old(playerPrediction).Some? && old(player).Some? ==> r.Pass?
      ensures r.Fail? ==> unchanged(this)
      ensures old(randomValue).Some? && r.Pass? ==>
        && old(playerPrediction).Some? && old(player).Some?
        && emitted == old(emitted) + [Call(mainContract, 0, FinishGameArgs(old(player).value,
             ComputeRefund(old(playerBet), old(contractBet), old(playerPrediction).value, old(randomValue).value)))]
        && playerBet == 0 && contractBet == 0 && playerPrediction.None? && randomValue.None?
        && player == old(player) && randomValueRequested == old(randomValueRequested)
      ensures old(Consistent()) ==> r.Pass? && unchanged(this)
    {
      if randomValue.None? {
        return Pass;
      }
      if playerPrediction.None? || player.None? {
        return Fail(OpenedNone);
      }
      var refund := ComputeRefund(playerBet, contractBet, playerPrediction.value, randomValue.value);
      emitted := emitted + [Call(mainContract, 0, FinishGameArgs(player.value, refund))];
      playerBet := 0;
      contractBet := 0;
      playerPrediction := None;
      randomValue := None;
      r := Pass;
    }

    /** `receive_randomness`: consumes the outstanding request, stores the
        value and pays out at once. Any caller may invoke it. */
    method ReceiveRandomness(value: int) returns (r: Outcome<Error>)
      modifies this
      ensures !old(randomValueRequested) ==> r == Fail(RandomValueNotRequested)
      ensures old(randomValueRequested) ==>
        (r.Pass? <==> old(playerPrediction).Some? && old(player).Some?)
      ensures r.Fail? ==> unchanged(this)
      ensures r.Pass? ==>
        && old(playerPrediction).Some? && old(player).Some?
        && emitted == old(emitted) + [Call(mainContract, 0, FinishGameArgs(old(player).value,
             ComputeRefund(old(playerBet), old(contractBet), old(playerPrediction).value, value)))]
        && RoundEmpty() && player == old(player)
      ensures old(Consistent()) && old(randomValueRequested) ==> r.Pass?
      ensures r.Pass? ==> Consistent()
      ensures old(Consistent()) ==> Consistent()
    {
      if !randomValueRequested {
        return Fail(RandomValueNotRequested);
      }
      var previous := randomValue;
      randomValueRequested := false;
      randomValue := Some(value);
      r := PerformPayout();
      if r.Fail? {
        // the failed step reverts the two writes above
        randomValueRequested := true;
        randomValue := previous;
      }
    }

    /** `set_player`: only the main contract may designate the player.
        `addressIsValid` is the platform's verdict on `newPlayer`. */
    method SetPlayer(sender: Address, newPlayer: Address, addressIsValid: bool)
      returns (r: Outcome<Error>)
      modifies this
      ensures sender != mainContract ==> r == Fail(OnlyMainContractCanSetPlayer)
      ensures sender == mainContract && !addressIsValid ==> r == Fail(InvalidPlayerAddress)
      ensures r.Pass? <==> sender == mainContract && addressIsValid
      ensures r.Fail? ==> unchanged(this)
      ensures r.Pass? ==>
        && player == Some(newPlayer)
        && playerBet == old(playerBet) && playerPrediction == old(playerPrediction)
        && contractBet == old(contractBet) && randomValue == old(randomValue)
        && randomValueRequested == old(randomValueRequested) && emitted == old(emitted)
      ensures old(Consistent()) ==> Consistent()
    {
      if sender != mainContract {
        return Fail(OnlyMainContractCanSetPlayer);
      }
      if !addressIsValid {
        return Fail(InvalidPlayerAddress);
      }
      player := Some(newPlayer);
      r := Pass;
    }
  }
}
