/** Clients of the two contracts: the scenarios of the source's own tests,
    and one full round in which the escrow's payout call is delivered to the
    ledger. What is asserted here follows from the entry points' contracts
    alone. */
module Scenarios {
  import opened Tezos
  import L = CoinFlipContract
  import E = EscrowContract

  /** The first half of the ledger test of main.py: two deposits, a
      withdrawal and a refused owner withdrawal. The withdrawal is the
      corrected `Withdraw`, which pays out and deducts the balance it read. */
  method LedgerFundsScenario() returns (ledger: L.CoinFlip)
    ensures fresh(ledger)
    ensures ledger.players == map["player" := 0, "player2" := 2000]
    ensures ledger.totalPlayersBalance == 2000 && ledger.owner == "owner" && ledger.oracle == "oracle"
    ensures ledger.escrow.None? && ledger.emitted == [Send("player", 1000)]
    ensures ledger.Balanced()
  {
    ledger := new L.CoinFlip("owner", "oracle");
    var r := ledger.Deposit("player", 1000);
    assert ledger.players == map["player" := 1000];
    r := ledger.Deposit("player2", 2000);
    assert ledger.players == map["player" := 1000, "player2" := 2000];
    assert ledger.totalPlayersBalance == 3000;
    r := ledger.Withdraw("player");
    assert r.Pass? && ledger.players == map["player" := 0, "player2" := 2000];
    // 2000 mutez are left in the contract, all of them owed to player2
    r := ledger.OwnerWithdraw("owner", "owner", 100, 2000);
    assert r == Fail(L.InsufficientContractBalance);
  }

  /** The withdrawal of the ledger test run as main.py:43-46 is written:
      the entry is zeroed, but the player is sent 0 and the aggregate still
      counts the 1000 withdrawn, so the ledger is no longer balanced. */
  method WithdrawAsWrittenScenario() returns (ledger: L.CoinFlip)
    ensures ledger.players == map["player" := 0, "player2" := 2000]
    ensures ledger.totalPlayersBalance == 3000
    ensures ledger.emitted == [Send("player", 0)]
    ensures !ledger.Balanced()
  {
    ledger := new L.CoinFlip("owner", "oracle");
    var r := ledger.Deposit("player", 1000);
    assert ledger.players == map["player" := 1000];
    r := ledger.Deposit("player2", 2000);
    assert ledger.Balanced() && ledger.totalPlayersBalance == 3000;
    r := ledger.WithdrawAsWritten("player");
  }

  /** The second half of the ledger test of main.py: a bet, a refused
      oversized bet and three `finish_game` calls. The bets at main.py:209
      and main.py:219 both pass `player_balance` before main.py:231 assigns
      it. The first is not replayed; for the second, 3000 stands in for the
      contract's own balance at that point (1000 and 2000 deposited, 1000 withdrawn,
      1000 deposited again). The refused bet passes the player's balance,
      as main.py:231-233 does. */
  method LedgerBetScenario() returns (playerBalance: nat, player2Balance: nat, ops: seq<Operation>)
    ensures playerBalance == 1010 && player2Balance == 2000
    ensures ops == [Send("player", 1000), Call("escrow", 0, PlaceBetArgs("player", 10, true))]
  {
    var ledger := LedgerFundsScenario();
    var r := ledger.SetEscrow("owner", "escrow", true);
    assert r.Pass?;
    r := ledger.Deposit("player", 1000);
    assert ledger.players == map["player" := 1000, "player2" := 2000];
    r := ledger.Bet("player", 10, true, 3000);
    assert r.Pass? && ledger.players == map["player" := 990, "player2" := 2000];
    r := ledger.Bet("player", 50000, true, ledger.GetBalance("player"));
    assert r == Fail(L.InsufficientBalance);
    r := ledger.FinishGame("oracle", "player", 20);
    assert r.Pass? && ledger.players == map["player" := 1010, "player2" := 2000];
    r := ledger.FinishGame("oracle", "InvalidPlayer", 20);
    assert r == Fail(L.PlayerNotFound);
    r := ledger.FinishGame("owner", "player", 20);
    assert r == Fail(L.OnlyOracleCanFinish);
    assert ledger.Balanced();
    playerBalance, player2Balance := ledger.GetBalance("player"), ledger.GetBalance("player2");
    ops := ledger.emitted;
  }

  /** The escrow test of escrow.py: both sides stake twice, so the request
      goes out three times; an odd random value loses for the prediction
      `true`; then every refused call of the test. */
  method EscrowTestScenario() returns (ops: seq<Operation>)
    ensures ops == [E.RandomnessRequest("escrow", "link"), E.RandomnessRequest("escrow", "link"),
                    E.RandomnessRequest("escrow", "link"), Call("main", 0, FinishGameArgs("player", 0))]
  {
    var escrow := new E.Escrow("escrow", "main", "oracle", "link");
    var r := escrow.SetPlayer("main", "player", true);
    r := escrow.PlaceBet("player", 50, true);
    assert !escrow.randomValueRequested;
    r := escrow.PlaceBet("main", 50, true);
    assert escrow.randomValueRequested;
    r := escrow.PlaceBet("player", 50, true);
    r := escrow.PlaceBet("main", 50, true);
    r := escrow.ReceiveRandomness(123456789);
    assert r.Pass? && escrow.RoundEmpty();
    r := escrow.SetPlayer("main", "invalid_address", false);
    assert r == Fail(E.InvalidPlayerAddress);
    r := escrow.SetPlayer("player", "player", true);
    assert r == Fail(E.OnlyMainContractCanSetPlayer);
    r := escrow.PlaceBet("oracle", 50, true);
    assert r == Fail(E.UnauthorizedSender);
    r := escrow.PlaceBet("player", 0, true);
    assert r == Fail(E.BetNotPositive);
    r := escrow.ReceiveRandomness(123456789);
    assert r == Fail(E.RandomValueNotRequested);
    // the call from the player is refused for the same reason, not by a caller check
    r := escrow.ReceiveRandomness(123456789);
    assert r == Fail(E.RandomValueNotRequested);
    ops := escrow.emitted;
  }

  /** The call `bet` forwards carries no mutez, so when it reaches
      `place_bet` it is refused as a zero bet. */
  method ForwardedBetScenario() returns (r: Outcome<E.Error>)
    ensures r == Fail(E.BetNotPositive)
  {
    var ledger := new L.CoinFlip("owner", "oracle");
    var escrow := new E.Escrow("escrow", "ledger", "oracle", "link");
    var s := escrow.SetPlayer("ledger", "player", true);
    var t := ledger.Deposit("player", 1000);
    t := ledger.SetEscrow("owner", "escrow", true);
    t := ledger.Bet("player", 10, true, 1000);
    assert t.Pass?;
    var forwarded := ledger.emitted[|ledger.emitted| - 1];
    assert forwarded == Call("escrow", 0, PlaceBetArgs("player", 10, true));
    r := escrow.PlaceBet("ledger", forwarded.attached, forwarded.payload.prediction);
  }

  /** The escrow's half of a round: the player stakes 50 on "even", the
      ledger 1000, and the random value arrives. Exactly one payout call,
      carrying `ComputeRefund` of the stakes, is emitted after the request. */
  method RoundPayoutScenario(value: int) returns (payout: Operation)
    ensures payout == Call("ledger", 0, FinishGameArgs("player", E.ComputeRefund(50, 1000, true, value)))
  {
    var escrow := new E.Escrow("escrow", "ledger", "oracle", "link");
    var s := escrow.SetPlayer("ledger", "player", true);
    s := escrow.PlaceBet("player", 50, true);
    s := escrow.PlaceBet("ledger", 1000, true);
    assert escrow.emitted == [E.RandomnessRequest("escrow", "link")];
    s := escrow.ReceiveRandomness(value);
    assert s.Pass? && escrow.RoundEmpty();
    payout := escrow.emitted[|escrow.emitted| - 1];
  }

  /** One full round: the player deposits 1000 and bets 50 on "even"; the
      escrow's payout call is delivered to the ledger, whose oracle is set
      to the escrow. The player ends with 950 on an odd value and
      950 + 50 + 980 on an even one. */
  method RoundScenario(value: int) returns (finalBalance: nat)
    ensures finalBalance == if value % 2 == 0 then 1980 else 950
  {
    var ledger := new L.CoinFlip("owner", "oracle");
    var t := ledger.Deposit("player", 1000);
    t := ledger.SetEscrow("owner", "escrow", true);
    t := ledger.SetOracle("owner", "escrow");
    t := ledger.Bet("player", 50, true, 2500);
    assert t.Pass? && ledger.GetBalance("player") == 950;

    var payout := RoundPayoutScenario(value);
    t := ledger.FinishGame("escrow", payout.payload.player, payout.payload.refund);
    assert t.Pass? && ledger.Balanced();
    finalBalance := ledger.GetBalance("player");
  }
}
