/** The values both contracts share: addresses, the outcome of running an entry
    point, and the operations an entry point emits for the chain to run after it. */
module Tezos {

  /** A Tezos address (implicit `tz1…` or originated `KT1…`), compared as text. */
  type Address = string

  datatype Option<+T> = None | Some(value: T)

  /** An entry point either commits all of its storage changes and emitted
      operations, or fails with an error and commits nothing. */
  datatype Outcome<+E> = Pass | Fail(error: E)

  /** The parameter carried by a contract call. */
  datatype Payload =
    /** the record the ledger's `bet` forwards to the escrow */
    | PlaceBetArgs(player: Address, stake: nat, prediction: bool)
    /** the record the escrow's payout sends to the ledger's `finish_game` */
    | FinishGameArgs(player: Address, refund: nat)
    /** the randomness request handed to the LINK token contract */
    | RandomnessRequestArgs(specId: string, callbackAddress: Address,
                            callbackEntryPoint: string, linkAmount: nat)

  /** An operation emitted by an entry point. Nothing here runs it: the model
      only records that it was emitted. */
  datatype Operation =
    /** a plain transfer of `amount` mutez (`sp.send`) */
    | Send(destination: Address, amount: nat)
    /** a contract call with `attached` mutez (`sp.transfer`) */
    | Call(target: Address, attached: nat, payload: Payload)
}
