/**
 * The boundary between the campaign front end and the outside world: the
 * wallet's account, the contract calls the components issue, and the few
 * JavaScript values that cross it.
 */
module Ledger {

  datatype Option<+T> = None | Some(value: T)

  /** An account address as the wallet reports it ("0x…"). */
  type Address = string

  /** A JavaScript number as far as these components use one: an integer, or NaN. */
  datatype JsNumber = Int(n: int) | NaN

  /**
   * viem's `parseEther`: a decimal ether amount to an integer amount of wei,
   * or None where it throws. Its definition is not part of this model, so
   * every operation that converts an amount takes it as a parameter.
   */
  type ParseEther = string -> Option<int>

  /** One call of `writeContractAsync`, recorded with its function name and arguments. */
  datatype WriteCall =
    | AddCampaign(owner: Address, title: string, description: string,
                  target: int, deadline: JsNumber, image: string)
    | DonateToCampaign(campaignId: nat, value: int)

  /** The guard `if (!address)`: the account is missing or, being falsy, empty. */
  predicate Connected(address: Option<Address>)
  {
    address.Some? && address.value != ""
  }
}
