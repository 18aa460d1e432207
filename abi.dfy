/** Addresses, byte strings and the contract calls the core ABI-encodes. The
    encoding itself (selectors, padding, keccak) belongs to the ABI library and
    is an opaque parameter of the model: `AbiCall -> Bytes`. */
module Abi {

  type Address = string
  type Bytes = seq<bv8>

  /** Safe's `Enum.Operation.Call`, the default operation of a Safe transaction. */
  const CALL_OPERATION: nat := 0

  /** A call as handed to `encodeFunctionData`, arguments in declaration order. */
  datatype AbiCall =
    /** SimpleAccount `execute(dest, value, func)` */
    | Execute(dest: Address, value: nat, func: Bytes)
    /** Safe 4337 module manager `executeAndRevert(to, value, data, operation)` */
    | ExecuteAndRevert(to: Address, value: nat, data: Bytes, operation: nat)
    /** ERC-20 `transfer(to, value)` */
    | Transfer(to: Address, amount: nat)
    /** ERC-1155 `safeTransferFrom(from, to, id, amount, data)` */
    | SafeTransferFrom(from: Address, to: Address, id: nat, amount: nat, data: Bytes)

  /** An encoder that loses nothing: distinct calls give distinct call data. */
  ghost predicate Injective(encode: AbiCall -> Bytes) {
    forall a, b :: encode(a) == encode(b) ==> a == b
  }
}
