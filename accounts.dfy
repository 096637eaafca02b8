/**
 The searcher's externally owned account: its address, its private key and
 the locally held nonce. The nonce is whatever the chain reported for the
 address when it was last asked; nothing else in the program changes it.
 */
module Accounts {
  import opened HexEncoding

  /** An account address in text form: "0x" and forty hexadecimal digits. */
  predicate IsAddress(s: string) {
    |s| == 42 && s[0] == '0' && s[1] == 'x' && forall i :: 2 <= i < 42 ==> IsHexDigit(s[i])
  }

  type Address = s: string | IsAddress(s)
    witness "0x" + seq(40, _ => '0')

  /** A private key as the program stores it: opaque text handed to the signer. */
  type Key = string

  class SearcherEOA {
    var address: Address
    var privateKey: Key
    var nonce: nat

    /** `transactionCount` is the chain's transaction count for `address`. */
    constructor (address: Address, privateKey: Key, transactionCount: nat)
      ensures this.address == address
      ensures this.privateKey == privateKey
      ensures nonce == transactionCount
    {
      this.address := address;
      this.privateKey := privateKey;
      nonce := transactionCount;
    }

    /** Refreshes the nonce from the chain's transaction count; no other field changes. */
    method UpdateNonce(transactionCount: nat)
      modifies this`nonce
      ensures nonce == transactionCount
    {
      nonce := transactionCount;
    }
  }
}
