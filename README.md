# Fast Lane searcher bundle, modelled in Dafny

This project models how a searcher builds and gates a bundle for the Fast Lane
(PFL) relay on Polygon, as `bundle_example.py` does it. A bundle has three
transactions. The first is the opportunity transaction observed on chain. The
second is the searcher's backrun. The third is a bid that calls the auction
contract's `submitBid`.

- `Accounts`: the searcher's account (`SearcherEOA`), with address, private
  key and a nonce refreshed from the chain's transaction count.
- `Opportunity`: the opportunity (`OpportunityTx`). Its constructor reads the
  fee keys of the transaction dictionary one after another. The dynamic-fee
  key overrides the legacy type; with neither key, no type is set.
- `Builders`: the fee branch both builders take, the backrun and bid
  dictionaries, the `bytes32` encoding of the opportunity hash, signing, and
  `build_bundle`.
- `HexEncoding`: the `"0x"`-prefixed lower-case hex text the bundle carries.
  Its inverse, `FromHex`, reads an element back into bytes.
- `Pipeline`: the validator query with its `"err"` sentinel, the allow-list
  gate and one run of `main`.

Signing (`sign_transaction`) and completing the contract call
(`buildTransaction`) are foreign calls. They are the two function-valued
fields of a `Web3` value passed in, so every property about them concerns the
records they are given and where their outputs end up. Python attribute
errors become `Failure(MissingAttribute(name))`. The `bytes32` bound check
becomes `Failure(ValueOutOfBounds(length))`.

Three behaviours of the code are modelled as written:

- When both `gasPrice` and `maxPriorityFeePerGas` are present, the
  opportunity is type 2, not a failure: the later assignment wins.
- Building a bundle never advances the nonce. `build_bundle` uses `nonce`
  and `nonce + 1` and never writes the account. `update_nonce` sets whatever
  count the chain reports.
- A failed validator query gives the text `"err"`, not a distinct error
  value. The gate then rejects it, because `"err"` is not an address.

## Model

| member | source | states |
|---|---|---|
| `Accounts.SearcherEOA.constructor` | bundle_example.py:43-46 | the account holds the given address and key, and its nonce is the chain's transaction count |
| `Accounts.SearcherEOA.UpdateNonce` | bundle_example.py:48-49 | the nonce becomes the chain's current count; address and key cannot change (frame `this`nonce`) |
| `Opportunity.Classify` | bundle_example.py:54-61 | type 2 iff `maxPriorityFeePerGas` is present (even with `gasPrice`); type 0 iff `gasPrice` is present without it; no type iff neither; `maxFeePerGas` never decides |
| `Opportunity.OpportunityTx.constructor` | bundle_example.py:52-61 | the sequential assignments leave every present fee key recorded with its value, every absent one unset, and the type equal to `Classify` of the dictionary |
| `Builders.OpportunityFee` | bundle_example.py:83-97 | unset type fails on `type`; type 0 gives exactly `LegacyFee` of the recorded `gasPrice`, or fails on `gasPrice` if none was recorded; any other type gives exactly the recorded priority fee and fee cap, failing on the first of `maxPriorityFeePerGas`, `maxFeePerGas` that is missing (the order the dictionaries read them) |
| `Builders.FeeFromDict` | bundle_example.py:54-97 | for an opportunity built from a dictionary: both dynamic keys give that dynamic fee; priority fee without `maxFeePerGas` fails on it; `gasPrice` alone gives that legacy fee; neither key fails on `type` |
| `Builders.SearcherTxFields` | bundle_example.py:83-103 | the backrun dictionary exists iff the fee can be read; it carries the opportunity's fee, `from == to ==` the account address, nonce == the account nonce, gas 500000, chain 137, no value, empty data |
| `Builders.BuildSearcherTransaction` | bundle_example.py:78-105 | the backrun signed is exactly that dictionary, with the account's key; it fails with the fee error otherwise |
| `Builders.BidTxFields` | bundle_example.py:107-137 | the bid dictionary carries the same fee, `from` the account, nonce == account nonce + 1, value == the unscaled bid amount, gas 500000, chain 137 |
| `Builders.EncodeBytes32` | bundle_example.py:139 | succeeds iff the hash has at most 32 bytes; the result is 32 bytes, begins with the hash and is zero after it; otherwise fails with the hash length |
| `Builders.EncodeBytes32Exact` | bundle_example.py:139 | a 32-byte hash is encoded as itself |
| `Builders.BuildPflBidTransaction` | bundle_example.py:107-146 | succeeds iff the fee can be read and the hash fits 32 bytes, a fee error taking precedence; signs the bid dictionary completed by `submitBid(hash, validator, searcher address)` in that order |
| `Builders.BidMatchesBackrun` | bundle_example.py:83-137 | backrun and bid build together or not at all; they share fee variant and values and sender, and the bid nonce is the backrun nonce + 1, which is the account nonce + 1 |
| `Builders.BuildBundle` | bundle_example.py:148-157 | succeeds iff both transactions build; exactly three elements: the opportunity's own raw bytes as hex, the signed backrun, the signed bid; a failure carries the first error raised |
| `Builders.BundleDecodes` | bundle_example.py:153-157 | reading the bundle back gives the opportunity's unchanged raw bytes, then the signed backrun, then the signed bid |
| `Builders.BuildBundleDeterministic` | bundle_example.py:148-157 | the bundle depends on the account only through address, key and nonce; building twice without a nonce refresh reuses the same nonces |
| `HexEncoding.ToHex` | bundle_example.py:154-156 | `"0x"` then two lower-case hex digits per byte |
| `HexEncoding.DigitsRoundTrip` | bundle_example.py:154-156 | decoding the digit text of any byte string gives that byte string back |
| `HexEncoding.HexRoundTrip` | bundle_example.py:154-156 | `FromHex(ToHex(b)) == Some(b)` for every byte string |
| `HexEncoding.ToHexInjective` | bundle_example.py:154-156 | two byte strings have the same hex text iff they are equal |
| `Pipeline.ListedValidatorIsAddress` | bundle_example.py:26-28 | the one allow-listed validator is a well-formed address |
| `Pipeline.CurrentValidator` | bundle_example.py:64-76 | the queried address when the reply could be read, `"err"` otherwise; the result is an address iff the query succeeded |
| `Pipeline.SentinelNeverListed` | bundle_example.py:71-76 | no set of addresses contains `"err"` |
| `Pipeline.Cycle` | bundle_example.py:171-178 | skipped iff the validator is not in the allow-list; anything else happens only for a listed validator, and sends exactly the bundle `build_bundle` returned for the bid amount 10^17, or carries its error |
| `Pipeline.FailedQuerySkips` | bundle_example.py:171-178 | a failed validator query never builds or sends a bundle |
| `Pipeline.SentBundleShape` | bundle_example.py:171-178 | a sent bundle has three elements, the first decoding to the opportunity's raw bytes; backrun nonce = account nonce, bid nonce = account nonce + 1, bid value 10^17, both with the opportunity's fee |
| `Pipeline.LegacyScenario` | bundle_example.py:83-137 | account nonce 5 and a 30 gwei legacy opportunity give the backrun at nonce 5 and the bid at nonce 6, both at 30 gwei, the bid paying 10^17 |

## Left out

- The IPC provider, the POA middleware, the HTTP sessions and their credentials (lines 10-13, 30-31): client setup with no logic.
- Loading the two ABI files and building the contract objects (lines 33-39): file I/O and a foreign library.
- `sign_transaction` and the contract's `buildTransaction` are foreign calls. They are arbitrary functions passed in, and nothing is assumed about their output. They are total: their own errors (a `from` that does not match the key, a failed gas estimate) are not modelled.
- `Web3.toChecksumAddress` is treated as the identity on the `Address` values the model passes around.
- The builders take the validator only as address text (`validator: Address`). The `ValueError` that `toChecksumAddress` raises on other text (line 143) is therefore not modelled. `main` never reaches it, because only a listed address passes the gate on line 176. EIP-55 checksum casing needs Keccak-256, so `IsAddress` checks only the form `"0x"` plus forty hex digits of either case.
- The JSON-RPC calls behind the validator query, the transaction count and the relay submission (lines 46, 49, 65-70, 160-165) are network I/O. The query is an input: the address, or `None` for any failure inside the `try`.
- send_bundle's response handling (lines 166-169) depends on the HTTP library's response object. `Pipeline.Cycle` ends with the bundle that was sent, not with the relay's answer.
- `print` output, the empty credential and address literals, and `build_fake_opportunity_transaction`, which is called on line 174 but not defined in the file.
- `main` also builds the account and the opportunity itself (lines 173-174). `Pipeline.Cycle` takes them as arguments.
- Swapping two bundle elements is not shown to change the bundle. That would need the signer to give different bytes for different transactions, and the signer is opaque.
