/**
 Building the searcher's two transactions and the bundle. The backrun is a
 zero-value transfer from the searcher to itself with the account nonce; the
 bid calls the auction contract's `submitBid` with the next nonce and pays
 the bid amount. Both copy the opportunity's fee variant. Signing and the
 contract's `buildTransaction` are outside collaborators, passed in as the
 functions of a `Web3` value.
 */
module Builders {
  import opened Wrappers
  import opened HexEncoding
  import opened Accounts
  import opened Opportunity

  const GAS_LIMIT: nat := 500_000
  /** Chain id of the Polygon PoS mainnet. */
  const CHAIN_ID: nat := 137
  /** Width in bytes of an ABI `bytes32` word. */
  const WORD_SIZE: nat := 32

  datatype Fee =
    | LegacyFee(gasPrice: nat)
    | DynamicFee(maxPriorityFeePerGas: nat, maxFeePerGas: nat)

  /** What the builders can raise: a missing attribute of the opportunity, or a hash too long for `bytes32`. */
  datatype Error =
    | MissingAttribute(name: string)
    | ValueOutOfBounds(length: nat)

  /**
   A transaction dictionary. `to`, `value` and `data` are `None` where the
   dictionary has no such key.
   */
  datatype TxFields = TxFields(
    from: Address,
    fee: Fee,
    gas: nat,
    chainId: nat,
    nonce: nat,
    to: Option<Address>,
    value: Option<int>,
    data: Option<Bytes>)

  /**
   The arguments of `submitBid(bytes32 opportunityTxHash, address validator, address searcher)`, in order.
   Both addresses are already in checksummed form, so `toChecksumAddress` leaves them as they are.
   */
  datatype SubmitBidCall = SubmitBid(opportunityTxHash: Bytes, validator: Address, searcher: Address)

  /** The foreign calls: signing a dictionary with a key, and completing a dictionary for a `submitBid` call. */
  datatype Web3 = Web3(
    signTransaction: (TxFields, Key) -> Bytes,
    buildTransaction: (SubmitBidCall, TxFields) -> TxFields)

  /**
   The fee fields both builders copy. Type 0 reads `gasPrice`; every other
   type reads `maxPriorityFeePerGas` then `maxFeePerGas`. Reading an attribute
   the constructor never set fails, and so does reading the type itself.
   */
  function OpportunityFee(opp: OpportunityTx): (r: Result<Fee, Error>)
    ensures opp.txType.None? ==> r == Failure(MissingAttribute("type"))
    ensures r.Success? ==> (r.value.LegacyFee? <==> opp.txType == Some(LEGACY_TYPE))
    ensures r.Success? && r.value.LegacyFee? ==> opp.gasPrice == Some(r.value.gasPrice)
    ensures r.Success? && r.value.DynamicFee? ==>
      opp.maxPriorityFeePerGas == Some(r.value.maxPriorityFeePerGas) &&
      opp.maxFeePerGas == Some(r.value.maxFeePerGas)
    ensures opp.txType.Some? && opp.txType != Some(LEGACY_TYPE) ==>
      (r.Success? <==> opp.maxPriorityFeePerGas.Some? && opp.maxFeePerGas.Some?)
    ensures opp.txType == Some(LEGACY_TYPE) ==>
      r == if opp.gasPrice.Some? then Success(LegacyFee(opp.gasPrice.value))
           else Failure(MissingAttribute("gasPrice"))
    ensures opp.txType.Some? && opp.txType != Some(LEGACY_TYPE) ==>
      r == if opp.maxPriorityFeePerGas.None? then Failure(MissingAttribute("maxPriorityFeePerGas"))
           else if opp.maxFeePerGas.None? then Failure(MissingAttribute("maxFeePerGas"))
           else Success(DynamicFee(opp.maxPriorityFeePerGas.value, opp.maxFeePerGas.value))
  {
    match opp.txType
    case None => Failure(MissingAttribute("type"))
    case Some(t) =>
      if t == LEGACY_TYPE then
        match opp.gasPrice
        case None => Failure(MissingAttribute("gasPrice"))
        case Some(gp) => Success(LegacyFee(gp))
      else
        match (opp.maxPriorityFeePerGas, opp.maxFeePerGas)
        case (None, _) => Failure(MissingAttribute("maxPriorityFeePerGas"))
        case (Some(_), None) => Failure(MissingAttribute("maxFeePerGas"))
        case (Some(tip), Some(cap)) => Success(DynamicFee(tip, cap))
  }

  /**
   For an opportunity built from `d`, the fee the builders copy, stated on
   the dictionary's keys: the dynamic-fee key wins over `gasPrice`, a
   dynamic-fee opportunity without `maxFeePerGas` fails on that attribute,
   and one with neither fee key fails on the unset type.
   */
  lemma FeeFromDict(opp: OpportunityTx, d: TxDict)
    requires opp.FromDict(d)
    ensures "maxPriorityFeePerGas" in d && "maxFeePerGas" in d ==>
      OpportunityFee(opp) == Success(DynamicFee(d["maxPriorityFeePerGas"], d["maxFeePerGas"]))
    ensures "maxPriorityFeePerGas" in d && "maxFeePerGas" !in d ==>
      OpportunityFee(opp) == Failure(MissingAttribute("maxFeePerGas"))
    ensures "maxPriorityFeePerGas" !in d && "gasPrice" in d ==>
      OpportunityFee(opp) == Success(LegacyFee(d["gasPrice"]))
    ensures "maxPriorityFeePerGas" !in d && "gasPrice" !in d ==>
      OpportunityFee(opp) == Failure(MissingAttribute("type"))
  {
  }

  /** The backrun's dictionary: from the searcher to itself, the account nonce, no value, empty data. */
  function SearcherTxFields(eoa: SearcherEOA, opp: OpportunityTx): (r: Result<TxFields, Error>)
    reads eoa
    ensures r.Success? <==> OpportunityFee(opp).Success?
    ensures r.Failure? ==> r.error == OpportunityFee(opp).error
    ensures r.Success? ==>
      r.value.fee == OpportunityFee(opp).value &&
      r.value.from == eoa.address && r.value.to == Some(eoa.address) &&
      r.value.nonce == eoa.nonce &&
      r.value.gas == GAS_LIMIT && r.value.chainId == CHAIN_ID &&
      r.value.value.None? && r.value.data == Some([])
  {
    var fee :- OpportunityFee(opp);
    Success(TxFields(eoa.address, fee, GAS_LIMIT, CHAIN_ID, eoa.nonce, Some(eoa.address), None, Some([])))
  }

  /** `build_searcher_transaction`: the backrun dictionary signed with the account's key. */
  function BuildSearcherTransaction(w3: Web3, eoa: SearcherEOA, opp: OpportunityTx, validator: Address): (r: Result<Bytes, Error>)
    reads eoa
    ensures r.Success? <==> OpportunityFee(opp).Success?
    ensures r.Failure? ==> r.error == OpportunityFee(opp).error
    ensures r.Success? ==> r.value == w3.signTransaction(SearcherTxFields(eoa, opp).value, eoa.privateKey)
  {
    var fields :- SearcherTxFields(eoa, opp);
    Success(w3.signTransaction(fields, eoa.privateKey))
  }

  /**
   The bid's dictionary before the contract call completes it: the next
   nonce, the bid amount as the value (no decimal scaling), no `to` or data.
   */
  function BidTxFields(bidAmount: int, eoa: SearcherEOA, opp: OpportunityTx): (r: Result<TxFields, Error>)
    reads eoa
    ensures r.Success? <==> OpportunityFee(opp).Success?
    ensures r.Failure? ==> r.error == OpportunityFee(opp).error
    ensures r.Success? ==>
      r.value.fee == OpportunityFee(opp).value &&
      r.value.from == eoa.address &&
      r.value.nonce == eoa.nonce + 1 &&
      r.value.value == Some(bidAmount) &&
      r.value.gas == GAS_LIMIT && r.value.chainId == CHAIN_ID &&
      r.value.to.None? && r.value.data.None?
  {
    var fee :- OpportunityFee(opp);
    Success(TxFields(eoa.address, fee, GAS_LIMIT, CHAIN_ID, eoa.nonce + 1, None, Some(bidAmount), None))
  }

  /** ABI encoding of a `bytes32` value: at most 32 bytes, padded on the right with zeros. */
  function EncodeBytes32(value: Bytes): (r: Result<Bytes, Error>)
    ensures r.Success? <==> |value| <= WORD_SIZE
    ensures r.Failure? ==> r.error == ValueOutOfBounds(|value|)
    ensures r.Success? ==>
      |r.value| == WORD_SIZE && r.value[..|value|] == value &&
      forall i :: |value| <= i < WORD_SIZE ==> r.value[i] == 0
  {
    if |value| > WORD_SIZE then Failure(ValueOutOfBounds(|value|))
    else Success(value + seq(WORD_SIZE - |value|, _ => 0))
  }

  /** A full 32-byte hash, as a transaction hash is, is encoded as itself. */
  lemma EncodeBytes32Exact(value: Bytes)
    requires |value| == WORD_SIZE
    ensures EncodeBytes32(value) == Success(value)
  {
    assert value + seq(0, _ => 0 as byte) == value;
  }

  /**
   `build_pfl_bid_transaction`: the bid dictionary completed by `submitBid`
   with (opportunity hash, validator, searcher address) and signed with the
   account's key. A fee failure comes before an encoding failure.
   */
  function BuildPflBidTransaction(w3: Web3, bidAmount: int, eoa: SearcherEOA, opp: OpportunityTx, validator: Address): (r: Result<Bytes, Error>)
    reads eoa
    ensures r.Success? <==> OpportunityFee(opp).Success? && |opp.tx.hash| <= WORD_SIZE
    ensures OpportunityFee(opp).Failure? ==> r == Failure(OpportunityFee(opp).error)
    ensures OpportunityFee(opp).Success? && |opp.tx.hash| > WORD_SIZE ==> r == Failure(ValueOutOfBounds(|opp.tx.hash|))
    ensures r.Success? ==>
      r.value == w3.signTransaction(
        w3.buildTransaction(
          SubmitBid(EncodeBytes32(opp.tx.hash).value, validator, eoa.address),
          BidTxFields(bidAmount, eoa, opp).value),
        eoa.privateKey)
  {
    var fields :- BidTxFields(bidAmount, eoa, opp);
    var opportunityTxHash :- EncodeBytes32(opp.tx.hash);
    var submitBidData := w3.buildTransaction(SubmitBid(opportunityTxHash, validator, eoa.address), fields);
    Success(w3.signTransaction(submitBidData, eoa.privateKey))
  }

  /**
   The backrun and the bid agree: same sender and fee variant with the same
   values, the bid's nonce one above the backrun's; and either both build or
   neither does.
   */
  lemma BidMatchesBackrun(bidAmount: int, eoa: SearcherEOA, opp: OpportunityTx)
    ensures SearcherTxFields(eoa, opp).Success? <==> BidTxFields(bidAmount, eoa, opp).Success?
    ensures SearcherTxFields(eoa, opp).Success? ==>
      var backrun, bid := SearcherTxFields(eoa, opp).value, BidTxFields(bidAmount, eoa, opp).value;
      bid.fee == backrun.fee && bid.from == backrun.from &&
      bid.nonce == backrun.nonce + 1 && backrun.nonce == eoa.nonce
  {
  }

  /**
   `build_bundle`: the three raw transactions as hex text, in the order
   opportunity, backrun, bid. The opportunity's raw bytes are used as they
   came; the account is only read.
   */
  function BuildBundle(w3: Web3, bidAmount: int, eoa: SearcherEOA, opp: OpportunityTx, validator: Address): (r: Result<seq<string>, Error>)
    reads eoa
    ensures r.Success? <==> OpportunityFee(opp).Success? && |opp.tx.hash| <= WORD_SIZE
    ensures r.Failure? ==>
      r.error == if OpportunityFee(opp).Failure? then OpportunityFee(opp).error else ValueOutOfBounds(|opp.tx.hash|)
    ensures r.Success? ==>
      |r.value| == 3 &&
      r.value[0] == ToHex(opp.tx.rawTransaction) &&
      r.value[1] == ToHex(BuildSearcherTransaction(w3, eoa, opp, validator).value) &&
      r.value[2] == ToHex(BuildPflBidTransaction(w3, bidAmount, eoa, opp, validator).value)
  {
    var signedSearcherTx :- BuildSearcherTransaction(w3, eoa, opp, validator);
    var signedSubmitBidTx :- BuildPflBidTransaction(w3, bidAmount, eoa, opp, validator);
    Success([ToHex(opp.tx.rawTransaction), ToHex(signedSearcherTx), ToHex(signedSubmitBidTx)])
  }

  /**
   Reading the bundle back element by element gives the opportunity's
   original raw bytes, then the signed backrun, then the signed bid.
   */
  lemma BundleDecodes(w3: Web3, bidAmount: int, eoa: SearcherEOA, opp: OpportunityTx, validator: Address)
    requires BuildBundle(w3, bidAmount, eoa, opp, validator).Success?
    ensures var bundle := BuildBundle(w3, bidAmount, eoa, opp, validator).value;
      |bundle| == 3 &&
      FromHex(bundle[0]) == Some(opp.tx.rawTransaction) &&
      FromHex(bundle[1]) == Some(BuildSearcherTransaction(w3, eoa, opp, validator).value) &&
      FromHex(bundle[2]) == Some(BuildPflBidTransaction(w3, bidAmount, eoa, opp, validator).value)
  {
    HexRoundTrip(opp.tx.rawTransaction);
    HexRoundTrip(BuildSearcherTransaction(w3, eoa, opp, validator).value);
    HexRoundTrip(BuildPflBidTransaction(w3, bidAmount, eoa, opp, validator).value);
  }

  /**
   Building depends on the account only through its address, key and nonce:
   two accounts that agree on them (or one account built from twice without
   a nonce refresh) yield the same bundle, nonces included.
   */
  lemma BuildBundleDeterministic(w3: Web3, bidAmount: int, eoa1: SearcherEOA, eoa2: SearcherEOA, opp: OpportunityTx, validator: Address)
    requires eoa1.address == eoa2.address && eoa1.privateKey == eoa2.privateKey && eoa1.nonce == eoa2.nonce
    ensures BuildBundle(w3, bidAmount, eoa1, opp, validator) == BuildBundle(w3, bidAmount, eoa2, opp, validator)
  {
  }
}
