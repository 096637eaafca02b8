/**
 One run of the program: ask for the current block author, and only when
 that validator takes part in the relay build the bundle and send it. A
 failed query yields the text "err", which is not an address and so never
 passes the gate.
 */
module Pipeline {
  import opened Wrappers
  import opened Accounts
  import opened Opportunity
  import opened Builders

  /** What the validator query reports when the reply could not be read as an address. */
  const ERR_SENTINEL: string := "err"

  /** The validators that take part in the relay. */
  const PARTICIPATING_VALIDATORS: set<Address> :=
    (ListedValidatorIsAddress(); {"0x127685D6dD6683085Da4B6a041eFcef1681E5C9C"})

  lemma ListedValidatorIsAddress()
    ensures IsAddress("0x127685D6dD6683085Da4B6a041eFcef1681E5C9C")
  {
    var s := "0x127685D6dD6683085Da4B6a041eFcef1681E5C9C";
    forall i | 2 <= i < 42
      ensures HexEncoding.IsHexDigit(s[i])
    {
    }
  }

  /** The bid `main` places: 10^17 in the chain's smallest unit, i.e. 0.1 MATIC. */
  const BID_AMOUNT: int := 100_000_000_000_000_000

  /**
   `get_current_validator`: `author` is the checksummed address read from
   the node's reply, or `None` when reading or checksumming it failed.
   */
  function CurrentValidator(author: Option<Address>): (v: string)
    ensures author.Some? ==> v == author.value
    ensures author.None? ==> v == ERR_SENTINEL
    ensures IsAddress(v) <==> author.Some?
  {
    match author
    case Some(a) => a
    case None => ERR_SENTINEL
  }

  /** No set of addresses holds the sentinel. */
  lemma SentinelNeverListed(validators: set<Address>)
    ensures ERR_SENTINEL !in validators
  {
    assert !IsAddress(ERR_SENTINEL);
  }

  /** The end of one run: nothing sent, the bundle sent to the relay, or an exception out of `build_bundle`. */
  datatype Outcome =
    | Skipped
    | Sent(bundle: seq<string>)
    | Raised(error: Error)

  /** `main`, given the account, the opportunity and the result of the validator query. */
  function Cycle(w3: Web3, eoa: SearcherEOA, opp: OpportunityTx, author: Option<Address>): (r: Outcome)
    reads eoa
    ensures r.Skipped? <==> CurrentValidator(author) !in PARTICIPATING_VALIDATORS
    ensures !r.Skipped? ==> author.Some? && author.value in PARTICIPATING_VALIDATORS
    ensures r.Sent? ==> BuildBundle(w3, BID_AMOUNT, eoa, opp, author.value) == Success(r.bundle)
    ensures r.Raised? ==> BuildBundle(w3, BID_AMOUNT, eoa, opp, author.value) == Failure(r.error)
  {
    var validator := CurrentValidator(author);
    if validator in PARTICIPATING_VALIDATORS then
      match BuildBundle(w3, BID_AMOUNT, eoa, opp, validator)
      case Success(bundle) => Sent(bundle)
      case Failure(e) => Raised(e)
    else
      Skipped
  }

  /** A failed validator query ends the run without building or sending anything. */
  lemma FailedQuerySkips(w3: Web3, eoa: SearcherEOA, opp: OpportunityTx)
    ensures Cycle(w3, eoa, opp, None) == Skipped
  {
    SentinelNeverListed(PARTICIPATING_VALIDATORS);
  }

  /**
   A run that sends, sends three elements: the opportunity's own raw bytes
   first, then the backrun with the account nonce, then the bid with the
   next nonce paying `BID_AMOUNT`, both with the opportunity's fee variant.
   */
  lemma SentBundleShape(w3: Web3, eoa: SearcherEOA, opp: OpportunityTx, author: Option<Address>)
    requires Cycle(w3, eoa, opp, author).Sent?
    ensures var bundle := Cycle(w3, eoa, opp, author).bundle;
      |bundle| == 3 &&
      HexEncoding.FromHex(bundle[0]) == Some(opp.tx.rawTransaction) &&
      SearcherTxFields(eoa, opp).value.nonce == eoa.nonce &&
      BidTxFields(BID_AMOUNT, eoa, opp).value.nonce == eoa.nonce + 1 &&
      BidTxFields(BID_AMOUNT, eoa, opp).value.value == Some(BID_AMOUNT) &&
      SearcherTxFields(eoa, opp).value.fee == OpportunityFee(opp).value &&
      BidTxFields(BID_AMOUNT, eoa, opp).value.fee == OpportunityFee(opp).value
  {
    BundleDecodes(w3, BID_AMOUNT, eoa, opp, author.value);
  }

  /**
   A legacy opportunity at 30 gwei with the account at nonce 5: the backrun
   goes out at nonce 5 and the bid at nonce 6, both at 30 gwei, the bid
   paying 10^17.
   */
  lemma LegacyScenario(eoa: SearcherEOA, opp: OpportunityTx)
    requires eoa.nonce == 5
    requires opp.txType == Some(LEGACY_TYPE) && opp.gasPrice == Some(30_000_000_000)
    ensures SearcherTxFields(eoa, opp) == Success(TxFields(
      eoa.address, LegacyFee(30_000_000_000), 500_000, 137, 5, Some(eoa.address), None, Some([])))
    ensures BidTxFields(BID_AMOUNT, eoa, opp) == Success(TxFields(
      eoa.address, LegacyFee(30_000_000_000), 500_000, 137, 6, None, Some(100_000_000_000_000_000), None))
  {
  }
}
