/**
 The opportunity transaction observed on chain, with the fee fields read
 from its field dictionary. Each optional attribute is `None` when the
 constructor never set it. The constructor sets the attributes one after
 another, so when both `gasPrice` and `maxPriorityFeePerGas` are present the
 later assignment of the type (2) replaces the earlier one (0).
 */
module Opportunity {
  import opened Wrappers
  import opened HexEncoding

  /** Type number of a legacy `gasPrice` transaction. */
  const LEGACY_TYPE: int := 0
  /** Type number of an EIP-1559 dynamic-fee transaction (an EIP-2718 typed envelope). */
  const DYNAMIC_FEE_TYPE: int := 2

  /** The signed transaction as the chain client hands it over. */
  datatype ChainTx = ChainTx(hash: Bytes, rawTransaction: Bytes)

  /** The transaction's field dictionary; only the fee keys are read. */
  type TxDict = map<string, nat>

  function Lookup(d: TxDict, key: string): (r: Option<nat>)
    ensures r.Some? <==> key in d
    ensures r.Some? ==> r.value == d[key]
  {
    if key in d then Some(d[key]) else None
  }

  /**
   The type the constructor ends up with: the dynamic-fee key decides,
   then the legacy one; with neither, the type is never set.
   */
  function Classify(d: TxDict): (r: Option<int>)
    ensures r == Some(DYNAMIC_FEE_TYPE) <==> "maxPriorityFeePerGas" in d
    ensures r == Some(LEGACY_TYPE) <==> "gasPrice" in d && "maxPriorityFeePerGas" !in d
    ensures r.None? <==> "gasPrice" !in d && "maxPriorityFeePerGas" !in d
  {
    if "maxPriorityFeePerGas" in d then Some(DYNAMIC_FEE_TYPE)
    else if "gasPrice" in d then Some(LEGACY_TYPE)
    else None
  }

  class OpportunityTx {
    const tx: ChainTx
    const gasPrice: Option<nat>
    const maxPriorityFeePerGas: Option<nat>
    const maxFeePerGas: Option<nat>
    const txType: Option<int>

    /** The attributes recorded from `d`: each fee key copied when present, the type as `Classify` gives it. */
    predicate FromDict(d: TxDict) {
      gasPrice == Lookup(d, "gasPrice") &&
      maxPriorityFeePerGas == Lookup(d, "maxPriorityFeePerGas") &&
      maxFeePerGas == Lookup(d, "maxFeePerGas") &&
      txType == Classify(d)
    }

    constructor (tx: ChainTx, txDict: TxDict)
      ensures this.tx == tx
      ensures FromDict(txDict)
    {
      var gp: Option<nat>, mpf: Option<nat>, mf: Option<nat>, ty: Option<int> := None, None, None, None;
      if "gasPrice" in txDict {
        gp := Some(txDict["gasPrice"]);
        ty := Some(LEGACY_TYPE);
      }
      if "maxPriorityFeePerGas" in txDict {
        mpf := Some(txDict["maxPriorityFeePerGas"]);
        ty := Some(DYNAMIC_FEE_TYPE);
      }
      if "maxFeePerGas" in txDict {
        mf := Some(txDict["maxFeePerGas"]);
      }
      this.tx := tx;
      gasPrice, maxPriorityFeePerGas, maxFeePerGas, txType := gp, mpf, mf, ty;
    }
  }
}
