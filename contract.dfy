/**
 * The wizard's contract snapshot (`state.contractValues` of the inheritance-owner
 * store) and the shallow record merge that every `setContractValues` commit performs.
 *
 * Money is held in satoshis. Every monetary field of the store is an 8-decimal
 * string written by `toFixed(8)`; here it is the integer number of satoshis that
 * string denotes.
 */
module ContractModel {
  import opened Wrappers

  /** One coin, in satoshis: the `1e8` factor of the store's conversions. */
  const SatsPerCoin: int := 100000000

  /** A network name as returned by the key/address classifiers (never empty, so always truthy). */
  type Network = s: string | s != "" witness "bitcoin"

  /** `addressType`: `p2sh`, `p2wsh`, or unset (the initial '' and the later `undefined`). */
  datatype AddressType = Unset | P2sh | P2wsh

  /** A fee rate in sat/vByte, held exactly as the fraction num/den. */
  type Denominator = d: int | d >= 1 witness 1
  datatype Rate = Rate(num: int, den: Denominator)

  /**
   * One entry of `selectedUTXO`: its key (`txid-vout`) and its value in satoshis;
   * `None` is a value `parseFloat` cannot read.
   */
  datatype Utxo = Utxo(key: string, value: Option<int>)

  /** The draft transaction built by the external builder; only its size is used. */
  datatype Tx = Tx(virtualSize: int)

  /**
   * The snapshot. `relativeLockTime` is not one of the store's declared fields but
   * page 1 reads it; "" stands for the `undefined` it is until a payload sets it.
   * `selectedUTXO` lists the entries in the order `Object.keys` yields them.
   */
  datatype Contract = Contract(
    ownerPrivateKeyWIF: string,
    address: string,
    scriptHex: string,
    networkChoice: string,
    addressType: AddressType,
    daysLocked: string,
    relativeLockTime: string,
    selectedUTXO: seq<Utxo>,
    sumOfUTXO: int,
    spending: bool,
    change: bool,
    showForm: bool,
    toAddress: string,
    toAmount: int,
    feeRate: Rate,
    changeAddress: string,
    feeAmount: int,
    changeAmount: int,
    vSize: int,
    tx: Option<Tx>)

  /** The store's initial `contractValues` (the blank `sumOfUTXO` reads as 0). */
  const Initial: Contract := Contract(
    ownerPrivateKeyWIF := "",
    address := "",
    scriptHex := "",
    networkChoice := "",
    addressType := Unset,
    daysLocked := "",
    relativeLockTime := "",
    selectedUTXO := [],
    sumOfUTXO := 0,
    spending := true,
    change := true,
    showForm := false,
    toAddress := "",
    toAmount := 21000000 * SatsPerCoin,
    feeRate := Rate(1000, 1000),
    changeAddress := "",
    feeAmount := 0,
    changeAmount := 0,
    vSize := 100,
    tx := None)

  /** A `setContractValues` payload: the fields it carries; `None` means the key is absent. */
  datatype Patch = Patch(
    ownerPrivateKeyWIF: Option<string>,
    address: Option<string>,
    scriptHex: Option<string>,
    networkChoice: Option<string>,
    addressType: Option<AddressType>,
    daysLocked: Option<string>,
    relativeLockTime: Option<string>,
    selectedUTXO: Option<seq<Utxo>>,
    sumOfUTXO: Option<int>,
    spending: Option<bool>,
    change: Option<bool>,
    showForm: Option<bool>,
    toAddress: Option<string>,
    toAmount: Option<int>,
    feeRate: Option<Rate>,
    changeAddress: Option<string>,
    feeAmount: Option<int>,
    changeAmount: Option<int>,
    vSize: Option<int>,
    tx: Option<Option<Tx>>)

  /** The empty payload `{}`. */
  const NoChange: Patch := Patch(None, None, None, None, None, None, None, None, None, None,
                                 None, None, None, None, None, None, None, None, None, None)

  /** `{ ...c, ...p }`: every key the payload carries overrides, every other key is kept. */
  function Merge(c: Contract, p: Patch): Contract
  {
    Contract(
      p.ownerPrivateKeyWIF.GetOr(c.ownerPrivateKeyWIF),
      p.address.GetOr(c.address),
      p.scriptHex.GetOr(c.scriptHex),
      p.networkChoice.GetOr(c.networkChoice),
      p.addressType.GetOr(c.addressType),
      p.daysLocked.GetOr(c.daysLocked),
      p.relativeLockTime.GetOr(c.relativeLockTime),
      p.selectedUTXO.GetOr(c.selectedUTXO),
      p.sumOfUTXO.GetOr(c.sumOfUTXO),
      p.spending.GetOr(c.spending),
      p.change.GetOr(c.change),
      p.showForm.GetOr(c.showForm),
      p.toAddress.GetOr(c.toAddress),
      p.toAmount.GetOr(c.toAmount),
      p.feeRate.GetOr(c.feeRate),
      p.changeAddress.GetOr(c.changeAddress),
      p.feeAmount.GetOr(c.feeAmount),
      p.changeAmount.GetOr(c.changeAmount),
      p.vSize.GetOr(c.vSize),
      p.tx.GetOr(c.tx))
  }

  /** `{ ...p, ...q }`: the payload that two successive commits amount to. */
  function Then(p: Patch, q: Patch): Patch
  {
    Patch(
      if q.ownerPrivateKeyWIF.Some? then q.ownerPrivateKeyWIF else p.ownerPrivateKeyWIF,
      if q.address.Some? then q.address else p.address,
      if q.scriptHex.Some? then q.scriptHex else p.scriptHex,
      if q.networkChoice.Some? then q.networkChoice else p.networkChoice,
      if q.addressType.Some? then q.addressType else p.addressType,
      if q.daysLocked.Some? then q.daysLocked else p.daysLocked,
      if q.relativeLockTime.Some? then q.relativeLockTime else p.relativeLockTime,
      if q.selectedUTXO.Some? then q.selectedUTXO else p.selectedUTXO,
      if q.sumOfUTXO.Some? then q.sumOfUTXO else p.sumOfUTXO,
      if q.spending.Some? then q.spending else p.spending,
      if q.change.Some? then q.change else p.change,
      if q.showForm.Some? then q.showForm else p.showForm,
      if q.toAddress.Some? then q.toAddress else p.toAddress,
      if q.toAmount.Some? then q.toAmount else p.toAmount,
      if q.feeRate.Some? then q.feeRate else p.feeRate,
      if q.changeAddress.Some? then q.changeAddress else p.changeAddress,
      if q.feeAmount.Some? then q.feeAmount else p.feeAmount,
      if q.changeAmount.Some? then q.changeAmount else p.changeAmount,
      if q.vSize.Some? then q.vSize else p.vSize,
      if q.tx.Some? then q.tx else p.tx)
  }

  /** Committing the empty payload changes nothing. */
  lemma MergeNoChange(c: Contract)
    ensures Merge(c, NoChange) == c
  {
  }

  /** Committing the same payload twice is the same as committing it once. */
  lemma MergeIdempotent(c: Contract, p: Patch)
    ensures Merge(Merge(c, p), p) == Merge(c, p)
  {
  }

  /** Two successive commits are one commit of the combined payload, the later keys winning. */
  lemma MergeThen(c: Contract, p: Patch, q: Patch)
    ensures Merge(Merge(c, p), q) == Merge(c, Then(p, q))
  {
  }
}
