/**
 * The amount reconciler of the inheritance-owner store: the input sum and
 * change-address pinning of `deriveSpendingInfo`, and the fee/target/change split
 * of `deriveFromLastData`, in integer satoshis.
 */
module Reconciler {
  import opened Wrappers
  import opened ContractModel

  /** `parseFloat(v) || 0`: an unreadable value counts as nothing. */
  function ValueOf(u: Utxo): int
  {
    u.value.GetOr(0)
  }

  /**
   * The `reduce` over `Object.keys(selectedUTXO)`: the running sum, left to right.
   * A selection of non-negative values has a non-negative total.
   */
  function SumOfUtxo(s: seq<Utxo>): (total: int)
    ensures (forall i :: 0 <= i < |s| ==> ValueOf(s[i]) >= 0) ==> total >= 0
  {
    if s == [] then 0 else SumOfUtxo(s[..|s| - 1]) + ValueOf(s[|s| - 1])
  }

  /** Summing a concatenation is summing each part. */
  lemma {:induction false} SumOfUtxoAppend(a: seq<Utxo>, b: seq<Utxo>)
    ensures SumOfUtxo(a + b) == SumOfUtxo(a) + SumOfUtxo(b)
    decreases |b|
  {
    if b == [] {
      assert a + b == a;
    } else {
      var b' := b[..|b| - 1];
      assert (a + b)[..|a + b| - 1] == a + b';
      SumOfUtxoAppend(a, b');
    }
  }

  /**
   * The sum does not depend on the order in which the keys are visited:
   * any rearrangement of the same entries has the same total.
   */
  lemma {:induction false} SumOfUtxoOrderFree(a: seq<Utxo>, b: seq<Utxo>)
    requires multiset(a) == multiset(b)
    ensures SumOfUtxo(a) == SumOfUtxo(b)
    decreases |a|
  {
    if a != [] {
      var n := |a| - 1;
      var x := a[n];
      assert a == a[..n] + [x];
      assert x in multiset(b);
      var i :| 0 <= i < |b| && b[i] == x;
      assert b == b[..i] + [x] + b[i + 1..];
      var rest := b[..i] + b[i + 1..];
      assert multiset(rest) == multiset(b) - multiset{x};
      assert multiset(a[..n]) == multiset(a) - multiset{x};
      SumOfUtxoOrderFree(a[..n], rest);
      SumOfUtxoAppend(b[..i] + [x], b[i + 1..]);
      SumOfUtxoAppend(b[..i], [x]);
      SumOfUtxoAppend(b[..i], b[i + 1..]);
      assert SumOfUtxo([x]) == ValueOf(x) by {
        assert [x][..0] == [];
      }
    }
  }

  /** An entry whose value cannot be read adds nothing, wherever it sits in the selection. */
  lemma SumOfUtxoSkipsUnreadable(a: seq<Utxo>, key: string, b: seq<Utxo>)
    ensures SumOfUtxo(a + [Utxo(key, None)] + b) == SumOfUtxo(a + b)
  {
    var u := Utxo(key, None);
    SumOfUtxoAppend(a + [u], b);
    SumOfUtxoAppend(a, [u]);
    SumOfUtxoAppend(a, b);
    assert SumOfUtxo([u]) == 0 by {
      assert [u][..0] == [];
    }
  }

  /**
   * `deriveSpendingInfo`: three commits on the snapshot, in the store's order:
   * the input total, the change address, and, when not spending, the
   * all-to-change shortcut.
   */
  function SpendingInfo(c: Contract): (r: Contract)
    ensures r.sumOfUTXO == SumOfUtxo(c.selectedUTXO)
    ensures r.changeAddress == r.address == c.address
    ensures !c.spending ==> r.toAmount == 0 && r.change
    ensures c.spending ==> r.toAmount == c.toAmount && r.change == c.change
    ensures r.(sumOfUTXO := c.sumOfUTXO, changeAddress := c.changeAddress,
               toAmount := c.toAmount, change := c.change) == c
  {
    var c1 := Merge(c, NoChange.(sumOfUTXO := Some(SumOfUtxo(c.selectedUTXO))));
    var c2 := Merge(c1, NoChange.(changeAddress := Some(c.address)));
    if !c.spending then Merge(c2, NoChange.(toAmount := Some(0), change := Some(true))) else c2
  }

  /** Deriving the spending information a second time changes nothing. */
  lemma SpendingInfoIdempotent(c: Contract)
    ensures SpendingInfo(SpendingInfo(c)) == SpendingInfo(c)
  {
  }

  /** The ceiling of n/d, for a positive d. */
  function CeilDiv(n: int, d: int): (q: int)
    requires d > 0
    ensures q * d >= n
    ensures (q - 1) * d < n
  {
    var m := -n;
    assert m == d * (m / d) + m % d;
    -(m / d)
  }

  /**
   * `Math.ceil(vSize * feeRate + 1e-8)` evaluated exactly: the least whole number
   * of satoshis that is at least vSize * num/den + 1/SatsPerCoin.
   */
  function MinFee(vSize: int, rate: Rate): (fee: int)
    ensures fee * rate.den * SatsPerCoin >= vSize * rate.num * SatsPerCoin + rate.den
    ensures (fee - 1) * rate.den * SatsPerCoin < vSize * rate.num * SatsPerCoin + rate.den
  {
    CeilDiv(vSize * rate.num * SatsPerCoin + rate.den, rate.den * SatsPerCoin)
  }

  /** The fee is strictly more than vSize * feeRate. */
  lemma MinFeeExceedsProduct(vSize: int, rate: Rate)
    ensures MinFee(vSize, rate) * rate.den > vSize * rate.num
  {
    var fee := MinFee(vSize, rate);
    var gap := fee * rate.den - vSize * rate.num;
    assert gap * SatsPerCoin >= rate.den;
  }

  /**
   * For a fee rate with at most eight decimals (den <= 1e8) the epsilon adds at
   * most one satoshi: the fee is within (vSize * feeRate, vSize * feeRate + 1].
   */
  lemma MinFeeAtMostOneOver(vSize: int, rate: Rate)
    requires rate.den <= SatsPerCoin
    ensures (MinFee(vSize, rate) - 1) * rate.den <= vSize * rate.num
  {
    var fee := MinFee(vSize, rate);
    var gap := (fee - 1) * rate.den - vSize * rate.num;
    assert gap * SatsPerCoin < rate.den;
  }

  /** A whole-number product still pays one satoshi more: 150 vB at 1.000 sat/vB costs 151. */
  lemma MinFeeWholeProduct(vSize: int, rate: Rate)
    requires (vSize * rate.num) % rate.den == 0
    ensures MinFee(vSize, rate) * rate.den == vSize * rate.num + rate.den
  {
    var fee, d, p := MinFee(vSize, rate), rate.den, vSize * rate.num;
    var k := p / d;
    assert p == k * d;
    MinFeeExceedsProduct(vSize, rate);
    PositiveFactor(fee - k, d);
    var g := fee - 1 - k;
    assert g * (d * SatsPerCoin) < d by {
      assert (fee - 1) * d * SatsPerCoin < p * SatsPerCoin + d;
      assert (fee - 1) * d * SatsPerCoin == g * (d * SatsPerCoin) + k * d * SatsPerCoin;
    }
    PositiveFactor(g, d * SatsPerCoin);
    assert fee == k + 1;
  }

  /** The sign of x * d, for a positive d, is the sign of x. */
  lemma {:induction false} PositiveFactor(x: int, d: int)
    requires d > 0
    ensures x * d > 0 <==> x > 0
    decreases if x < 0 then -x else x
  {
    if x > 1 {
      PositiveFactor(x - 1, d);
      assert x * d == (x - 1) * d + d;
    } else if x < 0 {
      PositiveFactor(x + 1, d);
      assert x * d == (x + 1) * d - d;
    }
  }

  lemma MinFeeExample()
    ensures MinFee(150, Rate(1000, 1000)) == 151
  {
    MinFeeWholeProduct(150, Rate(1000, 1000));
  }

  /** How the inputs are shared: the fee, the destination amount, the change. */
  datatype Allocation = Allocation(fee: int, target: int, change: int)

  /**
   * The priority rule: the fee first, then the target, and change takes what is
   * left. When nothing is left, change is disabled, or the target is negative, the
   * target absorbs the difference and change is zero.
   */
  function Allocate(inputs: int, fee: int, target: int, useChange: bool): (a: Allocation)
    ensures a.fee == fee
    ensures a.fee + a.target + a.change == inputs
    ensures a.change >= 0
    ensures (inputs - fee - target <= 0 || !useChange || target < 0) ==>
              a.target == inputs - fee && a.change == 0
    ensures !(inputs - fee - target <= 0 || !useChange || target < 0) ==>
              a.target == target && a.change > 0
  {
    var remaining := inputs - fee - target;
    if remaining <= 0 || !useChange || target < 0 then
      Allocation(fee, target + remaining, 0)
    else
      Allocation(fee, target, remaining)
  }

  /** Re-running the split on its own output, with the change flag it derives, is a no-op. */
  lemma AllocateIdempotent(inputs: int, fee: int, target: int, useChange: bool)
    ensures var a := Allocate(inputs, fee, target, useChange);
            Allocate(inputs, fee, a.target, a.change != 0) == a
  {
  }

  /**
   * 0.001 coin in, 150 vB at 1.000 sat/vB: with 0.0005 coin to the destination the
   * change is 49849 sat; asking 0.000999 coin folds the 51 sat shortfall into the
   * destination amount and drops the change.
   */
  lemma AllocateScenarios()
    ensures var fee := MinFee(150, Rate(1000, 1000));
            && Allocate(100000, fee, 50000, true) == Allocation(151, 50000, 49849)
            && Allocate(100000, fee, 99900, true) == Allocation(151, 99849, 0)
  {
    MinFeeExample();
  }

  /** The size the fee is computed for: the built transaction's, else the stored one. */
  function SizeFor(c: Contract): (v: int)
    ensures c.tx.Some? ==> v == c.tx.value.virtualSize
    ensures c.tx.None? ==> v == c.vSize
  {
    match c.tx
    case Some(t) => t.virtualSize
    case None => c.vSize
  }

  /** `deriveFromLastData`: one commit of the size, fee, target, change amount and change flag. */
  function FromLastData(c: Contract): (r: Contract)
    ensures r.vSize == SizeFor(c)
    ensures r.feeAmount == MinFee(r.vSize, c.feeRate)
    ensures Allocation(r.feeAmount, r.toAmount, r.changeAmount) == Allocate(c.sumOfUTXO, r.feeAmount, c.toAmount, c.change)
    ensures r.feeAmount + r.toAmount + r.changeAmount == c.sumOfUTXO
    ensures r.feeAmount * c.feeRate.den > r.vSize * c.feeRate.num
    ensures r.changeAmount >= 0
    ensures r.change <==> r.changeAmount != 0
    ensures r.changeAmount == 0 ==> r.toAmount == c.sumOfUTXO - r.feeAmount
    ensures r.changeAmount != 0 ==> r.toAmount == c.toAmount && c.change && c.toAmount >= 0
    ensures r.(vSize := c.vSize, feeAmount := c.feeAmount, toAmount := c.toAmount,
               changeAmount := c.changeAmount, change := c.change) == c
  {
    var vSize := SizeFor(c);
    var fee := MinFee(vSize, c.feeRate);
    MinFeeExceedsProduct(vSize, c.feeRate);
    var a := Allocate(c.sumOfUTXO, fee, c.toAmount, c.change);
    Merge(c, NoChange.(vSize := Some(vSize), feeAmount := Some(a.fee), toAmount := Some(a.target),
                       changeAmount := Some(a.change), change := Some(a.change != 0)))
  }

  /** For a fixed transaction, fee rate and input total, a second pass changes nothing. */
  lemma FromLastDataIdempotent(c: Contract)
    ensures FromLastData(FromLastData(c)) == FromLastData(c)
  {
    var r := FromLastData(c);
    var vSize := SizeFor(c);
    assert SizeFor(r) == vSize;
    AllocateIdempotent(c.sumOfUTXO, MinFee(vSize, c.feeRate), c.toAmount, c.change);
  }
}
