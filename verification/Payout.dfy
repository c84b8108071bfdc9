/** The payout formula: unbounded in the service, checked 256-bit words in the contract. */
module Payout {
  import opened Common

  /** The service's formula, over unbounded integers (services/scorer.py). */
  function CalculatePayout(reduction: int, share: int, rewardRate: int, penaltyRate: int): int {
    if reduction >= share then share * rewardRate
    else reduction * rewardRate - (share - reduction) * penaltyRate
  }

  /** Nothing delivered costs the whole penalty, the share earns the whole reward, and so does more. */
  lemma PayoutEnds(reduction: nat, share: nat, rewardRate: nat, penaltyRate: nat)
    ensures CalculatePayout(0, share, rewardRate, penaltyRate) == -(share * penaltyRate)
    ensures reduction >= share ==> CalculatePayout(reduction, share, rewardRate, penaltyRate) == share * rewardRate
  {
    if share == 0 {
      assert share * rewardRate == 0 && share * penaltyRate == 0;
    }
  }

  /** Below the share each further unit delivered is worth the reward rate and the penalty rate together. */
  lemma EachUnitCounts(reduction: nat, share: nat, rewardRate: nat, penaltyRate: nat)
    requires reduction < share
    ensures CalculatePayout(reduction + 1, share, rewardRate, penaltyRate)
              == CalculatePayout(reduction, share, rewardRate, penaltyRate) + rewardRate + penaltyRate
  {
    assert (reduction + 1) * rewardRate == reduction * rewardRate + rewardRate;
    assert (share - reduction) * penaltyRate == (share - (reduction + 1)) * penaltyRate + penaltyRate;
    if reduction + 1 == share {
      assert (share - (reduction + 1)) * penaltyRate == 0;
    }
  }

  // ---- 256-bit words: checked arithmetic panics, an explicit cast wraps silently ----

  function CheckedMul(a: nat, b: nat): Option<nat> {
    if a * b < TWO_256 then Some(a * b) else None
  }

  function ToInt256(word: nat): int {
    if word < TWO_255 then word else word - TWO_256
  }

  function CheckedSub(a: int, b: int): Option<int> {
    if -TWO_255 <= a - b < TWO_255 then Some(a - b) else None
  }

  /** The contract's formula; None is an arithmetic panic (contracts/Settlement.sol). */
  function ContractPayout(reduction: nat, share: nat, rewardRate: nat, penaltyRate: nat): Option<int> {
    if reduction >= share then
      match CheckedMul(share, rewardRate)
      case None => None
      case Some(reward) => Some(ToInt256(reward))
    else
      match CheckedMul(reduction, rewardRate)
      case None => None
      case Some(reward) =>
        match CheckedMul(share - reduction, penaltyRate)
        case None => None
        case Some(penalty) => CheckedSub(ToInt256(reward), ToInt256(penalty))
  }

  // ---- Where the two formulas agree ----

  /** The word-level condition on the products the contract forms. */
  predicate ProductsAgree(reduction: nat, share: nat, rewardRate: nat, penaltyRate: nat) {
    if reduction >= share then
      share * rewardRate < TWO_255
    else
      var reward, penalty := reduction * rewardRate, (share - reduction) * penaltyRate;
      || (reward < TWO_255 && penalty < TWO_255)
      || (TWO_255 <= reward < TWO_256 && TWO_255 <= penalty < TWO_256)
  }

  /** The difference step alone: it gives the true difference exactly when neither or both words wrap. */
  lemma WrappedDifference(reward: nat, penalty: nat)
    requires reward < TWO_256 && penalty < TWO_256
    ensures (CheckedSub(ToInt256(reward), ToInt256(penalty)) == Some(reward - penalty))
       <==> ((reward < TWO_255) == (penalty < TWO_255))
  {
  }

  /** The contract computes the service's number exactly on ProductsAgree; elsewhere it panics or differs. */
  lemma ContractPayoutAgreesIff(reduction: nat, share: nat, rewardRate: nat, penaltyRate: nat)
    ensures ContractPayout(reduction, share, rewardRate, penaltyRate)
              == Some(CalculatePayout(reduction, share, rewardRate, penaltyRate))
       <==> ProductsAgree(reduction, share, rewardRate, penaltyRate)
  {
    if reduction < share {
      var reward, penalty := reduction * rewardRate, (share - reduction) * penaltyRate;
      if reward < TWO_256 && penalty < TWO_256 {
        WrappedDifference(reward, penalty);
      }
    }
  }

  /** The contract panics exactly on a product beyond the word, or on a difference of the cast words beyond theirs. */
  lemma ContractPanicsIff(reduction: nat, share: nat, rewardRate: nat, penaltyRate: nat)
    ensures ContractPayout(reduction, share, rewardRate, penaltyRate) == None <==>
              if reduction >= share then share * rewardRate >= TWO_256
              else
                var reward, penalty := reduction * rewardRate, (share - reduction) * penaltyRate;
                || reward >= TWO_256 || penalty >= TWO_256
                || (penalty < TWO_255 <= reward && reward - TWO_256 - penalty < -TWO_255)
                || (reward < TWO_255 <= penalty && reward - (penalty - TWO_256) >= TWO_255)
  {
  }

  /** A penalty word of 2^255 or more turns into a reward: a site that delivered nothing is paid 2^255 - 1. */
  lemma PenaltyCanWrapIntoReward()
    ensures ContractPayout(0, 1, 0, TWO_255 + 1) == Some(TWO_255 - 1)
    ensures CalculatePayout(0, 1, 0, TWO_255 + 1) == -(TWO_255 + 1)
  {
    assert (1 - 0) * (TWO_255 + 1) == TWO_255 + 1;
  }

  // ---- Under the product bounds ----

  predicate BoundedRates(targetKw: nat, rewardRate: nat, penaltyRate: nat) {
    targetKw * rewardRate < TWO_255 && targetKw * penaltyRate < TWO_255
  }

  lemma MulMonotone(a: nat, b: nat, rate: nat)
    requires a <= b
    ensures a * rate <= b * rate
  {
  }

  lemma ShareBelowTarget(targetKw: nat, n: nat)
    requires n > 0
    ensures 0 <= targetKw / n <= targetKw && n * (targetKw / n) <= targetKw
  {
    assert targetKw == n * (targetKw / n) + targetKw % n;
    if n > 1 {
      MulMonotone(1, n, targetKw / n);
    }
  }

  /** With both products below 2^255 the checked code never panics or wraps: it is the service's formula. */
  lemma BoundedRatesAgree(reduction: nat, targetKw: nat, n: nat, rewardRate: nat, penaltyRate: nat)
    requires n > 0 && BoundedRates(targetKw, rewardRate, penaltyRate)
    ensures ContractPayout(reduction, targetKw / n, rewardRate, penaltyRate)
              == Some(CalculatePayout(reduction, targetKw / n, rewardRate, penaltyRate))
  {
    var share := targetKw / n;
    ShareBelowTarget(targetKw, n);
    MulMonotone(share, targetKw, rewardRate);
    if reduction < share {
      MulMonotone(reduction, targetKw, rewardRate);
      MulMonotone(share - reduction, targetKw, penaltyRate);
    }
    ContractPayoutAgreesIff(reduction, share, rewardRate, penaltyRate);
  }

  lemma PayoutRange(reduction: nat, share: nat, rewardRate: nat, penaltyRate: nat)
    ensures -(share * penaltyRate) <= CalculatePayout(reduction, share, rewardRate, penaltyRate) <= share * rewardRate
  {
    if reduction < share {
      MulMonotone(reduction, share, rewardRate);
      MulMonotone(share - reduction, share, penaltyRate);
      MulMonotone(0, reduction, rewardRate);
      MulMonotone(0, share - reduction, penaltyRate);
    } else {
      MulMonotone(0, share, penaltyRate);
      MulMonotone(0, share, rewardRate);
    }
  }

  // ---- A whole settlement: one reduction per distinct site ----

  function PayoutTable<S(==)>(reductions: map<S, nat>, targetKw: nat, rewardRate: nat, penaltyRate: nat): map<S, int>
    requires reductions != map[]
  {
    map s | s in reductions ::
      CalculatePayout(reductions[s], targetKw / |reductions|, rewardRate, penaltyRate)
  }

  function Positive(x: int): int {
    if x > 0 then x else 0
  }

  lemma SharesBelowTarget(n: nat, share: nat, targetKw: nat, rate: nat)
    requires n * share <= targetKw
    ensures n * (share * rate) <= targetKw * rate
  {
    assert n * (share * rate) == (n * share) * rate;
    MulMonotone(n * share, targetKw, rate);
  }

  /** Floor division by the number of sites never lets a settlement pay out or charge more than the event promised. */
  lemma SettlementTotals<S>(reductions: map<S, nat>, targetKw: nat, rewardRate: nat, penaltyRate: nat)
    requires reductions != map[]
    ensures var table := PayoutTable(reductions, targetKw, rewardRate, penaltyRate);
            && -(targetKw * penaltyRate) <= MapSum(table) <= targetKw * rewardRate
            && MapSum(map s | s in table :: Positive(table[s])) <= targetKw * rewardRate
  {
    var table := PayoutTable(reductions, targetKw, rewardRate, penaltyRate);
    var n := |reductions|;
    var share := targetKw / n;
    assert table.Keys == reductions.Keys;
    assert |table| == n;
    ShareBelowTarget(targetKw, n);
    SharesBelowTarget(n, share, targetKw, rewardRate);
    SharesBelowTarget(n, share, targetKw, penaltyRate);
    forall s | s in table
      ensures -(share * penaltyRate) <= table[s] <= share * rewardRate
    {
      PayoutRange(reductions[s], share, rewardRate, penaltyRate);
    }
    MapSumBounds(table, -(share * penaltyRate), share * rewardRate);
    assert n * -(share * penaltyRate) == -(n * (share * penaltyRate));
    var positive := map s | s in table :: Positive(table[s]);
    assert positive.Keys == table.Keys;
    assert |positive| == n;
    MulMonotone(0, share, rewardRate);
    MapSumBounds(positive, 0, share * rewardRate);
  }
}
