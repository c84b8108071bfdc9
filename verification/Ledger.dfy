/** The Settlement contract's DRT account over whole runs: conservation, and when every claim can be paid. */
module Ledger {
  import opened Common
  import opened Tokens
  import opened Contracts
  import opened ChainRuns
  import Payout

  /** What one transaction deposits into the Settlement account from outside. */
  function DepositOf(d: Deployment, c: Chain, tx: Tx): nat {
    if Execute(d, c, tx.sender, tx.now, tx.call).Err? then 0
    else
      match tx.call
      case TokenTransfer(to, amount) => if to == d.settlement then amount else 0
      case TokenTransferFrom(from, to, amount) => if to == d.settlement && from != d.settlement then amount else 0
      case _ => 0
  }

  function Deposits(d: Deployment, c: Chain, txs: seq<Tx>): nat
    decreases |txs|
  {
    if txs == [] then 0
    else
      var front := txs[..|txs| - 1];
      Deposits(d, c, front) + DepositOf(d, Run(d, c, front), txs[|txs| - 1])
  }

  /** The positive payouts already claimed, by record. */
  ghost function PaidTable(records: Records): map<(Id, Id), int> {
    map k | k in records && records[k].status == Claimed && records[k].payout > 0 :: records[k].payout
  }

  ghost function Paid(c: Chain): int {
    MapSum(PaidTable(c.records))
  }

  function Account(d: Deployment, c: Chain): nat {
    c.token.Balance(d.settlement)
  }

  lemma SettlePaysNothing(d: Deployment, c: Chain, tx: Tx)
    requires tx.call.SettleEvent?
    ensures Paid(Step(d, c, tx)) == Paid(c) && Account(d, Step(d, c, tx)) == Account(d, c)
  {
    if Execute(d, c, tx.sender, tx.now, tx.call).Ok? {
      SettleEventSettles(d, c, tx.sender, tx.now, tx.call.id, tx.call.sites);
      var next := Step(d, c, tx);
      forall k | k in next.records && k !in c.records ensures next.records[k].status == Due {
        assert k in set s | s in tx.call.sites :: (tx.call.id, s);
      }
      assert PaidTable(next.records) == PaidTable(c.records);
    }
  }

  /** Claiming one record adds its payout to the table, when that payout is positive. */
  lemma PaidTableAfterClaim(records: Records, k: (Id, Id), claimedAt: nat)
    requires k in records && records[k].status == Due
    ensures var next := records[k := records[k].(status := Claimed, claimedAt := claimedAt)];
            MapSum(PaidTable(next)) == MapSum(PaidTable(records)) + Payout.Positive(records[k].payout)
  {
    var next := records[k := records[k].(status := Claimed, claimedAt := claimedAt)];
    if records[k].payout > 0 {
      assert PaidTable(next) == PaidTable(records)[k := records[k].payout];
      MapSumUpdate(PaidTable(records), k, records[k].payout);
    } else {
      assert PaidTable(next) == PaidTable(records);
    }
  }

  lemma ClaimPaysOnce(d: Deployment, c: Chain, tx: Tx)
    requires c.token.Valid() && tx.call.ClaimReward? && tx.sender != d.settlement
    ensures Account(d, Step(d, c, tx)) + Paid(Step(d, c, tx)) == Account(d, c) + Paid(c)
  {
    var k := (tx.call.id, tx.call.site);
    if Execute(d, c, tx.sender, tx.now, tx.call).Ok? {
      PaidTableAfterClaim(c.records, k, Uint64(tx.now));
      if c.records[k].payout > 0 {
        TransferConserves(c.token, d.settlement, tx.sender, c.records[k].payout);
      }
    }
  }

  lemma TokenCallDeposits(d: Deployment, c: Chain, tx: Tx)
    requires Inv(d, c) && tx.sender != d.settlement
    requires tx.call.TokenTransfer? || tx.call.TokenApprove? || tx.call.TokenTransferFrom?
    ensures Paid(Step(d, c, tx)) == Paid(c)
    ensures Account(d, Step(d, c, tx)) == Account(d, c) + DepositOf(d, c, tx)
  {
    if Execute(d, c, tx.sender, tx.now, tx.call).Ok? {
      match tx.call
      case TokenTransfer(to, amount) => TransferConserves(c.token, tx.sender, to, amount);
      case TokenApprove(spender, amount) => ApprovalMovesNothing(c.token, tx.sender, spender, amount);
      case TokenTransferFrom(from, to, amount) =>
        TransferFromConserves(c.token, tx.sender, from, to, amount);
        TransferConserves(c.token, from, to, amount);
    }
  }

  lemma StepBalances(d: Deployment, c: Chain, tx: Tx)
    requires Inv(d, c) && tx.sender != d.settlement
    ensures Account(d, Step(d, c, tx)) + Paid(Step(d, c, tx)) == Account(d, c) + Paid(c) + DepositOf(d, c, tx)
  {
    if tx.call.SettleEvent? {
      SettlePaysNothing(d, c, tx);
    } else if tx.call.ClaimReward? {
      ClaimPaysOnce(d, c, tx);
    } else if tx.call.TokenTransfer? || tx.call.TokenApprove? || tx.call.TokenTransferFrom? {
      TokenCallDeposits(d, c, tx);
    }
  }

  /** Over every run: the account holds what it started with plus all deposits minus all paid claims. */
  lemma {:induction false} LedgerBalances(d: Deployment, c: Chain, txs: seq<Tx>)
    requires Inv(d, c) && FromAccounts(d, txs)
    ensures Account(d, Run(d, c, txs)) == Account(d, c) + Deposits(d, c, txs) - (Paid(Run(d, c, txs)) - Paid(c))
    decreases |txs|
  {
    if txs != [] {
      FromAccountsPrefix(d, txs);
      var front := txs[..|txs| - 1];
      LedgerBalances(d, c, front);
      RunKeepsInv(d, c, front);
      StepBalances(d, Run(d, c, front), txs[|txs| - 1]);
    }
  }

  // ---- Who is paid ----

  /** An accepted claim pays its sender, the proof's submitter, exactly the positive payout, and no third account. */
  lemma ClaimPaysSubmitter(d: Deployment, c: Chain, tx: Tx)
    requires c.token.Valid() && tx.call.ClaimReward? && tx.sender != d.settlement && Accepted(d, c, tx)
    ensures var k, n := (tx.call.id, tx.call.site), Step(d, c, tx);
            && k in c.proofs && c.proofs[k].submitter == tx.sender
            && k in c.records && c.records[k].status == Due
            && n.token.Balance(tx.sender) == c.token.Balance(tx.sender) + Payout.Positive(c.records[k].payout)
            && n.token.Balance(d.settlement) == c.token.Balance(d.settlement) - Payout.Positive(c.records[k].payout)
            && (forall a :: a != tx.sender && a != d.settlement ==> n.token.Balance(a) == c.token.Balance(a))
            && n.proofs == c.proofs && n.records.Keys == c.records.Keys
            && n.records[k].status == Claimed && n.records[k].payout == c.records[k].payout
            && forall j :: j in c.records && j != k ==> n.records[j] == c.records[j]
  {
    var k := (tx.call.id, tx.call.site);
    if c.records[k].payout > 0 {
      TransferConserves(c.token, d.settlement, tx.sender, c.records[k].payout);
    }
  }

  /** The positive payouts of the claimed records whose proof the account submitted. */
  ghost function PaidTableTo(c: Chain, a: Address): map<(Id, Id), int> {
    map k | k in c.records && c.records[k].status == Claimed && c.records[k].payout > 0
            && k in c.proofs && c.proofs[k].submitter == a :: c.records[k].payout
  }

  ghost function PaidTo(c: Chain, a: Address): int {
    MapSum(PaidTableTo(c, a))
  }

  /** What the claims of a run added to the account's balance. */
  function Received(d: Deployment, c: Chain, txs: seq<Tx>, a: Address): int
    decreases |txs|
  {
    if txs == [] then 0
    else
      var front, last := txs[..|txs| - 1], txs[|txs| - 1];
      var before, after := Run(d, c, front), Run(d, c, txs);
      Received(d, c, front, a)
      + if last.call.ClaimReward? then after.token.Balance(a) - before.token.Balance(a) else 0
  }

  /** Record k is claimed, and nothing else about proofs and records has changed. */
  ghost predicate ClaimsOne(c: Chain, n: Chain, k: (Id, Id)) {
    && k in c.proofs && k in c.records && c.records[k].status == Due && n.proofs == c.proofs
    && n.records.Keys == c.records.Keys && n.records[k].status == Claimed && n.records[k].payout == c.records[k].payout
    && forall j :: j in c.records && j != k ==> n.records[j] == c.records[j]
  }

  lemma OtherEntriesStay(c: Chain, n: Chain, k: (Id, Id), a: Address, j: (Id, Id))
    requires ClaimsOne(c, n, k) && j != k
    ensures j in PaidTableTo(n, a) <==> j in PaidTableTo(c, a)
    ensures j in PaidTableTo(c, a) ==> PaidTableTo(n, a)[j] == PaidTableTo(c, a)[j]
  {
  }

  lemma ClaimedEntry(c: Chain, n: Chain, k: (Id, Id), a: Address)
    requires ClaimsOne(c, n, k)
    ensures k !in PaidTableTo(c, a)
    ensures k in PaidTableTo(n, a) <==> c.proofs[k].submitter == a && c.records[k].payout > 0
    ensures k in PaidTableTo(n, a) ==> PaidTableTo(n, a)[k] == c.records[k].payout
  {
  }

  lemma ClaimedTable(c: Chain, n: Chain, k: (Id, Id), a: Address)
    requires ClaimsOne(c, n, k)
    ensures PaidTo(n, a) == PaidTo(c, a)
                            + if c.proofs[k].submitter == a then Payout.Positive(c.records[k].payout) else 0
  {
    var before, after := PaidTableTo(c, a), PaidTableTo(n, a);
    ClaimedEntry(c, n, k, a);
    hide PaidTableTo;
    forall j | j != k ensures (j in after <==> j in before) && (j in before ==> after[j] == before[j]) {
      OtherEntriesStay(c, n, k, a, j);
    }
    if k in after {
      assert after == before[k := c.records[k].payout];
      MapSumUpdate(before, k, c.records[k].payout);
    } else {
      assert after == before;
    }
  }

  lemma ClaimPaysTo(d: Deployment, c: Chain, tx: Tx, a: Address)
    requires c.token.Valid() && tx.call.ClaimReward? && tx.sender != d.settlement && a != d.settlement
    ensures Step(d, c, tx).token.Balance(a) - c.token.Balance(a) == PaidTo(Step(d, c, tx), a) - PaidTo(c, a)
  {
    if Accepted(d, c, tx) {
      ClaimPaysSubmitter(d, c, tx);
      hide Step, Accepted, PaidTo;
      ClaimedTable(c, Step(d, c, tx), (tx.call.id, tx.call.site), a);
    }
  }

  lemma OtherCallPaysNobody(d: Deployment, c: Chain, tx: Tx, a: Address)
    requires RecordsAnchored(c) && !tx.call.ClaimReward?
    ensures PaidTo(Step(d, c, tx), a) == PaidTo(c, a)
  {
    var n := Step(d, c, tx);
    NoClaimNoChange(d, c, tx);
    hide Step;
    assert PaidTableTo(n, a) == PaidTableTo(c, a);
  }

  lemma NoClaimNoChange(d: Deployment, c: Chain, tx: Tx)
    requires !tx.call.ClaimReward?
    ensures var n := Step(d, c, tx);
            && (forall k :: k in c.proofs ==> k in n.proofs && n.proofs[k] == c.proofs[k])
            && (forall k :: k in c.records ==> k in n.records && n.records[k] == c.records[k])
            && (forall k :: k in n.records && k !in c.records ==> n.records[k].status == Due)
  {
    if tx.call.SettleEvent? && Accepted(d, c, tx) {
      SettleEventSettles(d, c, tx.sender, tx.now, tx.call.id, tx.call.sites);
      var next := Step(d, c, tx);
      forall k | k in next.records && k !in c.records ensures next.records[k].status == Due {
        assert k in set s | s in tx.call.sites :: (tx.call.id, s);
      }
    }
  }

  /** Over every run an account receives from claims the positive payouts of the claimed records that it proved. */
  lemma {:induction false} ReceivedIsPaidTo(d: Deployment, c: Chain, txs: seq<Tx>, a: Address)
    requires Inv(d, c) && FromAccounts(d, txs) && a != d.settlement
    ensures Received(d, c, txs, a) == PaidTo(Run(d, c, txs), a) - PaidTo(c, a)
    decreases |txs|
  {
    if txs != [] {
      var front, last := txs[..|txs| - 1], txs[|txs| - 1];
      FromAccountsPrefix(d, txs);
      hide PaidTo, Step, Inv;
      ReceivedIsPaidTo(d, c, front, a);
      RunKeepsInv(d, c, front);
      SoundParts(d, Run(d, c, front));
      if last.call.ClaimReward? {
        ClaimPaysTo(d, Run(d, c, front), last, a);
      } else {
        OtherCallPaysNobody(d, Run(d, c, front), last, a);
      }
    }
  }

  lemma SoundParts(d: Deployment, c: Chain)
    requires Inv(d, c)
    ensures RecordsAnchored(c) && c.token.Valid()
  {
  }

  /** From deployment nothing else counts: every account has received exactly what its claimed records say. */
  lemma EveryClaimReachesItsSubmitter(d: Deployment, owner: Address, supply: nat, txs: seq<Tx>, a: Address)
    requires DeployDrt(owner, supply).Ok? && FromAccounts(d, txs) && a != d.settlement
    ensures var start := Fresh(DeployDrt(owner, supply).value);
            Received(d, start, txs, a) == PaidTo(Run(d, start, txs), a)
  {
    var start := Fresh(DeployDrt(owner, supply).value);
    FreshSatisfiesInv(d, owner, supply);
    assert PaidTableTo(start, a) == map[];
    hide Inv, Run, DeployDrt;
    ReceivedIsPaidTo(d, start, txs, a);
  }

  // ---- Solvency ----

  /** What each settled event can cost at most. */
  ghost function Budget(c: Chain): map<Id, int> {
    map e | e in c.events && c.events[e].status == Settled :: c.events[e].targetKw * c.events[e].rewardRate
  }

  ghost function PositiveTable(records: Records): map<(Id, Id), int> {
    map k | k in records :: Payout.Positive(records[k].payout)
  }

  ghost predicate RatesBounded(c: Chain) {
    forall e :: e in c.events && c.events[e].status == Settled ==>
      Payout.BoundedRates(c.events[e].targetKw, c.events[e].rewardRate, c.events[e].penaltyRate)
  }

  function ShareReward(info: EventInfo, n: nat): nat
    requires n > 0
  {
    (info.targetKw / n) * info.rewardRate
  }

  lemma RecordUnderShare(d: Deployment, c: Chain, k: (Id, Id))
    requires Inv(d, c) && RatesBounded(c) && k in c.records
    ensures SitesOf(c.records, k.0) != {}
    ensures 0 <= Payout.Positive(c.records[k].payout) <= ShareReward(c.events[k.0], |SitesOf(c.records, k.0)|)
  {
    var info := c.events[k.0];
    ReplayInServiceTerms(d, c, k);
    var share := info.targetKw / |SitesOf(c.records, k.0)|;
    Payout.PayoutRange(c.proofs[k].reductionKwh, share, info.rewardRate, info.penaltyRate);
  }

  lemma SharesUnderBudget(info: EventInfo, n: nat)
    requires n > 0
    ensures n * ShareReward(info, n) <= info.targetKw * info.rewardRate
  {
    Payout.ShareBelowTarget(info.targetKw, n);
    Payout.SharesBelowTarget(n, info.targetKw / n, info.targetKw, info.rewardRate);
  }

  lemma RowUnderBudget(d: Deployment, c: Chain, e: Id)
    requires Inv(d, c) && RatesBounded(c) && e in Budget(c)
    ensures MapSum(Row(PositiveTable(c.records), e)) <= Budget(c)[e]
  {
    hide Inv, RatesBounded, ShareReward;
    var row := Row(PositiveTable(c.records), e);
    assert row.Keys == SitesOf(c.records, e);
    var n := |row.Keys|;
    if n == 0 {
      assert row == map[];
    } else {
      forall k | k in row ensures 0 <= row[k] <= ShareReward(c.events[e], n) {
        RecordUnderShare(d, c, k);
      }
      MapSumBounds(row, 0, ShareReward(c.events[e], n));
      SharesUnderBudget(c.events[e], n);
    }
  }

  /** All positive payouts together never exceed the settled events' budgets. */
  lemma PayoutsUnderBudget(d: Deployment, c: Chain)
    requires Inv(d, c) && RatesBounded(c)
    ensures MapSum(PositiveTable(c.records)) <= MapSum(Budget(c))
  {
    forall e | e in Budget(c) ensures MapSum(Row(PositiveTable(c.records), e)) <= Budget(c)[e] {
      RowUnderBudget(d, c, e);
    }
    forall k | k in PositiveTable(c.records) ensures k.0 in Budget(c) {
    }
    MapSumByRows(PositiveTable(c.records), Budget(c));
  }

  /** Paid claims plus one more due record still fit under all positive payouts. */
  lemma PaidPlusDue(c: Chain, k: (Id, Id))
    requires k in c.records && c.records[k].status == Due && c.records[k].payout > 0
    ensures Paid(c) + c.records[k].payout <= MapSum(PositiveTable(c.records))
  {
    var paid, all := PaidTable(c.records), PositiveTable(c.records);
    MapSumRemove(all, k);
    MapSumMonotone(paid, all - {k});
  }

  /** Funds held plus claims already paid cover every settled event's budget. */
  ghost predicate Covered(d: Deployment, c: Chain) {
    Account(d, c) + Paid(c) >= MapSum(Budget(c))
  }

  lemma FundedClaimGoes(d: Deployment, c: Chain, tx: Tx)
    requires c.token.Valid() && tx.call.ClaimReward? && d.settlement != ZERO_ADDRESS && tx.sender != ZERO_ADDRESS
    requires (tx.call.id, tx.call.site) in c.records && c.records[(tx.call.id, tx.call.site)].status == Due
    requires (tx.call.id, tx.call.site) in c.proofs && tx.sender == c.proofs[(tx.call.id, tx.call.site)].submitter
    requires c.records[(tx.call.id, tx.call.site)].payout <= Account(d, c)
    ensures Execute(d, c, tx.sender, tx.now, tx.call).Ok?
  {
  }

  lemma ClaimKeepsBudget(d: Deployment, c: Chain, tx: Tx)
    requires tx.call.ClaimReward?
    ensures Budget(Step(d, c, tx)) == Budget(c) && (RatesBounded(c) ==> RatesBounded(Step(d, c, tx)))
  {
    assert Step(d, c, tx).events == c.events;
    hide Step;
  }

  lemma SubmitterIsAccount(d: Deployment, c: Chain, k: (Id, Id))
    requires Inv(d, c) && k in c.records
    ensures k in c.proofs && c.proofs[k].submitter != ZERO_ADDRESS && c.proofs[k].submitter != d.settlement
            && c.token.Valid()
    ensures Account(d, c) >= 0
  {
  }

  /** A covered contract can pay any due record to its submitter right now. */
  lemma CoveredClaimSucceeds(d: Deployment, c: Chain, tx: Tx)
    requires Inv(d, c) && RatesBounded(c) && Covered(d, c)
    requires tx.call.ClaimReward? && d.settlement != ZERO_ADDRESS
    requires (tx.call.id, tx.call.site) in c.records && c.records[(tx.call.id, tx.call.site)].status == Due
    requires tx.sender == c.proofs[(tx.call.id, tx.call.site)].submitter
    ensures Execute(d, c, tx.sender, tx.now, tx.call).Ok?
    ensures Covered(d, Step(d, c, tx)) && RatesBounded(Step(d, c, tx))
  {
    var k := (tx.call.id, tx.call.site);
    hide Inv, RatesBounded, Budget, Execute, Step, Paid, Account, Token.Valid;
    SubmitterIsAccount(d, c, k);
    if c.records[k].payout > 0 {
      PaidPlusDue(c, k);
      PayoutsUnderBudget(d, c);
    }
    FundedClaimGoes(d, c, tx);
    ClaimPaysOnce(d, c, tx);
    ClaimKeepsBudget(d, c, tx);
  }

  ghost predicate ClaimsOf(c: Chain, claims: seq<Tx>) {
    && (forall i :: 0 <= i < |claims| ==>
         && claims[i].call.ClaimReward?
         && (claims[i].call.id, claims[i].call.site) in c.records
         && c.records[(claims[i].call.id, claims[i].call.site)].status == Due
         && (claims[i].call.id, claims[i].call.site) in c.proofs
         && claims[i].sender == c.proofs[(claims[i].call.id, claims[i].call.site)].submitter)
    && (forall i, j :: 0 <= i < j < |claims| ==>
         (claims[i].call.id, claims[i].call.site) != (claims[j].call.id, claims[j].call.site))
  }

  lemma OtherClaimsStay(d: Deployment, c: Chain, claims: seq<Tx>)
    requires claims != [] && ClaimsOf(c, claims)
    ensures ClaimsOf(Step(d, c, claims[0]), claims[1..])
  {
    var next := Step(d, c, claims[0]);
    forall i | 0 <= i < |claims[1..]|
      ensures && claims[1..][i].call.ClaimReward?
              && (claims[1..][i].call.id, claims[1..][i].call.site) in next.records
              && next.records[(claims[1..][i].call.id, claims[1..][i].call.site)].status == Due
              && (claims[1..][i].call.id, claims[1..][i].call.site) in next.proofs
              && claims[1..][i].sender == next.proofs[(claims[1..][i].call.id, claims[1..][i].call.site)].submitter
    {
      assert claims[1..][i] == claims[i + 1];
    }
    forall i, j | 0 <= i < j < |claims[1..]|
      ensures (claims[1..][i].call.id, claims[1..][i].call.site) != (claims[1..][j].call.id, claims[1..][j].call.site)
    {
      assert claims[1..][i] == claims[i + 1] && claims[1..][j] == claims[j + 1];
    }
  }

  /** Each transaction in a list succeeds when sent in that order. */
  ghost predicate AllSucceed(d: Deployment, c: Chain, txs: seq<Tx>)
    decreases |txs|
  {
    txs == [] || (Execute(d, c, txs[0].sender, txs[0].now, txs[0].call).Ok?
                  && AllSucceed(d, Step(d, c, txs[0]), txs[1..]))
  }

  /** If the deposits cover the budgets, any set of due records can be claimed, in any order, without a revert. */
  lemma {:induction false} CoveredClaimsSucceedInAnyOrder(d: Deployment, c: Chain, claims: seq<Tx>)
    requires Inv(d, c) && RatesBounded(c) && Covered(d, c) && d.settlement != ZERO_ADDRESS
    requires ClaimsOf(c, claims)
    ensures AllSucceed(d, c, claims)
    decreases |claims|
  {
    if claims != [] {
      CoveredClaimSucceeds(d, c, claims[0]);
      StepKeepsInv(d, c, claims[0]);
      OtherClaimsStay(d, c, claims);
      CoveredClaimsSucceedInAnyOrder(d, Step(d, c, claims[0]), claims[1..]);
    }
  }

  /** The same from deployment: total deposits at least the budgets is all that is needed. */
  lemma DepositsCoverEveryClaim(d: Deployment, owner: Address, supply: nat, txs: seq<Tx>, claims: seq<Tx>)
    requires DeployDrt(owner, supply).Ok? && owner != d.settlement && d.settlement != ZERO_ADDRESS
    requires FromAccounts(d, txs)
    requires var c := Run(d, Fresh(DeployDrt(owner, supply).value), txs);
             RatesBounded(c) && ClaimsOf(c, claims)
             && Deposits(d, Fresh(DeployDrt(owner, supply).value), txs) >= MapSum(Budget(c))
    ensures AllSucceed(d, Run(d, Fresh(DeployDrt(owner, supply).value), txs), claims)
  {
    var start := Fresh(DeployDrt(owner, supply).value);
    FreshSatisfiesInv(d, owner, supply);
    MintConserves(EMPTY_TOKEN, owner, supply);
    RunKeepsInv(d, start, txs);
    LedgerBalances(d, start, txs);
    assert PaidTable(start.records) == map[];
    CoveredClaimsSucceedInAnyOrder(d, Run(d, start, txs), claims);
  }
}
