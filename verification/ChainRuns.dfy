/** What every run of the settlement contracts keeps: replayable payouts, frozen inputs, a balanced ledger. */
module ChainRuns {
  import opened Common
  import opened Tokens
  import opened Contracts
  import Payout

  datatype Tx = Tx(sender: Address, now: nat, call: Call)

  /** A reverted transaction leaves the state as it was. */
  function Step(d: Deployment, c: Chain, tx: Tx): Chain {
    match Execute(d, c, tx.sender, tx.now, tx.call)
    case Ok(next) => next
    case Err(_) => c
  }

  function Run(d: Deployment, c: Chain, txs: seq<Tx>): Chain
    decreases |txs|
  {
    if txs == [] then c
    else Step(d, Run(d, c, txs[..|txs| - 1]), txs[|txs| - 1])
  }

  ghost predicate Accepted(d: Deployment, c: Chain, tx: Tx) {
    Execute(d, c, tx.sender, tx.now, tx.call).Ok?
  }

  /** Transactions come from accounts; the Settlement contract itself never originates one. */
  ghost predicate FromAccounts(d: Deployment, txs: seq<Tx>) {
    forall i :: 0 <= i < |txs| ==> txs[i].sender != d.settlement && txs[i].sender != ZERO_ADDRESS
  }

  function Fresh(token: Token): Chain {
    Chain(map[], map[], map[], {}, token)
  }

  // ---- The state invariant ----

  ghost function SitesOf(records: Records, id: Id): set<(Id, Id)> {
    set k | k in records && k.0 == id
  }

  ghost predicate ProofsConsistent(d: Deployment, c: Chain) {
    forall k :: k in c.proofs ==>
      && k.0 in c.events
      && c.proofs[k].reductionKwh == Reduction(c.proofs[k].baselineKwh, c.proofs[k].actualKwh)
      && c.proofs[k].submitter != ZERO_ADDRESS && c.proofs[k].submitter != d.settlement
  }

  /** Records exist only for settled events and proved sites. */
  ghost predicate RecordsAnchored(c: Chain) {
    forall k :: k in c.records ==> k.0 in c.events && c.events[k.0].status == Settled && k in c.proofs
  }

  /** The payout a stored record must have, recomputed from what is stored now. */
  function Replay(c: Chain, k: (Id, Id), n: nat): Option<int>
    requires k in c.proofs && k.0 in c.events && n > 0
  {
    Payout.ContractPayout(c.proofs[k].reductionKwh, c.events[k.0].targetKw / n,
                          c.events[k.0].rewardRate, c.events[k.0].penaltyRate)
  }

  ghost predicate Replayable(c: Chain)
    requires RecordsAnchored(c)
  {
    forall k :: k in c.records ==>
        SitesOf(c.records, k.0) != {} && Replay(c, k, |SitesOf(c.records, k.0)|) == Some(c.records[k].payout)
  }

  ghost predicate NoAllowance(d: Deployment, t: Token) {
    forall k :: k in t.allowances && k.0 == d.settlement ==> t.allowances[k] == 0
  }

  ghost predicate Inv(d: Deployment, c: Chain) {
    && ProofsConsistent(d, c)
    && RecordsAnchored(c)
    && Replayable(c)
    && c.token.Valid()
    && NoAllowance(d, c.token)
  }

  lemma KeysAdded(before: Records, after: Records, id: Id, listed: set<(Id, Id)>)
    requires after.Keys == before.Keys + listed
    requires (forall k :: k in before ==> k.0 != id) && (forall k :: k in listed ==> k.0 == id)
    ensures SitesOf(after, id) == listed
    ensures forall e :: e != id ==> SitesOf(after, e) == SitesOf(before, e)
  {
    forall e, k ensures k in SitesOf(after, e) <==> k in (if e == id then listed else SitesOf(before, e)) {
      assert k in after.Keys <==> k in before.Keys + listed;
    }
  }

  lemma NoRecordsNoKeys(records: Records, id: Id)
    requires NoRecords(records, id)
    ensures forall k :: k in records ==> k.0 != id
  {
    forall k | k in records ensures k.0 != id {
      assert (k.0, k.1) in records;
    }
  }

  /** After a settlement the event's records are the listed sites, and other events keep theirs. */
  lemma SettledSites(c: Chain, after: Records, id: Id, sites: seq<Id>, share: nat, now: nat)
    requires id in c.events && NoRecords(c.records, id) && NoDup(sites)
    requires SettledTogether(c.proofs, c.records, after, c.events[id], id, sites, share, now)
    ensures SitesOf(after, id) == (set s | s in sites :: (id, s))
    ensures |SitesOf(after, id)| == |sites|
    ensures forall e :: e != id ==> SitesOf(after, e) == SitesOf(c.records, e)
  {
    PairCount(id, sites);
    NoRecordsNoKeys(c.records, id);
    var listed := set s | s in sites :: (id, s);
    assert listed == Pairs(id, sites) && after.Keys == c.records.Keys + listed;
    hide SitesOf, SettledTogether, NoRecords;
    KeysAdded(c.records, after, id, listed);
  }

  lemma ClosedHasNoRecords(c: Chain, id: Id)
    requires RecordsAnchored(c) && id in c.events && c.events[id].status != Settled
    ensures NoRecords(c.records, id)
  {
    forall site ensures (id, site) !in c.records {
      if (id, site) in c.records {
        assert false;
      }
    }
  }

  /** What a successful settleEvent did, in one place. */
  ghost predicate Settles(c: Chain, next: Chain, id: Id, sites: seq<Id>, now: nat) {
    && sites != [] && NoDup(sites)
    && id in c.events && c.events[id].status == Closed
    && next == c.(records := next.records, events := c.events[id := c.events[id].(status := Settled)])
    && SettledTogether(c.proofs, c.records, next.records, c.events[id], id, sites, c.events[id].targetKw / |sites|, now)
  }

  lemma SettleEventSettles(d: Deployment, c: Chain, sender: Address, now: nat, id: Id, sites: seq<Id>)
    requires DoSettleEvent(d, c, sender, now, id, sites).Ok?
    ensures Settles(c, DoSettleEvent(d, c, sender, now, id, sites).value, id, sites, now)
  {
    SettleSitesAdds(c.proofs, c.records, c.events[id], id, sites, c.events[id].targetKw / |sites|, now);
  }

  lemma SettlesAnchored(c: Chain, next: Chain, id: Id, sites: seq<Id>, now: nat)
    requires Settles(c, next, id, sites, now) && RecordsAnchored(c)
    ensures RecordsAnchored(next)
  {
    forall k | k in next.records
      ensures k.0 in next.events && next.events[k.0].status == Settled && k in next.proofs
    {
      if k !in c.records {
        assert k in set s | s in sites :: (id, s);
      }
    }
  }

  lemma SettlesReplayable(c: Chain, next: Chain, id: Id, sites: seq<Id>, now: nat)
    requires Settles(c, next, id, sites, now) && RecordsAnchored(c) && Replayable(c)
    ensures RecordsAnchored(next) && Replayable(next)
  {
    SettlesAnchored(c, next, id, sites, now);
    ClosedHasNoRecords(c, id);
    SettledSites(c, next.records, id, sites, c.events[id].targetKw / |sites|, now);
    forall k | k in next.records
      ensures SitesOf(next.records, k.0) != {} && Replay(next, k, |SitesOf(next.records, k.0)|)
                == Some(next.records[k].payout)
    {
      assert k in SitesOf(next.records, k.0);
      if k.0 == id {
        assert k in set s | s in sites :: (id, s);
      } else {
        assert k !in set s | s in sites :: (id, s);
        assert k in c.records;
      }
    }
  }

  lemma SettleKeepsReplay(d: Deployment, c: Chain, sender: Address, now: nat, id: Id, sites: seq<Id>)
    requires Inv(d, c) && DoSettleEvent(d, c, sender, now, id, sites).Ok?
    ensures Inv(d, DoSettleEvent(d, c, sender, now, id, sites).value)
  {
    SettleEventSettles(d, c, sender, now, id, sites);
    SettlesReplayable(c, DoSettleEvent(d, c, sender, now, id, sites).value, id, sites, now);
  }

  lemma SameKeysSameSites(a: Records, b: Records)
    requires a.Keys == b.Keys
    ensures forall e :: SitesOf(a, e) == SitesOf(b, e)
  {
    forall e, k ensures k in SitesOf(a, e) <==> k in SitesOf(b, e) {
      assert k in a.Keys <==> k in b.Keys;
    }
  }

  /** A claim marks one record and may pay from the Settlement account. */
  lemma ClaimMoves(d: Deployment, c: Chain, sender: Address, now: nat, id: Id, site: Id)
    requires c.token.Valid() && DoClaimReward(d, c, sender, now, id, site).Ok?
    ensures var n := DoClaimReward(d, c, sender, now, id, site).value;
            && (id, site) in c.records && n.token.Valid() && n.token.allowances == c.token.allowances
            && var claimed := c.records[(id, site)].(status := Claimed, claimedAt := Uint64(now));
               n == c.(records := c.records[(id, site) := claimed], token := n.token)
  {
    if c.records[(id, site)].payout > 0 {
      TransferConserves(c.token, d.settlement, sender, c.records[(id, site)].payout);
    }
  }

  lemma ClaimKeepsReplay(d: Deployment, c: Chain, sender: Address, now: nat, id: Id, site: Id)
    requires Inv(d, c) && DoClaimReward(d, c, sender, now, id, site).Ok?
    ensures Inv(d, DoClaimReward(d, c, sender, now, id, site).value)
  {
    var next := DoClaimReward(d, c, sender, now, id, site).value;
    ClaimMoves(d, c, sender, now, id, site);
    SameKeysSameSites(next.records, c.records);
    hide SitesOf, DoClaimReward;
  }

  lemma TokenCallsKeepLedger(d: Deployment, c: Chain, tx: Tx)
    requires Inv(d, c) && tx.sender != d.settlement
    requires tx.call.TokenTransfer? || tx.call.TokenApprove? || tx.call.TokenTransferFrom?
    ensures Inv(d, Step(d, c, tx)) && Step(d, c, tx).token.supply == c.token.supply
  {
    if Execute(d, c, tx.sender, tx.now, tx.call).Ok? {
      match tx.call
      case TokenTransfer(to, amount) => TransferConserves(c.token, tx.sender, to, amount);
      case TokenApprove(spender, amount) => ApprovalMovesNothing(c.token, tx.sender, spender, amount);
      case TokenTransferFrom(from, to, amount) => TransferFromConserves(c.token, tx.sender, from, to, amount);
    }
  }

  /** Events may be added and their status may advance; nothing a record is computed from moves. */
  lemma EventChangeKeepsInv(d: Deployment, c: Chain, next: Chain)
    requires Inv(d, c)
    requires next.proofs == c.proofs && next.records == c.records && next.token == c.token
    requires forall e :: e in c.events ==>
               e in next.events && next.events[e].(status := Active) == c.events[e].(status := Active)
    requires forall e :: e in c.events && c.events[e].status == Settled ==> next.events[e].status == Settled
    ensures Inv(d, next)
  {
    assert RecordsAnchored(next);
    forall k | k in next.records
      ensures SitesOf(next.records, k.0) != {} && Replay(next, k, |SitesOf(next.records, k.0)|)
                == Some(next.records[k].payout)
    {
      assert next.events[k.0].(status := Active) == c.events[k.0].(status := Active);
    }
  }

  lemma ProofKeepsInv(d: Deployment, c: Chain, tx: Tx)
    requires Inv(d, c) && tx.sender != d.settlement && tx.sender != ZERO_ADDRESS && tx.call.SubmitProof?
    ensures Inv(d, Step(d, c, tx)) && Step(d, c, tx).token.supply == c.token.supply
  {
    var next := Step(d, c, tx);
    assert RecordsAnchored(next);
    forall k | k in next.records
      ensures SitesOf(next.records, k.0) != {} && Replay(next, k, |SitesOf(next.records, k.0)|)
                == Some(next.records[k].payout)
    {
      assert Replay(c, k, |SitesOf(c.records, k.0)|) == Some(c.records[k].payout);
    }
  }

  lemma ClaimKeepsSupply(d: Deployment, c: Chain, tx: Tx)
    requires Inv(d, c) && tx.call.ClaimReward?
    ensures Step(d, c, tx).token.supply == c.token.supply
  {
    var k := (tx.call.id, tx.call.site);
    if Execute(d, c, tx.sender, tx.now, tx.call).Ok? && c.records[k].payout > 0 {
      TransferConserves(c.token, d.settlement, tx.sender, c.records[k].payout);
    }
  }

  function Rank(s: EventStatus): nat {
    match s
    case Active => 0
    case Closed => 1
    case Settled => 2
  }

  lemma EventCallMovesEvents(d: Deployment, c: Chain, tx: Tx)
    requires tx.call.CreateEvent? || tx.call.CloseEvent? || tx.call.MarkSettled? || tx.call.SetService?
    ensures var n := Step(d, c, tx);
            && n.proofs == c.proofs && n.records == c.records && n.token == c.token
            && (forall e :: e in c.events ==>
                e in n.events && n.events[e].(status := Active) == c.events[e].(status := Active))
            && (forall e :: e in c.events ==> Rank(c.events[e].status) <= Rank(n.events[e].status))
  {
  }

  lemma EventCallKeepsInv(d: Deployment, c: Chain, tx: Tx)
    requires Inv(d, c)
    requires tx.call.CreateEvent? || tx.call.CloseEvent? || tx.call.MarkSettled? || tx.call.SetService?
    ensures Inv(d, Step(d, c, tx)) && Step(d, c, tx).token.supply == c.token.supply
  {
    hide Inv, Step;
    EventCallMovesEvents(d, c, tx);
    EventChangeKeepsInv(d, c, Step(d, c, tx));
  }

  lemma SettlementCallKeepsInv(d: Deployment, c: Chain, tx: Tx)
    requires Inv(d, c)
    requires tx.call.SettleEvent? || tx.call.ClaimReward?
    ensures Inv(d, Step(d, c, tx)) && Step(d, c, tx).token.supply == c.token.supply
  {
    if Execute(d, c, tx.sender, tx.now, tx.call).Ok? {
      match tx.call
      case SettleEvent(id, sites) =>
        SettleKeepsReplay(d, c, tx.sender, tx.now, id, sites);
      case ClaimReward(id, site) =>
        ClaimKeepsReplay(d, c, tx.sender, tx.now, id, site);
        ClaimKeepsSupply(d, c, tx);
    }
  }

  lemma StepKeepsInv(d: Deployment, c: Chain, tx: Tx)
    requires Inv(d, c) && tx.sender != d.settlement && tx.sender != ZERO_ADDRESS
    ensures Inv(d, Step(d, c, tx)) && Step(d, c, tx).token.supply == c.token.supply
  {
    if tx.call.SettleEvent? || tx.call.ClaimReward? {
      SettlementCallKeepsInv(d, c, tx);
    } else if tx.call.SubmitProof? {
      ProofKeepsInv(d, c, tx);
    } else if tx.call.TokenTransfer? || tx.call.TokenApprove? || tx.call.TokenTransferFrom? {
      TokenCallsKeepLedger(d, c, tx);
    } else {
      EventCallKeepsInv(d, c, tx);
    }
  }

  lemma FromAccountsPrefix(d: Deployment, txs: seq<Tx>)
    requires FromAccounts(d, txs) && txs != []
    ensures FromAccounts(d, txs[..|txs| - 1])
    ensures txs[|txs| - 1].sender != d.settlement && txs[|txs| - 1].sender != ZERO_ADDRESS
  {
  }

  /** In every reachable state each record replays from stored data, and the token supply is what was minted. */
  lemma {:induction false} RunKeepsInv(d: Deployment, c: Chain, txs: seq<Tx>)
    requires Inv(d, c) && FromAccounts(d, txs)
    ensures Inv(d, Run(d, c, txs)) && Run(d, c, txs).token.supply == c.token.supply
    decreases |txs|
  {
    if txs != [] {
      FromAccountsPrefix(d, txs);
      RunKeepsInv(d, c, txs[..|txs| - 1]);
      StepKeepsInv(d, Run(d, c, txs[..|txs| - 1]), txs[|txs| - 1]);
    }
  }

  lemma FreshSatisfiesInv(d: Deployment, owner: Address, supply: nat)
    requires DeployDrt(owner, supply).Ok?
    ensures var c := Fresh(DeployDrt(owner, supply).value);
            Inv(d, c) && c.token.supply == supply && c.token.Balance(owner) == supply
  {
    MintConserves(EMPTY_TOKEN, owner, supply);
  }

  /** Under the product bounds the record is the service's own number. */
  lemma ReplayInServiceTerms(d: Deployment, c: Chain, k: (Id, Id))
    requires Inv(d, c) && k in c.records
    requires Payout.BoundedRates(c.events[k.0].targetKw, c.events[k.0].rewardRate, c.events[k.0].penaltyRate)
    ensures SitesOf(c.records, k.0) != {}
    ensures c.records[k].payout
              == Payout.CalculatePayout(c.proofs[k].reductionKwh, c.events[k.0].targetKw / |SitesOf(c.records, k.0)|,
                                        c.events[k.0].rewardRate, c.events[k.0].penaltyRate)
  {
    Payout.BoundedRatesAgree(c.proofs[k].reductionKwh, c.events[k.0].targetKw, |SitesOf(c.records, k.0)|,
                             c.events[k.0].rewardRate, c.events[k.0].penaltyRate);
  }

  /** A record of a reachable state is the service's number exactly when the words of its products wrap alike. */
  lemma RecordIsServiceNumberIff(d: Deployment, c: Chain, k: (Id, Id))
    requires Inv(d, c) && k in c.records
    ensures SitesOf(c.records, k.0) != {}
    ensures var reduction, share := c.proofs[k].reductionKwh, c.events[k.0].targetKw / |SitesOf(c.records, k.0)|;
            var rewardRate, penaltyRate := c.events[k.0].rewardRate, c.events[k.0].penaltyRate;
            c.records[k].payout == Payout.CalculatePayout(reduction, share, rewardRate, penaltyRate)
            <==> Payout.ProductsAgree(reduction, share, rewardRate, penaltyRate)
  {
    Payout.ContractPayoutAgreesIff(c.proofs[k].reductionKwh, c.events[k.0].targetKw / |SitesOf(c.records, k.0)|,
                                   c.events[k.0].rewardRate, c.events[k.0].penaltyRate);
    hide Payout.ProductsAgree, Payout.ContractPayout, Payout.CalculatePayout;
  }

  lemma OneMore(d: Deployment, c: Chain, txs: seq<Tx>, tx: Tx)
    ensures Run(d, c, txs + [tx]) == Step(d, Run(d, c, txs), tx)
  {
    assert (txs + [tx])[..|txs|] == txs;
  }

  /** The input: a target of one, a penalty rate of 2^255 + 1, and a site that delivers nothing. */
  function WrapCalls(d: Deployment, e: Id, site: Id, now: nat): seq<Tx> {
    [Tx(d.operator, now, CreateEvent(e, 0, 1, 1, 0, TWO_255 + 1)),
     Tx(d.operator, now, SubmitProof(e, site, 0, 0, "", "")),
     Tx(d.operator, now, CloseEvent(e)),
     Tx(d.settlementOperator, now, SettleEvent(e, [site])),
     Tx(d.operator, now, ClaimReward(e, site))]
  }

  lemma WrapSettles(d: Deployment, token: Token, e: Id, site: Id, now: nat)
    ensures var c := Run(d, Fresh(token), WrapCalls(d, e, site, now)[..4]);
            && (e, site) in c.records && c.records[(e, site)] == Record(TWO_255 - 1, Due, Uint64(now), 0)
            && (e, site) in c.proofs && c.proofs[(e, site)].submitter == d.operator && c.token == token
  {
    var txs, c0 := WrapCalls(d, e, site, now), Fresh(token);
    assert txs[..1] == [] + [txs[0]] && txs[..2] == txs[..1] + [txs[1]] && txs[..3] == txs[..2] + [txs[2]];
    assert txs[..4] == txs[..3] + [txs[3]];
    OneMore(d, c0, [], txs[0]);
    OneMore(d, c0, txs[..1], txs[1]);
    OneMore(d, c0, txs[..2], txs[2]);
    OneMore(d, c0, txs[..3], txs[3]);
    Payout.PenaltyCanWrapIntoReward();
    var c3 := Run(d, c0, txs[..3]);
    hide Payout.ContractPayout, Run;
    assert c3.events[e] == EventInfo(0, 1, 1, 0, TWO_255 + 1, Closed, d.operator);
    assert c3.proofs[(e, site)].reductionKwh == 0 && c3.records == map[];
    var records: Records := map[(e, site) := Record(TWO_255 - 1, Due, Uint64(now), 0)];
    assert SettleSite(c3.proofs, c3.records, c3.events[e], e, site, 1, now) == Ok(records);
    assert SettleSites(c3.proofs, records, c3.events[e], e, [site][1..], 1, now) == Ok(records);
  }

  /** From deployment, that input is recorded and paid as a reward of 2^255 - 1. */
  lemma WrappedPenaltyIsPaid(d: Deployment, supply: nat, e: Id, site: Id, now: nat)
    requires DeployDrt(d.settlement, supply).Ok? && supply >= TWO_255 - 1 && d.operator != d.settlement
    requires d.operator != ZERO_ADDRESS
    ensures var c := Run(d, Fresh(DeployDrt(d.settlement, supply).value), WrapCalls(d, e, site, now));
            && (e, site) in c.records && c.records[(e, site)].payout == TWO_255 - 1
            && c.records[(e, site)].status == Claimed
            && c.token.Balance(d.operator) == TWO_255 - 1
  {
    var token := DeployDrt(d.settlement, supply).value;
    var txs, c0 := WrapCalls(d, e, site, now), Fresh(token);
    FreshSatisfiesInv(d, d.settlement, supply);
    OthersStartEmpty(d.settlement, supply, d.operator);
    WrapSettles(d, token, e, site, now);
    assert txs[..4] + [txs[4]] == txs;
    OneMore(d, c0, txs[..4], txs[4]);
    hide Run, DeployDrt, SettleSites;
    TransferConserves(token, d.settlement, d.operator, TWO_255 - 1);
  }

  lemma OthersStartEmpty(owner: Address, supply: nat, a: Address)
    requires DeployDrt(owner, supply).Ok? && a != owner
    ensures DeployDrt(owner, supply).value.Balance(a) == 0
  {
  }

  // ---- Where stored events and proofs come from ----

  /** The run holds the accepted createEvent that stored these parameters. */
  ghost predicate Created(d: Deployment, c: Chain, txs: seq<Tx>, e: Id, info: EventInfo)
    decreases |txs|
  {
    && txs != []
    && var front, last := txs[..|txs| - 1], txs[|txs| - 1];
       || Created(d, c, front, e, info)
       || (last.call.CreateEvent? && last.call.id == e && last.sender == d.operator
           && Accepted(d, Run(d, c, front), last)
           && info.startTime == last.call.start && info.endTime == last.call.end && info.targetKw == last.call.targetKw
           && info.rewardRate == last.call.rewardRate && info.penaltyRate == last.call.penaltyRate
           && info.creator == last.sender)
  }

  /** The run holds the accepted submitProof that stored this reading, by its submitter and at its time. */
  ghost predicate Submitted(d: Deployment, c: Chain, txs: seq<Tx>, k: (Id, Id), p: SiteProof)
    decreases |txs|
  {
    && txs != []
    && var front, last := txs[..|txs| - 1], txs[|txs| - 1];
       || Submitted(d, c, front, k, p)
       || (last.call.SubmitProof? && k == (last.call.id, last.call.site) && Accepted(d, Run(d, c, front), last)
           && p.baselineKwh == last.call.baselineKwh && p.actualKwh == last.call.actualKwh
           && p.reductionKwh == (if last.call.baselineKwh > last.call.actualKwh
                                 then last.call.baselineKwh - last.call.actualKwh else 0)
           && p.proofHash == last.call.proofHash && p.uri == last.call.uri
           && p.submitter == last.sender && p.submittedAt == last.now % TWO_64)
  }

  lemma StepStores(d: Deployment, c: Chain, tx: Tx)
    ensures var n := Step(d, c, tx);
            && (forall e :: e in n.events && e !in c.events ==>
                 tx.call.CreateEvent? && tx.call.id == e && Accepted(d, c, tx) && tx.sender == d.operator
                 && n.events[e] == EventInfo(tx.call.start, tx.call.end, tx.call.targetKw, tx.call.rewardRate,
                                             tx.call.penaltyRate, Active, tx.sender))
            && (forall k :: k in n.proofs && k !in c.proofs ==>
                 tx.call.SubmitProof? && k == (tx.call.id, tx.call.site) && Accepted(d, c, tx)
                 && n.proofs[k] == SiteProof(tx.call.baselineKwh, tx.call.actualKwh,
                                             Reduction(tx.call.baselineKwh, tx.call.actualKwh), tx.call.proofHash,
                                             tx.call.uri, tx.now % TWO_64, tx.sender))
  {
    hide Transfer, Approve, TransferFrom, SettleSites;
  }

  lemma {:induction false} CreatedInAnyStatus(d: Deployment, c: Chain, txs: seq<Tx>, e: Id, info: EventInfo,
                                              now: EventInfo)
    requires Created(d, c, txs, e, info) && now.(status := Active) == info.(status := Active)
    ensures Created(d, c, txs, e, now)
    decreases |txs|
  {
    var front := txs[..|txs| - 1];
    if Created(d, c, front, e, info) {
      CreatedInAnyStatus(d, c, front, e, info, now);
    }
  }

  ghost predicate AllCreated(d: Deployment, c: Chain, txs: seq<Tx>, n: Chain) {
    forall e :: e in n.events ==> Created(d, c, txs, e, n.events[e])
  }

  ghost predicate AllSubmitted(d: Deployment, c: Chain, txs: seq<Tx>, n: Chain) {
    forall k :: k in n.proofs ==> Submitted(d, c, txs, k, n.proofs[k])
  }

  /** Over every run from deployment, stored events and proofs are what accepted calls sent, under their senders. */
  lemma {:induction false} StoredAsSent(d: Deployment, token: Token, txs: seq<Tx>)
    ensures AllCreated(d, Fresh(token), txs, Run(d, Fresh(token), txs))
    ensures AllSubmitted(d, Fresh(token), txs, Run(d, Fresh(token), txs))
    decreases |txs|
  {
    if txs != [] {
      StoredAsSent(d, token, txs[..|txs| - 1]);
      OneMoreStored(d, Fresh(token), txs);
    }
  }

  lemma OneMoreStored(d: Deployment, start: Chain, txs: seq<Tx>)
    requires txs != []
    requires AllCreated(d, start, txs[..|txs| - 1], Run(d, start, txs[..|txs| - 1]))
    requires AllSubmitted(d, start, txs[..|txs| - 1], Run(d, start, txs[..|txs| - 1]))
    ensures AllCreated(d, start, txs, Run(d, start, txs)) && AllSubmitted(d, start, txs, Run(d, start, txs))
  {
    var front, last := txs[..|txs| - 1], txs[|txs| - 1];
    var c, n := Run(d, start, front), Run(d, start, txs);
    assert n == Step(d, c, last);
    StepStores(d, c, last);
    StepEvolves(d, c, last);
    hide Step, Accepted, Run;
    forall k | k in n.proofs ensures Submitted(d, start, txs, k, n.proofs[k]) {
      if k in c.proofs {
        assert n.proofs[k] == c.proofs[k] && Submitted(d, start, front, k, c.proofs[k]);
      }
    }
    forall e | e in n.events ensures Created(d, start, txs, e, n.events[e]) {
      if e in c.events {
        assert Created(d, start, front, e, c.events[e]);
        CreatedInAnyStatus(d, start, front, e, c.events[e], n.events[e]);
      }
    }
  }

  // ---- Who may do what ----

  /** New events come from the operator, with a window that does not end before it starts. */
  ghost predicate EventRights(d: Deployment, c: Chain, n: Chain, tx: Tx) {
    && (forall e :: e in n.events && e !in c.events ==>
         tx.sender == d.operator && n.events[e].status == Active && n.events[e].startTime < n.events[e].endTime)
    && (forall e :: e in c.events && e in n.events && c.events[e].status == Active && n.events[e].status != Active ==>
         tx.sender == d.operator && tx.call == CloseEvent(e) && n.events[e].status == Closed)
    && (forall e :: e in c.events && e in n.events && c.events[e].status == Closed && n.events[e].status != Closed ==>
         && n.events[e].status == Settled
         && ((tx.call == MarkSettled(e) && (tx.sender == d.operator || tx.sender == d.settlement))
             || (tx.call.SettleEvent? && tx.call.id == e
                 && (tx.sender == d.settlementOperator || tx.sender in c.services))))
  }

  /** Proofs are for active events. */
  ghost predicate ProofRights(c: Chain, n: Chain) {
    forall k :: k in n.proofs && k !in c.proofs ==> k.0 in c.events && c.events[k.0].status == Active
  }

  /** Claims are by their proof's submitters. */
  ghost predicate ClaimRights(c: Chain, n: Chain, tx: Tx) {
    forall k :: k in c.records && k in n.records && c.records[k].status == Due && n.records[k].status == Claimed ==>
      tx.call.ClaimReward? && tx.call.id == k.0 && tx.call.site == k.1
      && k in c.proofs && c.proofs[k].submitter == tx.sender
  }

  /** Services are granted by the settlement operator. */
  ghost predicate ServiceRights(d: Deployment, c: Chain, n: Chain, tx: Tx) {
    forall a :: (a in n.services) != (a in c.services) ==>
      tx.sender == d.settlementOperator && tx.call == SetService(a, a in n.services) && a != ZERO_ADDRESS
  }

  lemma OtherEventRights(d: Deployment, c: Chain, tx: Tx)
    requires !tx.call.SettleEvent?
    ensures EventRights(d, c, Step(d, c, tx), tx)
  {
    hide Transfer, Approve, TransferFrom, SettleSites;
  }

  lemma OtherProofRights(d: Deployment, c: Chain, tx: Tx)
    requires !tx.call.SettleEvent?
    ensures ProofRights(c, Step(d, c, tx))
  {
    StepStores(d, c, tx);
    hide Transfer, Approve, TransferFrom, SettleSites;
  }

  lemma OtherClaimRights(d: Deployment, c: Chain, tx: Tx)
    requires !tx.call.SettleEvent?
    ensures ClaimRights(c, Step(d, c, tx), tx)
  {
    hide Transfer, Approve, TransferFrom, SettleSites;
  }

  lemma OtherServiceRights(d: Deployment, c: Chain, tx: Tx)
    requires !tx.call.SettleEvent?
    ensures ServiceRights(d, c, Step(d, c, tx), tx)
  {
    hide Transfer, Approve, TransferFrom, SettleSites;
  }

  lemma SettleRights(d: Deployment, c: Chain, n: Chain, tx: Tx)
    requires tx.call.SettleEvent? && Settles(c, n, tx.call.id, tx.call.sites, tx.now)
    requires tx.sender == d.settlementOperator || tx.sender in c.services
    ensures EventRights(d, c, n, tx) && ProofRights(c, n) && ClaimRights(c, n, tx) && ServiceRights(d, c, n, tx)
  {
  }

  /** Every transaction moves only what its sender has the right to move. */
  lemma StepRights(d: Deployment, c: Chain, tx: Tx)
    ensures var n := Step(d, c, tx);
            EventRights(d, c, n, tx) && ProofRights(c, n) && ClaimRights(c, n, tx) && ServiceRights(d, c, n, tx)
  {
    if tx.call.SettleEvent? && Accepted(d, c, tx) {
      SettleEventSettles(d, c, tx.sender, tx.now, tx.call.id, tx.call.sites);
      SettleRights(d, c, Step(d, c, tx), tx);
    } else if !tx.call.SettleEvent? {
      hide Step, EventRights, ProofRights, ClaimRights, ServiceRights;
      OtherEventRights(d, c, tx);
      OtherProofRights(d, c, tx);
      OtherClaimRights(d, c, tx);
      OtherServiceRights(d, c, tx);
    }
  }

  // ---- Repeated sites ----

  /** An authorised caller, a closed event, and a non-empty list of sites whose payouts can be computed. */
  ghost predicate MaySettle(d: Deployment, c: Chain, sender: Address, id: Id, sites: seq<Id>) {
    && (sender == d.settlementOperator || sender in c.services)
    && sites != [] && id in c.events && c.events[id].status == Closed
    && Payable(c.proofs, c.events[id], id, sites, c.events[id].targetKw / |sites|)
  }

  /**
   In every reachable state SiteAlreadySettled can only mean a repeated id, whoever calls and with whatever list: a
   closed event has no records. Where nothing else stands in the way a repeated id is exactly what is refused.
   */
  lemma SiteAlreadySettledMeansRepeat(d: Deployment, c: Chain, sender: Address, now: nat, id: Id, sites: seq<Id>)
    requires Inv(d, c)
    ensures DoSettleEvent(d, c, sender, now, id, sites) == Err(SiteAlreadySettled) ==> !NoDup(sites)
    ensures MaySettle(d, c, sender, id, sites) ==>
      && (DoSettleEvent(d, c, sender, now, id, sites).Ok? <==> NoDup(sites))
      && (DoSettleEvent(d, c, sender, now, id, sites) == Err(SiteAlreadySettled) <==> !NoDup(sites))
  {
    if id in c.events && c.events[id].status == Closed && sites != [] {
      ClosedHasNoRecords(c, id);
      var share := c.events[id].targetKw / |sites|;
      if MaySettle(d, c, sender, id, sites) {
        SettleSitesSucceedsIff(c.proofs, c.records, c.events[id], id, sites, share, now);
      } else if NoDup(sites) {
        FreshSitesNotSettled(c.proofs, c.records, c.events[id], id, sites, share, now);
      }
    }
  }

  // ---- Who may settle ----

  /** The last accepted setAuthorizedService for the account allowed it. */
  ghost predicate Granted(d: Deployment, c: Chain, txs: seq<Tx>, a: Address)
    decreases |txs|
  {
    && txs != []
    && var front, last := txs[..|txs| - 1], txs[|txs| - 1];
       if last.call.SetService? && last.call.service == a && Accepted(d, Run(d, c, front), last) then last.call.allowed
       else Granted(d, c, front, a)
  }

  lemma StepServices(d: Deployment, c: Chain, tx: Tx, a: Address)
    ensures a in Step(d, c, tx).services <==>
      if tx.call.SetService? && tx.call.service == a && Accepted(d, c, tx) then tx.call.allowed else a in c.services
  {
    hide Transfer, Approve, TransferFrom, Encodable, SettleSites;
  }

  lemma {:induction false} ServicesAreGranted(d: Deployment, token: Token, txs: seq<Tx>, a: Address)
    ensures a in Run(d, Fresh(token), txs).services <==> Granted(d, Fresh(token), txs, a)
    decreases |txs|
  {
    hide Step, Accepted;
    if txs != [] {
      ServicesAreGranted(d, token, txs[..|txs| - 1], a);
      StepServices(d, Run(d, Fresh(token), txs[..|txs| - 1]), txs[|txs| - 1], a);
    }
  }

  /**
   After any run from deployment an account's settleEvent does what the settlement operator's would if the last accepted
   setAuthorizedService for it allowed it; everybody else is refused. Only that operator's are accepted.
   */
  lemma GrantedSettlesAsOperator(d: Deployment, token: Token, txs: seq<Tx>, a: Address, now: nat, id: Id,
                                 sites: seq<Id>, grant: Tx)
    ensures var c := Run(d, Fresh(token), txs);
            && DoSettleEvent(d, c, a, now, id, sites)
                 == (if a == d.settlementOperator
                     || Granted(d, Fresh(token), txs, a) then DoSettleEvent(d, c, d.settlementOperator, now, id, sites)
                     else Err(NotService))
            && (grant.call.SetService? && Accepted(d, c, grant) <==>
                grant.call.SetService? && grant.sender == d.settlementOperator && grant.call.service != ZERO_ADDRESS)
  {
    ServicesAreGranted(d, token, txs, a);
    hide Run, Granted;
  }

  // ---- Settled with and without records ----

  /** The run holds an accepted markEventSettled of the event. */
  ghost predicate Marked(d: Deployment, c: Chain, txs: seq<Tx>, e: Id)
    decreases |txs|
  {
    && txs != []
    && var front, last := txs[..|txs| - 1], txs[|txs| - 1];
       Marked(d, c, front, e) || (last.call == MarkSettled(e) && Accepted(d, Run(d, c, front), last))
  }

  /** The run holds an accepted settleEvent of the event. */
  ghost predicate Priced(d: Deployment, c: Chain, txs: seq<Tx>, e: Id)
    decreases |txs|
  {
    && txs != []
    && var front, last := txs[..|txs| - 1], txs[|txs| - 1];
       Priced(d, c, front, e) || (last.call.SettleEvent? && last.call.id == e && Accepted(d, Run(d, c, front), last))
  }

  ghost predicate SettledBare(c: Chain, e: Id) {
    e in c.events && c.events[e].status == Settled && SitesOf(c.records, e) == {}
  }

  ghost predicate SettledWithRecords(c: Chain, e: Id) {
    e in c.events && c.events[e].status == Settled && SitesOf(c.records, e) != {}
  }

  lemma SettlesEvents(c: Chain, next: Chain, id: Id, sites: seq<Id>, now: nat, e: Id)
    requires Settles(c, next, id, sites, now) && RecordsAnchored(c)
    ensures SettledBare(next, e) <==> SettledBare(c, e)
    ensures SettledWithRecords(next, e) <==> SettledWithRecords(c, e) || e == id
  {
    ClosedHasNoRecords(c, id);
    SettledSites(c, next.records, id, sites, c.events[id].targetKw / |sites|, now);
  }

  lemma MarkSettlesBare(d: Deployment, c: Chain, tx: Tx, e: Id)
    requires RecordsAnchored(c) && tx.call.MarkSettled? && Accepted(d, c, tx)
    ensures SettledBare(Step(d, c, tx), e) <==> SettledBare(c, e) || e == tx.call.id
    ensures SettledWithRecords(Step(d, c, tx), e) <==> SettledWithRecords(c, e)
  {
    ClosedHasNoRecords(c, tx.call.id);
    NoRecordsNoKeys(c.records, tx.call.id);
  }

  lemma OthersSettleNothing(d: Deployment, c: Chain, tx: Tx, e: Id)
    requires RecordsAnchored(c) && !tx.call.MarkSettled? && !tx.call.SettleEvent?
    ensures SettledBare(Step(d, c, tx), e) <==> SettledBare(c, e)
    ensures SettledWithRecords(Step(d, c, tx), e) <==> SettledWithRecords(c, e)
  {
    SameKeysSameSites(Step(d, c, tx).records, c.records);
    hide SitesOf, Transfer, Approve, TransferFrom, Encodable;
  }

  lemma StepSettles(d: Deployment, c: Chain, tx: Tx, e: Id)
    requires RecordsAnchored(c)
    ensures SettledBare(Step(d, c, tx), e) <==> SettledBare(c, e) || (tx.call == MarkSettled(e) && Accepted(d, c, tx))
    ensures SettledWithRecords(Step(d, c, tx), e) <==>
      SettledWithRecords(c, e) || (tx.call.SettleEvent? && tx.call.id == e && Accepted(d, c, tx))
  {
    hide SettledBare, SettledWithRecords;
    if Accepted(d, c, tx) {
      match tx.call
      case SettleEvent(id, sites) =>
        SettleEventSettles(d, c, tx.sender, tx.now, id, sites);
        SettlesEvents(c, Step(d, c, tx), id, sites, tx.now, e);
      case MarkSettled(id) => MarkSettlesBare(d, c, tx, e);
      case _ => OthersSettleNothing(d, c, tx, e);
    }
  }

  lemma {:induction false} RunSettles(d: Deployment, c: Chain, txs: seq<Tx>, e: Id)
    requires Inv(d, c) && FromAccounts(d, txs)
    ensures SettledBare(Run(d, c, txs), e) <==> SettledBare(c, e) || Marked(d, c, txs, e)
    ensures SettledWithRecords(Run(d, c, txs), e) <==> SettledWithRecords(c, e) || Priced(d, c, txs, e)
    decreases |txs|
  {
    if txs != [] {
      hide Inv, SettledBare, SettledWithRecords, Accepted;
      FromAccountsPrefix(d, txs);
      var front := txs[..|txs| - 1];
      RunSettles(d, c, front, e);
      RunKeepsInv(d, c, front);
      InvAnchored(d, Run(d, c, front));
      StepSettles(d, Run(d, c, front), txs[|txs| - 1], e);
    }
  }

  lemma InvAnchored(d: Deployment, c: Chain)
    requires Inv(d, c)
    ensures RecordsAnchored(c)
  {
  }

  /**
   Settled on the chain does not imply records. Over every run from deployment, an event is settled without records
   exactly when a markEventSettled of it was accepted, and settled with records exactly when a settleEvent of it was.
   */
  lemma SettledBareIffMarked(d: Deployment, owner: Address, supply: nat, txs: seq<Tx>, e: Id)
    requires DeployDrt(owner, supply).Ok? && FromAccounts(d, txs)
    ensures var c := Fresh(DeployDrt(owner, supply).value);
            && (SettledBare(Run(d, c, txs), e) <==> Marked(d, c, txs, e))
            && (SettledWithRecords(Run(d, c, txs), e) <==> Priced(d, c, txs, e))
  {
    var c := Fresh(DeployDrt(owner, supply).value);
    FreshSatisfiesInv(d, owner, supply);
    RunSettles(d, c, txs, e);
  }

  /** Such a run exists: create, close and mark, all by the operator. */
  lemma OperatorCanSkipSettlement(d: Deployment, owner: Address, supply: nat, create: Call, now: nat)
    returns (txs: seq<Tx>)
    requires DeployDrt(owner, supply).Ok? && d.operator != d.settlement && d.operator != ZERO_ADDRESS
    requires create.CreateEvent? && Encodable(create) && create.start < create.end
    ensures FromAccounts(d, txs) && |txs| == 3 && txs[2] == Tx(d.operator, now, MarkSettled(create.id))
    ensures SettledBare(Run(d, Fresh(DeployDrt(owner, supply).value), txs), create.id)
  {
    var c0 := Fresh(DeployDrt(owner, supply).value);
    hide DeployDrt;
    var a, b, m := Tx(d.operator, now, create), Tx(d.operator, now, CloseEvent(create.id)),
        Tx(d.operator, now, MarkSettled(create.id));
    var c1 := Step(d, c0, a);
    var c2 := Step(d, c1, b);
    var c3 := Step(d, c2, m);
    txs := [a, b, m];
    assert txs[..2] == [a, b] && [a, b][..1] == [a] && [a][..0] == [];
    assert Run(d, c0, []) == c0 && Run(d, c0, [a]) == c1 && Run(d, c0, [a, b]) == c2 && Run(d, c0, txs) == c3;
  }

  // ---- Freezing: what later transactions can no longer change ----

  ghost predicate EventsEvolve(c: Chain, n: Chain) {
    forall e :: e in c.events ==>
      && e in n.events
      && n.events[e].(status := Active) == c.events[e].(status := Active)
      && Rank(c.events[e].status) <= Rank(n.events[e].status)
  }

  ghost predicate ProofsEvolve(c: Chain, n: Chain) {
    && (forall k :: k in c.proofs ==> k in n.proofs && n.proofs[k] == c.proofs[k])
    && (forall k :: k in n.proofs && k.0 in c.events && c.events[k.0].status != Active ==> k in c.proofs)
  }

  ghost predicate RecordsEvolve(c: Chain, n: Chain) {
    && (forall k :: k in c.records ==>
         && k in n.records
         && n.records[k].payout == c.records[k].payout
         && n.records[k].settledAt == c.records[k].settledAt
         && (c.records[k].status == Claimed ==> n.records[k] == c.records[k]))
    && (forall k :: k in n.records && k.0 in c.events && c.events[k.0].status == Settled ==> k in c.records)
  }

  ghost predicate Evolves(c: Chain, n: Chain) {
    EventsEvolve(c, n) && ProofsEvolve(c, n) && RecordsEvolve(c, n)
  }

  lemma EvolvesTransitive(a: Chain, b: Chain, c: Chain)
    requires Evolves(a, b) && Evolves(b, c)
    ensures Evolves(a, c)
  {
  }

  lemma SettlesEvolves(c: Chain, next: Chain, id: Id, sites: seq<Id>, now: nat)
    requires Settles(c, next, id, sites, now)
    ensures Evolves(c, next)
  {
    forall k | k in next.records && k !in c.records ensures k.0 == id {
      assert k in set s | s in sites :: (id, s);
    }
  }

  lemma OthersEvolveEvents(d: Deployment, c: Chain, tx: Tx)
    requires !tx.call.SettleEvent? && Accepted(d, c, tx)
    ensures EventsEvolve(c, Step(d, c, tx))
  {
    if tx.call.CreateEvent? || tx.call.CloseEvent? || tx.call.MarkSettled? || tx.call.SetService? {
      EventCallMovesEvents(d, c, tx);
    } else {
      assert Step(d, c, tx).events == c.events;
    }
  }

  lemma OthersEvolveProofs(d: Deployment, c: Chain, tx: Tx)
    requires !tx.call.SettleEvent? && Accepted(d, c, tx)
    ensures ProofsEvolve(c, Step(d, c, tx))
  {
    hide Transfer, Approve, TransferFrom, Encodable;
  }

  lemma OthersEvolveRecords(d: Deployment, c: Chain, tx: Tx)
    requires !tx.call.SettleEvent? && Accepted(d, c, tx)
    ensures RecordsEvolve(c, Step(d, c, tx))
  {
    hide Transfer, Approve, TransferFrom, Encodable;
  }

  lemma StepEvolves(d: Deployment, c: Chain, tx: Tx)
    ensures Evolves(c, Step(d, c, tx))
  {
    if Accepted(d, c, tx) {
      match tx.call
      case SettleEvent(id, sites) =>
        SettleEventSettles(d, c, tx.sender, tx.now, id, sites);
        SettlesEvolves(c, Step(d, c, tx), id, sites, tx.now);
      case _ =>
        OthersEvolveEvents(d, c, tx);
        OthersEvolveProofs(d, c, tx);
        OthersEvolveRecords(d, c, tx);
    }
  }

  /**
   Parameters never change; after closing no proof appears or changes; after settling no record appears, and a paid one
   is final.
   */
  lemma {:induction false} RunEvolves(d: Deployment, c: Chain, txs: seq<Tx>)
    ensures Evolves(c, Run(d, c, txs))
    decreases |txs|
  {
    if txs != [] {
      var front := txs[..|txs| - 1];
      RunEvolves(d, c, front);
      StepEvolves(d, Run(d, c, front), txs[|txs| - 1]);
      EvolvesTransitive(c, Run(d, c, front), Run(d, c, txs));
    }
  }
}
