/**
 The service and the contracts together in sync mode: each chain step is finished when the service writes its row.
 Over every run, with any other account calling the contracts in between, the tables and the contract storage stay the
 same event and settlement data, and every proof row is the chain's proof.
 */
module SyncSimulation {
  import opened Common
  import opened Database
  import opened Submitter
  import opened DbRuns
  import C = Contracts
  import R = ChainRuns
  import T = Tokens
  import Payout
  import TimeOrder

  datatype World = World(db: Db, chain: C.Chain)

  /** One wallet signs every call of the service; it operates both contracts. */
  ghost predicate Operates(d: C.Deployment) {
    d.operator == d.settlementOperator && d.operator != d.settlement && d.operator != T.ZERO_ADDRESS
        && d.settlement != T.ZERO_ADDRESS
  }

  function Seconds(text: string): int {
    match TimeOrder.ParseUnixSeconds(text)
    case Some(t) => t
    case None => -1
  }

  /** The contract call that a service call sends once its local checks have passed. */
  ghost function ChainCall(db: Db, hash: Hasher, call: ServiceCall, now: string): C.Call
    requires !call.RequestAudit? && !call.Pass? && WellFormed(db, call)
  {
    match call
    case Create(req) =>
      C.CreateEvent(req.eventId, Seconds(TimeOrder.ToRfc3339(req.start)), Seconds(TimeOrder.ToRfc3339(req.end)),
                    req.targetKw, req.rewardRate, req.penaltyRate)
    case SubmitProof(req, _) =>
      C.SubmitProof(req.eventId, req.siteId, req.baselineKwh, req.actualKwh, hash(BuildPayload(req, now)), req.uri)
    case Close(e) => C.CloseEvent(e)
    case Settle(e, sites) => C.SettleEvent(e, SettleList(db, e, sites))
    case Claim(e, site, _) => C.ClaimReward(e, site)
  }

  /** The checks the service makes before its chain step. */
  ghost predicate ChecksPass(db: Db, hash: Hasher, call: ServiceCall, now: string)
    requires WellFormed(db, call)
  {
    match call
    case Create(req) => CreateGuard(db, req) == None
    case SubmitProof(req, _) => ProofGuard(db, false, hash, req, now) == None
    case Close(e) => CloseGuard(db, e) == None
    case Settle(e, sites) => SettleGuard(db, false, e, sites).Ok?
    case Claim(e, site, actor) => ClaimGuard(db, false, e, site, actor) == None
    case _ => false
  }

  datatype Turn =
    | Serve(call: ServiceCall, online: bool, tx: Tx, now: string, time: nat)
    | Foreign(sender: T.Address, chainCall: C.Call, time: nat)

  ghost predicate WellFormedTurn(w: World, d: C.Deployment, t: Turn) {
    match t
    case Serve(call, _, _, _, _) => WellFormed(w.db, call) && !call.Pass?
    case Foreign(sender, _, _) => sender != d.operator && sender != d.settlement && sender != T.ZERO_ADDRESS
  }

  /** Checks, then the chain step, then the write. A failed check, an unreachable node or a revert writes nothing. */
  ghost function Step(w: World, d: C.Deployment, hash: Hasher, t: Turn): World
    requires WellFormedTurn(w, d, t)
  {
    match t
    case Foreign(sender, chainCall, time) => w.(chain := R.Step(d, w.chain, R.Tx(sender, time, chainCall)))
    case Serve(call, online, tx, now, time) =>
      if call.RequestAudit? then w.(db := Take(w.db, false, hash, DbRuns.Turn(call, None, now)))
      else if !ChecksPass(w.db, hash, call, now) || !online then w
      else
        match C.Execute(d, w.chain, d.operator, time, ChainCall(w.db, hash, call, now))
        case Err(_) => w
        case Ok(chain) =>
          match Perform(w.db, false, hash, call, tx, now)
          case Ok(db) => World(db, chain)
          case Err(_) => World(w.db, chain)
  }

  // ---- The relation ----

  function StatusOnChain(s: EventStatus): C.EventStatus {
    match s
    case Active => C.Active
    case Closed => C.Closed
    case Settled => C.Settled
  }

  ghost predicate SameEvents(rows: map<string, EventRow>, events: map<C.Id, C.EventInfo>) {
    && rows.Keys == events.Keys
    && forall e :: e in rows ==>
         && events[e].startTime == Seconds(rows[e].startTime) && events[e].endTime == Seconds(rows[e].endTime)
         && events[e].targetKw == rows[e].targetKw
         && events[e].rewardRate == rows[e].rewardRate && events[e].penaltyRate == rows[e].penaltyRate
         && events[e].status == StatusOnChain(rows[e].status)
  }

  /** Every proof row is on the chain, posted by the service's wallet; the chain may hold other accounts' proofs. */
  ghost predicate SameProofs(rows: map<Key, ProofRow>, proofs: map<Key, C.SiteProof>, wallet: T.Address) {
    forall k :: k in rows ==>
         && k in proofs
         && proofs[k].baselineKwh == rows[k].baselineKwh && proofs[k].actualKwh == rows[k].actualKwh
         && proofs[k].reductionKwh == rows[k].reductionKwh
         && proofs[k].proofHash == rows[k].proofHash && proofs[k].uri == rows[k].uri
         && proofs[k].submitter == wallet
  }

  ghost predicate SameRecords(rows: map<Key, SettlementRow>, records: C.Records) {
    && rows.Keys == records.Keys
    && forall k :: k in rows ==>
         && records[k].payout == rows[k].payout
         && (records[k].status == C.Claimed <==> rows[k].status == Claimed)
  }

  ghost predicate Rel(w: World, d: C.Deployment) {
    && SameEvents(w.db.events, w.chain.events)
    && SameProofs(w.db.proofs, w.chain.proofs, d.operator)
    && SameRecords(w.db.settlements, w.chain.records)
    && w.chain.services == {}
  }

  /** Every event's products stay below 2^255. */
  ghost predicate Bounded(db: Db) {
    forall e :: e in db.events ==>
        Payout.BoundedRates(db.events[e].targetKw, db.events[e].rewardRate, db.events[e].penaltyRate)
  }

  ghost predicate BoundedTurn(t: Turn) {
    t.Serve? && t.call.Create? ==>
        Payout.BoundedRates(t.call.req.targetKw, t.call.req.rewardRate, t.call.req.penaltyRate)
  }

  ghost predicate Inv(w: World, d: C.Deployment, hash: Hasher) {
    Rel(w, d) && DbInv(w.db, hash) && R.Inv(d, w.chain) && Bounded(w.db)
  }

  // ---- Which calls the contracts accept ----

  lemma TimesReadBack(req: CreateRequest)
    requires ValidRequest(req)
    ensures Seconds(TimeOrder.ToRfc3339(req.start)) == TimeOrder.UnixSeconds(req.start)
    ensures Seconds(TimeOrder.ToRfc3339(req.end)) == TimeOrder.UnixSeconds(req.end)
    ensures TimeOrder.LexLess(TimeOrder.ToRfc3339(req.start), TimeOrder.ToRfc3339(req.end))
       <==> TimeOrder.UnixSeconds(req.start) < TimeOrder.UnixSeconds(req.end)
  {
    TimeOrder.ParseInvertsText(req.start);
    TimeOrder.ParseInvertsText(req.end);
    TimeOrder.WindowTestsAgree(req.start, req.end);
  }

  /** A create that passes the local checks reverts only if a number does not fit its contract argument. */
  lemma CreateAcceptedIff(w: World, d: C.Deployment, hash: Hasher, req: CreateRequest, now: string, time: nat)
    requires Rel(w, d) && Operates(d) && ValidRequest(req) && CreateGuard(w.db, req) == None
    ensures C.Execute(d, w.chain, d.operator, time, ChainCall(w.db, hash, Create(req), now)).Ok?
       <==> C.Encodable(ChainCall(w.db, hash, Create(req), now))
  {
    TimesReadBack(req);
  }

  /** A close that passes the local checks is never rejected. */
  lemma CloseAccepted(w: World, d: C.Deployment, e: string, time: nat)
    requires Rel(w, d) && Operates(d) && CloseGuard(w.db, e) == None
    ensures C.Execute(d, w.chain, d.operator, time, C.CloseEvent(e)).Ok?
  {
  }

  lemma PayableWhenBounded(proofs: map<Key, C.SiteProof>, info: C.EventInfo, e: string, list: seq<string>)
    requires Payout.BoundedRates(info.targetKw, info.rewardRate, info.penaltyRate) && list != []
    requires forall s :: s in list ==> (e, s) in proofs
    ensures C.Payable(proofs, info, e, list, info.targetKw / |list|)
  {
    forall s | s in list
      ensures Payout.ContractPayout(proofs[(e, s)].reductionKwh, info.targetKw / |list|, info.rewardRate,
                                    info.penaltyRate).Some?
    {
      Payout.BoundedRatesAgree(proofs[(e, s)].reductionKwh, info.targetKw, |list|, info.rewardRate, info.penaltyRate);
    }
  }

  /** A settlement that passes the local checks is never rejected. */
  lemma SettleAccepted(w: World, d: C.Deployment, hash: Hasher, e: string, sites: seq<string>, time: nat)
    requires Inv(w, d, hash) && Operates(d) && SettleGuard(w.db, false, e, sites).Ok?
    ensures C.Execute(d, w.chain, d.operator, time, C.SettleEvent(e, SettleList(w.db, e, sites))).Ok?
  {
    hide Seconds, DbInv, R.Inv;
    var list := SettleList(w.db, e, sites);
    SettleListMembers(w.db, e, sites);
    SettleRowsOkIff(w.db, e, list, w.db.events[e].targetKw / |list|);
    hide SettleList, SettleRows;
    SiteListAccepted(w, d, e, list, time);
  }

  lemma SiteListAccepted(w: World, d: C.Deployment, e: string, list: seq<string>, time: nat)
    requires Rel(w, d) && Bounded(w.db) && Operates(d)
    requires e in w.db.events && w.db.events[e].status == EventStatus.Closed
    requires list != [] && NoDup(list) && AllSettleable(w.db, e, list)
    ensures C.Execute(d, w.chain, d.operator, time, C.SettleEvent(e, list)).Ok?
  {
    hide Seconds, C.SettleSites;
    var info := w.chain.events[e];
    forall s | s in list ensures (e, s) in w.chain.proofs && (e, s) !in w.chain.records {
      assert (e, s) in w.db.proofs;
    }
    PayableWhenBounded(w.chain.proofs, info, e, list);
    C.SettleSitesSucceedsIff(w.chain.proofs, w.chain.records, info, e, list, info.targetKw / |list|, time);
    assert C.Unrecorded(w.chain.records, e, list);
    hide Rel, Bounded;
  }

  /**
   A proof that passes the local checks is accepted exactly when nobody has posted one for the site and its numbers fit.
   */
  lemma ProofAcceptedIff(w: World, d: C.Deployment, hash: Hasher, req: ProofRequest, actor: string, now: string,
                         time: nat)
    requires Rel(w, d) && Operates(d) && ProofGuard(w.db, false, hash, req, now) == None
    ensures var sent := ChainCall(w.db, hash, SubmitProof(req, actor), now);
            C.Execute(d, w.chain, d.operator, time, sent).Ok? <==>
              (req.eventId, req.siteId) !in w.chain.proofs && C.Encodable(sent)
  {
  }

  /** A claim that passes the local checks reverts only when the Settlement account cannot pay it. */
  lemma ClaimAcceptedIff(w: World, d: C.Deployment, hash: Hasher, e: string, site: string, actor: string, time: nat)
    requires Rel(w, d) && Operates(d) && ClaimGuard(w.db, false, e, site, actor) == None
    ensures C.Execute(d, w.chain, d.operator, time, C.ClaimReward(e, site)).Ok?
       <==> w.db.settlements[(e, site)].payout <= w.chain.token.Balance(d.settlement)
  {
  }

  // ---- One turn keeps the relation ----

  lemma CreateKeepsRel(w: World, d: C.Deployment, hash: Hasher, req: CreateRequest, tx: Tx, now: string, time: nat)
    requires Rel(w, d) && ValidRequest(req) && CreateGuard(w.db, req) == None
    requires C.Execute(d, w.chain, d.operator, time, ChainCall(w.db, hash, Create(req), now)).Ok?
    ensures Rel(World(CreateCommit(w.db, req, tx, now),
                      C.Execute(d, w.chain, d.operator, time, ChainCall(w.db, hash, Create(req), now)).value), d)
  {
    hide Seconds;
  }

  lemma ProofKeepsRel(w: World, d: C.Deployment, hash: Hasher, req: ProofRequest, actor: string, tx: Tx, now: string,
                      time: nat)
    requires Rel(w, d) && ProofGuard(w.db, false, hash, req, now) == None
    requires C.Execute(d, w.chain, d.operator, time, ChainCall(w.db, hash, SubmitProof(req, actor), now)).Ok?
    ensures ProofCommit(w.db, hash, req, actor, tx, now).Ok?
    ensures Rel(World(ProofCommit(w.db, hash, req, actor, tx, now).value,
                      C.Execute(d, w.chain, d.operator, time,
                                ChainCall(w.db, hash, SubmitProof(req, actor), now)).value), d)
  {
    hide Seconds;
  }

  lemma CloseKeepsRel(w: World, d: C.Deployment, e: string, tx: Tx, now: string, time: nat)
    requires Rel(w, d) && CloseGuard(w.db, e) == None
    requires C.Execute(d, w.chain, d.operator, time, C.CloseEvent(e)).Ok?
    ensures Rel(World(CloseCommit(w.db, e, tx, now), C.Execute(d, w.chain, d.operator, time, C.CloseEvent(e)).value), d)
  {
    hide Seconds;
  }

  lemma ListedKeys(e: string, list: seq<string>)
    ensures forall k: Key :: k in (set s | s in list :: (e, s)) <==> k.0 == e && k.1 in list
  {
    forall k: Key | k.0 == e && k.1 in list ensures k in (set s | s in list :: (e, s)) {
      assert k == (e, k.1);
    }
  }

  /** The two settlements, described separately, write the same records. */
  lemma SettlementsMatch(w: World, d: C.Deployment, db: Db, chain: C.Chain, e: string, list: seq<string>, tx: Tx,
                         now: string, time: nat)
    requires Rel(w, d) && Bounded(w.db) && RowsOf(w.db, e) == {}
    requires Settles(w.db, db, e, list, tx, now)
    requires R.Settles(w.chain, chain, e, list, time)
    ensures SameRecords(db.settlements, chain.records)
  {
    hide Seconds;
    ListedKeys(e, list);
    var info := w.chain.events[e];
    var share := info.targetKw / |list|;
    assert C.SettledTogether(w.chain.proofs, w.chain.records, chain.records, info, e, list, share, time);
    forall k | k in db.settlements
      ensures k in chain.records
      ensures chain.records[k].payout == db.settlements[k].payout
      ensures chain.records[k].status == C.Claimed <==> db.settlements[k].status == Claimed
    {
      if k.0 == e {
        assert k !in RowsOf(w.db, e);
        assert k == (e, k.1) && k.1 in list;
        Payout.BoundedRatesAgree(w.chain.proofs[k].reductionKwh, info.targetKw, |list|, info.rewardRate,
                                 info.penaltyRate);
      } else {
        assert k in w.db.settlements && k in w.chain.records;
      }
    }
    assert db.settlements.Keys == chain.records.Keys by {
      forall k ensures k in db.settlements <==> k in chain.records {
        assert k in w.db.settlements <==> k in w.chain.records;
      }
    }
  }

  lemma SettleKeepsRel(w: World, d: C.Deployment, hash: Hasher, e: string, sites: seq<string>, tx: Tx, now: string,
                       time: nat)
    requires Inv(w, d, hash) && SettleGuard(w.db, false, e, sites).Ok?
    requires C.Execute(d, w.chain, d.operator, time, C.SettleEvent(e, SettleList(w.db, e, sites))).Ok?
    ensures Rel(World(SettleCommit(w.db, e, SettleGuard(w.db, false, e, sites).value, tx, now),
                      C.Execute(d, w.chain, d.operator, time, C.SettleEvent(e, SettleList(w.db, e, sites))).value), d)
  {
    hide Seconds, C.SettleSites, SettleRows, InsertRows, SettleList;
    var list := SettleList(w.db, e, sites);
    var db := SettleCommit(w.db, e, SettleGuard(w.db, false, e, sites).value, tx, now);
    var chain := C.Execute(d, w.chain, d.operator, time, C.SettleEvent(e, list)).value;
    SettleCommitSettles(w.db, false, e, sites, tx, now);
    R.SettleEventSettles(d, w.chain, d.operator, time, e, list);
    SettlementsMatch(w, d, db, chain, e, list, tx, now, time);
    assert SameEvents(db.events, chain.events);
  }

  lemma ClaimKeepsRecords(rows: map<Key, SettlementRow>, records: C.Records, k: Key, tx: Tx, now: string, at: nat)
    requires SameRecords(rows, records) && k in rows
    ensures SameRecords(rows[k := rows[k].(status := Claimed, claimedAt := Some(now), claimTx := Some(tx))],
                        records[k := records[k].(status := C.Claimed, claimedAt := at)])
  {
  }

  lemma ClaimOnChain(d: C.Deployment, c: C.Chain, n: C.Chain, e: string, site: string, time: nat)
    requires C.Execute(d, c, d.operator, time, C.ClaimReward(e, site)) == Ok(n)
    ensures (e, site) in c.records
    ensures var claimed := c.records[(e, site)].(status := C.Claimed, claimedAt := C.Uint64(time));
            n == c.(records := c.records[(e, site) := claimed], token := n.token)
  {
  }

  lemma ClaimKeepsRel(w: World, d: C.Deployment, e: string, site: string, tx: Tx, now: string, time: nat)
    requires Rel(w, d) && (e, site) in w.db.settlements
    requires C.Execute(d, w.chain, d.operator, time, C.ClaimReward(e, site)).Ok?
    ensures Rel(World(ClaimCommit(w.db, e, site, tx, now),
                      C.Execute(d, w.chain, d.operator, time, C.ClaimReward(e, site)).value), d)
  {
    hide SameEvents, SameProofs, SameRecords, C.Execute;
    ClaimOnChain(d, w.chain, C.Execute(d, w.chain, d.operator, time, C.ClaimReward(e, site)).value, e, site, time);
    ClaimKeepsRecords(w.db.settlements, w.chain.records, (e, site), tx, now, C.Uint64(time));
  }

  lemma ClaimNeedsOwnProof(d: C.Deployment, c: C.Chain, sender: T.Address, time: nat, id: C.Id, site: C.Id)
    requires (id, site) in c.records && (id, site) in c.proofs ==> c.proofs[(id, site)].submitter != sender
    ensures R.Step(d, c, R.Tx(sender, time, C.ClaimReward(id, site))) == c
  {
  }

  lemma RecordsAreOurs(w: World, d: C.Deployment, hash: Hasher, k: Key)
    requires Rel(w, d) && DbInv(w.db, hash) && k in w.chain.records
    ensures k in w.chain.proofs && w.chain.proofs[k].submitter == d.operator
  {
    hide Seconds, SameEvents, EventsShaped, ProofsShaped, OneSettleTx;
    assert k in w.db.settlements;
  }

  /** Without a settled proof of its own an account cannot claim: every record's proof is the service's. */
  lemma ForeignClaimRejected(w: World, d: C.Deployment, hash: Hasher, t: Turn)
    requires Inv(w, d, hash) && t.Foreign? && WellFormedTurn(w, d, t) && t.chainCall.ClaimReward?
    ensures Step(w, d, hash, t) == w
  {
    var k := (t.chainCall.id, t.chainCall.site);
    if k in w.chain.records {
      RecordsAreOurs(w, d, hash, k);
    }
    hide Inv, R.Step;
    ClaimNeedsOwnProof(d, w.chain, t.sender, t.time, t.chainCall.id, t.chainCall.site);
  }

  /** Without a role an account can post proofs, move its own tokens, and nothing else but claim. */
  lemma ForeignReach(d: C.Deployment, c: C.Chain, sender: T.Address, time: nat, call: C.Call)
    requires Operates(d) && c.services == {} && sender != d.operator && sender != d.settlement && !call.ClaimReward?
    ensures var n := R.Step(d, c, R.Tx(sender, time, call));
            && n.events == c.events && n.records == c.records && n.services == {}
            && (forall k :: k in c.proofs ==> k in n.proofs && n.proofs[k] == c.proofs[k])
            && (forall k :: k in n.proofs && k !in c.proofs ==>
                 call.SubmitProof? && k == (call.id, call.site) && C.Execute(d, c, sender, time, call).Ok?)
  {
    hide C.SettleSites;
  }

  lemma ForeignKeepsRel(w: World, d: C.Deployment, hash: Hasher, t: Turn)
    requires Inv(w, d, hash) && Operates(d) && t.Foreign? && WellFormedTurn(w, d, t)
    ensures Rel(Step(w, d, hash, t), d)
  {
    if t.chainCall.ClaimReward? {
      ForeignClaimRejected(w, d, hash, t);
    } else {
      ForeignReach(d, w.chain, t.sender, t.time, t.chainCall);
    }
    hide Seconds, DbInv, R.Inv, Bounded, R.Step, Operates;
  }

  /** A served call that reaches the chain and is accepted there is also written, and the two stay related. */
  lemma ServeKeepsRel(w: World, d: C.Deployment, hash: Hasher, call: ServiceCall, tx: Tx, now: string, time: nat)
    requires Inv(w, d, hash) && WellFormed(w.db, call) && !call.Pass? && !call.RequestAudit?
    requires ChecksPass(w.db, hash, call, now)
    requires C.Execute(d, w.chain, d.operator, time, ChainCall(w.db, hash, call, now)).Ok?
    ensures Perform(w.db, false, hash, call, tx, now).Ok?
    ensures Rel(World(Perform(w.db, false, hash, call, tx, now).value,
                      C.Execute(d, w.chain, d.operator, time, ChainCall(w.db, hash, call, now)).value), d)
  {
    hide Seconds, C.SettleSites, SettleRows, InsertRows, SettleList, Settles, SameEvents, SameProofs, SameRecords;
    match call
    case Create(req) => CreateKeepsRel(w, d, hash, req, tx, now, time);
    case SubmitProof(req, actor) => ProofKeepsRel(w, d, hash, req, actor, tx, now, time);
    case Close(e) => CloseKeepsRel(w, d, e, tx, now, time);
    case Settle(e, sites) => SettleKeepsRel(w, d, hash, e, sites, tx, now, time);
    case Claim(e, site, _) => ClaimKeepsRel(w, d, e, site, tx, now, time);
  }

  lemma PerformKeepsBounded(db: Db, hash: Hasher, call: ServiceCall, tx: Tx, now: string)
    requires Bounded(db) && WellFormed(db, call) && Perform(db, false, hash, call, tx, now).Ok? && !call.Pass?
    requires call.Create? ==> Payout.BoundedRates(call.req.targetKw, call.req.rewardRate, call.req.penaltyRate)
    ensures Bounded(Perform(db, false, hash, call, tx, now).value)
  {
  }

  lemma ForeignKeepsInv(w: World, d: C.Deployment, hash: Hasher, t: Turn)
    requires Inv(w, d, hash) && Operates(d) && t.Foreign? && WellFormedTurn(w, d, t)
    ensures Inv(Step(w, d, hash, t), d, hash)
  {
    ForeignKeepsRel(w, d, hash, t);
    hide Rel, DbInv, R.Inv, Bounded, Operates, R.Step;
    R.StepKeepsInv(d, w.chain, R.Tx(t.sender, t.time, t.chainCall));
  }

  lemma AuditKeepsInv(w: World, d: C.Deployment, hash: Hasher, t: Turn)
    requires Inv(w, d, hash) && WellFormedTurn(w, d, t) && t.Serve? && t.call.RequestAudit?
    ensures Inv(Step(w, d, hash, t), d, hash)
  {
    hide DbInv, R.Inv, SameEvents, SameProofs, SameRecords;
    TakeKeepsDbInv(w.db, false, hash, DbRuns.Turn(t.call, None, t.now));
  }

  /** The call's write and its execution, when both happened. */
  lemma WorldKeepsInv(w: World, n: World, d: C.Deployment, hash: Hasher, call: ServiceCall, tx: Tx, now: string,
                      time: nat)
    requires Inv(w, d, hash) && Operates(d) && WellFormed(w.db, call) && !call.Pass? && !call.RequestAudit?
    requires ChecksPass(w.db, hash, call, now)
    requires call.Create? ==> Payout.BoundedRates(call.req.targetKw, call.req.rewardRate, call.req.penaltyRate)
    requires C.Execute(d, w.chain, d.operator, time, ChainCall(w.db, hash, call, now)) == Ok(n.chain)
    requires Perform(w.db, false, hash, call, tx, now) == Ok(n.db)
    ensures Inv(n, d, hash)
  {
    ServeKeepsRel(w, d, hash, call, tx, now, time);
    hide Rel, DbInv, R.Inv, Bounded, Perform, ChecksPass, ChainCall, C.Execute, Operates, Payout.BoundedRates;
    PerformKeepsDbInv(w.db, false, hash, call, tx, now);
    PerformKeepsBounded(w.db, hash, call, tx, now);
    OperatorStep(w.chain, n.chain, d, time, ChainCall(w.db, hash, call, now));
  }

  lemma OperatorStep(c: C.Chain, n: C.Chain, d: C.Deployment, time: nat, call: C.Call)
    requires R.Inv(d, c) && Operates(d) && C.Execute(d, c, d.operator, time, call) == Ok(n)
    ensures R.Inv(d, n)
  {
    hide R.Inv, C.Execute;
    R.StepKeepsInv(d, c, R.Tx(d.operator, time, call));
  }

  lemma ServeKeepsInv(w: World, d: C.Deployment, hash: Hasher, t: Turn)
    requires Inv(w, d, hash) && Operates(d) && WellFormedTurn(w, d, t) && BoundedTurn(t) && t.Serve?
             && !t.call.RequestAudit?
    ensures Inv(Step(w, d, hash, t), d, hash)
  {
    hide Inv, Perform, ChecksPass, C.Execute, Operates, Payout.BoundedRates;
    WritesNeedAcceptance(w, d, hash, t);
    var n := Step(w, d, hash, t);
    hide Step;
    if n != w {
      WorldKeepsInv(w, n, d, hash, t.call, t.tx, t.now, t.time);
    }
  }

  lemma StepKeepsInv(w: World, d: C.Deployment, hash: Hasher, t: Turn)
    requires Inv(w, d, hash) && Operates(d) && WellFormedTurn(w, d, t) && BoundedTurn(t)
    ensures Inv(Step(w, d, hash, t), d, hash)
  {
    hide Inv, Step, Operates, WellFormedTurn, BoundedTurn;
    if t.Foreign? {
      ForeignKeepsInv(w, d, hash, t);
    } else if t.call.RequestAudit? {
      AuditKeepsInv(w, d, hash, t);
    } else {
      ServeKeepsInv(w, d, hash, t);
    }
  }

  // ---- Whole runs ----

  ghost predicate LegalRun(w: World, d: C.Deployment, hash: Hasher, turns: seq<Turn>)
    decreases |turns|
  {
    turns == []
    || (WellFormedTurn(w, d, turns[0]) && BoundedTurn(turns[0])
        && LegalRun(Step(w, d, hash, turns[0]), d, hash, turns[1..]))
  }

  ghost function Run(w: World, d: C.Deployment, hash: Hasher, turns: seq<Turn>): World
    requires LegalRun(w, d, hash, turns)
    decreases |turns|
  {
    if turns == [] then w else Run(Step(w, d, hash, turns[0]), d, hash, turns[1..])
  }

  lemma {:induction false} RunKeepsInv(w: World, d: C.Deployment, hash: Hasher, turns: seq<Turn>)
    requires Inv(w, d, hash) && Operates(d) && LegalRun(w, d, hash, turns)
    ensures Inv(Run(w, d, hash, turns), d, hash)
    decreases |turns|
  {
    if turns != [] {
      StepKeepsInv(w, d, hash, turns[0]);
      RunKeepsInv(Step(w, d, hash, turns[0]), d, hash, turns[1..]);
    }
  }

  /**
   From empty tables and fresh contracts, every sync run keeps tables and chain related, whatever other accounts do.
   */
  lemma SyncRunsStayRelated(d: C.Deployment, hash: Hasher, owner: T.Address, supply: nat, turns: seq<Turn>)
    requires Operates(d) && T.DeployDrt(owner, supply).Ok?
    requires LegalRun(World(EMPTY_DB, R.Fresh(T.DeployDrt(owner, supply).value)), d, hash, turns)
    ensures Rel(Run(World(EMPTY_DB, R.Fresh(T.DeployDrt(owner, supply).value)), d, hash, turns), d)
    ensures Inv(Run(World(EMPTY_DB, R.Fresh(T.DeployDrt(owner, supply).value)), d, hash, turns), d, hash)
  {
    R.FreshSatisfiesInv(d, owner, supply);
    EmptyDbInv(hash);
    RunKeepsInv(World(EMPTY_DB, R.Fresh(T.DeployDrt(owner, supply).value)), d, hash, turns);
  }

  /** The tables change on a served call exactly together with an accepted contract call. */
  lemma WritesNeedAcceptance(w: World, d: C.Deployment, hash: Hasher, t: Turn)
    requires Inv(w, d, hash) && WellFormedTurn(w, d, t) && t.Serve? && !t.call.RequestAudit?
    ensures var next := Step(w, d, hash, t);
            if ChecksPass(w.db, hash, t.call, t.now) && t.online
               && C.Execute(d, w.chain, d.operator, t.time, ChainCall(w.db, hash, t.call, t.now)).Ok?
            then && Perform(w.db, false, hash, t.call, t.tx, t.now) == Ok(next.db)
                 && C.Execute(d, w.chain, d.operator, t.time, ChainCall(w.db, hash, t.call, t.now)) == Ok(next.chain)
            else next == w
  {
    if ChecksPass(w.db, hash, t.call, t.now) && t.online
       && C.Execute(d, w.chain, d.operator, t.time, ChainCall(w.db, hash, t.call, t.now)).Ok? {
      ServeKeepsRel(w, d, hash, t.call, t.tx, t.now, t.time);
    }
  }

  // ---- Proofs of other accounts ----

  /** A proof on the chain that the service has no row for. */
  ghost predicate Stray(w: World, k: Key) {
    k in w.chain.proofs && k !in w.db.proofs
  }

  ghost predicate PostsProof(w: World, d: C.Deployment, t: Turn, k: Key) {
    && t.Foreign? && t.chainCall.SubmitProof? && k == (t.chainCall.id, t.chainCall.site)
    && C.Execute(d, w.chain, t.sender, t.time, t.chainCall).Ok?
  }

  /** Some accepted call of another account posts a proof for the site. */
  ghost predicate ForeignPosts(w: World, d: C.Deployment, hash: Hasher, turns: seq<Turn>, k: Key)
    requires LegalRun(w, d, hash, turns)
    decreases |turns|
  {
    turns != [] && (PostsProof(w, d, turns[0], k) || ForeignPosts(Step(w, d, hash, turns[0]), d, hash, turns[1..], k))
  }

  lemma ForeignStraysIff(w: World, d: C.Deployment, hash: Hasher, t: Turn, k: Key)
    requires Inv(w, d, hash) && Operates(d) && t.Foreign? && WellFormedTurn(w, d, t)
    ensures Stray(Step(w, d, hash, t), k) <==> Stray(w, k) || PostsProof(w, d, t, k)
  {
    if t.chainCall.ClaimReward? {
      ForeignClaimRejected(w, d, hash, t);
    } else {
      ForeignReach(d, w.chain, t.sender, t.time, t.chainCall);
    }
    if PostsProof(w, d, t, k) {
      assert k !in w.chain.proofs && k in Step(w, d, hash, t).chain.proofs;
      assert k !in w.db.proofs;
    }
    hide Seconds, DbInv, R.Inv, Bounded, SameEvents, SameRecords, R.Step, Operates;
  }

  lemma PerformAddsProof(db: Db, hash: Hasher, call: ServiceCall, tx: Tx, now: string, k: Key)
    requires WellFormed(db, call) && !call.Pass? && Perform(db, false, hash, call, tx, now).Ok?
    ensures k in Perform(db, false, hash, call, tx, now).value.proofs <==>
      k in db.proofs || (call.SubmitProof? && k == (call.proof.eventId, call.proof.siteId))
  {
    hide SettleGuard, InsertRows, CreateGuard, CloseGuard, ClaimGuard, ProofGuard;
  }

  lemma ExecuteAddsProof(d: C.Deployment, c: C.Chain, time: nat, call: C.Call, k: Key)
    requires C.Execute(d, c, d.operator, time, call).Ok?
    ensures k in C.Execute(d, c, d.operator, time, call).value.proofs <==>
      k in c.proofs || (call.SubmitProof? && k == (call.id, call.site))
    ensures call.SubmitProof? ==> (call.id, call.site) !in c.proofs
  {
    hide C.SettleSites;
  }

  lemma ProofCallKey(db: Db, hash: Hasher, call: ServiceCall, now: string)
    requires WellFormed(db, call) && !call.Pass? && !call.RequestAudit?
    ensures var sent := ChainCall(db, hash, call, now);
            && sent.SubmitProof? == call.SubmitProof?
            && (call.SubmitProof? ==> sent.id == call.proof.eventId && sent.site == call.proof.siteId)
  {
    hide Seconds, SettleList;
  }

  /** An executed and written call adds its proof on both sides, so it leaves no stray one. */
  lemma CallStraysIff(w: World, n: World, d: C.Deployment, hash: Hasher, t: Turn, k: Key)
    requires t.Serve? && WellFormed(w.db, t.call) && !t.call.Pass? && !t.call.RequestAudit?
    requires Perform(w.db, false, hash, t.call, t.tx, t.now) == Ok(n.db)
    requires C.Execute(d, w.chain, d.operator, t.time, ChainCall(w.db, hash, t.call, t.now)) == Ok(n.chain)
    ensures Stray(n, k) <==> Stray(w, k)
  {
    var sent := ChainCall(w.db, hash, t.call, t.now);
    hide Perform, C.Execute, ChainCall, WellFormed;
    ProofCallKey(w.db, hash, t.call, t.now);
    PerformAddsProof(w.db, hash, t.call, t.tx, t.now, k);
    ExecuteAddsProof(d, w.chain, t.time, sent, k);
  }

  lemma AuditStraysIff(w: World, d: C.Deployment, hash: Hasher, t: Turn, k: Key)
    requires t.Serve? && t.call.RequestAudit? && WellFormedTurn(w, d, t)
    ensures Stray(Step(w, d, hash, t), k) <==> Stray(w, k)
  {
  }

  lemma ServeStraysIff(w: World, d: C.Deployment, hash: Hasher, t: Turn, k: Key)
    requires Inv(w, d, hash) && t.Serve? && WellFormedTurn(w, d, t)
    ensures Stray(Step(w, d, hash, t), k) <==> Stray(w, k)
  {
    if t.call.RequestAudit? {
      AuditStraysIff(w, d, hash, t, k);
    } else {
      hide Inv, Step, ChecksPass, Perform, C.Execute, ChainCall, WellFormed, Stray;
      WritesNeedAcceptance(w, d, hash, t);
      if Step(w, d, hash, t) != w {
        CallStraysIff(w, Step(w, d, hash, t), d, hash, t, k);
      }
    }
  }

  /** At the end of a run the chain holds a proof the tables lack exactly when another account posted it. */
  lemma {:induction false} StrayIffForeign(w: World, d: C.Deployment, hash: Hasher, turns: seq<Turn>, k: Key)
    requires Inv(w, d, hash) && Operates(d) && LegalRun(w, d, hash, turns)
    ensures Stray(Run(w, d, hash, turns), k) <==> Stray(w, k) || ForeignPosts(w, d, hash, turns, k)
    decreases |turns|
  {
    hide Inv, Step, Operates, WellFormedTurn, BoundedTurn, Stray, PostsProof;
    if turns != [] {
      StepKeepsInv(w, d, hash, turns[0]);
      StrayIffForeign(Step(w, d, hash, turns[0]), d, hash, turns[1..], k);
      if turns[0].Foreign? {
        ForeignStraysIff(w, d, hash, turns[0], k);
      } else {
        ServeStraysIff(w, d, hash, turns[0], k);
        NoPost(w, d, turns[0], k);
      }
    }
  }

  lemma NoPost(w: World, d: C.Deployment, t: Turn, k: Key)
    requires t.Serve?
    ensures !PostsProof(w, d, t, k)
  {
  }

  /**
   Such a proof blocks the site: the service's own first proof passes its checks and reverts, after any further run.
   */
  lemma StrayProofBlocks(w: World, d: C.Deployment, hash: Hasher, turns: seq<Turn>, req: ProofRequest, actor: string,
                         now: string, time: nat)
    requires Inv(w, d, hash) && Operates(d) && LegalRun(w, d, hash, turns)
    requires Stray(w, (req.eventId, req.siteId)) || ForeignPosts(w, d, hash, turns, (req.eventId, req.siteId))
    ensures var n := Run(w, d, hash, turns);
            && (req.eventId, req.siteId) !in n.db.proofs
            && (ProofGuard(n.db, false, hash, req, now) == None ==>
                 C.Execute(d, n.chain, d.operator, time, ChainCall(n.db, hash, SubmitProof(req, actor), now)).Err?)
  {
    StrayIffForeign(w, d, hash, turns, (req.eventId, req.siteId));
    RunKeepsInv(w, d, hash, turns);
    var n := Run(w, d, hash, turns);
    hide Run, LegalRun, ForeignPosts;
    if ProofGuard(n.db, false, hash, req, now) == None {
      ProofAcceptedIff(n, d, hash, req, actor, now, time);
    }
  }

  /**
   After any run from the start, the first proof of a site that passes its checks reverts exactly when another account
   has posted one, or a number does not fit.
   */
  lemma FirstProofRevertsIff(d: C.Deployment, hash: Hasher, owner: T.Address, supply: nat, turns: seq<Turn>,
                             req: ProofRequest, actor: string, now: string, time: nat)
    requires Operates(d) && T.DeployDrt(owner, supply).Ok?
    requires LegalRun(World(EMPTY_DB, R.Fresh(T.DeployDrt(owner, supply).value)), d, hash, turns)
    requires var n := Run(World(EMPTY_DB, R.Fresh(T.DeployDrt(owner, supply).value)), d, hash, turns);
             ProofGuard(n.db, false, hash, req, now) == None && (req.eventId, req.siteId) !in n.db.proofs
    ensures var start := World(EMPTY_DB, R.Fresh(T.DeployDrt(owner, supply).value));
            var n := Run(start, d, hash, turns);
            var sent := ChainCall(n.db, hash, SubmitProof(req, actor), now);
            C.Execute(d, n.chain, d.operator, time, sent).Err? <==>
              ForeignPosts(start, d, hash, turns, (req.eventId, req.siteId)) || !C.Encodable(sent)
  {
    hide *;
    var start, k := World(EMPTY_DB, R.Fresh(T.DeployDrt(owner, supply).value)), (req.eventId, req.siteId);
    StartHasNoStray(d, hash, owner, supply, k);
    SyncRunsStayRelated(d, hash, owner, supply, turns);
    StrayIffForeign(start, d, hash, turns, k);
    FirstProofAtEnd(Run(start, d, hash, turns), d, hash, req, actor, now, time);
  }

  lemma StartHasNoStray(d: C.Deployment, hash: Hasher, owner: T.Address, supply: nat, k: Key)
    requires T.DeployDrt(owner, supply).Ok?
    ensures var start := World(EMPTY_DB, R.Fresh(T.DeployDrt(owner, supply).value));
            Inv(start, d, hash) && !Stray(start, k)
  {
    R.FreshSatisfiesInv(d, owner, supply);
    EmptyDbInv(hash);
  }

  lemma FirstProofAtEnd(w: World, d: C.Deployment, hash: Hasher, req: ProofRequest, actor: string, now: string,
                        time: nat)
    requires Rel(w, d) && Operates(d) && ProofGuard(w.db, false, hash, req, now) == None
    requires (req.eventId, req.siteId) !in w.db.proofs
    ensures var sent := ChainCall(w.db, hash, SubmitProof(req, actor), now);
            C.Execute(d, w.chain, d.operator, time, sent).Err? <==>
              Stray(w, (req.eventId, req.siteId)) || !C.Encodable(sent)
  {
    hide Rel, Operates, C.Execute, C.Encodable, ChainCall, ProofGuard;
    ProofAcceptedIff(w, d, hash, req, actor, now, time);
  }

  /** On any active event any account can post such a proof for a site that has none yet. */
  lemma AnyoneCanPost(w: World, d: C.Deployment, hash: Hasher, k: Key, sender: T.Address, time: nat)
    requires Inv(w, d, hash) && k.0 in w.db.events && w.db.events[k.0].status == EventStatus.Active
             && k !in w.chain.proofs
    requires sender != d.operator && sender != d.settlement && sender != T.ZERO_ADDRESS
    ensures var t := Foreign(sender, C.SubmitProof(k.0, k.1, 0, 0, "", ""), time);
            WellFormedTurn(w, d, t) && PostsProof(w, d, t, k) && Stray(Step(w, d, hash, t), k)
  {
    hide Seconds, DbInv, R.Inv, Bounded;
  }
}
