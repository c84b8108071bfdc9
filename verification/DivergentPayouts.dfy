/**
 Hybrid mode can pay something else than a row says: the chain holds another reading of the site than the tables do.
 Where the chain's reading comes from, when it is the row's own, and runs in which it is not.
 */
module DivergentPayouts {
  import opened Common
  import opened Database
  import opened Reconcile
  import opened Submitter
  import opened DbRuns
  import opened Lifecycle
  import opened HybridSteps
  import H = HybridGating
  import HL = HybridLifecycle
  import SH = SharedHashes
  import S = SyncSimulation
  import Completion
  import C = Contracts
  import R = ChainRuns
  import T = Tokens
  import Payout
  import TimeOrder

  // ---- When the payouts agree ----

  /** The slot's transaction is confirmed on the chain, whether or not a pass has seen it. */
  ghost predicate Stands(w: H.World, y: Slot) {
    TxAt(w.db, y).Some? && TxAt(w.db, y).value.hash in w.txs && w.txs[TxAt(w.db, y).value.hash].state == Confirmed
  }

  lemma SeenStands(w: H.World, d: C.Deployment, hash: Hasher, y: Slot)
    requires H.Inv(w, d, hash) && TxAt(w.db, y).Some? && TxAt(w.db, y).value.state == Confirmed
    ensures Stands(w, y)
  {
    hide H.Backs, H.OnChain, DbInv, R.Inv, H.Gates;
    assert H.SlotTrue(w.db, w.txs, y);
  }

  lemma StandsOnChain(w: H.World, d: C.Deployment, hash: Hasher, y: Slot)
    requires H.Inv(w, d, hash) && Stands(w, y)
    ensures var call := w.txs[TxAt(w.db, y).value.hash].call; H.Backs(w.db, y, call) && H.OnChain(w.chain, call)
  {
    hide H.Backs, H.OnChain, DbInv, R.Inv, H.Gates;
    assert H.SlotTrue(w.db, w.txs, y);
  }

  lemma SameSites(w: H.World, e: string, s: string, sites: seq<C.Id>)
    requires H.Backs(w.db, SettleTx(e, s), C.SettleEvent(e, sites))
    ensures (set t | t in sites :: (e, t)) == RowsOf(w.db, e)
  {
    var listed := set t | t in sites :: (e, t);
    forall j: Key ensures j in listed <==> j in RowsOf(w.db, e) {
      assert j == (j.0, j.1);
    }
  }

  lemma RecordedSites(c: C.Chain, e: C.Id, sites: seq<C.Id>, k: Key)
    requires H.OnChain(c, C.SettleEvent(e, sites)) && R.RecordsAnchored(c) && k in (set t | t in sites :: (e, t))
    ensures k in c.records && k in c.proofs
    ensures R.SitesOf(c.records, e) == (set t | t in sites :: (e, t))
  {
    assert k in R.SitesOf(c.records, e);
  }

  lemma SettleBacking(db: Db, e: string, s: string, call: C.Call)
    requires H.Backs(db, SettleTx(e, s), call)
    ensures call.SettleEvent? && call.id == e
  {
  }

  lemma RowsOnChain(w: H.World, d: C.Deployment, hash: Hasher, k: Key)
    requires H.Inv(w, d, hash) && k in w.db.settlements && Stands(w, SettleTx(k.0, k.1))
    ensures R.SitesOf(w.chain.records, k.0) == RowsOf(w.db, k.0) && k in w.chain.records && k in w.chain.proofs
  {
    StandsOnChain(w, d, hash, SettleTx(k.0, k.1));
    GoodChain(w, d, hash);
    assert k == (k.0, k.1) && k in RowsOf(w.db, k.0);
    var call := w.txs[TxAt(w.db, SettleTx(k.0, k.1)).value.hash].call;
    hide *;
    SettleBacking(w.db, k.0, k.1, call);
    SameSites(w, k.0, k.1, call.sites);
    RecordedSites(w.chain, k.0, call.sites, k);
  }

  lemma GoodChain(w: H.World, d: C.Deployment, hash: Hasher)
    requires H.Inv(w, d, hash)
    ensures R.RecordsAnchored(w.chain)
  {
  }

  function PriceOf(db: Db, k: Key, reduction: nat, n: nat): int
    requires k.0 in db.events && n > 0
  {
    Payout.CalculatePayout(reduction, db.events[k.0].targetKw / n, db.events[k.0].rewardRate,
                           db.events[k.0].penaltyRate)
  }

  /** Once the settlement stands, the row and the record are the same formula over the two readings. */
  lemma PayoutsFromReadings(w: H.World, d: C.Deployment, hash: Hasher, k: Key)
    requires H.Inv(w, d, hash) && k in w.db.settlements && Stands(w, SettleTx(k.0, k.1))
    requires k.0 in w.db.events
    requires Payout.BoundedRates(w.db.events[k.0].targetKw, w.db.events[k.0].rewardRate, w.db.events[k.0].penaltyRate)
    ensures k in w.db.proofs && k in w.chain.records && k in w.chain.proofs && RowsOf(w.db, k.0) != {}
    ensures w.db.settlements[k].payout == PriceOf(w.db, k, w.db.proofs[k].reductionKwh, |RowsOf(w.db, k.0)|)
    ensures w.chain.records[k].payout == PriceOf(w.db, k, w.chain.proofs[k].reductionKwh, |RowsOf(w.db, k.0)|)
  {
    RowsOnChain(w, d, hash, k);
    assert k in w.db.proofs;
    H.ProofRowGated(w, d, hash, k);
    R.ReplayInServiceTerms(d, w.chain, k);
    hide S.Seconds, H.SlotsTrue, H.MinedOnChain, H.Gates, Payout.CalculatePayout, EventsShaped, ProofsShaped,
         OneSettleTx, R.Inv;
  }

  /** When the settlement and the row's own proof stand on the chain, the chain pays what the row says. */
  lemma StandingPayoutsAgree(w: H.World, d: C.Deployment, hash: Hasher, k: Key)
    requires H.Inv(w, d, hash) && k in w.db.settlements && k.0 in w.db.events
    requires Stands(w, SettleTx(k.0, k.1)) && Stands(w, ProofTx(k.0, k.1))
    requires Payout.BoundedRates(w.db.events[k.0].targetKw, w.db.events[k.0].rewardRate, w.db.events[k.0].penaltyRate)
    ensures k in w.chain.records && w.chain.records[k].payout == w.db.settlements[k].payout
  {
    PayoutsFromReadings(w, d, hash, k);
    OwnReading(w, d, hash, k);
    hide H.Inv, Payout.CalculatePayout, Payout.BoundedRates;
  }

  lemma OwnReading(w: H.World, d: C.Deployment, hash: Hasher, k: Key)
    requires H.Inv(w, d, hash) && k in w.db.proofs && Stands(w, ProofTx(k.0, k.1))
    ensures k in w.chain.proofs && w.chain.proofs[k].reductionKwh == w.db.proofs[k].reductionKwh
  {
    assert k == (k.0, k.1);
    StandsOnChain(w, d, hash, ProofTx(k.0, k.1));
    hide S.Seconds, H.SlotsTrue, H.MinedOnChain, H.Gates;
  }

  // ---- Where the chain's reading comes from ----

  ghost predicate Posts(call: C.Call, k: Key) {
    call.SubmitProof? && call.id == k.0 && call.site == k.1
  }

  /** A confirmed transaction of the service put the chain's reading there. */
  ghost predicate PostedBy(w: H.World, k: Key, h: string) {
    && h in w.txs && w.txs[h].state == Confirmed && Posts(w.txs[h].call, k) && k in w.chain.proofs
    && w.chain.proofs[k].baselineKwh == w.txs[h].call.baselineKwh
    && w.chain.proofs[k].actualKwh == w.txs[h].call.actualKwh
  }

  ghost predicate PostedByService(w: H.World, k: Key) {
    exists h :: PostedBy(w, k, h)
  }

  /** The run holds another caller's accepted submitProof for the site. */
  ghost predicate PostedByOther(w: H.World, d: C.Deployment, hash: Hasher, actions: seq<H.Action>, k: Key)
    requires H.LegalRun(w, d, hash, actions)
    decreases |actions|
  {
    && actions != []
    && ((actions[0].Foreign? && Posts(actions[0].chainCall, k)
         && C.Execute(d, w.chain, actions[0].sender, actions[0].time, actions[0].chainCall).Ok?)
        || PostedByOther(H.Step(w, d, hash, actions[0]), d, hash, actions[1..], k))
  }

  lemma OnlyProofCallsPost(d: C.Deployment, c: C.Chain, sender: T.Address, time: nat, call: C.Call, k: Key)
    requires C.Execute(d, c, sender, time, call).Ok? && !Posts(call, k)
    ensures k in C.Execute(d, c, sender, time, call).value.proofs <==> k in c.proofs
  {
    assert k == (k.0, k.1);
  }

  lemma PostedStays(w: H.World, n: H.World, k: Key)
    requires PostedByService(w, k) && R.ProofsEvolve(w.chain, n.chain)
    requires forall h :: h in w.txs && w.txs[h].state == Confirmed ==> h in n.txs && n.txs[h] == w.txs[h]
    ensures PostedByService(n, k)
  {
    var h :| PostedBy(w, k, h);
    assert PostedBy(n, k, h);
  }

  /** Confirmed transactions stay, and the chain's proofs only grow. */
  lemma StepKeepsConfirmed(w: H.World, d: C.Deployment, hash: Hasher, a: H.Action)
    requires H.Enabled(w, d, a)
    ensures var n := H.Step(w, d, hash, a);
            && (forall h :: h in w.txs && w.txs[h].state == Confirmed ==> h in n.txs && n.txs[h] == w.txs[h])
            && R.ProofsEvolve(w.chain, n.chain)
  {
    hide Perform, H.ChecksPass, Take, Reconciled, S.ChainCall, WellFormed, Visits;
    if a.Mine? {
      R.StepEvolves(d, w.chain, R.Tx(d.operator, a.time, w.txs[a.hash].call));
    } else if a.Foreign? {
      R.StepEvolves(d, w.chain, R.Tx(a.sender, a.time, a.chainCall));
    }
    hide C.Execute;
  }

  lemma MinedProofPosted(w: H.World, d: C.Deployment, hash: Hasher, a: H.Action, k: Key)
    requires H.Enabled(w, d, a) && a.Mine? && k !in w.chain.proofs && k in H.Step(w, d, hash, a).chain.proofs
    ensures PostedByService(H.Step(w, d, hash, a), k)
  {
    assert k == (k.0, k.1);
    var n := H.Step(w, d, hash, a);
    if !Posts(w.txs[a.hash].call, k) {
      OnlyProofCallsPost(d, w.chain, d.operator, a.time, w.txs[a.hash].call, k);
    }
    assert PostedBy(n, k, a.hash);
  }

  lemma StepSources(w: H.World, d: C.Deployment, hash: Hasher, a: H.Action, k: Key)
    requires H.Enabled(w, d, a) && (k in w.chain.proofs ==> PostedByService(w, k))
    requires a.Foreign? && Posts(a.chainCall, k) ==> C.Execute(d, w.chain, a.sender, a.time, a.chainCall).Err?
    ensures k in H.Step(w, d, hash, a).chain.proofs ==> PostedByService(H.Step(w, d, hash, a), k)
  {
    StepKeepsConfirmed(w, d, hash, a);
    var n := H.Step(w, d, hash, a);
    hide PostedByService, R.ProofsEvolve;
    if k in w.chain.proofs {
      PostedStays(w, n, k);
    } else if k in n.chain.proofs {
      hide Perform, H.ChecksPass, Take, Reconciled, S.ChainCall, WellFormed, Visits, C.Execute;
      if a.Mine? {
        MinedProofPosted(w, d, hash, a, k);
      } else if a.Foreign? {
        OnlyProofCallsPost(d, w.chain, a.sender, a.time, a.chainCall, k);
      }
    }
  }

  /** Every proof on the chain was put there by a confirmed transaction of the service or by another caller. */
  lemma {:induction false} RunSources(w: H.World, d: C.Deployment, hash: Hasher, actions: seq<H.Action>, k: Key)
    requires H.LegalRun(w, d, hash, actions)
    requires k in w.chain.proofs ==> PostedByService(w, k)
    ensures k in H.Run(w, d, hash, actions).chain.proofs ==>
      PostedByService(H.Run(w, d, hash, actions), k) || PostedByOther(w, d, hash, actions, k)
    decreases |actions|
  {
    hide H.Step, H.Enabled, PostedByService, C.Execute;
    if actions != [] {
      var a := actions[0];
      if !(a.Foreign? && Posts(a.chainCall, k) && C.Execute(d, w.chain, a.sender, a.time, a.chainCall).Ok?) {
        StepSources(w, d, hash, a, k);
        RunSources(H.Step(w, d, hash, a), d, hash, actions[1..], k);
      }
    }
  }

  lemma StartHasNoProofs(token: T.Token, k: Key)
    ensures k !in H.Start(token).chain.proofs
  {
  }

  lemma SettledIsProved(w: H.World, d: C.Deployment, hash: Hasher, k: Key)
    requires H.Inv(w, d, hash) && k in w.db.settlements
    ensures k.0 in w.db.events && k in w.db.proofs
  {
  }

  /** A reading that is not the row's own came with another hash. */
  lemma OtherHash(w: H.World, k: Key) returns (h: string)
    requires k in w.db.proofs && !Stands(w, ProofTx(k.0, k.1)) && PostedByService(w, k)
    ensures h != w.db.proofs[k].tx.hash && PostedBy(w, k, h)
  {
    h :| PostedBy(w, k, h);
    assert k == (k.0, k.1) && TxAt(w.db, ProofTx(k.0, k.1)) == Some(w.db.proofs[k].tx);
  }

  /**
   After any run from the start, a row whose settlement stands on the chain but whose own proof does not: the chain's
   reading was put there by another caller, or by a confirmed transaction of the service that is not the row's.
   */
  lemma StrayReadingHasASource(d: C.Deployment, hash: Hasher, owner: T.Address, supply: nat, actions: seq<H.Action>,
                               k: Key)
    requires T.DeployDrt(owner, supply).Ok? && S.Operates(d)
    requires H.LegalRun(H.Start(T.DeployDrt(owner, supply).value), d, hash, actions)
    requires var w := H.Run(H.Start(T.DeployDrt(owner, supply).value), d, hash, actions);
             k in w.db.settlements && Stands(w, SettleTx(k.0, k.1)) && !Stands(w, ProofTx(k.0, k.1))
    ensures var w := H.Run(H.Start(T.DeployDrt(owner, supply).value), d, hash, actions);
            && k in w.db.proofs && k in w.chain.records && k in w.chain.proofs
            && (PostedByOther(H.Start(T.DeployDrt(owner, supply).value), d, hash, actions, k)
                || exists h :: h != w.db.proofs[k].tx.hash && PostedBy(w, k, h))
  {
    var start := H.Start(T.DeployDrt(owner, supply).value);
    var w := H.Run(start, d, hash, actions);
    H.StartSatisfiesInv(d, hash, owner, supply);
    StartHasNoProofs(T.DeployDrt(owner, supply).value, k);
    hide T.DeployDrt, H.Inv, H.LegalRun, H.Run, H.Start, Stands, PostedByService, PostedBy, PostedByOther, S.Operates;
    H.RunKeepsInv(start, d, hash, actions);
    RunSources(start, d, hash, actions, k);
    SettledIsProved(w, d, hash, k);
    RowsOnChain(w, d, hash, k);
    if !PostedByOther(start, d, hash, actions, k) {
      var h := OtherHash(w, k);
    }
  }

  // ---- Runs in which the two readings differ ----

  /** One event with two readings of each site: the tables get those of x, the chain those of y. */
  ghost predicate Twins(x: Case, y: Case) {
    && x.req == y.req && x.sites == y.sites && x.ask == y.ask && x.now == y.now && x.time == y.time
  }

  ghost predicate Pair(d: C.Deployment, hash: Hasher, x: Case, y: Case) {
    && Twins(x, y) && Fits(x, hash) && Fits(y, hash) && S.Operates(d) && C.Encodable(CreateCall(x))
    && TimeOrder.LexLess(TimeOrder.ToRfc3339(x.req.start), TimeOrder.ToRfc3339(x.req.end))
  }

  /** Before the k-th call: the tables as in the one case, the chain as in the other. */
  ghost predicate Split(w: H.World, d: C.Deployment, hash: Hasher, x: Case, y: Case, token: T.Token, k: nat) {
    && Good(w, d, hash) && Quiet(w.db, x.Event()) && Clear(w.db, x.Event())
    && StageDb(w.db, x, k) && StageChain(w.chain, d, y, token, false, k)
  }

  lemma TwinLists(x: Case, y: Case)
    requires Twins(x, y)
    ensures x.Event() == y.Event() && x.Listed() == y.Listed() && x.Share() == y.Share()
  {
    hide Dedup, SortedSites;
  }

  /** One more action after a run. */
  lemma OneMore(w: H.World, n: H.World, d: C.Deployment, hash: Hasher, acts: seq<H.Action>, a: H.Action)
    returns (all: seq<H.Action>)
    requires H.LegalRun(w, d, hash, acts) && n == H.Run(w, d, hash, acts) && H.Enabled(n, d, a)
    ensures all == acts + [a] && H.LegalRun(w, d, hash, all) && H.Run(w, d, hash, all) == H.Step(n, d, hash, a)
  {
    hide H.Step, H.Enabled, H.LegalRun, H.Run;
    all := acts + [a];
    OneAction(n, d, hash, a);
    RunsJoin(w, d, hash, acts, [a]);
  }

  /** A call that goes through on both sides, each with its own readings. */
  lemma SplitCall(w: H.World, d: C.Deployment, hash: Hasher, x: Case, y: Case, token: T.Token, k: nat,
                  call: ServiceCall, h: string,
                  db: Db, c: C.Chain)
    returns (acts: seq<H.Action>, n: H.World)
    requires Split(w, d, hash, x, y, token, k) && FreshHash(w, h)
    requires Goes(w.db, db, w.chain, c, d, true, hash, x, call, H.Pending(h, x.now))
    requires StageDb(db, x, k + 1) && StageChain(c, d, y, token, false, k + 1)
    ensures H.LegalRun(w, d, hash, acts) && n == H.Run(w, d, hash, acts)
    ensures Split(n, d, hash, x, y, token, k + 1) && n.txs.Keys == w.txs.Keys + {h}
  {
    hide Good, Quiet, Clear, StageDb, StageChain, Goes, H.LegalRun, H.Run, Reconciled, SlotsOf, S.ChainCall;
    n := CallConfirms(w, d, hash, x, call, h, db, c);
    acts := Acts(x.Event(), call, db, h, x.now, x.time);
    StageSeen(db, Answer(h, Confirmed, x.now), SlotsOf(db, x.Event()), x, k + 1);
  }

  lemma SplitSides(w: H.World, d: C.Deployment, hash: Hasher, x: Case, y: Case, token: T.Token, k: nat)
    requires Split(w, d, hash, x, y, token, k)
    ensures DbInv(w.db, hash) && R.RecordsAnchored(w.chain) && Clear(w.db, x.Event())
    ensures StageDb(w.db, x, k) && StageChain(w.chain, d, y, token, false, k)
  {
    GoodParts(w, d, hash);
    hide DbInv, R.Inv, StageDb, StageChain, Clear;
    AnchoredAndValid(d, w.chain);
  }

  lemma PairCreate(d: C.Deployment, hash: Hasher, x: Case, y: Case, db: Db)
    requires Pair(d, hash, x, y) && x.Event() !in db.events
    ensures ValidRequest(x.req) && ValidRequest(y.req) && CreateGuard(db, x.req) == None
    ensures CreateCall(x) == CreateCall(y) && C.Encodable(CreateCall(y)) && y.time == x.time && y.req == x.req
    ensures Fits(x, hash) && Fits(y, hash) && S.Operates(d)
    ensures TimeOrder.LexLess(TimeOrder.ToRfc3339(y.req.start), TimeOrder.ToRfc3339(y.req.end))
  {
    hide TimeOrder.LexLess, TimeOrder.ToRfc3339, S.Seconds, C.Encodable, S.Operates;
  }

  lemma CreateSides(db: Db, c: C.Chain, d: C.Deployment, hash: Hasher, x: Case, y: Case, token: T.Token, tx: Tx)
    returns (next: Db, n: C.Chain)
    requires Pair(d, hash, x, y) && DbInv(db, hash) && StageDb(db, x, 0) && StageChain(c, d, y, token, false, 0)
    ensures Goes(db, next, c, n, d, true, hash, x, Create(x.req), tx)
    ensures StageDb(next, x, 1) && StageChain(n, d, y, token, false, 1)
  {
    PairCreate(d, hash, x, y, db);
    hide Pair, StageDb, StageChain, Goes, Fits, C.Encodable, C.Execute, S.Operates, CreateGuard, CreateCommit,
         TimeOrder.LexLess,
         TimeOrder.ToRfc3339, CreateCall, ValidRequest, DbInv, Perform, CallAt;
    CreateWrites(db, true, hash, x, tx);
    next := CreateCommit(db, x.req, tx, x.now);
    n := CreateMines(d, c, y, token, false);
    CreateJoins(db, c, n, d, true, hash, x, tx);
  }

  lemma SplitCreate(w: H.World, d: C.Deployment, hash: Hasher, x: Case, y: Case, token: T.Token, h: string)
    returns (acts: seq<H.Action>, n: H.World)
    requires Pair(d, hash, x, y) && Split(w, d, hash, x, y, token, 0) && FreshHash(w, h)
    ensures H.LegalRun(w, d, hash, acts) && n == H.Run(w, d, hash, acts)
    ensures Split(n, d, hash, x, y, token, 1) && n.txs.Keys == w.txs.Keys + {h}
  {
    hide *;
    SplitSides(w, d, hash, x, y, token, 0);
    var db, c := CreateSides(w.db, w.chain, d, hash, x, y, token, H.Pending(h, x.now));
    acts, n := SplitCall(w, d, hash, x, y, token, 0, Create(x.req), h, db, c);
  }

  lemma SplitClose(w: H.World, d: C.Deployment, hash: Hasher, x: Case, y: Case, token: T.Token, h: string)
    returns (acts: seq<H.Action>, n: H.World)
    requires Twins(x, y) && Split(w, d, hash, x, y, token, |x.sites| + 1) && FreshHash(w, h)
    ensures H.LegalRun(w, d, hash, acts) && n == H.Run(w, d, hash, acts)
    ensures Split(n, d, hash, x, y, token, |x.sites| + 2) && n.txs.Keys == w.txs.Keys + {h}
  {
    TwinLists(x, y);
    SplitSides(w, d, hash, x, y, token, |x.sites| + 1);
    hide Split, Clear, StageDb, StageChain, Goes, H.LegalRun, H.Run, C.Execute, CloseGuard, CloseCommit, DbInv,
         R.RecordsAnchored;
    var tx := H.Pending(h, x.now);
    CloseWrites(w.db, hash, x, tx);
    var c := CloseMines(d, w.chain, y, token, false);
    CloseJoins(w.db, w.chain, c, d, true, hash, x, tx);
    acts, n := SplitCall(w, d, hash, x, y, token, |x.sites| + 1, Close(x.Event()), h,
                         CloseCommit(w.db, x.Event(), tx, x.now), c);
  }

  lemma PairSettle(d: C.Deployment, hash: Hasher, x: Case, y: Case)
    requires Pair(d, hash, x, y)
    ensures Fits(x, hash) && Fits(y, hash) && S.Operates(d) && y.time == x.time && |y.sites| == |x.sites|
    ensures x.Event() == y.Event() && x.Listed() == y.Listed()
  {
    TwinLists(x, y);
    hide Fits, Dedup, SortedSites, C.Encodable;
  }

  lemma SettleSides(db: Db, c: C.Chain, d: C.Deployment, hash: Hasher, x: Case, y: Case, token: T.Token, tx: Tx)
    returns (next: Db, n: C.Chain)
    requires Pair(d, hash, x, y) && DbInv(db, hash) && R.RecordsAnchored(c) && Clear(db, x.Event())
    requires StageDb(db, x, |x.sites| + 2) && StageChain(c, d, y, token, false, |x.sites| + 2)
    ensures Goes(db, next, c, n, d, true, hash, x, Settle(x.Event(), x.ask), tx)
    ensures StageDb(next, x, |x.sites| + 3) && StageChain(n, d, y, token, false, |x.sites| + 3)
  {
    PairSettle(d, hash, x, y);
    hide Pair, Clear, StageDb, StageChain, Goes, Fits, C.Execute, S.Operates, SettleGuard, SettleCommit, SettleList,
         Dedup, SortedSites,
         DbInv, R.RecordsAnchored;
    SettleWrites(db, true, hash, x, tx);
    next := SettleCommit(db, x.Event(), SettleGuard(db, true, x.Event(), x.ask).value, tx, x.now);
    n := SettleMines(d, c, y, hash, token, false);
    SettleJoins(db, c, n, d, true, hash, x, tx);
  }

  lemma SplitSettle(w: H.World, d: C.Deployment, hash: Hasher, x: Case, y: Case, token: T.Token, h: string)
    returns (acts: seq<H.Action>, n: H.World)
    requires Pair(d, hash, x, y) && Split(w, d, hash, x, y, token, |x.sites| + 2) && FreshHash(w, h)
    ensures H.LegalRun(w, d, hash, acts) && n == H.Run(w, d, hash, acts)
    ensures Split(n, d, hash, x, y, token, |x.sites| + 3) && n.txs.Keys == w.txs.Keys + {h}
  {
    hide *;
    SplitSides(w, d, hash, x, y, token, |x.sites| + 2);
    var db, c := SettleSides(w.db, w.chain, d, hash, x, y, token, H.Pending(h, x.now));
    acts, n := SplitCall(w, d, hash, x, y, token, |x.sites| + 2, Settle(x.Event(), x.ask), h, db, c);
  }

  // ---- A proof whose transaction fails, and another reading on the chain ----

  lemma ProofKeepsClear(db: Db, hash: Hasher, p: ProofRequest, actor: string, tx: Tx, now: string, e: string)
    requires Clear(db, e) && ProofCommit(db, hash, p, actor, tx, now).Ok?
    ensures Clear(ProofCommit(db, hash, p, actor, tx, now).value, e)
  {
    hide TxAt, ProofCommit;
    H.ProofFills(db, hash, p, actor, tx, now);
  }

  lemma ProofSends(db: Db, hash: Hasher, p: Reading, now: string)
    ensures S.ChainCall(db, hash, SubmitProof(p.proof, p.actor), now)
      == C.SubmitProof(p.proof.eventId, p.proof.siteId, p.proof.baselineKwh, p.proof.actualKwh,
                       hash(BuildPayload(p.proof, now)), p.proof.uri)
  {
  }

  lemma ProofPerforms(db: Db, hash: Hasher, p: Reading, tx: Tx, now: string)
    requires ProofGuard(db, true, hash, p.proof, now) == None
    ensures WellFormed(db, SubmitProof(p.proof, p.actor)) && H.ChecksPass(db, hash, SubmitProof(p.proof, p.actor), now)
    ensures Perform(db, true, hash, SubmitProof(p.proof, p.actor), tx, now)
              == ProofCommit(db, hash, p.proof, p.actor, tx, now)
  {
    hide ProofGuard, ProofCommit;
  }

  /** A proof whose checks pass is sent, its transaction fails, and a pass sees that. */
  lemma SentProofFails(w: H.World, d: C.Deployment, hash: Hasher, p: Reading, e: string, h: string, now: string,
                       time: nat,
                       included: bool, db: Db)
    returns (acts: seq<H.Action>, n: H.World)
    requires Good(w, d, hash) && DbInv(w.db, hash) && Quiet(w.db, e) && Clear(w.db, e) && FreshHash(w, h)
    requires ProofGuard(w.db, true, hash, p.proof, now) == None
    requires ProofCommit(w.db, hash, p.proof, p.actor, H.Pending(h, now), now) == Ok(db)
    requires included ==> (p.proof.eventId, p.proof.siteId) in w.chain.proofs
    ensures H.LegalRun(w, d, hash, acts) && n == H.Run(w, d, hash, acts)
    ensures Good(n, d, hash) && Quiet(n.db, e) && Clear(n.db, e)
    ensures n.db == Reconciled(db, Answer(h, TxState.Failed, now), SlotsOf(db, e))
    ensures n.chain == w.chain && n.txs.Keys == w.txs.Keys + {h}
  {
    hide Good, Quiet, Clear, Open, H.LegalRun, H.Run, H.Step, H.Enabled, ProofGuard, ProofCommit, Perform,
         H.ChecksPass, S.ChainCall,
         DbInv, Reconciled, SlotsOf, C.Execute, WellFormed;
    var call := SubmitProof(p.proof, p.actor);
    ProofPerforms(w.db, hash, p, H.Pending(h, now), now);
    ProofSends(w.db, hash, p, now);
    var sent := S.ChainCall(w.db, hash, call, now);
    WriteOpens(w.db, db, hash, call, e, h, now);
    ProofKeepsClear(w.db, hash, p.proof, p.actor, H.Pending(h, now), now, e);
    var w1 := Sends(w, d, hash, call, h, now, Ok(db), sent);
    if included { RepeatReverts(d, w.chain, d.operator, time, sent, (p.proof.eventId, p.proof.siteId)); }
    var w2 := Mines(w1, d, hash, h, included, time, C.Execute(d, w.chain, d.operator, time, sent));
    n := Sees(w2, d, hash, e, h, TxState.Failed, now);
    PassQuiets(db, e, h, TxState.Failed, now);
    FailureKeepsClear(db, e, h, now);
    acts := [H.Serve(call, Some(H.Pending(h, now)), now), H.Mine(h, included, time),
             H.Reconcile(e, Answer(h, TxState.Failed, now), SlotsOf(db, e))];
    ThreeSteps(w, w1, w2, n, d, hash, acts[0], acts[1], acts[2]);
  }

  /** The service sends the reading of x, and its transaction fails. */
  lemma ProofFails(w: H.World, d: C.Deployment, hash: Hasher, x: Case, k: nat, h: string, included: bool)
    returns (acts: seq<H.Action>, n: H.World)
    requires Good(w, d, hash) && Quiet(w.db, x.Event()) && Clear(w.db, x.Event()) && Fits(x, hash) && FreshHash(w, h)
    requires 1 <= k <= |x.sites| && StageDb(w.db, x, k)
    requires included ==> (x.Event(), x.sites[k - 1]) in w.chain.proofs
    ensures H.LegalRun(w, d, hash, acts) && n == H.Run(w, d, hash, acts)
    ensures Good(n, d, hash) && Quiet(n.db, x.Event()) && Clear(n.db, x.Event())
    ensures StageDb(n.db, x, k + 1) && n.chain == w.chain && n.txs.Keys == w.txs.Keys + {h}
  {
    assert ReadingFits(x, hash, x.sites[k - 1]);
    var p, tx, e := x.readings[x.sites[k - 1]], H.Pending(h, x.now), x.Event();
    GoodParts(w, d, hash);
    hide Good, Quiet, Clear, StageDb, H.LegalRun, H.Run, Fits, HashAccepted, ProofGuard, ProofCommit, DbInv, R.Inv,
         H.SlotsTrue,
         Reconciled, SlotsOf, S.Operates;
    ProofWrites(w.db, true, hash, x, k, tx);
    var db := ProofCommit(w.db, hash, p.proof, p.actor, tx, x.now).value;
    acts, n := SentProofFails(w, d, hash, p, e, h, x.now, x.time, included, db);
    StageSeen(db, Answer(h, TxState.Failed, x.now), SlotsOf(db, e), x, k + 1);
  }

  lemma RepeatReverts(d: C.Deployment, c: C.Chain, sender: T.Address, time: nat, call: C.Call, k: Key)
    requires k in c.proofs && Posts(call, k)
    ensures C.Execute(d, c, sender, time, call).Err?
  {
    assert k == (k.0, k.1);
  }

  /** The tables take a second reading of a proved site for a new transaction, up to the row. */
  lemma SecondPasses(db: Db, hash: Hasher, x: Case, y: Case, k: nat, tx: Tx)
    requires 1 <= k <= |x.sites| && StageDb(db, x, k + 1) && Clear(db, x.Event())
    requires x.Event() == y.Event() && x.sites == y.sites && x.now == y.now && ReadingFits(y, hash, x.sites[k - 1])
    ensures var q := y.readings[x.sites[k - 1]];
            && ProofGuard(db, true, hash, q.proof, x.now) == None
            && ProofCommit(db, hash, q.proof, q.actor, tx, x.now) == Err(ProofExists)
  {
    ClearCreate(db, x.Event());
    ProvedMore(x, k);
    hide HashAccepted, Clear;
  }

  /** A second proof call: sent, refused for its row, and executed by the chain. */
  lemma SecondReachesChain(w: H.World, d: C.Deployment, hash: Hasher, q: Reading, h: string, now: string, time: nat,
                           c: C.Chain)
    returns (acts: seq<H.Action>, n: H.World)
    requires Good(w, d, hash) && FreshHash(w, h)
    requires ProofGuard(w.db, true, hash, q.proof, now) == None
    requires ProofCommit(w.db, hash, q.proof, q.actor, H.Pending(h, now), now) == Err(ProofExists)
    requires C.Execute(d, w.chain, d.operator, time,
               C.SubmitProof(q.proof.eventId, q.proof.siteId, q.proof.baselineKwh, q.proof.actualKwh,
                             hash(BuildPayload(q.proof, now)), q.proof.uri)) == Ok(c)
    ensures acts == [H.Serve(SubmitProof(q.proof, q.actor), Some(H.Pending(h, now)), now), H.Mine(h, true, time)]
    ensures H.LegalRun(w, d, hash, acts) && n == H.Run(w, d, hash, acts)
    ensures Good(n, d, hash) && n.db == w.db && n.chain == c && n.txs.Keys == w.txs.Keys + {h}
  {
    hide Good, H.LegalRun, H.Run, H.Step, H.Enabled, ProofGuard, ProofCommit, Perform, H.ChecksPass, S.ChainCall,
         C.Execute, WellFormed;
    var call := SubmitProof(q.proof, q.actor);
    ProofPerforms(w.db, hash, q, H.Pending(h, now), now);
    ProofSends(w.db, hash, q, now);
    var w1 := Sends(w, d, hash, call, h, now, Err(ProofExists), S.ChainCall(w.db, hash, call, now));
    n := Mines(w1, d, hash, h, true, time, Ok(c));
    OneAction(w, d, hash, H.Serve(call, Some(H.Pending(h, now)), now));
    acts := OneMore(w, w1, d, hash, [H.Serve(call, Some(H.Pending(h, now)), now)], H.Mine(h, true, time));
  }

  /** One run after another. */
  lemma Joined(w: H.World, m: H.World, n: H.World, d: C.Deployment, hash: Hasher, a: seq<H.Action>, b: seq<H.Action>)
    returns (acts: seq<H.Action>)
    requires H.LegalRun(w, d, hash, a) && m == H.Run(w, d, hash, a)
    requires H.LegalRun(m, d, hash, b) && n == H.Run(m, d, hash, b)
    ensures H.LegalRun(w, d, hash, acts) && n == H.Run(w, d, hash, acts)
  {
    hide *;
    RunsJoin(w, d, hash, a, b);
    acts := a + b;
  }

  lemma TwoMoreHashes(a: set<string>, b: set<string>, c: set<string>, h: string, g: string)
    requires b == a + {h} && c == b + {g}
    ensures c == a + {h, g}
  {
  }

  /** The chain takes a reading of the next site of y from any account. */
  lemma ReadingMines(c: C.Chain, d: C.Deployment, y: Case, token: T.Token, k: nat, sender: T.Address, p: ProofRequest,
                     proofHash: string, uri: string, time: nat)
    returns (n: C.Chain)
    requires 1 <= k <= |y.sites| && StageChain(c, d, y, token, false, k) && NoDup(y.sites) && time == y.time
    requires y.sites[k - 1] in y.readings && p == y.readings[y.sites[k - 1]].proof
    requires p.eventId == y.Event() && p.siteId == y.sites[k - 1] && IsUint256(p.baselineKwh) && IsUint256(p.actualKwh)
    ensures var call := C.SubmitProof(p.eventId, p.siteId, p.baselineKwh, p.actualKwh, proofHash, uri);
            C.Execute(d, c, sender, time, call) == Ok(n)
    ensures StageChain(n, d, y, token, false, k + 1) && (p.eventId, p.siteId) in n.proofs
  {
    hide *;
    n := ProofMines(d, c, y, token, false, k, sender, proofHash, uri);
    PostedSite(n, d, y, token, k);
  }

  /** The two readings of one site. */
  ghost predicate Readings(x: Case, y: Case, hash: Hasher, k: nat, p: Reading, q: Reading) {
    && 1 <= k <= |x.sites| && x.Event() == y.Event() && x.sites == y.sites && x.now == y.now && x.time == y.time
    && NoDup(x.sites)
    && ReadingFits(x, hash, x.sites[k - 1]) && ReadingFits(y, hash, x.sites[k - 1])
    && p == x.readings[x.sites[k - 1]] && q == y.readings[x.sites[k - 1]]
  }

  lemma PairReadings(d: C.Deployment, hash: Hasher, x: Case, y: Case, k: nat) returns (p: Reading, q: Reading)
    requires Pair(d, hash, x, y) && 1 <= k <= |x.sites|
    ensures Readings(x, y, hash, k, p, q) && Fits(x, hash)
  {
    hide TimeOrder.LexLess, TimeOrder.ToRfc3339, C.Encodable, HashAccepted, Payout.BoundedRates;
    assert ReadingFits(x, hash, x.sites[k - 1]) && ReadingFits(y, hash, y.sites[k - 1]);
    p, q := x.readings[x.sites[k - 1]], y.readings[y.sites[k - 1]];
  }

  lemma ReadingGoes(db: Db, c: C.Chain, d: C.Deployment, hash: Hasher, x: Case, y: Case, token: T.Token, k: nat,
                    p: Reading, q: Reading,
                    tx: Tx, sender: T.Address, proofHash: string, uri: string)
    returns (n: C.Chain)
    requires Readings(x, y, hash, k, p, q) && StageDb(db, x, k + 1) && Clear(db, x.Event())
    requires StageChain(c, d, y, token, false, k)
    ensures ProofGuard(db, true, hash, q.proof, x.now) == None
            && ProofCommit(db, hash, q.proof, q.actor, tx, x.now) == Err(ProofExists)
    ensures var p := q.proof;
            var call := C.SubmitProof(p.eventId, p.siteId, p.baselineKwh, p.actualKwh, proofHash, uri);
            C.Execute(d, c, sender, x.time, call) == Ok(n)
    ensures StageChain(n, d, y, token, false, k + 1)
  {
    ReadingOf(y, hash, x.sites[k - 1]);
    hide StageDb, Clear, StageChain, ReadingFits, ProofGuard, ProofCommit, C.Execute;
    SecondPasses(db, hash, x, y, k, tx);
    n := ReadingMines(c, d, y, token, k, sender, q.proof, proofHash, uri, x.time);
  }

  /** With the row of x in place, the second call takes the reading of y to the chain. */
  lemma SecondReading(w: H.World, d: C.Deployment, hash: Hasher, x: Case, y: Case, token: T.Token, k: nat, h: string,
                      p: Reading, q: Reading)
    returns (acts: seq<H.Action>, n: H.World)
    requires Readings(x, y, hash, k, p, q) && FreshHash(w, h)
    requires Good(w, d, hash) && Quiet(w.db, x.Event()) && Clear(w.db, x.Event())
    requires StageDb(w.db, x, k + 1) && StageChain(w.chain, d, y, token, false, k)
    ensures H.LegalRun(w, d, hash, acts) && n == H.Run(w, d, hash, acts)
    ensures Split(n, d, hash, x, y, token, k + 1) && n.txs.Keys == w.txs.Keys + {h}
  {
    hide *;
    var c := ReadingGoes(w.db, w.chain, d, hash, x, y, token, k, p, q, H.Pending(h, x.now), d.operator,
                         hash(BuildPayload(q.proof, x.now)), q.proof.uri);
    acts, n := SecondReachesChain(w, d, hash, q, h, x.now, x.time, c);
    JoinSplit(n, d, hash, x, y, token, k + 1);
  }

  /**
   The first failing input: the proof's own transaction fails, and a second call with another reading gets through.
   */
  lemma SplitByService(w: H.World, d: C.Deployment, hash: Hasher, x: Case, y: Case, token: T.Token, k: nat, h: string,
                       g: string)
    returns (acts: seq<H.Action>, n: H.World)
    requires Pair(d, hash, x, y) && 1 <= k <= |x.sites| && Split(w, d, hash, x, y, token, k)
    requires FreshHash(w, h) && FreshHash(w, g) && h != g
    ensures H.LegalRun(w, d, hash, acts) && n == H.Run(w, d, hash, acts)
    ensures Split(n, d, hash, x, y, token, k + 1) && n.txs.Keys == w.txs.Keys + {h, g}
  {
    hide *;
    var p, q := PairReadings(d, hash, x, y, k);
    SplitAll(w, d, hash, x, y, token, k);
    var first, mid := ProofFails(w, d, hash, x, k, h, false);
    StillFreshAfter(w, mid, h, g);
    var second;
    second, n := SecondReading(mid, d, hash, x, y, token, k, g, p, q);
    acts := Joined(w, mid, n, d, hash, first, second);
    TwoMoreHashes(w.txs.Keys, mid.txs.Keys, n.txs.Keys, h, g);
  }

  lemma SplitAll(w: H.World, d: C.Deployment, hash: Hasher, x: Case, y: Case, token: T.Token, k: nat)
    requires Split(w, d, hash, x, y, token, k)
    ensures Good(w, d, hash) && Quiet(w.db, x.Event()) && Clear(w.db, x.Event())
    ensures StageDb(w.db, x, k) && StageChain(w.chain, d, y, token, false, k)
  {
  }

  lemma JoinSplit(w: H.World, d: C.Deployment, hash: Hasher, x: Case, y: Case, token: T.Token, k: nat)
    requires Good(w, d, hash) && Quiet(w.db, x.Event()) && Clear(w.db, x.Event())
    requires StageDb(w.db, x, k) && StageChain(w.chain, d, y, token, false, k)
    ensures Split(w, d, hash, x, y, token, k)
  {
  }

  lemma ReadingOf(y: Case, hash: Hasher, s: string)
    requires ReadingFits(y, hash, s)
    ensures s in y.readings && y.readings[s].proof.eventId == y.Event() && y.readings[s].proof.siteId == s
    ensures IsUint256(y.readings[s].proof.baselineKwh) && IsUint256(y.readings[s].proof.actualKwh)
  {
  }

  lemma StillFreshAfter(w: H.World, n: H.World, h: string, g: string)
    requires FreshHash(w, g) && h != g && n.txs.Keys == w.txs.Keys + {h}
    ensures FreshHash(n, g)
  {
  }

  lemma FreshHashOf(w: H.World, n: H.World, h: string)
    requires FreshHash(w, h) && n.txs == w.txs
    ensures FreshHash(n, h)
  {
  }

  /** Another account posts the reading of y. */
  lemma OtherReading(w: H.World, d: C.Deployment, hash: Hasher, x: Case, y: Case, token: T.Token, k: nat, p: Reading,
                     q: Reading,
                     sender: T.Address)
    returns (acts: seq<H.Action>, n: H.World)
    requires Good(w, d, hash) && Readings(x, y, hash, k, p, q) && StageChain(w.chain, d, y, token, false, k)
    requires sender != d.settlement && sender != T.ZERO_ADDRESS
    ensures H.LegalRun(w, d, hash, acts) && n == H.Run(w, d, hash, acts)
    ensures Good(n, d, hash) && n.db == w.db && n.txs == w.txs
    ensures StageChain(n.chain, d, y, token, false, k + 1) && (x.Event(), x.sites[k - 1]) in n.chain.proofs
  {
    ReadingOf(y, hash, x.sites[k - 1]);
    hide Good, StageChain, ReadingFits, H.LegalRun, H.Run, H.Step, H.Enabled, C.Execute;
    var call := C.SubmitProof(q.proof.eventId, q.proof.siteId, q.proof.baselineKwh, q.proof.actualKwh, "", "");
    var c := ReadingMines(w.chain, d, y, token, k, sender, q.proof, "", "", x.time);
    n := OtherPosts(w, d, hash, sender, call, x.time, c);
    acts := [H.Foreign(sender, call, x.time)];
    OneAction(w, d, hash, acts[0]);
  }

  /**
   The second failing input: another caller has already posted a reading for the site, so the service's own proof fails.
   */
  lemma SplitByOther(w: H.World, d: C.Deployment, hash: Hasher, x: Case, y: Case, token: T.Token, k: nat, h: string,
                     sender: T.Address)
    returns (acts: seq<H.Action>, n: H.World)
    requires Pair(d, hash, x, y) && 1 <= k <= |x.sites| && Split(w, d, hash, x, y, token, k)
    requires FreshHash(w, h) && sender != d.settlement && sender != T.ZERO_ADDRESS
    ensures H.LegalRun(w, d, hash, acts) && n == H.Run(w, d, hash, acts)
    ensures Split(n, d, hash, x, y, token, k + 1) && n.txs.Keys == w.txs.Keys + {h}
  {
    hide *;
    var p, q := PairReadings(d, hash, x, y, k);
    SplitAll(w, d, hash, x, y, token, k);
    var first, mid := OtherReading(w, d, hash, x, y, token, k, p, q, sender);
    FreshHashOf(w, mid, h);
    var rest;
    rest, n := ProofFails(mid, d, hash, x, k, h, true);
    acts := Joined(w, mid, n, d, hash, first, rest);
    JoinSplit(n, d, hash, x, y, token, k + 1);
  }

  lemma OtherPosts(w: H.World, d: C.Deployment, hash: Hasher, sender: T.Address, call: C.Call, time: nat, c: C.Chain)
    returns (n: H.World)
    requires Good(w, d, hash) && sender != d.settlement && sender != T.ZERO_ADDRESS
             && C.Execute(d, w.chain, sender, time, call) == Ok(c)
    ensures H.Enabled(w, d, H.Foreign(sender, call, time)) && n == H.Step(w, d, hash, H.Foreign(sender, call, time))
    ensures Good(n, d, hash) && n == w.(chain := c)
  {
    hide Good, C.Execute;
    n := H.Step(w, d, hash, H.Foreign(sender, call, time));
    ActionKeepsGood(w, d, hash, H.Foreign(sender, call, time));
  }

  lemma PostedSite(c: C.Chain, d: C.Deployment, y: Case, token: T.Token, k: nat)
    requires 1 <= k <= |y.sites| && StageChain(c, d, y, token, false, k + 1)
    ensures (y.Event(), y.sites[k - 1]) in c.proofs
  {
    ProvedMore(y, k);
    hide PaidSum;
  }

  // ---- Whole runs ----

  /** Two hashes for each call. */
  ghost predicate FreshFrom(w: H.World, x: Case, hs: seq<string>, k: nat) {
    |hs| == 2 * (|x.sites| + 3) && NoDup(hs) && forall i :: 2 * k <= i < |hs| ==> FreshHash(w, hs[i])
  }

  lemma FreshTwo(w: H.World, x: Case, hs: seq<string>, k: nat)
    requires k < |x.sites| + 3 && FreshFrom(w, x, hs, k)
    ensures 2 * k + 1 < |hs| && FreshHash(w, hs[2 * k]) && FreshHash(w, hs[2 * k + 1]) && hs[2 * k] != hs[2 * k + 1]
  {
  }

  lemma FreshOn(w: H.World, n: H.World, x: Case, hs: seq<string>, k: nat)
    requires k < |x.sites| + 3 && FreshFrom(w, x, hs, k) && 2 * k + 1 < |hs|
    requires n.txs.Keys <= w.txs.Keys + {hs[2 * k], hs[2 * k + 1]}
    ensures FreshFrom(n, x, hs, k + 1)
  {
    forall i | 2 * (k + 1) <= i < |hs| ensures FreshHash(n, hs[i]) {
      assert hs[i] != hs[2 * k] && hs[i] != hs[2 * k + 1];
      assert hs[i] !in n.txs.Keys;
    }
  }

  /** Nobody else posts (None), or this account does before the service. */
  ghost predicate MayPost(d: C.Deployment, other: Option<T.Address>) {
    other.Some? ==> other.value != d.settlement && other.value != T.ZERO_ADDRESS
  }

  /** The proof of one site, through either input. */
  lemma SplitProof(w: H.World, d: C.Deployment, hash: Hasher, x: Case, y: Case, token: T.Token, k: nat, h: string,
                   g: string,
                   other: Option<T.Address>)
    returns (acts: seq<H.Action>, n: H.World)
    requires Pair(d, hash, x, y) && 1 <= k <= |x.sites| && Split(w, d, hash, x, y, token, k) && MayPost(d, other)
    requires FreshHash(w, h) && FreshHash(w, g) && h != g
    ensures H.LegalRun(w, d, hash, acts) && n == H.Run(w, d, hash, acts)
    ensures Split(n, d, hash, x, y, token, k + 1) && n.txs.Keys <= w.txs.Keys + {h, g}
  {
    hide Pair, Split, FreshHash, H.LegalRun, H.Run;
    match other
    case None => acts, n := SplitByService(w, d, hash, x, y, token, k, h, g);
    case Some(sender) => acts, n := SplitByOther(w, d, hash, x, y, token, k, h, sender);
  }

  lemma PairTwins(d: C.Deployment, hash: Hasher, x: Case, y: Case)
    requires Pair(d, hash, x, y)
    ensures Twins(x, y)
  {
  }

  lemma NextSplit(w: H.World, d: C.Deployment, hash: Hasher, x: Case, y: Case, token: T.Token, k: nat, h: string,
                  g: string,
                  other: Option<T.Address>)
    returns (acts: seq<H.Action>, n: H.World)
    requires Pair(d, hash, x, y) && k < |x.sites| + 3 && Split(w, d, hash, x, y, token, k) && MayPost(d, other)
    requires FreshHash(w, h) && FreshHash(w, g) && h != g
    ensures H.LegalRun(w, d, hash, acts) && n == H.Run(w, d, hash, acts)
    ensures Split(n, d, hash, x, y, token, k + 1) && n.txs.Keys <= w.txs.Keys + {h, g}
  {
    hide *;
    PairTwins(d, hash, x, y);
    if k == 0 {
      acts, n := SplitCreate(w, d, hash, x, y, token, h);
    } else if k <= |x.sites| {
      acts, n := SplitProof(w, d, hash, x, y, token, k, h, g, other);
    } else if k == |x.sites| + 1 {
      acts, n := SplitClose(w, d, hash, x, y, token, h);
    } else {
      acts, n := SplitSettle(w, d, hash, x, y, token, h);
    }
  }

  lemma {:induction false} SplitsFollow(w: H.World, d: C.Deployment, hash: Hasher, x: Case, y: Case, token: T.Token,
                                        k: nat,
                                        hs: seq<string>, other: Option<T.Address>)
    returns (acts: seq<H.Action>, n: H.World)
    requires Pair(d, hash, x, y) && k <= |x.sites| + 3 && Split(w, d, hash, x, y, token, k) && MayPost(d, other)
    requires FreshFrom(w, x, hs, k)
    ensures H.LegalRun(w, d, hash, acts) && n == H.Run(w, d, hash, acts)
    ensures Split(n, d, hash, x, y, token, |x.sites| + 3)
    decreases |x.sites| + 3 - k
  {
    hide *;
    if k == |x.sites| + 3 {
      acts, n := [], w;
      NoAction(w, d, hash);
    } else {
      FreshTwo(w, x, hs, k);
      var first, mid := NextSplit(w, d, hash, x, y, token, k, hs[2 * k], hs[2 * k + 1], other);
      FreshOn(w, mid, x, hs, k);
      var rest;
      rest, n := SplitsFollow(mid, d, hash, x, y, token, k + 1, hs, other);
      acts := Joined(w, mid, n, d, hash, first, rest);
    }
  }

  /** Settled and confirmed on both sides, with the payouts of x in the tables and those of y on the chain. */
  ghost predicate PaidApart(w: H.World, x: Case, y: Case, s: string) {
    var k := (x.Event(), s);
    && k in w.db.settlements && w.db.settlements[k].tx.state == Confirmed && Stands(w, SettleTx(x.Event(), s))
    && k in w.chain.records
    && w.db.settlements[k].payout == x.Pay(s) && w.chain.records[k].payout == y.Pay(s)
  }

  lemma SplitIsApart(w: H.World, d: C.Deployment, hash: Hasher, x: Case, y: Case, token: T.Token, s: string)
    requires Twins(x, y) && Split(w, d, hash, x, y, token, |x.sites| + 3) && s in x.Listed()
    ensures PaidApart(w, x, y, s)
  {
    hide *;
    SplitAll(w, d, hash, x, y, token, |x.sites| + 3);
    TwinLists(x, y);
    TwinStages(x, y);
    RowsWritten(w.db, x, s);
    RecordsMade(w.chain, d, y, token, s);
    ClearRow(w.db, x.Event(), s);
    GoodInv(w, d, hash);
    JoinApart(w, d, hash, x, y, s);
  }

  lemma TwinStages(x: Case, y: Case)
    requires Twins(x, y)
    ensures |x.sites| == |y.sites|
  {
  }

  lemma JoinApart(w: H.World, d: C.Deployment, hash: Hasher, x: Case, y: Case, s: string)
    requires H.Inv(w, d, hash) && (x.Event(), s) in w.db.settlements && (x.Event(), s) in w.chain.records
    requires w.db.settlements[(x.Event(), s)].tx.state == Confirmed
    requires w.db.settlements[(x.Event(), s)].payout == x.Pay(s) && w.chain.records[(x.Event(), s)].payout == y.Pay(s)
    ensures PaidApart(w, x, y, s)
  {
    hide H.Inv, Stands, Payout.CalculatePayout, Dedup, SortedSites;
    SeenStands(w, d, hash, SettleTx(x.Event(), s));
  }

  lemma GoodInv(w: H.World, d: C.Deployment, hash: Hasher)
    requires Good(w, d, hash)
    ensures H.Inv(w, d, hash)
  {
  }

  lemma RowsWritten(db: Db, x: Case, s: string)
    requires StageDb(db, x, |x.sites| + 3) && s in x.Listed()
    ensures (x.Event(), s) in db.settlements && db.settlements[(x.Event(), s)].payout == x.Pay(s)
  {
    hide Dedup, SortedSites, Payout.CalculatePayout;
  }

  lemma RecordsMade(c: C.Chain, d: C.Deployment, y: Case, token: T.Token, s: string)
    requires StageChain(c, d, y, token, false, |y.sites| + 3) && s in y.Listed()
    ensures (y.Event(), s) in c.records && c.records[(y.Event(), s)].payout == y.Pay(s)
  {
    hide Dedup, SortedSites, Payout.CalculatePayout, PaidSum;
  }

  lemma StartIsSplit(d: C.Deployment, hash: Hasher, owner: T.Address, supply: nat, x: Case, y: Case)
    requires T.DeployDrt(owner, supply).Ok? && Pair(d, hash, x, y)
    ensures var token := T.DeployDrt(owner, supply).value; Split(H.Start(token), d, hash, x, y, token, 0)
  {
    var token := T.DeployDrt(owner, supply).value;
    PairSettle(d, hash, x, y);
    StartSides(d, hash, x, y, token);
    hide *;
    H.StartSatisfiesInv(d, hash, owner, supply);
    HL.EmptyIsShared();
    EmptyDbInv(hash);
    HL.NoSlots(EMPTY_DB, hash, x.Event());
    StartJoins(d, hash, x, y, token);
  }

  lemma StartSides(d: C.Deployment, hash: Hasher, x: Case, y: Case, token: T.Token)
    ensures StageDb(EMPTY_DB, x, 0) && StageChain(R.Fresh(token), d, y, token, false, 0)
    ensures x.Event() !in EMPTY_DB.events
  {
    assert Paid(y, 0) == [];
  }

  lemma StartJoins(d: C.Deployment, hash: Hasher, x: Case, y: Case, token: T.Token)
    requires H.Inv(H.Start(token), d, hash) && SH.Shared(EMPTY_DB) && S.Operates(d)
    requires Quiet(EMPTY_DB, x.Event()) && Clear(EMPTY_DB, x.Event())
    requires StageDb(EMPTY_DB, x, 0) && StageChain(R.Fresh(token), d, y, token, false, 0)
    ensures Split(H.Start(token), d, hash, x, y, token, 0)
  {
    hide H.Inv, SH.Shared, Quiet, Clear, StageDb, StageChain, S.Operates;
  }

  lemma AllApart(w: H.World, d: C.Deployment, hash: Hasher, x: Case, y: Case, token: T.Token)
    requires Pair(d, hash, x, y) && Split(w, d, hash, x, y, token, |x.sites| + 3)
    ensures forall s :: s in x.Listed() ==> PaidApart(w, x, y, s)
  {
    hide *;
    PairTwins(d, hash, x, y);
    forall s | s in x.Listed() ensures PaidApart(w, x, y, s) {
      SplitIsApart(w, d, hash, x, y, token, s);
    }
  }

  /**
   For any two readings of each site, and through either input, there is a legal run from the start that ends with the
   settlement confirmed on both sides: the rows pay by the one reading, the chain by the other.
   */
  lemma ReadingsDiverge(d: C.Deployment, hash: Hasher, owner: T.Address, supply: nat, x: Case, y: Case, hs: seq<string>,
                        other: Option<T.Address>)
    returns (acts: seq<H.Action>, n: H.World)
    requires T.DeployDrt(owner, supply).Ok? && Pair(d, hash, x, y) && MayPost(d, other)
    requires FreshFrom(H.Start(T.DeployDrt(owner, supply).value), x, hs, 0)
    ensures H.LegalRun(H.Start(T.DeployDrt(owner, supply).value), d, hash, acts)
    ensures n == H.Run(H.Start(T.DeployDrt(owner, supply).value), d, hash, acts)
    ensures forall s :: s in x.Listed() ==> PaidApart(n, x, y, s)
  {
    hide *;
    var token := T.DeployDrt(owner, supply).value;
    StartIsSplit(d, hash, owner, supply, x, y);
    acts, n := SplitsFollow(H.Start(token), d, hash, x, y, token, 0, hs, other);
    AllApart(n, d, hash, x, y, token);
  }

  // ---- One site, one kilowatt hour ----

  function OneSite(e: string, s: string, baselineKwh: nat): Case {
    Case(CreateRequest(e, Completion.FIRST_INSTANT, Completion.NEXT_INSTANT, 1, 1, 0), [s],
         map[s := Reading(ProofRequest(e, s, baselineKwh, 0, "", "", None, ""), "")], [s], [], s, "", 0)
  }

  lemma OneSiteListed(e: string, s: string, baselineKwh: nat)
    ensures OneSite(e, s, baselineKwh).Listed() == [s]
  {
    assert [s][..0] == [] && Dedup([]) == [];
  }

  lemma OneSiteFits(hash: Hasher, e: string, s: string, baselineKwh: nat)
    requires IsUint256(baselineKwh)
    ensures Fits(OneSite(e, s, baselineKwh), hash)
  {
    var x := OneSite(e, s, baselineKwh);
    OneSiteListed(e, s, baselineKwh);
    Completion.ASecondApart();
    hide Dedup, TimeOrder.ValidInstant, TimeOrder.LexLess, TimeOrder.ToRfc3339;
    assert ReadingFits(x, hash, s);
    assert Payout.BoundedRates(1, 1, 0);
  }

  lemma EpochSeconds()
    ensures TimeOrder.ValidInstant(Completion.FIRST_INSTANT) && TimeOrder.ValidInstant(Completion.NEXT_INSTANT)
    ensures TimeOrder.UnixSeconds(Completion.FIRST_INSTANT) == 0 && TimeOrder.UnixSeconds(Completion.NEXT_INSTANT) == 1
  {
    Completion.ASecondApart();
    hide TimeOrder.UnixSeconds, TimeOrder.ValidInstant, TimeOrder.LexLess, TimeOrder.ToRfc3339;
    TimeOrder.EpochTime(Completion.FIRST_INSTANT);
    TimeOrder.EpochTime(Completion.NEXT_INSTANT);
  }

  lemma OneSiteEncodable(e: string, s: string, baselineKwh: nat)
    ensures ValidRequest(OneSite(e, s, baselineKwh).req) && C.Encodable(CreateCall(OneSite(e, s, baselineKwh)))
  {
    var x := OneSite(e, s, baselineKwh);
    Completion.ASecondApart();
    EpochSeconds();
    hide TimeOrder.ValidInstant, TimeOrder.LexLess, TimeOrder.ToRfc3339, TimeOrder.UnixSeconds, S.Seconds;
    S.TimesReadBack(x.req);
  }

  lemma OneSitePair(d: C.Deployment, hash: Hasher, e: string, s: string)
    requires S.Operates(d)
    ensures Pair(d, hash, OneSite(e, s, 1), OneSite(e, s, 0))
  {
    OneSiteFits(hash, e, s, 1);
    OneSiteFits(hash, e, s, 0);
    OneSiteEncodable(e, s, 1);
    Completion.ASecondApart();
    hide Fits, C.Encodable, CreateCall, TimeOrder.ValidInstant, TimeOrder.LexLess, TimeOrder.ToRfc3339, S.Operates;
  }

  lemma OneSitePays(e: string, s: string)
    ensures OneSite(e, s, 1).Pay(s) == 1 && OneSite(e, s, 0).Pay(s) == 0
  {
    OneSiteListed(e, s, 1);
    OneSiteListed(e, s, 0);
    hide Dedup, SortedSites;
  }

  /** A delivered kilowatt hour that the row rewards and the chain does not. */
  lemma OneKwhDiverges(d: C.Deployment, hash: Hasher, owner: T.Address, supply: nat, e: string, s: string,
                       hs: seq<string>,
                       other: Option<T.Address>)
    returns (acts: seq<H.Action>, n: H.World)
    requires T.DeployDrt(owner, supply).Ok? && S.Operates(d) && MayPost(d, other)
    requires |hs| == 8 && NoDup(hs) && forall i :: 0 <= i < |hs| ==> hs[i] != ""
    ensures H.LegalRun(H.Start(T.DeployDrt(owner, supply).value), d, hash, acts)
    ensures n == H.Run(H.Start(T.DeployDrt(owner, supply).value), d, hash, acts)
    ensures (e, s) in n.db.settlements && n.db.settlements[(e, s)].tx.state == Confirmed
            && n.db.settlements[(e, s)].payout == 1
    ensures (e, s) in n.chain.records && n.chain.records[(e, s)].payout == 0
  {
    var x, y := OneSite(e, s, 1), OneSite(e, s, 0);
    OneSitePair(d, hash, e, s);
    OneSiteListed(e, s, 1);
    OneSitePays(e, s);
    assert FreshFrom(H.Start(T.DeployDrt(owner, supply).value), x, hs, 0);
    hide H.LegalRun, H.Run, T.DeployDrt, H.Start, Pair, FreshFrom, MayPost, Stands, Dedup, SortedSites,
         Payout.CalculatePayout;
    acts, n := ReadingsDiverge(d, hash, owner, supply, x, y, hs, other);
    assert s in x.Listed() && PaidApart(n, x, y, s);
  }
}
