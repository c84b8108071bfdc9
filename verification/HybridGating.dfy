/**
 Hybrid mode: a chain step returns a submitted hash, and the chain confirms or fails it at any later moment. The
 theorems hold for every interleaving of service calls, reconciliation passes, mining and other accounts' calls.
 */
module HybridGating {
  import opened Common
  import opened Database
  import opened Reconcile
  import opened Submitter
  import opened DbRuns
  import S = SyncSimulation
  import C = Contracts
  import R = ChainRuns
  import T = Tokens

  /** A transaction the service has sent: what it calls and where it stands on the chain. */
  datatype Sent = Sent(call: C.Call, state: TxState)

  datatype World = World(db: Db, chain: C.Chain, txs: map<string, Sent>)

  datatype Action =
    | Serve(call: ServiceCall, reply: Option<Tx>, now: string)
    | Reconcile(event: string, answers: Snapshot, done: set<Slot>)
    | Mine(hash: string, included: bool, time: nat)
    | Foreign(sender: T.Address, chainCall: C.Call, time: nat)

  /** An answer is the transaction's standing now, or a stale submitted from earlier in the pass. */
  ghost predicate Truthful(answers: Snapshot, txs: map<string, Sent>) {
    forall h :: h in answers && answers[h].state != Submitted ==> h in txs && txs[h].state == answers[h].state
  }

  /** A transaction just sent: submitted, without a fee, under a hash that nothing has. */
  ghost predicate NewReply(tx: Tx, txs: map<string, Sent>) {
    tx.hash != "" && tx.hash !in txs && tx.state == Submitted && Blank(tx.fee)
  }

  /**
   What a chain step returns is submitted, under a new hash. A pass visits all of one event's slots, or is cut short at
   a slot whose look-up raised. Other calls on the chain may come from any account, the operator's own wallet included.
   */
  ghost predicate Enabled(w: World, d: C.Deployment, a: Action) {
    match a
    case Serve(call, reply, _) =>
      && WellFormed(w.db, call) && !call.Pass?
      && (reply.Some? ==> NewReply(reply.value, w.txs))
    case Reconcile(e, answers, done) =>
      Truthful(answers, w.txs) && Visits(w.db, e, answers, done)
    case Mine(h, _, _) => h in w.txs && w.txs[h].state == Submitted
    case Foreign(sender, _, _) => sender != d.settlement && sender != T.ZERO_ADDRESS
  }

  ghost predicate ChecksPass(db: Db, hash: Hasher, call: ServiceCall, now: string)
    requires WellFormed(db, call)
  {
    match call
    case Create(req) => CreateGuard(db, req) == None
    case SubmitProof(req, _) => ProofGuard(db, true, hash, req, now) == None
    case Close(e) => CloseGuard(db, e) == None
    case Settle(e, sites) => SettleGuard(db, true, e, sites).Ok?
    case Claim(e, site, actor) => ClaimGuard(db, true, e, site, actor) == None
    case _ => false
  }

  function Pending(h: string, now: string): Tx {
    Tx(h, None, Submitted, now, None, None)
  }

  ghost function Step(w: World, d: C.Deployment, hash: Hasher, a: Action): World
    requires Enabled(w, d, a)
  {
    match a
    case Serve(call, reply, now) =>
      if call.RequestAudit? then w.(db := Take(w.db, true, hash, DbRuns.Turn(call, None, now)))
      else if !ChecksPass(w.db, hash, call, now) || reply.None? then w
      else
        var txs := w.txs[reply.value.hash := Sent(S.ChainCall(w.db, hash, call, now), Submitted)];
        (match Perform(w.db, true, hash, call, reply.value, now)
         case Ok(db) => w.(db := db, txs := txs)
         case Err(_) => w.(txs := txs))
    case Reconcile(_, answers, done) => w.(db := Reconciled(w.db, answers, done))
    case Mine(h, included, time) =>
      if !included then w.(txs := w.txs[h := w.txs[h].(state := Failed)])
      else
        (match C.Execute(d, w.chain, d.operator, time, w.txs[h].call)
         case Ok(chain) => w.(chain := chain, txs := w.txs[h := w.txs[h].(state := Confirmed)])
         case Err(_) => w.(txs := w.txs[h := w.txs[h].(state := Failed)]))
    case Foreign(sender, chainCall, time) => w.(chain := R.Step(d, w.chain, R.Tx(sender, time, chainCall)))
  }

  // ---- What each recorded transaction calls ----

  ghost predicate Backs(db: Db, x: Slot, call: C.Call) {
    match x
    case CreateTx(e) =>
      && e in db.events
      && call == C.CreateEvent(e, S.Seconds(db.events[e].startTime), S.Seconds(db.events[e].endTime),
                               db.events[e].targetKw, db.events[e].rewardRate, db.events[e].penaltyRate)
    case CloseTx(e) => call == C.CloseEvent(e)
    case ProofTx(e, s) =>
      && (e, s) in db.proofs
      && call == C.SubmitProof(e, s, db.proofs[(e, s)].baselineKwh, db.proofs[(e, s)].actualKwh,
                               db.proofs[(e, s)].proofHash, db.proofs[(e, s)].uri)
    case SettleTx(e, s) =>
      && call.SettleEvent? && call.id == e
      && forall t :: t in call.sites <==> (e, t) in db.settlements
    case ClaimTx(e, s) => call == C.ClaimReward(e, s)
  }

  /** The recorded transaction was sent for this row, and what the row shows about it is true or still pending. */
  ghost predicate SlotTrue(db: Db, txs: map<string, Sent>, x: Slot) {
    TxAt(db, x).Some? ==>
      var t := TxAt(db, x).value;
      && t.hash in txs
      && (t.state == Submitted || t.state == txs[t.hash].state)
      && Backs(db, x, txs[t.hash].call)
  }

  ghost predicate SlotsTrue(db: Db, txs: map<string, Sent>) {
    forall x :: SlotTrue(db, txs, x)
  }

  /** Each phase of the lifecycle starts only after the previous phase's transaction is confirmed. */
  ghost predicate Gates(db: Db) {
    && (forall k :: k in db.proofs ==> k.0 in db.events && db.events[k.0].tx.state == Confirmed)
    && (forall k :: k in db.settlements ==>
         && k.0 in db.events && db.events[k.0].closeTx.Some? && db.events[k.0].closeTx.value.state == Confirmed
         && (db.settlements[k].status == Claimed ==> db.settlements[k].tx.state == Confirmed))
  }

  /** What a confirmed call leaves on the chain, for good. */
  ghost predicate OnChain(c: C.Chain, call: C.Call) {
    match call
    case CreateEvent(e, start, end, targetKw, rewardRate, penaltyRate) =>
      && e in c.events
      && c.events[e].startTime == start && c.events[e].endTime == end
      && c.events[e].targetKw == targetKw && c.events[e].rewardRate == rewardRate
      && c.events[e].penaltyRate == penaltyRate
    case CloseEvent(e) => e in c.events && c.events[e].status != C.Active
    case SubmitProof(e, s, baselineKwh, actualKwh, proofHash, uri) =>
      && (e, s) in c.proofs
      && c.proofs[(e, s)].baselineKwh == baselineKwh && c.proofs[(e, s)].actualKwh == actualKwh
      && c.proofs[(e, s)].proofHash == proofHash && c.proofs[(e, s)].uri == uri
    case SettleEvent(e, sites) =>
      && e in c.events && c.events[e].status == C.Settled
      && R.SitesOf(c.records, e) == (set s | s in sites :: (e, s))
    case ClaimReward(e, s) => (e, s) in c.records && c.records[(e, s)].status == C.Claimed
    case _ => true
  }

  ghost predicate MinedOnChain(w: World) {
    forall h :: h in w.txs && w.txs[h].state == Confirmed ==> OnChain(w.chain, w.txs[h].call)
  }

  ghost predicate Inv(w: World, d: C.Deployment, hash: Hasher) {
    && DbInv(w.db, hash) && R.Inv(d, w.chain)
    && "" !in w.txs
    && SlotsTrue(w.db, w.txs)
    && Gates(w.db)
    && MinedOnChain(w)
  }

  // ---- The chain side: mining and other accounts ----

  lemma OnChainStays(c: C.Chain, n: C.Chain, call: C.Call)
    requires R.Evolves(c, n) && OnChain(c, call)
    ensures OnChain(n, call)
  {
    match call
    case SettleEvent(e, sites) =>
      forall k ensures k in R.SitesOf(n.records, e) <==> k in R.SitesOf(c.records, e) {
      }
    case CreateEvent(e, _, _, _, _, _) =>
      assert n.events[e].(status := C.Active) == c.events[e].(status := C.Active);
    case _ =>
  }

  lemma SettledIsOnChain(d: C.Deployment, c: C.Chain, time: nat, e: C.Id, sites: seq<C.Id>)
    requires R.RecordsAnchored(c) && C.DoSettleEvent(d, c, d.operator, time, e, sites).Ok?
    ensures OnChain(C.DoSettleEvent(d, c, d.operator, time, e, sites).value, C.SettleEvent(e, sites))
  {
    var n := C.DoSettleEvent(d, c, d.operator, time, e, sites).value;
    R.SettleEventSettles(d, c, d.operator, time, e, sites);
    R.ClosedHasNoRecords(c, e);
    R.SettledSites(c, n.records, e, sites, c.events[e].targetKw / |sites|, time);
  }

  lemma ExecutedIsOnChain(d: C.Deployment, c: C.Chain, time: nat, call: C.Call)
    requires R.RecordsAnchored(c) && C.Execute(d, c, d.operator, time, call).Ok?
    ensures OnChain(C.Execute(d, c, d.operator, time, call).value, call)
  {
    if call.SettleEvent? {
      SettledIsOnChain(d, c, time, call.id, call.sites);
    }
  }

  lemma MinedStays(w: World, n: World)
    requires MinedOnChain(w) && n.txs == w.txs && R.Evolves(w.chain, n.chain)
    ensures MinedOnChain(n)
  {
    forall h | h in n.txs && n.txs[h].state == Confirmed ensures OnChain(n.chain, n.txs[h].call) {
      OnChainStays(w.chain, n.chain, n.txs[h].call);
    }
  }

  lemma ForeignKeepsInv(w: World, d: C.Deployment, hash: Hasher, a: Action)
    requires Inv(w, d, hash) && Enabled(w, d, a) && a.Foreign?
    ensures Inv(Step(w, d, hash, a), d, hash)
  {
    hide DbInv, SlotsTrue, Gates;
    R.StepKeepsInv(d, w.chain, R.Tx(a.sender, a.time, a.chainCall));
    R.StepEvolves(d, w.chain, R.Tx(a.sender, a.time, a.chainCall));
    MinedStays(w, Step(w, d, hash, a));
  }

  /** Settling a pending transaction's standing cannot contradict a row: rows with a final state are already settled. */
  lemma StandingSettles(db: Db, txs: map<string, Sent>, h: string, state: TxState)
    requires SlotsTrue(db, txs) && h in txs && txs[h].state == Submitted
    ensures SlotsTrue(db, txs[h := txs[h].(state := state)])
  {
    var next := txs[h := txs[h].(state := state)];
    forall x ensures SlotTrue(db, next, x) {
      assert SlotTrue(db, txs, x);
    }
  }

  lemma MineKeepsInv(w: World, d: C.Deployment, hash: Hasher, a: Action)
    requires Inv(w, d, hash) && Enabled(w, d, a) && a.Mine? && S.Operates(d)
    ensures Inv(Step(w, d, hash, a), d, hash)
  {
    hide DbInv, SlotsTrue, Gates;
    var h, call := a.hash, w.txs[a.hash].call;
    StandingSettles(w.db, w.txs, h, Failed);
    StandingSettles(w.db, w.txs, h, Confirmed);
    if a.included && C.Execute(d, w.chain, d.operator, a.time, call).Ok? {
      var n := Step(w, d, hash, a);
      R.StepKeepsInv(d, w.chain, R.Tx(d.operator, a.time, call));
      R.StepEvolves(d, w.chain, R.Tx(d.operator, a.time, call));
      ExecutedIsOnChain(d, w.chain, a.time, call);
      forall g | g in n.txs && n.txs[g].state == Confirmed ensures OnChain(n.chain, n.txs[g].call) {
        if g != h {
          OnChainStays(w.chain, n.chain, n.txs[g].call);
        }
      }
    }
  }

  // ---- Reconciliation ----

  lemma BacksReconciled(db: Db, answers: Snapshot, done: set<Slot>, x: Slot, call: C.Call)
    requires Backs(db, x, call)
    ensures Backs(Reconciled(db, answers, done), x, call)
  {
    hide S.Seconds;
  }

  lemma PassKeepsSlots(db: Db, txs: map<string, Sent>, answers: Snapshot, done: set<Slot>)
    requires SlotsTrue(db, txs) && Truthful(answers, txs)
    ensures SlotsTrue(Reconciled(db, answers, done), txs)
  {
    hide S.Seconds, Backs, Reconciled;
    forall x ensures SlotTrue(Reconciled(db, answers, done), txs, x) {
      assert SlotTrue(db, txs, x);
      ReconciledAt(db, answers, done, x);
      if TxAt(db, x).Some? {
        UpdatedSettled(TxAt(db, x).value, answers);
        BacksReconciled(db, answers, done, x, txs[TxAt(db, x).value.hash].call);
      }
    }
  }

  lemma PassKeepsGates(db: Db, answers: Snapshot, done: set<Slot>)
    requires Gates(db)
    ensures Gates(Reconciled(db, answers, done))
  {
    forall t: Tx | t.state == Confirmed ensures Updated(t, answers) == t {
    }
  }

  lemma PassKeepsInv(w: World, d: C.Deployment, hash: Hasher, a: Action)
    requires Inv(w, d, hash) && Enabled(w, d, a) && a.Reconcile?
    ensures Inv(Step(w, d, hash, a), d, hash)
  {
    hide DbInv, SlotsTrue, Gates, Reconciled, R.Inv;
    PassKeepsDbInv(w.db, hash, a.answers, a.done);
    PassKeepsSlots(w.db, w.txs, a.answers, a.done);
    PassKeepsGates(w.db, a.answers, a.done);
  }

  // ---- Service calls ----

  /** Recorded parameters and readings stay as they are. */
  ghost predicate RowsKept(db: Db, next: Db) {
    && (forall e :: e in db.events ==>
         && e in next.events
         && next.events[e].startTime == db.events[e].startTime && next.events[e].endTime == db.events[e].endTime
         && next.events[e].targetKw == db.events[e].targetKw
         && next.events[e].rewardRate == db.events[e].rewardRate
         && next.events[e].penaltyRate == db.events[e].penaltyRate)
    && (forall k :: k in db.proofs ==>
         && k in next.proofs
         && next.proofs[k].baselineKwh == db.proofs[k].baselineKwh && next.proofs[k].actualKwh == db.proofs[k].actualKwh
         && next.proofs[k].proofHash == db.proofs[k].proofHash && next.proofs[k].uri == db.proofs[k].uri)
    && (forall k :: k in db.settlements ==> k in next.settlements)
    && (forall k :: k in next.settlements && k !in db.settlements ==> RowsOf(db, k.0) == {})
  }

  lemma BacksKept(db: Db, next: Db, y: Slot, call: C.Call)
    requires RowsKept(db, next) && Backs(db, y, call) && TxAt(db, y).Some?
    ensures Backs(next, y, call)
  {
    hide S.Seconds;
    if y.SettleTx? {
      assert (y.event, y.site) in RowsOf(db, y.event);
      forall t ensures t in call.sites <==> (y.event, t) in next.settlements {
      }
    }
  }

  /** One call fills some slots with its transaction and leaves every other slot alone. */
  ghost predicate Fills(db: Db, next: Db, tx: Tx, filled: set<Slot>) {
    && (forall y :: y !in filled ==> TxAt(next, y) == TxAt(db, y))
    && (forall y :: y in filled ==> TxAt(next, y) == Some(tx))
  }

  lemma CreateFills(db: Db, req: CreateRequest, tx: Tx, now: string)
    requires ValidRequest(req) && CreateGuard(db, req) == None
    ensures Fills(db, CreateCommit(db, req, tx, now), tx, {CreateTx(req.eventId)})
  {
    var next := CreateCommit(db, req, tx, now);
    forall y | y != CreateTx(req.eventId) ensures TxAt(next, y) == TxAt(db, y) {
      match y
      case CreateTx(_) =>
      case CloseTx(_) =>
      case ProofTx(_, _) =>
      case SettleTx(_, _) =>
      case ClaimTx(_, _) =>
    }
  }

  lemma ProofFills(db: Db, hash: Hasher, req: ProofRequest, actor: string, tx: Tx, now: string)
    requires ProofCommit(db, hash, req, actor, tx, now).Ok?
    ensures Fills(db, ProofCommit(db, hash, req, actor, tx, now).value, tx, {ProofTx(req.eventId, req.siteId)})
  {
    var next := ProofCommit(db, hash, req, actor, tx, now).value;
    forall y | y != ProofTx(req.eventId, req.siteId) ensures TxAt(next, y) == TxAt(db, y) {
      match y
      case CreateTx(_) =>
      case CloseTx(_) =>
      case ProofTx(_, _) =>
      case SettleTx(_, _) =>
      case ClaimTx(_, _) =>
    }
  }

  lemma CloseFills(db: Db, e: string, tx: Tx, now: string)
    requires CloseGuard(db, e) == None
    ensures Fills(db, CloseCommit(db, e, tx, now), tx, {CloseTx(e)})
  {
    var next := CloseCommit(db, e, tx, now);
    forall y | y != CloseTx(e) ensures TxAt(next, y) == TxAt(db, y) {
      match y
      case CreateTx(_) =>
      case CloseTx(_) =>
      case ProofTx(_, _) =>
      case SettleTx(_, _) =>
      case ClaimTx(_, _) =>
    }
  }

  lemma ClaimFills(db: Db, e: string, site: string, tx: Tx, now: string)
    requires (e, site) in db.settlements
    ensures Fills(db, ClaimCommit(db, e, site, tx, now), tx, {ClaimTx(e, site)})
  {
    var next := ClaimCommit(db, e, site, tx, now);
    forall y | y != ClaimTx(e, site) ensures TxAt(next, y) == TxAt(db, y) {
      match y
      case CreateTx(_) =>
      case CloseTx(_) =>
      case ProofTx(_, _) =>
      case SettleTx(_, _) =>
      case ClaimTx(_, _) =>
    }
  }

  lemma SettleFills(db: Db, next: Db, e: string, list: seq<string>, tx: Tx, now: string)
    requires Settles(db, next, e, list, tx, now) && RowsOf(db, e) == {}
    ensures Fills(db, next, tx, set s | s in list :: SettleTx(e, s))
    ensures RowsKept(db, next)
    ensures forall s :: s in list ==> Backs(next, SettleTx(e, s), C.SettleEvent(e, list))
  {
    hide S.Seconds;
    var filled := set s | s in list :: SettleTx(e, s);
    forall s ensures (e, s) !in db.settlements {
      assert (e, s) !in RowsOf(db, e);
    }
    forall y | y !in filled ensures TxAt(next, y) == TxAt(db, y) {
      match y
      case CreateTx(_) =>
      case CloseTx(_) =>
      case ProofTx(_, _) =>
      case SettleTx(x, s) =>
        assert x == e ==> s !in list;
        assert (x, s).0 == x && (x, s).1 == s;
      case ClaimTx(x, s) =>
        assert (x, s).0 == x && (x, s).1 == s;
    }
    forall t ensures t in list <==> (e, t) in next.settlements {
      assert (e, t).0 == e && (e, t).1 == t;
    }
  }

  /** A write that fills fresh slots with one pending transaction keeps every slot true. */
  lemma WriteKeepsSlots(db: Db, next: Db, txs: map<string, Sent>, tx: Tx, call: C.Call,
                        filled: set<Slot>)
    requires SlotsTrue(db, txs) && NewReply(tx, txs) && RowsKept(db, next)
    requires Fills(db, next, tx, filled)
    requires forall y :: y in filled ==> Backs(next, y, call)
    ensures SlotsTrue(next, txs[tx.hash := Sent(call, Submitted)])
  {
    hide Backs, RowsKept;
    var after := txs[tx.hash := Sent(call, Submitted)];
    forall y ensures SlotTrue(next, after, y) {
      if y !in filled {
        assert SlotTrue(db, txs, y);
        if TxAt(db, y).Some? {
          BacksKept(db, next, y, txs[TxAt(db, y).value.hash].call);
        }
      }
    }
  }

  lemma CreateKeepsInv(db: Db, txs: map<string, Sent>, hash: Hasher, req: CreateRequest, tx: Tx, now: string)
    requires SlotsTrue(db, txs) && Gates(db) && NewReply(tx, txs)
    requires ValidRequest(req) && CreateGuard(db, req) == None
    ensures var next := CreateCommit(db, req, tx, now);
            SlotsTrue(next, txs[tx.hash := Sent(S.ChainCall(db, hash, Create(req), now), Submitted)]) && Gates(next)
  {
    hide S.Seconds, SlotsTrue;
    var next := CreateCommit(db, req, tx, now);
    CreateFills(db, req, tx, now);
    WriteKeepsSlots(db, next, txs, tx, S.ChainCall(db, hash, Create(req), now), {CreateTx(req.eventId)});
  }

  lemma ProofKeepsInv(db: Db, txs: map<string, Sent>, hash: Hasher, req: ProofRequest, actor: string, tx: Tx,
                      now: string)
    requires SlotsTrue(db, txs) && Gates(db) && NewReply(tx, txs) && "" !in txs
    requires ProofGuard(db, true, hash, req, now) == None && ProofCommit(db, hash, req, actor, tx, now).Ok?
    ensures var next := ProofCommit(db, hash, req, actor, tx, now).value;
            SlotsTrue(next, txs[tx.hash := Sent(S.ChainCall(db, hash, SubmitProof(req, actor), now), Submitted)])
                && Gates(next)
  {
    hide S.Seconds;
    var next := ProofCommit(db, hash, req, actor, tx, now).value;
    var x := ProofTx(req.eventId, req.siteId);
    ProofFills(db, hash, req, actor, tx, now);
    WriteKeepsSlots(db, next, txs, tx, S.ChainCall(db, hash, SubmitProof(req, actor), now), {x});
    assert SlotTrue(db, txs, CreateTx(req.eventId));
    assert db.events[req.eventId].tx.state == Confirmed;
  }

  lemma CloseKeepsInv(db: Db, txs: map<string, Sent>, hash: Hasher, e: string, tx: Tx, now: string)
    requires SlotsTrue(db, txs) && Gates(db) && NewReply(tx, txs)
    requires CloseGuard(db, e) == None && RowsOf(db, e) == {}
    ensures var next := CloseCommit(db, e, tx, now);
            SlotsTrue(next, txs[tx.hash := Sent(C.CloseEvent(e), Submitted)]) && Gates(next)
  {
    hide S.Seconds, SlotsTrue;
    var next := CloseCommit(db, e, tx, now);
    CloseFills(db, e, tx, now);
    WriteKeepsSlots(db, next, txs, tx, C.CloseEvent(e), {CloseTx(e)});
    forall k | k in next.settlements ensures k.0 != e {
      assert k in RowsOf(db, k.0);
    }
  }

  lemma ClaimKeepsInv(db: Db, txs: map<string, Sent>, hash: Hasher, e: string, site: string, actor: string, tx: Tx,
                      now: string)
    requires SlotsTrue(db, txs) && Gates(db) && NewReply(tx, txs)
    requires ClaimGuard(db, true, e, site, actor) == None
    ensures var next := ClaimCommit(db, e, site, tx, now);
            SlotsTrue(next, txs[tx.hash := Sent(C.ClaimReward(e, site), Submitted)]) && Gates(next)
  {
    hide S.Seconds, SlotsTrue;
    var next := ClaimCommit(db, e, site, tx, now);
    var x := ClaimTx(e, site);
    ClaimFills(db, e, site, tx, now);
    WriteKeepsSlots(db, next, txs, tx, C.ClaimReward(e, site), {x});
  }

  lemma SettleKeepsInv(db: Db, txs: map<string, Sent>, hash: Hasher, e: string, sites: seq<string>, tx: Tx,
                       now: string)
    requires DbInv(db, hash) && SlotsTrue(db, txs) && Gates(db) && NewReply(tx, txs)
    requires SettleGuard(db, true, e, sites).Ok?
    ensures var next := SettleCommit(db, e, SettleGuard(db, true, e, sites).value, tx, now);
            SlotsTrue(next, txs[tx.hash := Sent(C.SettleEvent(e, SettleList(db, e, sites)), Submitted)]) && Gates(next)
  {
    hide S.Seconds, SlotsTrue, SettleRows, InsertRows, SettleList, Backs;
    var list := SettleList(db, e, sites);
    var next := SettleCommit(db, e, SettleGuard(db, true, e, sites).value, tx, now);
    SettleCommitSettles(db, true, e, sites, tx, now);
    assert RowsOf(db, e) == {};
    SettleFills(db, next, e, list, tx, now);
    WriteKeepsSlots(db, next, txs, tx, C.SettleEvent(e, list), set s | s in list :: SettleTx(e, s));
    assert db.events[e].closeTx.Some? && db.events[e].closeTx.value.state == Confirmed;
    SettleKeepsGates(db, next, e, list, tx, now);
  }

  lemma SettleKeepsGates(db: Db, next: Db, e: string, list: seq<string>, tx: Tx, now: string)
    requires Gates(db) && Settles(db, next, e, list, tx, now) && RowsOf(db, e) == {}
    requires db.events[e].closeTx.Some? && db.events[e].closeTx.value.state == Confirmed
    ensures Gates(next)
  {
    forall k | k in next.settlements
      ensures k.0 in next.events && next.events[k.0].closeTx.Some? && next.events[k.0].closeTx.value.state == Confirmed
      ensures next.settlements[k].status == Claimed ==> next.settlements[k].tx.state == Confirmed
    {
      if k.0 == e {
        assert k !in RowsOf(db, e);
        assert k == (e, k.1);
      } else {
        assert k in db.settlements;
      }
    }
  }

  ghost predicate Unsettled(db: Db, call: ServiceCall) {
    call.Close? || call.Settle? ==> RowsOf(db, call.event) == {}
  }

  lemma OpenEventsUnsettled(db: Db, hash: Hasher, call: ServiceCall, now: string)
    requires DbInv(db, hash) && WellFormed(db, call) && ChecksPass(db, hash, call, now)
    ensures Unsettled(db, call)
  {
    hide ProofsShaped, SettlementsShaped, SettleRows, SettleList;
  }

  lemma ServeWrites(db: Db, txs: map<string, Sent>, hash: Hasher, call: ServiceCall, tx: Tx, now: string)
    requires SlotsTrue(db, txs) && Gates(db) && NewReply(tx, txs) && "" !in txs
    requires DbInv(db, hash)
    requires WellFormed(db, call) && !call.Pass? && !call.RequestAudit? && ChecksPass(db, hash, call, now)
    requires Perform(db, true, hash, call, tx, now).Ok?
    ensures var next := Perform(db, true, hash, call, tx, now).value;
            SlotsTrue(next, txs[tx.hash := Sent(S.ChainCall(db, hash, call, now), Submitted)]) && Gates(next)
  {
    OpenEventsUnsettled(db, hash, call, now);
    hide DbInv, SlotsTrue, Gates, Settles, SettleRows, InsertRows, SettleList, S.Seconds;
    match call
    case Create(req) => CreateKeepsInv(db, txs, hash, req, tx, now);
    case SubmitProof(req, actor) => ProofKeepsInv(db, txs, hash, req, actor, tx, now);
    case Close(e) => CloseKeepsInv(db, txs, hash, e, tx, now);
    case Settle(e, sites) => SettleKeepsInv(db, txs, hash, e, sites, tx, now);
    case Claim(e, site, actor) => ClaimKeepsInv(db, txs, hash, e, site, actor, tx, now);
  }

  /** A transaction sent without a row of its own disturbs no slot. */
  lemma StraySendKeepsSlots(db: Db, txs: map<string, Sent>, h: string, call: C.Call)
    requires SlotsTrue(db, txs) && h !in txs
    ensures SlotsTrue(db, txs[h := Sent(call, Submitted)])
  {
    hide Backs;
    var after := txs[h := Sent(call, Submitted)];
    forall x ensures SlotTrue(db, after, x) {
      assert SlotTrue(db, txs, x);
    }
  }

  /** Sending a new transaction together with the tables that its write leaves. */
  lemma SendKeepsInv(w: World, d: C.Deployment, hash: Hasher, db: Db, h: string, sent: Sent)
    requires Inv(w, d, hash) && h != "" && h !in w.txs && sent.state == Submitted
    requires DbInv(db, hash) && SlotsTrue(db, w.txs[h := sent]) && Gates(db)
    ensures Inv(World(db, w.chain, w.txs[h := sent]), d, hash)
  {
    hide DbInv, SlotsTrue, Gates, R.Inv, OnChain;
  }

  lemma InvParts(w: World, d: C.Deployment, hash: Hasher)
    requires Inv(w, d, hash)
    ensures DbInv(w.db, hash) && SlotsTrue(w.db, w.txs) && Gates(w.db) && "" !in w.txs
  {
  }

  lemma CallKeepsInv(w: World, d: C.Deployment, hash: Hasher, call: ServiceCall, tx: Tx, now: string)
    requires Inv(w, d, hash) && NewReply(tx, w.txs)
    requires WellFormed(w.db, call) && !call.Pass? && !call.RequestAudit? && ChecksPass(w.db, hash, call, now)
    ensures var r := Perform(w.db, true, hash, call, tx, now);
            Inv(World(if r.Ok? then r.value else w.db, w.chain,
                      w.txs[tx.hash := Sent(S.ChainCall(w.db, hash, call, now), Submitted)]), d, hash)
  {
    InvParts(w, d, hash);
    hide Inv, DbInv, SlotsTrue, Gates, Perform, ChecksPass, WellFormed, S.ChainCall;
    var r := Perform(w.db, true, hash, call, tx, now);
    var sent := Sent(S.ChainCall(w.db, hash, call, now), Submitted);
    if r.Ok? {
      PerformKeepsDbInv(w.db, true, hash, call, tx, now);
      ServeWrites(w.db, w.txs, hash, call, tx, now);
      SendKeepsInv(w, d, hash, r.value, tx.hash, sent);
    } else {
      StraySendKeepsSlots(w.db, w.txs, tx.hash, sent.call);
      SendKeepsInv(w, d, hash, w.db, tx.hash, sent);
    }
  }

  lemma ServeKeepsInv(w: World, d: C.Deployment, hash: Hasher, a: Action)
    requires Inv(w, d, hash) && Enabled(w, d, a) && a.Serve? && !a.call.RequestAudit?
    ensures Inv(Step(w, d, hash, a), d, hash)
  {
    hide Inv, Perform, ChecksPass, WellFormed, S.ChainCall;
    if ChecksPass(w.db, hash, a.call, a.now) && a.reply.Some? {
      CallKeepsInv(w, d, hash, a.call, a.reply.value, a.now);
    }
  }

  lemma SameRowsKeepSlots(db: Db, next: Db, txs: map<string, Sent>)
    requires SlotsTrue(db, txs) && Gates(db) && next == db.(audits := next.audits)
    ensures SlotsTrue(next, txs) && Gates(next)
  {
    hide S.Seconds;
    forall x ensures SlotTrue(next, txs, x) {
      assert SlotTrue(db, txs, x);
    }
  }

  lemma AuditMoves(db: Db, hash: Hasher, call: ServiceCall, now: string)
    requires call.RequestAudit?
    ensures var next := Take(db, true, hash, DbRuns.Turn(call, None, now)); next == db.(audits := next.audits)
  {
  }

  lemma AuditKeepsInv(w: World, d: C.Deployment, hash: Hasher, a: Action)
    requires Inv(w, d, hash) && Enabled(w, d, a) && a.Serve? && a.call.RequestAudit?
    ensures Inv(Step(w, d, hash, a), d, hash)
  {
    hide DbInv, R.Inv, SlotsTrue, Gates, Take;
    TakeKeepsDbInv(w.db, true, hash, DbRuns.Turn(a.call, None, a.now));
    AuditMoves(w.db, hash, a.call, a.now);
    SameRowsKeepSlots(w.db, Step(w, d, hash, a).db, w.txs);
  }

  lemma StepKeepsInv(w: World, d: C.Deployment, hash: Hasher, a: Action)
    requires Inv(w, d, hash) && Enabled(w, d, a) && S.Operates(d)
    ensures Inv(Step(w, d, hash, a), d, hash)
  {
    hide Inv, Step, Enabled;
    match a
    case Serve(call, _, _) =>
      if call.RequestAudit? { AuditKeepsInv(w, d, hash, a); } else { ServeKeepsInv(w, d, hash, a); }
    case Reconcile(_, _, _) => PassKeepsInv(w, d, hash, a);
    case Mine(_, _, _) => MineKeepsInv(w, d, hash, a);
    case Foreign(_, _, _) => ForeignKeepsInv(w, d, hash, a);
  }

  // ---- Whole runs ----

  ghost predicate LegalRun(w: World, d: C.Deployment, hash: Hasher, actions: seq<Action>)
    decreases |actions|
  {
    actions == [] || (Enabled(w, d, actions[0]) && LegalRun(Step(w, d, hash, actions[0]), d, hash, actions[1..]))
  }

  ghost function Run(w: World, d: C.Deployment, hash: Hasher, actions: seq<Action>): World
    requires LegalRun(w, d, hash, actions)
    decreases |actions|
  {
    if actions == [] then w else Run(Step(w, d, hash, actions[0]), d, hash, actions[1..])
  }

  lemma {:induction false} RunKeepsInv(w: World, d: C.Deployment, hash: Hasher, actions: seq<Action>)
    requires Inv(w, d, hash) && S.Operates(d) && LegalRun(w, d, hash, actions)
    ensures Inv(Run(w, d, hash, actions), d, hash)
    decreases |actions|
  {
    hide Inv, Step, Enabled;
    if actions != [] {
      StepKeepsInv(w, d, hash, actions[0]);
      RunKeepsInv(Step(w, d, hash, actions[0]), d, hash, actions[1..]);
    }
  }

  function Start(token: T.Token): World {
    World(EMPTY_DB, R.Fresh(token), map[])
  }

  lemma StartSatisfiesInv(d: C.Deployment, hash: Hasher, owner: T.Address, supply: nat)
    requires T.DeployDrt(owner, supply).Ok?
    ensures Inv(Start(T.DeployDrt(owner, supply).value), d, hash)
  {
    R.FreshSatisfiesInv(d, owner, supply);
    EmptyDbInv(hash);
  }

  // ---- What the gates are for ----

  /** Confirmed in the tables means confirmed on the chain, with the row's own content there. */
  lemma ConfirmedIsOnChain(w: World, d: C.Deployment, hash: Hasher, x: Slot)
    requires Inv(w, d, hash) && TxAt(w.db, x).Some? && TxAt(w.db, x).value.state == Confirmed
    ensures var h := TxAt(w.db, x).value.hash;
            h in w.txs && w.txs[h].state == Confirmed && Backs(w.db, x, w.txs[h].call)
                && OnChain(w.chain, w.txs[h].call)
  {
    hide Backs, OnChain, DbInv, R.Inv, Gates;
    assert SlotTrue(w.db, w.txs, x);
  }

  /** A proof row: its event is on the chain with the row's parameters. */
  lemma ProofRowGated(w: World, d: C.Deployment, hash: Hasher, k: Key)
    requires Inv(w, d, hash) && k in w.db.proofs
    ensures k.0 in w.db.events && k.0 in w.chain.events
    ensures w.db.events[k.0].tx.hash in w.txs && w.txs[w.db.events[k.0].tx.hash].state == Confirmed
    ensures w.chain.events[k.0].targetKw == w.db.events[k.0].targetKw
    ensures w.chain.events[k.0].rewardRate == w.db.events[k.0].rewardRate
    ensures w.chain.events[k.0].penaltyRate == w.db.events[k.0].penaltyRate
  {
    hide S.Seconds, DbInv, R.Inv, SlotsTrue, MinedOnChain;
    ConfirmedIsOnChain(w, d, hash, CreateTx(k.0));
  }

  /** A settlement row: its event's close is confirmed and the chain's event is no longer active. */
  lemma SettlementRowGated(w: World, d: C.Deployment, hash: Hasher, k: Key)
    requires Inv(w, d, hash) && k in w.db.settlements
    ensures k.0 in w.db.events && w.db.events[k.0].closeTx.Some?
    ensures w.db.events[k.0].closeTx.value.hash in w.txs
            && w.txs[w.db.events[k.0].closeTx.value.hash].state == Confirmed
    ensures k.0 in w.chain.events && w.chain.events[k.0].status != C.Active
  {
    hide S.Seconds, DbInv, R.Inv, SlotsTrue, MinedOnChain;
    ConfirmedIsOnChain(w, d, hash, CloseTx(k.0));
  }

  /** A row whose settle transaction is confirmed: the chain has records for exactly the event's rows. */
  lemma SettledRowsOnChain(w: World, d: C.Deployment, hash: Hasher, k: Key)
    requires Inv(w, d, hash) && k in w.db.settlements && w.db.settlements[k].tx.state == Confirmed
    ensures k.0 in w.chain.events && w.chain.events[k.0].status == C.Settled
    ensures R.SitesOf(w.chain.records, k.0) == RowsOf(w.db, k.0)
  {
    hide S.Seconds, DbInv, R.Inv, SlotsTrue, MinedOnChain, Gates;
    var x := SettleTx(k.0, k.1);
    assert k == (k.0, k.1);
    ConfirmedIsOnChain(w, d, hash, x);
    var sites := w.txs[w.db.settlements[k].tx.hash].call.sites;
    var listed := set s | s in sites :: (k.0, s);
    forall j: Key ensures j in listed <==> j in RowsOf(w.db, k.0) {
      assert j == (j.0, j.1);
    }
    assert listed == RowsOf(w.db, k.0);
  }

  /** A claimed row: its settle transaction is confirmed and the chain has its record. */
  lemma ClaimedRowGated(w: World, d: C.Deployment, hash: Hasher, k: Key)
    requires Inv(w, d, hash) && k in w.db.settlements && w.db.settlements[k].status == Claimed
    ensures w.db.settlements[k].tx.hash in w.txs && w.txs[w.db.settlements[k].tx.hash].state == Confirmed
    ensures k in w.chain.records
  {
    hide S.Seconds, DbInv, R.Inv, SlotsTrue, MinedOnChain;
    assert k == (k.0, k.1);
    ConfirmedIsOnChain(w, d, hash, SettleTx(k.0, k.1));
    SettledRowsOnChain(w, d, hash, k);
    assert k in RowsOf(w.db, k.0);
  }
}
