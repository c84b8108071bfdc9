/**
 Rows that record the same transaction. A settlement writes one hash into several rows; in every reachable state,
 in either mode, such rows agree on state, fee and error, and no pending row carries a fee.
 */
module SharedHashes {
  import opened Common
  import opened Database
  import opened Reconcile
  import opened Submitter
  import opened DbRuns
  import H = HybridGating
  import C = Contracts
  import S = SyncSimulation

  ghost predicate Together(x: Slot, y: Slot) {
    x == y || (x.SettleTx? && y.SettleTx? && x.event == y.event)
  }

  /** Two slots record one hash only when they are settle slots of one event. */
  ghost predicate Grouped(db: Db) {
    forall x, y :: TxAt(db, x).Some? && TxAt(db, y).Some? && TxAt(db, x).value.hash == TxAt(db, y).value.hash ==>
        Together(x, y)
  }

  ghost predicate NoEarlyFees(db: Db) {
    forall x :: TxAt(db, x).Some? && TxAt(db, x).value.state == Submitted ==> Blank(TxAt(db, x).value.fee)
  }

  ghost predicate Hashed(db: Db) {
    forall x :: TxAt(db, x).Some? ==> TxAt(db, x).value.hash != ""
  }

  ghost predicate Shared(db: Db) {
    Agree(db) && Grouped(db) && NoEarlyFees(db) && Hashed(db)
  }

  /** What a chain step may reply: a hash no row has, and a fee only once it is final. */
  ghost predicate FreshReply(db: Db, tx: Tx) {
    && tx.hash != ""
    && (forall x :: TxAt(db, x).Some? ==> TxAt(db, x).value.hash != tx.hash)
    && (tx.state == Submitted ==> Blank(tx.fee))
  }

  // ---- One call ----

  lemma FillsKeepsShared(db: Db, next: Db, tx: Tx, filled: set<Slot>)
    requires Shared(db) && FreshReply(db, tx) && H.Fills(db, next, tx, filled)
    requires forall x, y :: x in filled && y in filled ==> Together(x, y)
    ensures Shared(next)
  {
    forall x, y | TxAt(next, x).Some? && TxAt(next, y).Some? && TxAt(next, x).value.hash == TxAt(next, y).value.hash
      ensures Together(x, y)
      ensures TxAt(next, x).value.state == TxAt(next, y).value.state
      ensures TxAt(next, x).value.fee == TxAt(next, y).value.fee
      ensures TxAt(next, x).value.error == TxAt(next, y).value.error
    {
      if x !in filled && y !in filled {
        assert TxAt(next, x) == TxAt(db, x) && TxAt(next, y) == TxAt(db, y);
      }
    }
    forall x | TxAt(next, x).Some?
      ensures TxAt(next, x).value.state == Submitted ==> Blank(TxAt(next, x).value.fee)
      ensures TxAt(next, x).value.hash != ""
    {
      if x !in filled {
        assert TxAt(next, x) == TxAt(db, x);
      }
    }
  }

  lemma AuditFills(db: Db, e: string, site: string, tx: Tx, now: string)
    requires Audit(db, e, site, now).Ok?
    ensures H.Fills(db, Audit(db, e, site, now).value, tx, {})
  {
    var next := Audit(db, e, site, now).value;
    forall y ensures TxAt(next, y) == TxAt(db, y) {
      match y
      case CreateTx(_) =>
      case CloseTx(_) =>
      case ProofTx(_, _) =>
      case SettleTx(_, _) =>
      case ClaimTx(_, _) =>
    }
  }

  lemma SettleFillsSlots(db: Db, gated: bool, hash: Hasher, e: string, sites: seq<string>, tx: Tx, now: string)
    returns (filled: set<Slot>)
    requires DbInv(db, hash) && SettleGuard(db, gated, e, sites).Ok?
    ensures H.Fills(db, SettleCommit(db, e, SettleGuard(db, gated, e, sites).value, tx, now), tx, filled)
    ensures forall x, y :: x in filled && y in filled ==> Together(x, y)
  {
    hide S.Seconds, SettleRows, InsertRows, SettleList, H.Backs, ProofsShaped, SettlementsShaped, OneSettleTx;
    var list := SettleList(db, e, sites);
    var next := SettleCommit(db, e, SettleGuard(db, gated, e, sites).value, tx, now);
    SettleCommitSettles(db, gated, e, sites, tx, now);
    assert RowsOf(db, e) == {};
    H.SettleFills(db, next, e, list, tx, now);
    filled := set s | s in list :: SettleTx(e, s);
  }

  lemma CallFills(db: Db, gated: bool, hash: Hasher, call: ServiceCall, tx: Tx, now: string) returns (filled: set<Slot>)
    requires DbInv(db, hash) && WellFormed(db, call) && !call.Pass?
    requires Perform(db, gated, hash, call, tx, now).Ok?
    ensures H.Fills(db, Perform(db, gated, hash, call, tx, now).value, tx, filled)
    ensures forall x, y :: x in filled && y in filled ==> Together(x, y)
  {
    hide S.Seconds, SettleRows, InsertRows, SettleList, DbInv, H.Fills;
    match call
    case Create(req) =>
      H.CreateFills(db, req, tx, now);
      filled := {CreateTx(req.eventId)};
    case SubmitProof(req, actor) =>
      H.ProofFills(db, hash, req, actor, tx, now);
      filled := {ProofTx(req.eventId, req.siteId)};
    case Close(e) =>
      H.CloseFills(db, e, tx, now);
      filled := {CloseTx(e)};
    case Settle(e, sites) =>
      filled := SettleFillsSlots(db, gated, hash, e, sites, tx, now);
    case Claim(e, site, _) =>
      H.ClaimFills(db, e, site, tx, now);
      filled := {ClaimTx(e, site)};
    case RequestAudit(e, site) =>
      AuditFills(db, e, site, tx, now);
      filled := {};
  }

  lemma PassKeepsGroups(db: Db, answers: Snapshot, done: set<Slot>)
    requires Grouped(db) && Hashed(db)
    ensures Grouped(Reconciled(db, answers, done)) && Hashed(Reconciled(db, answers, done))
  {
    hide Updated, Together;
    var next := Reconciled(db, answers, done);
    forall x ensures TxAt(next, x).Some? ==> TxAt(db, x).Some? && TxAt(next, x).value.hash == TxAt(db, x).value.hash {
      ReconciledAt(db, answers, done, x);
      if TxAt(db, x).Some? {
        UpdatedSettled(TxAt(db, x).value, answers);
      }
    }
    hide Reconciled, TxAt;
  }

  lemma PassKeepsFees(db: Db, answers: Snapshot, done: set<Slot>)
    requires NoEarlyFees(db)
    ensures NoEarlyFees(Reconciled(db, answers, done))
  {
    var next := Reconciled(db, answers, done);
    hide Reconciled, TxAt;
    forall x | TxAt(next, x).Some? && TxAt(next, x).value.state == Submitted ensures Blank(TxAt(next, x).value.fee) {
      ReconciledAt(db, answers, done, x);
    }
  }

  lemma PassKeepsShared(db: Db, answers: Snapshot, done: set<Slot>)
    requires Shared(db) && ClosedUnderHash(db, done)
    ensures Shared(Reconciled(db, answers, done))
  {
    hide Agree, Grouped, NoEarlyFees, Hashed, Reconciled, ClosedUnderHash;
    PassKeepsAgreement(db, answers, done);
    PassKeepsGroups(db, answers, done);
    PassKeepsFees(db, answers, done);
  }

  // ---- Which passes handle all rows of a hash ----

  /** A finished pass over one event handles every slot of each hash it meets. */
  lemma FullPassClosed(db: Db, e: string)
    requires Grouped(db)
    ensures ClosedUnderHash(db, SlotsOf(db, e))
  {
    forall x, y | x in SlotsOf(db, e) && SharePending(db, x, y) ensures y in SlotsOf(db, e) {
      SlotsOfFilled(db, e, x);
      SlotsOfFilled(db, e, y);
      assert Together(x, y);
    }
  }

  lemma ClaimedIsConfirmed(db: Db, hash: Hasher, e: string, site: string)
    requires DbInv(db, hash) && H.Gates(db) && TxAt(db, ClaimTx(e, site)).Some?
    ensures TxAt(db, SettleTx(e, site)).Some? && TxAt(db, SettleTx(e, site)).value.state == Confirmed
  {
    assert db.settlements[(e, site)].status == Claimed;
  }

  /**
   Even a pass cut short by a failed look-up leaves shared rows in agreement: settle rows of one event share one hash,
   and a claim is looked up only for a row whose settle transaction is already confirmed.
   */
  lemma CutPassClosed(db: Db, hash: Hasher, e: string, answers: Snapshot, done: set<Slot>, at: Slot)
    requires DbInv(db, hash) && Shared(db) && H.Gates(db)
    requires CutAt(db, e, answers, done, at)
    ensures ClosedUnderHash(db, done)
  {
    hide EventsShaped, ProofsShaped, Reconciled;
    forall x, y | x in done && SharePending(db, x, y) ensures y in done {
      assert Together(x, y);
      if x != y {
        SlotsOfFilled(db, e, x);
        SlotsOfFilled(db, e, at);
        assert (e, x.site) in db.settlements;
        assert at.SettleTx? || at.ClaimTx?;
        assert (e, at.site) in db.settlements;
        assert db.settlements[(e, at.site)].tx.hash == TxAt(db, x).value.hash;
        if at.ClaimTx? {
          ClaimedIsConfirmed(db, hash, e, at.site);
        }
        assert false;
      }
    }
  }

  /** So a whole wait loop's passes, finished or cut short, keep what the tables promise. */
  lemma {:induction false} PassesKeepShared(db: Db, hash: Hasher, e: string, passes: seq<PassRecord>)
    requires DbInv(db, hash) && Shared(db) && H.Gates(db) && PassesOf(db, e, passes)
    ensures DbInv(AfterPasses(db, passes), hash) && Shared(AfterPasses(db, passes)) && H.Gates(AfterPasses(db, passes))
  {
    hide DbInv, Shared, H.Gates, Reconciled, CutAt, ClosedUnderHash;
    if passes != [] {
      var front, last := passes[..|passes| - 1], passes[|passes| - 1];
      var before := AfterPasses(db, front);
      PassesKeepShared(db, hash, e, front);
      if last.cutAt.Some? {
        CutPassClosed(before, hash, e, last.answers, last.done, last.cutAt.value);
      } else {
        SharedIsGrouped(before);
        FullPassClosed(before, e);
      }
      PassKeepsDbInv(before, hash, last.answers, last.done);
      PassKeepsShared(before, last.answers, last.done);
      H.PassKeepsGates(before, last.answers, last.done);
    }
  }

  lemma SharedIsGrouped(db: Db)
    requires Shared(db)
    ensures Grouped(db)
  {
  }

  // ---- Whole runs of calls, either mode ----

  /** Replies are fresh, and passes are made in hybrid mode only, each as the service's loops make it. */
  ghost predicate FreshTurn(db: Db, gated: bool, t: Turn) {
    && (t.reply.Some? ==> FreshReply(db, t.reply.value))
    && (t.call.Pass? ==> gated && Visits(db, t.call.event, t.call.answers, t.call.done))
  }

  ghost predicate FreshRun(db: Db, gated: bool, hash: Hasher, turns: seq<Turn>)
    decreases |turns|
  {
    turns == []
    || (WellFormed(db, turns[0].call) && FreshTurn(db, gated, turns[0])
        && FreshRun(Take(db, gated, hash, turns[0]), gated, hash, turns[1..]))
  }

  lemma {:induction false} FreshRunLegal(db: Db, gated: bool, hash: Hasher, turns: seq<Turn>)
    requires FreshRun(db, gated, hash, turns)
    ensures Legal(db, gated, hash, turns)
    decreases |turns|
  {
    hide Take;
    if turns != [] {
      FreshRunLegal(Take(db, gated, hash, turns[0]), gated, hash, turns[1..]);
    }
  }

  /** What the rows of a run need of each other; the gates are hybrid mode's. */
  ghost predicate RunInv(db: Db, gated: bool, hash: Hasher) {
    DbInv(db, hash) && Shared(db) && (gated ==> H.Gates(db))
  }

  lemma ProofKeepsGates(db: Db, hash: Hasher, req: ProofRequest, actor: string, tx: Tx, now: string)
    requires H.Gates(db) && Hashed(db) && ProofGuard(db, true, hash, req, now) == None
    requires ProofCommit(db, hash, req, actor, tx, now).Ok?
    ensures H.Gates(ProofCommit(db, hash, req, actor, tx, now).value)
  {
    assert TxAt(db, CreateTx(req.eventId)).value.hash != "";
    hide TxAt;
  }

  lemma CloseKeepsGates(db: Db, hash: Hasher, e: string, tx: Tx, now: string)
    requires EventsShaped(db) && H.Gates(db) && CloseGuard(db, e) == None
    ensures H.Gates(CloseCommit(db, e, tx, now))
  {
    assert RowsOf(db, e) == {};
    forall k | k in db.settlements ensures k.0 != e {
      assert k !in RowsOf(db, e);
    }
  }

  lemma SettleKeepsGates(db: Db, hash: Hasher, e: string, sites: seq<string>, tx: Tx, now: string)
    requires EventsShaped(db) && H.Gates(db) && SettleGuard(db, true, e, sites).Ok?
    ensures H.Gates(SettleCommit(db, e, SettleGuard(db, true, e, sites).value, tx, now))
  {
    hide SettleRows, InsertRows, SettleList;
    SettleCommitSettles(db, true, e, sites, tx, now);
    assert RowsOf(db, e) == {};
    H.SettleKeepsGates(db, SettleCommit(db, e, SettleGuard(db, true, e, sites).value, tx, now), e,
                       SettleList(db, e, sites), tx, now);
  }

  lemma CallKeepsGates(db: Db, hash: Hasher, call: ServiceCall, tx: Tx, now: string)
    requires DbInv(db, hash) && H.Gates(db) && Hashed(db) && WellFormed(db, call)
    requires Perform(db, true, hash, call, tx, now).Ok?
    ensures H.Gates(Perform(db, true, hash, call, tx, now).value)
  {
    assert EventsShaped(db);
    hide DbInv, EventsShaped, H.Gates, Hashed, SettleGuard, SettleCommit, CreateGuard, CreateCommit, ProofGuard,
         ProofCommit, CloseGuard, CloseCommit,
         ClaimGuard, ClaimCommit, Audit, Reconciled;
    match call
    case Create(req) => CreateKeepsGates(db, hash, req, tx, now);
    case SubmitProof(req, actor) => ProofKeepsGates(db, hash, req, actor, tx, now);
    case Close(e) => CloseKeepsGates(db, hash, e, tx, now);
    case Settle(e, sites) => SettleKeepsGates(db, hash, e, sites, tx, now);
    case Claim(e, site, actor) => ClaimKeepsGates(db, e, site, actor, tx, now);
    case RequestAudit(e, site) => AuditKeepsGates(db, e, site, now);
    case Pass(_, answers, done) => H.PassKeepsGates(db, answers, done);
  }

  lemma ClaimKeepsGates(db: Db, e: string, site: string, actor: string, tx: Tx, now: string)
    requires H.Gates(db) && ClaimGuard(db, true, e, site, actor) == None
    ensures H.Gates(ClaimCommit(db, e, site, tx, now))
  {
  }

  lemma AuditKeepsGates(db: Db, e: string, site: string, now: string)
    requires H.Gates(db) && Audit(db, e, site, now).Ok?
    ensures H.Gates(Audit(db, e, site, now).value)
  {
  }

  lemma CreateKeepsGates(db: Db, hash: Hasher, req: CreateRequest, tx: Tx, now: string)
    requires DbInv(db, hash) && H.Gates(db) && ValidRequest(req) && CreateGuard(db, req) == None
    ensures H.Gates(CreateCommit(db, req, tx, now))
  {
    forall k | k in db.proofs ensures k.0 != req.eventId {
    }
  }

  lemma TakeKeepsGates(db: Db, hash: Hasher, t: Turn)
    requires DbInv(db, hash) && H.Gates(db) && Hashed(db) && WellFormed(db, t.call)
    ensures H.Gates(Take(db, true, hash, t))
  {
    hide DbInv, H.Gates, Hashed, Perform;
    var tx := if t.reply.Some? then t.reply.value else Tx("", None, Submitted, "", None, None);
    if Perform(db, true, hash, t.call, tx, t.now).Ok? {
      CallKeepsGates(db, hash, t.call, tx, t.now);
    }
  }

  /** Every pass of the service handles all rows of each hash it meets. */
  lemma VisitsClosed(db: Db, hash: Hasher, e: string, answers: Snapshot, done: set<Slot>)
    requires DbInv(db, hash) && Shared(db) && H.Gates(db) && Visits(db, e, answers, done)
    ensures ClosedUnderHash(db, done)
  {
    hide DbInv, Shared, H.Gates, CutAt, ClosedUnderHash, Answered, SlotsOf;
    var cut :| PassOf(db, e, PassRecord(answers, done, cut));
    if cut.Some? {
      CutPassClosed(db, hash, e, answers, done, cut.value);
    } else {
      SharedIsGrouped(db);
      FullPassClosed(db, e);
    }
  }

  lemma TakeKeepsShared(db: Db, gated: bool, hash: Hasher, t: Turn)
    requires RunInv(db, gated, hash) && WellFormed(db, t.call) && FreshTurn(db, gated, t)
    ensures Shared(Take(db, gated, hash, t))
  {
    hide DbInv, Shared, Perform, ClosedUnderHash, H.Fills, H.Gates, Visits, PassOf;
    if t.call.Pass? {
      VisitsClosed(db, hash, t.call.event, t.call.answers, t.call.done);
      PassKeepsShared(db, t.call.answers, t.call.done);
      PassPerforms(db, gated, hash, t.call, t.now);
    } else if t.call.RequestAudit? {
      AuditKeepsShared(db, gated, hash, t);
    } else if t.reply.Some? && Perform(db, gated, hash, t.call, t.reply.value, t.now).Ok? {
      var filled := CallFills(db, gated, hash, t.call, t.reply.value, t.now);
      FillsKeepsShared(db, Take(db, gated, hash, t), t.reply.value, filled);
    }
  }

  lemma PassPerforms(db: Db, gated: bool, hash: Hasher, call: ServiceCall, now: string)
    requires WellFormed(db, call) && call.Pass?
    ensures forall tx :: Perform(db, gated, hash, call, tx, now) == Ok(Reconciled(db, call.answers, call.done))
  {
    hide Reconciled;
  }

  lemma AuditKeepsShared(db: Db, gated: bool, hash: Hasher, t: Turn)
    requires Shared(db) && t.call.RequestAudit?
    ensures Shared(Take(db, gated, hash, t))
  {
    if Audit(db, t.call.event, t.call.site, t.now).Ok? {
      var unused := Tx("", None, Submitted, "", None, None);
      AuditFills(db, t.call.event, t.call.site, unused, t.now);
      var next := Take(db, gated, hash, t);
      forall x ensures TxAt(next, x) == TxAt(db, x) {
      }
    }
  }

  /** In every reachable database, rows with one hash agree, and only final rows carry a fee. */
  lemma {:induction false} RunKeepsShared(db: Db, gated: bool, hash: Hasher, turns: seq<Turn>)
    requires RunInv(db, gated, hash) && FreshRun(db, gated, hash, turns) && Legal(db, gated, hash, turns)
    ensures RunInv(Run(db, gated, hash, turns), gated, hash)
    decreases |turns|
  {
    hide DbInv, Shared, Take, FreshTurn, H.Gates, Hashed;
    if turns != [] {
      TakeKeepsDbInv(db, gated, hash, turns[0]);
      TakeKeepsShared(db, gated, hash, turns[0]);
      if gated {
        SharedIsHashed(db);
        TakeKeepsGates(db, hash, turns[0]);
      }
      RunKeepsShared(Take(db, gated, hash, turns[0]), gated, hash, turns[1..]);
    }
  }

  lemma SharedIsHashed(db: Db)
    requires Shared(db)
    ensures Hashed(db)
  {
  }

  lemma EmptyRunInv(gated: bool, hash: Hasher)
    ensures RunInv(EMPTY_DB, gated, hash)
  {
    EmptyDbInv(hash);
    assert forall x :: TxAt(EMPTY_DB, x) == None;
  }

  // ---- Whole hybrid runs ----

  lemma HybridStepKeepsShared(w: H.World, d: C.Deployment, hash: Hasher, a: H.Action)
    requires H.Inv(w, d, hash) && Shared(w.db) && H.Enabled(w, d, a)
    ensures Shared(H.Step(w, d, hash, a).db)
  {
    hide DbInv, Shared, Perform, ClosedUnderHash, H.Fills, H.SlotsTrue, H.Gates, H.MinedOnChain, H.ChecksPass, Visits;
    match a
    case Serve(call, reply, now) =>
      if call.RequestAudit? {
        AuditKeepsShared(w.db, true, hash, Turn(call, None, now));
      } else if H.ChecksPass(w.db, hash, call, now) && reply.Some?
                && Perform(w.db, true, hash, call, reply.value, now).Ok? {
        var filled := CallFills(w.db, true, hash, call, reply.value, now);
        SentIsFresh(w, reply.value);
        FillsKeepsShared(w.db, H.Step(w, d, hash, a).db, reply.value, filled);
      }
    case Reconcile(e, answers, done) =>
      VisitsClosed(w.db, hash, e, answers, done);
      PassKeepsShared(w.db, answers, done);
    case Mine(_, _, _) =>
    case Foreign(_, _, _) =>
  }

  lemma SentIsFresh(w: H.World, tx: Tx)
    requires H.SlotsTrue(w.db, w.txs) && H.NewReply(tx, w.txs)
    ensures FreshReply(w.db, tx)
  {
    hide H.Backs;
    forall x | TxAt(w.db, x).Some? ensures TxAt(w.db, x).value.hash != tx.hash {
      assert H.SlotTrue(w.db, w.txs, x);
    }
  }

  /** Under every interleaving with the chain, rows that share a transaction show the same thing about it. */
  lemma {:induction false} HybridRunKeepsShared(w: H.World, d: C.Deployment, hash: Hasher, actions: seq<H.Action>)
    requires H.Inv(w, d, hash) && Shared(w.db) && S.Operates(d) && H.LegalRun(w, d, hash, actions)
    ensures Shared(H.Run(w, d, hash, actions).db)
    decreases |actions|
  {
    hide H.Inv, H.Step, H.Enabled, Shared;
    if actions != [] {
      H.StepKeepsInv(w, d, hash, actions[0]);
      HybridStepKeepsShared(w, d, hash, actions[0]);
      HybridRunKeepsShared(H.Step(w, d, hash, actions[0]), d, hash, actions[1..]);
    }
  }
}
