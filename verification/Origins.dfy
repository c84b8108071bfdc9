/** Where the rows of the tables come from: every column goes back to a request of the run. */
module Origins {
  import opened Common
  import opened Database
  import opened Reconcile
  import opened Submitter
  import opened DbRuns
  import Payout
  import TimeOrder

  // ---- Each row and the turn that wrote it ----

  ghost predicate CreatedBy(row: EventRow, e: string, t: Turn) {
    && t.call.Create? && t.call.req.eventId == e && ValidRequest(t.call.req)
    && row.startTime == TimeOrder.ToRfc3339(t.call.req.start) && row.endTime == TimeOrder.ToRfc3339(t.call.req.end)
    && row.targetKw == t.call.req.targetKw && row.rewardRate == t.call.req.rewardRate
    && row.penaltyRate == t.call.req.penaltyRate && row.createdAt == t.now
  }

  ghost predicate ClosedBy(row: EventRow, e: string, t: Turn) {
    t.call == Close(e) && row.closedAt == Some(t.now)
  }

  ghost predicate SettledBy(row: EventRow, e: string, t: Turn) {
    t.call.Settle? && t.call.event == e && row.settledAt == Some(t.now)
  }

  ghost predicate ProvedBy(row: ProofRow, k: Key, hash: Hasher, t: Turn) {
    && t.call.SubmitProof? && t.call.proof.eventId == k.0 && t.call.proof.siteId == k.1
    && row.baselineKwh == t.call.proof.baselineKwh && row.actualKwh == t.call.proof.actualKwh
    && row.reductionKwh == (if row.baselineKwh > row.actualKwh then row.baselineKwh - row.actualKwh else 0)
    && row.uri == t.call.proof.uri && row.submitter == t.call.actor && row.submittedAt == t.now
    && row.payload == Payload(k.0, k.1, row.baselineKwh, row.actualKwh, row.reductionKwh,
                              t.call.proof.baselineMethod, t.call.proof.rawPayload, t.now)
    && row.proofHash == hash(row.payload)
  }

  ghost predicate PaidOutBy(row: SettlementRow, k: Key, t: Turn) {
    t.call.Settle? && t.call.event == k.0 && row.settledAt == t.now
  }

  /** The claim came from the account that submitted the proof. */
  ghost predicate ClaimedBy(row: SettlementRow, k: Key, submitter: string, t: Turn) {
    t.call == Claim(k.0, k.1, submitter) && row.claimedAt == Some(t.now)
  }

  ghost predicate AuditedBy(at: string, k: Key, t: Turn) {
    t.call == RequestAudit(k.0, k.1) && at == t.now
  }

  ghost predicate WasCreated(row: EventRow, e: string, seen: seq<Turn>) {
    exists t :: t in seen && CreatedBy(row, e, t)
  }

  ghost predicate WasClosed(row: EventRow, e: string, seen: seq<Turn>) {
    if row.status == Active then row.closedAt == None else exists t :: t in seen && ClosedBy(row, e, t)
  }

  ghost predicate WasSettled(row: EventRow, e: string, seen: seq<Turn>) {
    if row.status == Settled then exists t :: t in seen && SettledBy(row, e, t) else row.settledAt == None
  }

  ghost predicate EventSourced(row: EventRow, e: string, seen: seq<Turn>) {
    WasCreated(row, e, seen) && WasClosed(row, e, seen) && WasSettled(row, e, seen)
  }

  ghost predicate RowSourced(row: SettlementRow, k: Key, submitter: string, seen: seq<Turn>) {
    && (exists t :: t in seen && PaidOutBy(row, k, t))
    && (if row.status == Claimed then exists t :: t in seen && ClaimedBy(row, k, submitter, t)
        else row.claimedAt == None)
  }

  ghost predicate EventsSourced(db: Db, seen: seq<Turn>) {
    forall e :: e in db.events ==> EventSourced(db.events[e], e, seen)
  }

  ghost predicate ProofsSourced(db: Db, hash: Hasher, seen: seq<Turn>) {
    forall k :: k in db.proofs ==> exists t :: t in seen && ProvedBy(db.proofs[k], k, hash, t)
  }

  ghost predicate RowsSourced(db: Db, seen: seq<Turn>) {
    forall k :: k in db.settlements ==>
      k in db.proofs && RowSourced(db.settlements[k], k, db.proofs[k].submitter, seen)
  }

  ghost predicate AuditsSourced(db: Db, seen: seq<Turn>) {
    forall k :: k in db.audits ==> exists t :: t in seen && AuditedBy(db.audits[k], k, t)
  }

  ghost predicate Sourced(db: Db, hash: Hasher, seen: seq<Turn>) {
    EventsSourced(db, seen) && ProofsSourced(db, hash, seen) && RowsSourced(db, seen) && AuditsSourced(db, seen)
  }

  // ---- One turn ----

  lemma EventSeenLonger(row: EventRow, e: string, seen: seq<Turn>, t: Turn)
    requires EventSourced(row, e, seen)
    ensures EventSourced(row, e, seen + [t])
  {
    hide CreatedBy, ClosedBy, SettledBy;
    var c :| c in seen && CreatedBy(row, e, c);
    assert c in seen + [t];
    if row.status != Active {
      var x :| x in seen && ClosedBy(row, e, x);
      assert x in seen + [t];
    }
    if row.status == Settled {
      var x :| x in seen && SettledBy(row, e, x);
      assert x in seen + [t];
    }
  }

  lemma RowSeenLonger(row: SettlementRow, k: Key, submitter: string, seen: seq<Turn>, t: Turn)
    requires RowSourced(row, k, submitter, seen)
    ensures RowSourced(row, k, submitter, seen + [t])
  {
    hide PaidOutBy, ClaimedBy;
    var c :| c in seen && PaidOutBy(row, k, c);
    assert c in seen + [t];
    if row.status == Claimed {
      var x :| x in seen && ClaimedBy(row, k, submitter, x);
      assert x in seen + [t];
    }
  }

  lemma SeenLonger(db: Db, hash: Hasher, seen: seq<Turn>, t: Turn)
    requires Sourced(db, hash, seen)
    ensures Sourced(db, hash, seen + [t])
  {
    hide EventSourced, RowSourced, ProvedBy, AuditedBy;
    forall e | e in db.events ensures EventSourced(db.events[e], e, seen + [t]) {
      EventSeenLonger(db.events[e], e, seen, t);
    }
    forall k | k in db.proofs ensures exists u :: u in seen + [t] && ProvedBy(db.proofs[k], k, hash, u) {
      var u :| u in seen && ProvedBy(db.proofs[k], k, hash, u);
      assert u in seen + [t];
    }
    forall k | k in db.settlements
      ensures k in db.proofs && RowSourced(db.settlements[k], k, db.proofs[k].submitter, seen + [t]) {
      RowSeenLonger(db.settlements[k], k, db.proofs[k].submitter, seen, t);
    }
    forall k | k in db.audits ensures exists u :: u in seen + [t] && AuditedBy(db.audits[k], k, u) {
      var u :| u in seen && AuditedBy(db.audits[k], k, u);
      assert u in seen + [t];
    }
  }

  lemma OneEventChanges(db: Db, n: Db, hash: Hasher, e: string, seen: seq<Turn>)
    requires Sourced(db, hash, seen) && e in n.events && n == db.(events := db.events[e := n.events[e]])
    requires EventSourced(n.events[e], e, seen)
    ensures Sourced(n, hash, seen)
  {
    hide EventSourced, RowSourced, ProvedBy, AuditedBy;
  }

  lemma NewEventSourced(row: EventRow, e: string, seen: seq<Turn>, t: Turn)
    requires t in seen && CreatedBy(row, e, t) && row.status == Active && row.closedAt == None && row.settledAt == None
    ensures EventSourced(row, e, seen)
  {
  }

  /** What closing and settling leave as it was. */
  ghost predicate SameRequest(row: EventRow, next: EventRow) {
    && row.startTime == next.startTime && row.endTime == next.endTime && row.targetKw == next.targetKw
    && row.rewardRate == next.rewardRate && row.penaltyRate == next.penaltyRate && row.createdAt == next.createdAt
  }

  lemma SameRequestCreated(row: EventRow, next: EventRow, e: string, seen: seq<Turn>)
    requires SameRequest(row, next) && WasCreated(row, e, seen)
    ensures WasCreated(next, e, seen)
  {
    hide TimeOrder.ToRfc3339, ValidRequest;
    var t :| t in seen && CreatedBy(row, e, t);
    assert CreatedBy(next, e, t);
  }

  lemma ClosedNow(next: EventRow, e: string, seen: seq<Turn>, t: Turn)
    requires t in seen && t.call == Close(e) && next.closedAt == Some(t.now) && next.status == Closed
             && next.settledAt == None
    ensures WasClosed(next, e, seen) && WasSettled(next, e, seen)
  {
    assert ClosedBy(next, e, t);
  }

  lemma SettledNow(next: EventRow, e: string, seen: seq<Turn>, t: Turn)
    requires t in seen && t.call.Settle? && t.call.event == e && next.settledAt == Some(t.now) && next.status == Settled
    ensures WasSettled(next, e, seen)
  {
    assert SettledBy(next, e, t);
  }

  lemma StillClosed(row: EventRow, next: EventRow, e: string, seen: seq<Turn>)
    requires WasClosed(row, e, seen) && row.status != Active && next.status != Active && next.closedAt == row.closedAt
    ensures WasClosed(next, e, seen)
  {
    var t :| t in seen && ClosedBy(row, e, t);
    assert ClosedBy(next, e, t);
  }

  lemma ClosedEventSourced(row: EventRow, next: EventRow, e: string, seen: seq<Turn>, t: Turn)
    requires EventSourced(row, e, seen) && row.status == Active && t in seen && t.call == Close(e)
    requires next == row.(status := Closed, closedAt := Some(t.now), closeTx := next.closeTx)
    ensures EventSourced(next, e, seen)
  {
    assert SameRequest(row, next) && row.settledAt == None;
    hide WasCreated, WasClosed, WasSettled, SameRequest;
    SameRequestCreated(row, next, e, seen);
    ClosedNow(next, e, seen, t);
  }

  lemma SettledEventSourced(row: EventRow, next: EventRow, e: string, seen: seq<Turn>, t: Turn)
    requires EventSourced(row, e, seen) && row.status == Closed && t in seen && t.call.Settle? && t.call.event == e
    requires next == row.(status := Settled, settledAt := Some(t.now))
    ensures EventSourced(next, e, seen)
  {
    assert SameRequest(row, next);
    hide WasCreated, WasClosed, WasSettled, SameRequest;
    SameRequestCreated(row, next, e, seen);
    StillClosed(row, next, e, seen);
    SettledNow(next, e, seen, t);
  }

  lemma CreateSources(db: Db, hash: Hasher, req: CreateRequest, tx: Tx, now: string, seen: seq<Turn>, t: Turn)
    requires Sourced(db, hash, seen) && t in seen && t.call == Create(req) && t.now == now && ValidRequest(req)
    ensures Sourced(CreateCommit(db, req, tx, now), hash, seen)
  {
    var n := CreateCommit(db, req, tx, now);
    assert CreatedBy(n.events[req.eventId], req.eventId, t);
    hide Sourced, EventSourced, CreatedBy, TimeOrder.ToRfc3339, ValidRequest;
    NewEventSourced(n.events[req.eventId], req.eventId, seen, t);
    OneEventChanges(db, n, hash, req.eventId, seen);
  }

  lemma ProofSources(db: Db, hash: Hasher, req: ProofRequest, actor: string, tx: Tx, now: string, seen: seq<Turn>,
                     t: Turn)
    requires Sourced(db, hash, seen) && t in seen && t.call == SubmitProof(req, actor) && t.now == now
    requires ProofCommit(db, hash, req, actor, tx, now).Ok?
    ensures Sourced(ProofCommit(db, hash, req, actor, tx, now).value, hash, seen)
  {
    var n, k := ProofCommit(db, hash, req, actor, tx, now).value, (req.eventId, req.siteId);
    assert ProvedBy(n.proofs[k], k, hash, t);
    hide EventSourced, RowSourced, ProvedBy, AuditedBy;
    assert k !in db.settlements;
  }

  lemma CloseSources(db: Db, hash: Hasher, e: string, tx: Tx, now: string, seen: seq<Turn>, t: Turn)
    requires Sourced(db, hash, seen) && t in seen && t.call == Close(e) && t.now == now && CloseGuard(db, e) == None
    ensures Sourced(CloseCommit(db, e, tx, now), hash, seen)
  {
    var n := CloseCommit(db, e, tx, now);
    var row, next := db.events[e], n.events[e];
    assert row.status == Active && next == row.(status := Closed, closedAt := Some(t.now), closeTx := next.closeTx);
    assert n == db.(events := db.events[e := next]);
    EventOf(db, hash, e, seen);
    hide *;
    ClosedEventSourced(row, next, e, seen, t);
    OneEventChanges(db, n, hash, e, seen);
  }

  lemma EventOf(db: Db, hash: Hasher, e: string, seen: seq<Turn>)
    requires Sourced(db, hash, seen) && e in db.events
    ensures EventSourced(db.events[e], e, seen)
  {
    hide EventSourced;
  }

  lemma RowsChange(db: Db, n: Db, hash: Hasher, seen: seq<Turn>)
    requires Sourced(db, hash, seen) && n == db.(settlements := n.settlements)
    requires forall k :: k in n.settlements ==>
      k in db.proofs && RowSourced(n.settlements[k], k, db.proofs[k].submitter, seen)
    ensures Sourced(n, hash, seen)
  {
    hide EventSourced, RowSourced, ProvedBy, AuditedBy;
  }

  lemma SettleSources(db: Db, n: Db, hash: Hasher, e: string, list: seq<string>, tx: Tx, now: string, seen: seq<Turn>,
                      t: Turn)
    requires Sourced(db, hash, seen) && t in seen && t.call.Settle? && t.call.event == e && t.now == now
    requires Settles(db, n, e, list, tx, now) && RowsOf(db, e) == {}
    ensures Sourced(n, hash, seen)
  {
    assert EventSourced(db.events[e], e, seen);
    SettledRowsSourced(db, n, hash, e, list, tx, now, seen, t);
    var mid := db.(events := n.events);
    hide Sourced, EventSourced, RowSourced, Payout.CalculatePayout, RowsOf;
    SettledEventSourced(db.events[e], n.events[e], e, seen, t);
    OneEventChanges(db, mid, hash, e, seen);
    hide Settles;
    RowsChange(mid, n, hash, seen);
  }

  lemma SettledRowsSourced(db: Db, n: Db, hash: Hasher, e: string, list: seq<string>, tx: Tx, now: string,
                           seen: seq<Turn>, t: Turn)
    requires RowsSourced(db, seen) && t in seen && t.call.Settle? && t.call.event == e && t.now == now
    requires Settles(db, n, e, list, tx, now) && RowsOf(db, e) == {}
    ensures forall k :: k in n.settlements ==>
      k in db.proofs && RowSourced(n.settlements[k], k, db.proofs[k].submitter, seen)
  {
    hide Payout.CalculatePayout, RowSourced;
    forall k | k in n.settlements
      ensures k in db.proofs && RowSourced(n.settlements[k], k, db.proofs[k].submitter, seen)
    {
      if k.0 == e {
        assert k !in RowsOf(db, e) && k == (e, k.1) && k.1 in list;
        NewRowSourced(n.settlements[k], k, db.proofs[k].submitter, seen, t);
      } else {
        assert k in db.settlements;
      }
    }
  }

  lemma NewRowSourced(row: SettlementRow, k: Key, submitter: string, seen: seq<Turn>, t: Turn)
    requires t in seen && t.call.Settle? && t.call.event == k.0 && row.settledAt == t.now
    requires row.status == Unclaimed && row.claimedAt == None
    ensures RowSourced(row, k, submitter, seen)
  {
    assert PaidOutBy(row, k, t);
  }

  lemma ClaimedRowSourced(row: SettlementRow, next: SettlementRow, k: Key, actor: string, seen: seq<Turn>, t: Turn)
    requires RowSourced(row, k, actor, seen) && t in seen && t.call == Claim(k.0, k.1, actor)
    requires next == row.(status := Claimed, claimedAt := Some(t.now), claimTx := next.claimTx)
    ensures RowSourced(next, k, actor, seen)
  {
    var c :| c in seen && PaidOutBy(row, k, c);
    assert PaidOutBy(next, k, c) && ClaimedBy(next, k, actor, t);
    hide PaidOutBy, ClaimedBy;
  }

  lemma ClaimSources(db: Db, gated: bool, hash: Hasher, e: string, site: string, actor: string, tx: Tx, now: string,
                     seen: seq<Turn>, t: Turn)
    requires Sourced(db, hash, seen) && t in seen && t.call == Claim(e, site, actor) && t.now == now
    requires ClaimGuard(db, gated, e, site, actor) == None
    ensures Sourced(ClaimCommit(db, e, site, tx, now), hash, seen)
  {
    var n, k := ClaimCommit(db, e, site, tx, now), (e, site);
    assert RowSourced(db.settlements[k], k, actor, seen);
    hide RowSourced, EventsSourced, ProofsSourced, AuditsSourced;
    ClaimedRowSourced(db.settlements[k], n.settlements[k], k, actor, seen, t);
    RowsChange(db, n, hash, seen);
  }

  lemma AuditSources(db: Db, hash: Hasher, e: string, site: string, now: string, seen: seq<Turn>, t: Turn)
    requires Sourced(db, hash, seen) && t in seen && t.call == RequestAudit(e, site) && t.now == now
    requires Audit(db, e, site, now).Ok?
    ensures Sourced(Audit(db, e, site, now).value, hash, seen)
  {
    assert AuditedBy(now, (e, site), t);
    hide EventSourced, RowSourced, ProvedBy, AuditedBy;
  }

  lemma SameCreation(row: EventRow, next: EventRow, e: string, t: Turn)
    requires row.(tx := next.tx, closeTx := next.closeTx) == next
    ensures CreatedBy(row, e, t) <==> CreatedBy(next, e, t)
    ensures ClosedBy(row, e, t) <==> ClosedBy(next, e, t)
    ensures SettledBy(row, e, t) <==> SettledBy(next, e, t)
  {
    hide TimeOrder.ToRfc3339;
  }

  lemma SameEventSourced(row: EventRow, next: EventRow, e: string, seen: seq<Turn>)
    requires EventSourced(row, e, seen) && row.(tx := next.tx, closeTx := next.closeTx) == next
    ensures EventSourced(next, e, seen)
  {
    forall t ensures (CreatedBy(row, e, t) <==> CreatedBy(next, e, t))
                     && (ClosedBy(row, e, t) <==> ClosedBy(next, e, t))
                     && (SettledBy(row, e, t) <==> SettledBy(next, e, t)) {
      SameCreation(row, next, e, t);
    }
    hide CreatedBy, ClosedBy, SettledBy;
  }

  lemma SameRowSourced(row: SettlementRow, next: SettlementRow, k: Key, submitter: string, seen: seq<Turn>)
    requires RowSourced(row, k, submitter, seen) && row.(tx := next.tx, claimTx := next.claimTx) == next
    ensures RowSourced(next, k, submitter, seen)
  {
    var c :| c in seen && PaidOutBy(row, k, c);
    assert PaidOutBy(next, k, c);
    if row.status == Claimed {
      var x :| x in seen && ClaimedBy(row, k, submitter, x);
      assert ClaimedBy(next, k, submitter, x);
    }
  }

  lemma PassSources(db: Db, n: Db, hash: Hasher, seen: seq<Turn>)
    requires Sourced(db, hash, seen) && SameBusiness(db, n)
    ensures Sourced(n, hash, seen)
  {
    hide EventSourced, RowSourced, AuditedBy;
    forall e | e in n.events ensures EventSourced(n.events[e], e, seen) {
      SameEventSourced(db.events[e], n.events[e], e, seen);
    }
    forall k | k in n.proofs ensures exists t :: t in seen && ProvedBy(n.proofs[k], k, hash, t) {
      assert db.proofs[k].(tx := n.proofs[k].tx) == n.proofs[k];
      var t :| t in seen && ProvedBy(db.proofs[k], k, hash, t);
      assert ProvedBy(n.proofs[k], k, hash, t);
    }
    forall k | k in n.settlements
      ensures k in n.proofs && RowSourced(n.settlements[k], k, n.proofs[k].submitter, seen)
    {
      assert db.proofs[k].(tx := n.proofs[k].tx) == n.proofs[k];
      SameRowSourced(db.settlements[k], n.settlements[k], k, db.proofs[k].submitter, seen);
    }
  }

  lemma TurnSources(db: Db, gated: bool, hash: Hasher, t: Turn, tx: Tx, seen: seq<Turn>)
    requires DbInv(db, hash) && Sourced(db, hash, seen) && t in seen && WellFormed(db, t.call)
    requires Perform(db, gated, hash, t.call, tx, t.now).Ok?
    ensures Sourced(Perform(db, gated, hash, t.call, tx, t.now).value, hash, seen)
  {
    hide Sourced, CreateCommit, CloseCommit, ProofCommit, SettleGuard, SettleCommit, SettleList, Settles, ClaimGuard,
         ClaimCommit, Reconciled, Audit, SameBusiness, ProofGuard, CreateGuard;
    match t.call
    case Create(req) => CreateSources(db, hash, req, tx, t.now, seen, t);
    case SubmitProof(req, actor) => ProofSources(db, hash, req, actor, tx, t.now, seen, t);
    case Close(e) => CloseSources(db, hash, e, tx, t.now, seen, t);
    case Settle(e, sites) =>
      SettleCommitSettles(db, gated, e, sites, tx, t.now);
      ClosedHasNoRows(db, hash, gated, e, sites);
      SettleSources(db, Perform(db, gated, hash, t.call, tx, t.now).value, hash, e, SettleList(db, e, sites), tx, t.now,
                    seen, t);
    case Claim(e, site, actor) =>
      ClaimHasRow(db, gated, e, site, actor);
      ClaimSources(db, gated, hash, e, site, actor, tx, t.now, seen, t);
    case RequestAudit(e, site) => AuditSources(db, hash, e, site, t.now, seen, t);
    case Pass(_, answers, done) =>
      ReconcileKeepsBusiness(db, answers, done);
      PassSources(db, Reconciled(db, answers, done), hash, seen);
  }

  lemma ClosedHasNoRows(db: Db, hash: Hasher, gated: bool, e: string, sites: seq<string>)
    requires DbInv(db, hash) && SettleGuard(db, gated, e, sites).Ok?
    ensures RowsOf(db, e) == {}
  {
    hide SettleList, SettleRows;
  }

  lemma TakeSources(db: Db, gated: bool, hash: Hasher, t: Turn, seen: seq<Turn>)
    requires DbInv(db, hash) && Sourced(db, hash, seen) && WellFormed(db, t.call)
    ensures Sourced(Take(db, gated, hash, t), hash, seen + [t])
  {
    hide DbInv, Sourced, Perform, WellFormed;
    SeenLonger(db, hash, seen, t);
    var tx := if t.reply.Some? then t.reply.value else Tx("", None, Submitted, "", None, None);
    if Perform(db, gated, hash, t.call, tx, t.now).Ok? {
      assert t in seen + [t];
      TurnSources(db, gated, hash, t, tx, seen + [t]);
    }
  }

  lemma {:induction false} RunSources(db: Db, gated: bool, hash: Hasher, turns: seq<Turn>, seen: seq<Turn>)
    requires DbInv(db, hash) && Sourced(db, hash, seen) && Legal(db, gated, hash, turns)
    ensures Sourced(Run(db, gated, hash, turns), hash, seen + turns)
    decreases |turns|
  {
    hide DbInv, Sourced, Take, WellFormed;
    if turns == [] {
      assert seen + turns == seen;
    } else {
      TakeKeepsDbInv(db, gated, hash, turns[0]);
      TakeSources(db, gated, hash, turns[0], seen);
      RunSources(Take(db, gated, hash, turns[0]), gated, hash, turns[1..], seen + [turns[0]]);
      assert seen + turns == seen + [turns[0]] + turns[1..];
    }
  }

  /**
   After every run from empty tables, in either mode: events, proofs, settlement rows and audits hold what some request
   of the run asked for, under its clock, and a row is claimed by its proof's submitter only.
   */
  lemma StoredAsRequested(gated: bool, hash: Hasher, turns: seq<Turn>)
    requires Legal(EMPTY_DB, gated, hash, turns)
    ensures Sourced(Run(EMPTY_DB, gated, hash, turns), hash, turns)
  {
    EmptyDbInv(hash);
    assert [] + turns == turns;
    RunSources(EMPTY_DB, gated, hash, turns, []);
  }
}
