/** Reconciliation: what one pass over an event's pending transactions does to the tables. */
module Reconcile {
  import opened Common
  import opened Database

  /** One answer of check_tx. A hash without an answer is a check that raised. */
  datatype CheckResult = CheckResult(state: TxState, fee: Option<string>, confirmedAt: Option<string>,
                                     error: Option<string>)

  type Snapshot = map<string, CheckResult>

  function Blank(fee: Option<string>): bool {
    fee == None || fee == Some("")
  }

  /** Only a submitted transaction with a hash and without a fee is looked up again. */
  predicate NeedsReconcile(tx: Tx) {
    tx.hash != "" && tx.state == Submitted && Blank(tx.fee)
  }

  function Coalesce<T>(a: Option<T>, b: Option<T>): Option<T> {
    if a.Some? then a else b
  }

  /** The columns after an answer; a submitted answer changes nothing. */
  function ApplyCheck(tx: Tx, r: CheckResult): Tx {
    if r.state == Submitted then tx
    else
      tx.(state := r.state,
          fee := Coalesce(r.fee, tx.fee),
          confirmedAt := Coalesce(if r.state == Confirmed then r.confirmedAt else None, tx.confirmedAt),
          error := if r.state == Failed then r.error else None)
  }

  function Updated(tx: Tx, snap: Snapshot): Tx {
    if NeedsReconcile(tx) && tx.hash in snap then ApplyCheck(tx, snap[tx.hash]) else tx
  }

  function UpdatedIf(tx: Tx, snap: Snapshot, now: bool): Tx {
    if now then Updated(tx, snap) else tx
  }

  function UpdatedOpt(tx: Option<Tx>, snap: Snapshot, now: bool): Option<Tx> {
    match tx
    case None => None
    case Some(t) => Some(UpdatedIf(t, snap, now))
  }

  /** The tables after the slots in done have been looked up in one snapshot. */
  function Reconciled(db: Db, snap: Snapshot, done: set<Slot>): Db {
    Db(map e | e in db.events ::
         db.events[e].(tx := UpdatedIf(db.events[e].tx, snap, CreateTx(e) in done),
                       closeTx := UpdatedOpt(db.events[e].closeTx, snap, CloseTx(e) in done)),
       map k | k in db.proofs ::
         db.proofs[k].(tx := UpdatedIf(db.proofs[k].tx, snap, ProofTx(k.0, k.1) in done)),
       map k | k in db.settlements ::
         db.settlements[k].(tx := UpdatedIf(db.settlements[k].tx, snap, SettleTx(k.0, k.1) in done),
                            claimTx := UpdatedOpt(db.settlements[k].claimTx, snap, ClaimTx(k.0, k.1) in done)),
       db.audits)
  }

  // ---- Slot by slot ----

  lemma ReconciledAt(db: Db, snap: Snapshot, done: set<Slot>, x: Slot)
    ensures TxAt(Reconciled(db, snap, done), x) == UpdatedOpt(TxAt(db, x), snap, x in done)
  {
    match x
    case CreateTx(_) =>
    case CloseTx(_) =>
    case ProofTx(_, _) =>
    case SettleTx(_, _) =>
    case ClaimTx(_, _) =>
  }

  /** Apart from transaction columns the tables are the same. */
  ghost predicate SameBusiness(a: Db, b: Db) {
    && a.events.Keys == b.events.Keys && a.proofs.Keys == b.proofs.Keys && a.settlements.Keys == b.settlements.Keys
    && a.audits == b.audits
    && (forall e :: e in a.events ==> a.events[e].(tx := b.events[e].tx, closeTx := b.events[e].closeTx) == b.events[e])
    && (forall k :: k in a.proofs ==> a.proofs[k].(tx := b.proofs[k].tx) == b.proofs[k])
    && (forall k :: k in a.settlements ==>
         a.settlements[k].(tx := b.settlements[k].tx, claimTx := b.settlements[k].claimTx) == b.settlements[k])
  }

  /** Two tables with the same business columns and the same transactions everywhere are the same. */
  lemma SameTables(a: Db, b: Db)
    requires SameBusiness(a, b)
    requires forall x :: TxAt(a, x) == TxAt(b, x)
    ensures a == b
  {
    forall e | e in a.events ensures a.events[e] == b.events[e] {
      assert TxAt(a, CreateTx(e)) == TxAt(b, CreateTx(e));
      assert TxAt(a, CloseTx(e)) == TxAt(b, CloseTx(e));
    }
    forall k | k in a.proofs ensures a.proofs[k] == b.proofs[k] {
      assert TxAt(a, ProofTx(k.0, k.1)) == TxAt(b, ProofTx(k.0, k.1));
    }
    forall k | k in a.settlements ensures a.settlements[k] == b.settlements[k] {
      assert TxAt(a, SettleTx(k.0, k.1)) == TxAt(b, SettleTx(k.0, k.1));
      assert TxAt(a, ClaimTx(k.0, k.1)) == TxAt(b, ClaimTx(k.0, k.1));
    }
    assert a.events == b.events;
    assert a.proofs == b.proofs;
    assert a.settlements == b.settlements;
  }

  lemma ReconcileKeepsBusiness(db: Db, snap: Snapshot, done: set<Slot>)
    ensures SameBusiness(db, Reconciled(db, snap, done))
  {
  }

  lemma SetTxKeepsBusiness(db: Db, x: Slot, tx: Tx)
    requires TxAt(db, x).Some?
    ensures SameBusiness(db, SetTx(db, x, tx))
  {
  }

  lemma SameBusinessTransitive(a: Db, b: Db, c: Db)
    requires SameBusiness(a, b) && SameBusiness(b, c)
    ensures SameBusiness(a, c)
  {
  }

  lemma SameBusinessSymmetric(a: Db, b: Db)
    requires SameBusiness(a, b)
    ensures SameBusiness(b, a)
  {
  }

  /** Every slot already handled was either not pending or answered. */
  ghost predicate Answered(db: Db, snap: Snapshot, done: set<Slot>) {
    forall x :: x in done && TxAt(db, x).Some? && NeedsReconcile(TxAt(db, x).value) ==> TxAt(db, x).value.hash in snap
  }

  /** Later answers for other hashes do not disturb slots already handled. */
  lemma SnapshotGrows(db: Db, small: Snapshot, large: Snapshot, done: set<Slot>)
    requires Answered(db, small, done)
    requires forall h :: h in small ==> h in large && large[h] == small[h]
    ensures Reconciled(db, large, done) == Reconciled(db, small, done)
    ensures Answered(db, large, done)
  {
    var a, b := Reconciled(db, large, done), Reconciled(db, small, done);
    ReconcileKeepsBusiness(db, large, done);
    ReconcileKeepsBusiness(db, small, done);
    SameBusinessSymmetric(db, a);
    SameBusinessTransitive(a, db, b);
    hide SameBusiness, TxAt, Reconciled, NeedsReconcile, ApplyCheck;
    forall x ensures TxAt(a, x) == TxAt(b, x) {
      ReconciledAt(db, large, done, x);
      ReconciledAt(db, small, done, x);
    }
    SameTables(a, b);
  }

  lemma WriteKeepsBusiness(db: Db, snap: Snapshot, done: set<Slot>, x: Slot, tx: Tx)
    requires TxAt(Reconciled(db, snap, done), x).Some?
    ensures SameBusiness(SetTx(Reconciled(db, snap, done), x, tx), Reconciled(db, snap, done + {x}))
  {
    var before := Reconciled(db, snap, done);
    var written := SetTx(before, x, tx);
    var after := Reconciled(db, snap, done + {x});
    ReconcileKeepsBusiness(db, snap, done);
    ReconcileKeepsBusiness(db, snap, done + {x});
    SetTxKeepsBusiness(before, x, tx);
    SameBusinessTransitive(db, before, written);
    SameBusinessSymmetric(db, written);
    SameBusinessTransitive(written, db, after);
  }

  /** Handling one more slot is one write to that slot. */
  lemma OneMoreSlot(db: Db, snap: Snapshot, done: set<Slot>, x: Slot)
    requires TxAt(db, x).Some? && x !in done
    ensures TxAt(Reconciled(db, snap, done), x) == TxAt(db, x)
    ensures SetTx(Reconciled(db, snap, done), x, Updated(TxAt(db, x).value, snap)) == Reconciled(db, snap, done + {x})
  {
    ReconciledAt(db, snap, done, x);
    var tx := Updated(TxAt(db, x).value, snap);
    WriteKeepsBusiness(db, snap, done, x, tx);
    SetTxFrame(Reconciled(db, snap, done), x, tx);
    var written, after := SetTx(Reconciled(db, snap, done), x, tx), Reconciled(db, snap, done + {x});
    forall y ensures TxAt(written, y) == TxAt(after, y) {
      ReconciledAt(db, snap, done, y);
      ReconciledAt(db, snap, done + {x}, y);
    }
    SameTables(written, after);
  }

  // ---- Passes as they are made ----

  /** The order in which a pass visits the tables. */
  function Phase(x: Slot): nat {
    match x
    case CreateTx(_) => 0
    case CloseTx(_) => 1
    case ProofTx(_, _) => 2
    case SettleTx(_, _) => 3
    case ClaimTx(_, _) => 3
  }

  /** A pass cut short at a slot whose look-up raised. */
  ghost predicate CutAt(db: Db, e: string, answers: Snapshot, done: set<Slot>, at: Slot) {
    && done <= SlotsOf(db, e) && at in SlotsOf(db, e) && at !in done
    && Answered(db, answers, done)
    && TxAt(db, at).Some? && NeedsReconcile(TxAt(db, at).value) && TxAt(db, at).value.hash !in answers
    && forall x :: x in done ==> Phase(x) <= Phase(at)
  }

  datatype PassRecord = PassRecord(answers: Snapshot, done: set<Slot>, cutAt: Option<Slot>)

  ghost predicate PassOf(db: Db, e: string, p: PassRecord) {
    match p.cutAt
    case None => p.done == SlotsOf(db, e) && Answered(db, p.answers, p.done)
    case Some(at) => CutAt(db, e, p.answers, p.done, at)
  }

  /** The answers and slots of some pass over the event, finished or cut short. */
  ghost predicate Visits(db: Db, e: string, answers: Snapshot, done: set<Slot>) {
    exists cut :: PassOf(db, e, PassRecord(answers, done, cut))
  }

  function AfterPasses(db: Db, passes: seq<PassRecord>): Db {
    if passes == [] then db
    else
      var last := passes[|passes| - 1];
      Reconciled(AfterPasses(db, passes[..|passes| - 1]), last.answers, last.done)
  }

  ghost predicate PassesOf(db: Db, e: string, passes: seq<PassRecord>) {
    passes == []
    || (PassesOf(db, e, passes[..|passes| - 1])
        && PassOf(AfterPasses(db, passes[..|passes| - 1]), e, passes[|passes| - 1]))
  }

  lemma {:induction false} PassesKeepBusiness(db: Db, passes: seq<PassRecord>)
    ensures SameBusiness(db, AfterPasses(db, passes))
  {
    hide Reconciled;
    if passes != [] {
      var front := AfterPasses(db, passes[..|passes| - 1]);
      PassesKeepBusiness(db, passes[..|passes| - 1]);
      ReconcileKeepsBusiness(front, passes[|passes| - 1].answers, passes[|passes| - 1].done);
      SameBusinessTransitive(db, front, AfterPasses(db, passes));
    }
  }

  // ---- What a pass keeps ----

  lemma UpdatedSettled(tx: Tx, snap: Snapshot)
    ensures Updated(tx, snap).hash == tx.hash
    ensures tx.state != Submitted ==> Updated(tx, snap) == tx
    ensures Updated(Updated(tx, snap), snap) == Updated(tx, snap)
  {
  }

  /** A pass never changes a confirmed or failed transaction, a hash, a business column or another event's rows. */
  lemma PassFrame(db: Db, snap: Snapshot, e: string, done: set<Slot>)
    requires done <= SlotsOf(db, e)
    ensures SameBusiness(db, Reconciled(db, snap, done))
    ensures forall x :: TxAt(db, x).Some? && TxAt(db, x).value.state != Submitted ==>
                          TxAt(Reconciled(db, snap, done), x) == TxAt(db, x)
    ensures forall x: Slot :: x.event != e ==> TxAt(Reconciled(db, snap, done), x) == TxAt(db, x)
  {
    ReconcileKeepsBusiness(db, snap, done);
    forall x: Slot ensures TxAt(db, x).Some? && TxAt(db, x).value.state != Submitted ==>
        TxAt(Reconciled(db, snap, done), x) == TxAt(db, x)
             ensures x.event != e ==> TxAt(Reconciled(db, snap, done), x) == TxAt(db, x) {
      ReconciledAt(db, snap, done, x);
      SlotsOfFilled(db, e, x);
    }
  }

  /** A second pass over the same snapshot changes nothing. */
  lemma PassIdempotent(db: Db, snap: Snapshot, done: set<Slot>)
    ensures Reconciled(Reconciled(db, snap, done), snap, done) == Reconciled(db, snap, done)
  {
    var once := Reconciled(db, snap, done);
    var twice := Reconciled(once, snap, done);
    ReconcileKeepsBusiness(once, snap, done);
    SameBusinessSymmetric(once, twice);
    forall x ensures TxAt(twice, x) == TxAt(once, x) {
      ReconciledAt(db, snap, done, x);
      ReconciledAt(once, snap, done, x);
      if TxAt(db, x).Some? {
        UpdatedSettled(TxAt(db, x).value, snap);
      }
    }
    SameTables(twice, once);
  }

  /** The slot is waiting and the snapshot has a final answer for its hash. */
  ghost predicate Decided(tx: Tx, snap: Snapshot) {
    && tx.state == Submitted && tx.hash != "" && (tx.fee == None || tx.fee == Some(""))
    && tx.hash in snap && snap[tx.hash].state != Submitted
  }

  /**
   A pass writes exactly the visited slots for which it has a final answer: the answer's state, its fee and confirmation
   time where it gives them, and its error if the transaction failed. All else stays.
   */
  lemma PassShowsAnswers(db: Db, snap: Snapshot, done: set<Slot>, x: Slot)
    requires TxAt(db, x).Some?
    ensures TxAt(Reconciled(db, snap, done), x).Some?
    ensures var tx, after := TxAt(db, x).value, TxAt(Reconciled(db, snap, done), x).value;
            if x in done && Decided(tx, snap) then
              var r := snap[tx.hash];
              && after.hash == tx.hash && after.submittedAt == tx.submittedAt
              && after.state == r.state
              && after.fee == (if r.fee.Some? then r.fee else tx.fee)
              && after.confirmedAt == (if r.state == Confirmed && r.confirmedAt.Some? then r.confirmedAt
                                       else tx.confirmedAt)
              && after.error == (if r.state == Failed then r.error else None)
            else after == tx
  {
    ReconciledAt(db, snap, done, x);
    hide Reconciled;
  }

  // ---- Rows that share a hash ----

  /** All slots recording the same hash show the same state, fee and error. */
  ghost predicate Agree(db: Db) {
    forall x, y :: TxAt(db, x).Some? && TxAt(db, y).Some? && TxAt(db, x).value.hash == TxAt(db, y).value.hash ==>
      && TxAt(db, x).value.state == TxAt(db, y).value.state
      && TxAt(db, x).value.fee == TxAt(db, y).value.fee
      && TxAt(db, x).value.error == TxAt(db, y).value.error
  }

  /** A pass that handles a pending slot handles every slot with the same hash. */
  ghost predicate ClosedUnderHash(db: Db, done: set<Slot>) {
    forall x, y :: x in done && SharePending(db, x, y) ==> y in done
  }

  ghost predicate SharePending(db: Db, x: Slot, y: Slot) {
    && TxAt(db, x).Some? && TxAt(db, y).Some?
    && NeedsReconcile(TxAt(db, x).value)
    && TxAt(db, x).value.hash == TxAt(db, y).value.hash
  }

  lemma PassKeepsAgreement(db: Db, snap: Snapshot, done: set<Slot>)
    requires Agree(db) && ClosedUnderHash(db, done)
    ensures Agree(Reconciled(db, snap, done))
  {
    var after := Reconciled(db, snap, done);
    forall x, y | TxAt(after, x).Some? && TxAt(after, y).Some? && TxAt(after, x).value.hash == TxAt(after, y).value.hash
      ensures TxAt(after, x).value.state == TxAt(after, y).value.state
      ensures TxAt(after, x).value.fee == TxAt(after, y).value.fee
      ensures TxAt(after, x).value.error == TxAt(after, y).value.error
    {
      ReconciledAt(db, snap, done, x);
      ReconciledAt(db, snap, done, y);
      assert x in done && SharePending(db, x, y) ==> y in done;
      assert y in done && SharePending(db, y, x) ==> x in done;
    }
  }
}
