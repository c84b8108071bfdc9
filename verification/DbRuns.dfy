/** What every run of service calls keeps in the tables, in either confirm mode. */
module DbRuns {
  import opened Common
  import opened Database
  import opened Reconcile
  import opened Submitter
  import Payout
  import TimeOrder

  ghost function RowsOf(db: Db, e: string): set<Key> {
    set k | k in db.settlements && k.0 == e
  }

  ghost predicate EventsShaped(db: Db) {
    forall e :: e in db.events ==>
      && (db.events[e].closeTx.Some? <==> db.events[e].status != Active)
      && (db.events[e].status == Settled <==> RowsOf(db, e) != {})
  }

  ghost predicate ProofsShaped(db: Db, hash: Hasher) {
    forall k :: k in db.proofs ==>
      && k.0 in db.events
      && db.proofs[k].reductionKwh == Reduction(db.proofs[k].baselineKwh, db.proofs[k].actualKwh)
      && db.proofs[k].proofHash == hash(db.proofs[k].payload)
  }

  /** The payout a settlement row must hold, recomputed from the other tables. */
  ghost function Replay(db: Db, k: Key): int
    requires k in db.proofs && k.0 in db.events && RowsOf(db, k.0) != {}
  {
    Payout.CalculatePayout(db.proofs[k].reductionKwh, db.events[k.0].targetKw / |RowsOf(db, k.0)|,
                           db.events[k.0].rewardRate, db.events[k.0].penaltyRate)
  }

  ghost predicate SettlementsShaped(db: Db) {
    forall k :: k in db.settlements ==>
      && k.0 in db.events && k in db.proofs
      && RowsOf(db, k.0) != {}
      && db.settlements[k].payout == Replay(db, k)
      && (db.settlements[k].status == Claimed <==> db.settlements[k].claimTx.Some?)
  }

  ghost predicate OneSettleTx(db: Db) {
    forall j, k :: j in db.settlements && k in db.settlements && j.0 == k.0 ==>
        db.settlements[j].tx.hash == db.settlements[k].tx.hash
  }

  ghost predicate DbInv(db: Db, hash: Hasher) {
    EventsShaped(db) && ProofsShaped(db, hash) && SettlementsShaped(db) && OneSettleTx(db)
  }

  lemma EmptyDbInv(hash: Hasher)
    ensures DbInv(EMPTY_DB, hash)
  {
  }

  // ---- Call by call ----

  lemma SameRows(a: Db, b: Db, e: string)
    requires a.settlements.Keys == b.settlements.Keys
    ensures RowsOf(a, e) == RowsOf(b, e)
  {
    forall k ensures k in RowsOf(a, e) <==> k in RowsOf(b, e) {
      assert k in a.settlements <==> k in b.settlements;
    }
  }

  ghost predicate ParametersKept(db: Db, next: Db) {
    && (forall e :: e in db.events ==>
         && e in next.events
         && next.events[e].targetKw == db.events[e].targetKw
         && next.events[e].rewardRate == db.events[e].rewardRate
         && next.events[e].penaltyRate == db.events[e].penaltyRate)
    && (forall k :: k in db.proofs ==> k in next.proofs && next.proofs[k].reductionKwh == db.proofs[k].reductionKwh)
  }

  ghost predicate PayoutsKept(db: Db, next: Db) {
    && next.settlements.Keys == db.settlements.Keys
    && (forall k :: k in db.settlements ==>
         && next.settlements[k].payout == db.settlements[k].payout
         && next.settlements[k].tx.hash == db.settlements[k].tx.hash
         && (next.settlements[k].status == Claimed <==> next.settlements[k].claimTx.Some?))
  }

  /** Nothing a stored payout is computed from has moved. */
  ghost predicate InputsKept(db: Db, next: Db) {
    ParametersKept(db, next) && PayoutsKept(db, next)
  }

  lemma InputsKeptKeepsPayouts(db: Db, next: Db)
    requires SettlementsShaped(db) && OneSettleTx(db) && InputsKept(db, next)
    ensures SettlementsShaped(next) && OneSettleTx(next)
    ensures forall e :: RowsOf(next, e) == RowsOf(db, e)
  {
    forall e ensures RowsOf(next, e) == RowsOf(db, e) {
      SameRows(next, db, e);
    }
    forall k | k in next.settlements
      ensures k.0 in next.events && k in next.proofs && RowsOf(next, k.0) != {}
              && next.settlements[k].payout == Replay(next, k)
    {
      assert k in db.settlements;
    }
  }

  lemma PassKeepsRow(db: Db, answers: Snapshot, done: set<Slot>, k: Key)
    requires k in db.settlements
    ensures var next := Reconciled(db, answers, done);
            && k in next.settlements && next.settlements[k].payout == db.settlements[k].payout
            && next.settlements[k].tx.hash == db.settlements[k].tx.hash
            && next.settlements[k].status == db.settlements[k].status
            && (next.settlements[k].claimTx.Some? <==> db.settlements[k].claimTx.Some?)
  {
    UpdatedSettled(db.settlements[k].tx, answers);
  }

  lemma PassKeepsParameters(db: Db, answers: Snapshot, done: set<Slot>)
    ensures ParametersKept(db, Reconciled(db, answers, done))
  {
    hide UpdatedIf, UpdatedOpt;
  }

  lemma PassKeepsPayouts(db: Db, answers: Snapshot, done: set<Slot>)
    requires SettlementsShaped(db)
    ensures PayoutsKept(db, Reconciled(db, answers, done))
  {
    assert forall k :: k in db.settlements ==>
        (db.settlements[k].status == Claimed <==> db.settlements[k].claimTx.Some?);
    assert Reconciled(db, answers, done).settlements.Keys == db.settlements.Keys;
    hide SettlementsShaped, Reconciled;
    forall k | k in db.settlements
      ensures var next := Reconciled(db, answers, done);
              && next.settlements[k].payout == db.settlements[k].payout
              && next.settlements[k].tx.hash == db.settlements[k].tx.hash
              && (next.settlements[k].status == Claimed <==> next.settlements[k].claimTx.Some?)
    {
      PassKeepsRow(db, answers, done, k);
    }
  }

  lemma PassKeepsInputs(db: Db, answers: Snapshot, done: set<Slot>)
    requires SettlementsShaped(db)
    ensures InputsKept(db, Reconciled(db, answers, done))
  {
    hide SettlementsShaped, Reconciled, ParametersKept, PayoutsKept;
    PassKeepsParameters(db, answers, done);
    PassKeepsPayouts(db, answers, done);
  }

  /** Events and proofs of a reconciled table, without its settlements. */
  lemma PassKeepsEvents(db: Db, hash: Hasher, next: Db)
    requires EventsShaped(db) && ProofsShaped(db, hash)
    requires SameBusiness(db, next) && forall e :: RowsOf(next, e) == RowsOf(db, e)
    requires forall e :: e in db.events ==> (next.events[e].closeTx.Some? <==> db.events[e].closeTx.Some?)
    ensures EventsShaped(next) && ProofsShaped(next, hash)
  {
    forall e | e in next.events
      ensures next.events[e].closeTx.Some? <==> next.events[e].status != Active
      ensures next.events[e].status == Settled <==> RowsOf(next, e) != {}
    {
      assert db.events[e].status == next.events[e].status;
    }
    forall k | k in next.proofs
      ensures k.0 in next.events
      ensures next.proofs[k].reductionKwh == Reduction(next.proofs[k].baselineKwh, next.proofs[k].actualKwh)
      ensures next.proofs[k].proofHash == hash(next.proofs[k].payload)
    {
      assert db.proofs[k].(tx := next.proofs[k].tx) == next.proofs[k];
    }
  }

  lemma PassKeepsDbInv(db: Db, hash: Hasher, answers: Snapshot, done: set<Slot>)
    requires DbInv(db, hash)
    ensures DbInv(Reconciled(db, answers, done), hash)
  {
    PassKeepsInputs(db, answers, done);
    InputsKeptKeepsPayouts(db, Reconciled(db, answers, done));
    ReconcileKeepsBusiness(db, answers, done);
    PassKeepsEvents(db, hash, Reconciled(db, answers, done));
  }

  lemma NoEventNoRows(db: Db, e: string)
    requires SettlementsShaped(db) && e !in db.events
    ensures RowsOf(db, e) == {}
  {
    forall k ensures k !in RowsOf(db, e) {
    }
  }

  lemma CreateKeepsShapes(db: Db, hash: Hasher, req: CreateRequest, tx: Tx, now: string)
    requires EventsShaped(db) && ProofsShaped(db, hash) && RowsOf(db, req.eventId) == {} && ValidRequest(req)
    requires forall e :: RowsOf(CreateCommit(db, req, tx, now), e) == RowsOf(db, e)
    ensures EventsShaped(CreateCommit(db, req, tx, now)) && ProofsShaped(CreateCommit(db, req, tx, now), hash)
  {
    hide RowsOf, TimeOrder.ToRfc3339;
  }

  lemma CreateKeepsInputs(db: Db, req: CreateRequest, tx: Tx, now: string)
    requires SettlementsShaped(db) && ValidRequest(req) && req.eventId !in db.events
    ensures InputsKept(db, CreateCommit(db, req, tx, now))
  {
    hide TimeOrder.ToRfc3339;
  }

  lemma CreateKeepsDbInv(db: Db, hash: Hasher, req: CreateRequest, tx: Tx, now: string)
    requires DbInv(db, hash) && ValidRequest(req) && CreateGuard(db, req) == None
    ensures DbInv(CreateCommit(db, req, tx, now), hash)
  {
    assert req.eventId !in db.events;
    hide EventsShaped, ProofsShaped, SettlementsShaped, OneSettleTx, InputsKept, RowsOf, CreateCommit, CreateGuard,
         ValidRequest;
    CreateKeepsInputs(db, req, tx, now);
    InputsKeptKeepsPayouts(db, CreateCommit(db, req, tx, now));
    NoEventNoRows(db, req.eventId);
    CreateKeepsShapes(db, hash, req, tx, now);
  }

  lemma CloseKeepsDbInv(db: Db, hash: Hasher, e: string, tx: Tx, now: string)
    requires DbInv(db, hash) && CloseGuard(db, e) == None
    ensures DbInv(CloseCommit(db, e, tx, now), hash)
  {
    var next := CloseCommit(db, e, tx, now);
    InputsKeptKeepsPayouts(db, next);
    assert EventsShaped(next);
  }

  lemma ProofKeepsDbInv(db: Db, hash: Hasher, gated: bool, req: ProofRequest, actor: string, tx: Tx, now: string)
    requires DbInv(db, hash) && ProofGuard(db, gated, hash, req, now) == None
    requires ProofCommit(db, hash, req, actor, tx, now).Ok?
    ensures DbInv(ProofCommit(db, hash, req, actor, tx, now).value, hash)
  {
    var next := ProofCommit(db, hash, req, actor, tx, now).value;
    InputsKeptKeepsPayouts(db, next);
    assert EventsShaped(next);
    assert ProofsShaped(next, hash);
  }

  lemma ClaimKeepsInputs(db: Db, e: string, site: string, tx: Tx, now: string)
    requires SettlementsShaped(db) && (e, site) in db.settlements
    ensures InputsKept(db, ClaimCommit(db, e, site, tx, now))
  {
    assert ClaimCommit(db, e, site, tx, now).settlements.Keys == db.settlements.Keys;
  }

  lemma ClaimKeepsDbInv(db: Db, hash: Hasher, e: string, site: string, tx: Tx, now: string)
    requires DbInv(db, hash) && (e, site) in db.settlements
    ensures DbInv(ClaimCommit(db, e, site, tx, now), hash)
  {
    ClaimKeepsInputs(db, e, site, tx, now);
    InputsKeptKeepsPayouts(db, ClaimCommit(db, e, site, tx, now));
  }

  /** What a successful settlement writes. */
  ghost predicate Settles(db: Db, next: Db, e: string, list: seq<string>, tx: Tx, now: string) {
    && e in db.events && db.events[e].status == Closed
    && list != [] && NoDup(list)
    && next == db.(settlements := next.settlements,
                   events := db.events[e := db.events[e].(status := Settled, settledAt := Some(now))])
    && (forall k :: k in next.settlements <==> k in db.settlements || (k.0 == e && k.1 in list))
    && (forall s :: s in list ==>
         && (e, s) in db.proofs
         && next.settlements[(e, s)] == SettlementRow(
              Payout.CalculatePayout(db.proofs[(e, s)].reductionKwh, db.events[e].targetKw / |list|,
                                     db.events[e].rewardRate, db.events[e].penaltyRate),
              Unclaimed, now, None, tx, None))
    && (forall k :: k in db.settlements && k.0 != e ==> next.settlements[k] == db.settlements[k])
  }

  lemma SettleCommitSettles(db: Db, gated: bool, e: string, sites: seq<string>, tx: Tx, now: string)
    requires SettleGuard(db, gated, e, sites).Ok?
    ensures Settles(db, SettleCommit(db, e, SettleGuard(db, gated, e, sites).value, tx, now), e,
                    SettleList(db, e, sites), tx, now)
  {
    var list := SettleList(db, e, sites);
    var rows := SettleGuard(db, gated, e, sites).value;
    SettleListMembers(db, e, sites);
    SettleRowsPriced(db, e, list, db.events[e].targetKw / |list|);
    InsertRowsAdds(db.settlements, e, rows, tx, now);
    var next := SettleCommit(db, e, rows, tx, now);
    forall k ensures k in next.settlements <==> k in db.settlements || (k.0 == e && k.1 in list) {
      if k.0 == e && k.1 in list {
        var i :| 0 <= i < |list| && list[i] == k.1;
        assert k == (e, rows[i].0);
      }
    }
    forall s | s in list
      ensures (e, s) in db.proofs
      ensures next.settlements[(e, s)].payout
                == Payout.CalculatePayout(db.proofs[(e, s)].reductionKwh, db.events[e].targetKw / |list|,
                                          db.events[e].rewardRate, db.events[e].penaltyRate)
      ensures next.settlements[(e, s)] == SettlementRow(next.settlements[(e, s)].payout, Unclaimed, now, None, tx, None)
    {
      var i :| 0 <= i < |list| && list[i] == s;
      assert rows[i].0 == s;
    }
  }

  /** The settled event's rows are the listed sites; other events keep theirs. */
  lemma SettledRows(db: Db, next: Db, e: string, list: seq<string>, tx: Tx, now: string)
    requires Settles(db, next, e, list, tx, now) && RowsOf(db, e) == {}
    ensures RowsOf(next, e) == (set s | s in list :: (e, s)) && |RowsOf(next, e)| == |list|
    ensures forall x :: x != e ==> RowsOf(next, x) == RowsOf(db, x)
  {
    PairCount(e, list);
    var keys := set s | s in list :: (e, s);
    assert keys == Pairs(e, list);
    forall k ensures k in RowsOf(next, e) <==> k in keys {
      assert k in RowsOf(db, e) <==> k in db.settlements && k.0 == e;
      if k.0 == e && k.1 in list {
        assert k == (e, k.1);
      }
    }
    assert RowsOf(next, e) == keys;
    forall x | x != e ensures RowsOf(next, x) == RowsOf(db, x) {
      forall k ensures k in RowsOf(next, x) <==> k in RowsOf(db, x) {
      }
    }
  }

  lemma SettleKeepsRows(db: Db, next: Db, hash: Hasher, e: string, list: seq<string>, tx: Tx, now: string)
    requires DbInv(db, hash) && Settles(db, next, e, list, tx, now)
    ensures SettlementsShaped(next)
  {
    SettledRows(db, next, e, list, tx, now);
    assert list[0] in list;
    forall k | k in next.settlements
      ensures k.0 in next.events && k in next.proofs && RowsOf(next, k.0) != {}
      ensures next.settlements[k].payout == Replay(next, k)
      ensures next.settlements[k].status == Claimed <==> next.settlements[k].claimTx.Some?
    {
      if k.0 == e {
        assert k !in RowsOf(db, e);
        assert k == (e, k.1) && k.1 in list;
        assert k in RowsOf(next, e);
      } else {
        assert k in db.settlements;
      }
    }
  }

  lemma SettleKeepsOneTx(db: Db, next: Db, e: string, list: seq<string>, tx: Tx, now: string)
    requires OneSettleTx(db) && RowsOf(db, e) == {} && Settles(db, next, e, list, tx, now)
    ensures OneSettleTx(next)
  {
    forall j, k | j in next.settlements && k in next.settlements && j.0 == k.0
      ensures next.settlements[j].tx.hash == next.settlements[k].tx.hash
    {
      if j.0 == e {
        assert j !in RowsOf(db, e) && k !in RowsOf(db, e);
        assert j == (e, j.1) && k == (e, k.1) && j.1 in list && k.1 in list;
      }
    }
  }

  lemma SettleKeepsShapes(db: Db, next: Db, hash: Hasher, e: string, list: seq<string>, tx: Tx, now: string)
    requires EventsShaped(db) && ProofsShaped(db, hash) && Settles(db, next, e, list, tx, now)
    requires RowsOf(next, e) == (set s | s in list :: (e, s)) && forall x :: x != e ==> RowsOf(next, x) == RowsOf(db, x)
    ensures EventsShaped(next) && ProofsShaped(next, hash)
  {
    assert list[0] in list && (e, list[0]) in RowsOf(next, e);
    hide RowsOf, Payout.CalculatePayout;
  }

  lemma SettleKeepsDbInv(db: Db, next: Db, hash: Hasher, e: string, list: seq<string>, tx: Tx, now: string)
    requires DbInv(db, hash) && Settles(db, next, e, list, tx, now)
    ensures DbInv(next, hash)
  {
    assert e in db.events && RowsOf(db, e) == {};
    hide EventsShaped, ProofsShaped, SettlementsShaped, OneSettleTx, RowsOf, Settles;
    SettledRows(db, next, e, list, tx, now);
    SettleKeepsRows(db, next, hash, e, list, tx, now);
    SettleKeepsOneTx(db, next, e, list, tx, now);
    SettleKeepsShapes(db, next, hash, e, list, tx, now);
  }

  lemma ClaimHasRow(db: Db, gated: bool, e: string, site: string, actor: string)
    requires ClaimGuard(db, gated, e, site, actor) == None
    ensures (e, site) in db.settlements
  {
  }

  lemma AuditKeepsDbInv(db: Db, hash: Hasher, e: string, site: string, now: string)
    requires DbInv(db, hash) && Audit(db, e, site, now).Ok?
    ensures DbInv(Audit(db, e, site, now).value, hash)
  {
    InputsKeptKeepsPayouts(db, Audit(db, e, site, now).value);
  }

  lemma PerformKeepsDbInv(db: Db, gated: bool, hash: Hasher, call: ServiceCall, tx: Tx, now: string)
    requires DbInv(db, hash) && WellFormed(db, call)
    requires Perform(db, gated, hash, call, tx, now).Ok?
    ensures DbInv(Perform(db, gated, hash, call, tx, now).value, hash)
  {
    hide DbInv, CreateGuard, CreateCommit, CloseGuard, CloseCommit, ProofGuard, ProofCommit, SettleGuard, SettleCommit,
         SettleList,
         Settles, ClaimGuard, ClaimCommit, Reconciled, Audit;
    match call
    case Create(req) => CreateKeepsDbInv(db, hash, req, tx, now);
    case SubmitProof(req, actor) => ProofKeepsDbInv(db, hash, gated, req, actor, tx, now);
    case Close(e) => CloseKeepsDbInv(db, hash, e, tx, now);
    case Settle(e, sites) =>
      SettleCommitSettles(db, gated, e, sites, tx, now);
      SettleKeepsDbInv(db, Perform(db, gated, hash, call, tx, now).value, hash, e, SettleList(db, e, sites), tx, now);
    case Claim(e, site, actor) =>
      ClaimHasRow(db, gated, e, site, actor);
      ClaimKeepsDbInv(db, hash, e, site, tx, now);
    case RequestAudit(e, site) => AuditKeepsDbInv(db, hash, e, site, now);
    case Pass(_, answers, done) => PassKeepsDbInv(db, hash, answers, done);
  }

  // ---- Runs ----

  /** One call of a run: what was asked, the transaction the chain step gave (None when it raised), and the clock. */
  datatype Turn = Turn(call: ServiceCall, reply: Option<Tx>, now: string)

  /** Audits and passes take no chain step; every other call writes only when its step returned a transaction. */
  ghost function Take(db: Db, gated: bool, hash: Hasher, t: Turn): Db
    requires WellFormed(db, t.call)
  {
    var tx := if t.reply.Some? then t.reply.value else Tx("", None, Submitted, "", None, None);
    if t.reply.None? && !t.call.RequestAudit? && !t.call.Pass? then db
    else
      match Perform(db, gated, hash, t.call, tx, t.now)
      case Ok(next) => next
      case Err(_) => db
  }

  ghost predicate Legal(db: Db, gated: bool, hash: Hasher, turns: seq<Turn>)
    decreases |turns|
  {
    turns == [] || (WellFormed(db, turns[0].call) && Legal(Take(db, gated, hash, turns[0]), gated, hash, turns[1..]))
  }

  ghost function Run(db: Db, gated: bool, hash: Hasher, turns: seq<Turn>): Db
    requires Legal(db, gated, hash, turns)
    decreases |turns|
  {
    if turns == [] then db else Run(Take(db, gated, hash, turns[0]), gated, hash, turns[1..])
  }

  lemma TakeKeepsDbInv(db: Db, gated: bool, hash: Hasher, t: Turn)
    requires DbInv(db, hash) && WellFormed(db, t.call)
    ensures DbInv(Take(db, gated, hash, t), hash)
  {
    var tx := if t.reply.Some? then t.reply.value else Tx("", None, Submitted, "", None, None);
    if Perform(db, gated, hash, t.call, tx, t.now).Ok? {
      PerformKeepsDbInv(db, gated, hash, t.call, tx, t.now);
    }
  }

  /**
   In every reachable database: settled means has rows, every payout replays, and every stored hash matches its payload.
   */
  lemma {:induction false} RunKeepsDbInv(db: Db, gated: bool, hash: Hasher, turns: seq<Turn>)
    requires DbInv(db, hash) && Legal(db, gated, hash, turns)
    ensures DbInv(Run(db, gated, hash, turns), hash)
    decreases |turns|
  {
    if turns != [] {
      TakeKeepsDbInv(db, gated, hash, turns[0]);
      RunKeepsDbInv(Take(db, gated, hash, turns[0]), gated, hash, turns[1..]);
    }
  }

  /** Every audit after any run finds the stored hash equal to the recomputed one. */
  lemma AuditsMatchAfterEveryRun(gated: bool, hash: Hasher, turns: seq<Turn>, k: Key)
    requires Legal(EMPTY_DB, gated, hash, turns) && k in Run(EMPTY_DB, gated, hash, turns).proofs
    ensures var row := Run(EMPTY_DB, gated, hash, turns).proofs[k];
            && Lower(row.proofHash) == Lower(hash(row.payload))
            && row.reductionKwh == Reduction(row.baselineKwh, row.actualKwh)
  {
    EmptyDbInv(hash);
    RunKeepsDbInv(EMPTY_DB, gated, hash, turns);
  }

  /** ALREADY_SETTLED is never the service's answer: a closed event has no rows. */
  lemma AlreadySettledNeverFires(db: Db, hash: Hasher, gated: bool, e: string, sites: seq<string>)
    requires DbInv(db, hash)
    ensures SettleGuard(db, gated, e, sites).Err? ==> !SettleGuard(db, gated, e, sites).error.AlreadySettled?
    ensures SettleGuard(db, gated, e, sites).Ok? ==> NoDup(SettleList(db, e, sites))
  {
    SettleListMembers(db, e, sites);
    if SettleOpen(db, e).None? {
      var list := SettleList(db, e, sites);
      assert RowsOf(db, e) == {};
      if list != [] {
        RefusalIsMissingProof(db, e, list, db.events[e].targetKw / |list|);
      }
    }
  }

  lemma {:induction false} RefusalIsMissingProof(db: Db, e: string, list: seq<string>, share: nat)
    requires e in db.events && RowsOf(db, e) == {}
    ensures SettleRows(db, e, list, share).Err? ==> SettleRows(db, e, list, share).error.ProofMissing?
  {
    if list != [] {
      RefusalIsMissingProof(db, e, list[..|list| - 1], share);
      assert (e, list[|list| - 1]) !in RowsOf(db, e);
    }
  }

  // ---- What never goes back ----

  function StatusRank(s: EventStatus): nat {
    match s
    case Active => 0
    case Closed => 1
    case Settled => 2
  }

  ghost predicate Grows(db: Db, next: Db) {
    && (forall e :: e in db.events ==>
        e in next.events && StatusRank(db.events[e].status) <= StatusRank(next.events[e].status))
    && (forall k :: k in db.proofs ==> k in next.proofs)
    && (forall k :: k in db.settlements ==>
         k in next.settlements && (db.settlements[k].status == Claimed ==> next.settlements[k].status == Claimed))
    && (forall k :: k in db.audits ==> k in next.audits)
  }

  lemma SettleGrows(db: Db, next: Db, hash: Hasher, e: string, list: seq<string>, tx: Tx, now: string)
    requires DbInv(db, hash) && Settles(db, next, e, list, tx, now)
    ensures Grows(db, next)
  {
    forall k | k in db.settlements ensures k.0 != e {
      assert k in RowsOf(db, k.0);
    }
  }

  lemma PassGrows(db: Db, answers: Snapshot, done: set<Slot>)
    ensures Grows(db, Reconciled(db, answers, done))
  {
  }

  lemma ClaimGrows(db: Db, e: string, site: string, tx: Tx, now: string)
    requires (e, site) in db.settlements
    ensures Grows(db, ClaimCommit(db, e, site, tx, now))
  {
  }

  lemma RowCallsGrow(db: Db, gated: bool, hash: Hasher, call: ServiceCall, tx: Tx, now: string)
    requires WellFormed(db, call) && !call.Settle? && !call.Pass? && !call.Claim?
    requires Perform(db, gated, hash, call, tx, now).Ok?
    ensures Grows(db, Perform(db, gated, hash, call, tx, now).value)
  {
    hide HashAccepted, TimeOrder.LexLess, TimeOrder.ToRfc3339, CreateConfirmed;
  }

  lemma PerformGrows(db: Db, gated: bool, hash: Hasher, call: ServiceCall, tx: Tx, now: string)
    requires DbInv(db, hash) && WellFormed(db, call)
    requires Perform(db, gated, hash, call, tx, now).Ok?
    ensures Grows(db, Perform(db, gated, hash, call, tx, now).value)
  {
    hide DbInv, Grows, SettleGuard, SettleCommit, SettleList, Settles, ClaimGuard, ClaimCommit, Reconciled;
    match call
    case Settle(e, sites) =>
      SettleCommitSettles(db, gated, e, sites, tx, now);
      SettleGrows(db, Perform(db, gated, hash, call, tx, now).value, hash, e, SettleList(db, e, sites), tx, now);
    case Claim(e, site, actor) =>
      ClaimHasRow(db, gated, e, site, actor);
      ClaimGrows(db, e, site, tx, now);
    case Pass(_, answers, done) => PassGrows(db, answers, done);
    case _ => RowCallsGrow(db, gated, hash, call, tx, now);
  }

  lemma TakeGrows(db: Db, gated: bool, hash: Hasher, t: Turn)
    requires DbInv(db, hash) && WellFormed(db, t.call)
    ensures Grows(db, Take(db, gated, hash, t))
  {
    var tx := if t.reply.Some? then t.reply.value else Tx("", None, Submitted, "", None, None);
    if Perform(db, gated, hash, t.call, tx, t.now).Ok? {
      PerformGrows(db, gated, hash, t.call, tx, t.now);
    }
  }

  lemma GrowsTransitive(a: Db, b: Db, c: Db)
    requires Grows(a, b) && Grows(b, c)
    ensures Grows(a, c)
  {
  }

  /** Over any run, rows are never deleted and statuses never step back. */
  lemma {:induction false} RunGrows(db: Db, gated: bool, hash: Hasher, turns: seq<Turn>)
    requires DbInv(db, hash) && Legal(db, gated, hash, turns)
    ensures Grows(db, Run(db, gated, hash, turns))
    decreases |turns|
  {
    if turns != [] {
      var mid := Take(db, gated, hash, turns[0]);
      TakeGrows(db, gated, hash, turns[0]);
      TakeKeepsDbInv(db, gated, hash, turns[0]);
      RunGrows(mid, gated, hash, turns[1..]);
      GrowsTransitive(db, mid, Run(mid, gated, hash, turns[1..]));
    }
  }
}
