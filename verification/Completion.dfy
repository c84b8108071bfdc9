/** Which events can still reach the last step, and the calls that take them there. */
module Completion {
  import opened Common
  import opened Database
  import opened Reconcile
  import opened Submitter
  import opened DbRuns
  import opened JudgeSummary
  import Payout
  import TimeOrder

  // ---- The condition ----

  /** Confirmed, or still looked up by a pass. */
  predicate Confirmable(tx: Tx) {
    tx.state == Confirmed || NeedsReconcile(tx)
  }

  /** The wait for the create transaction can end well; a transaction without a hash is not waited for. */
  predicate Opens(tx: Tx) {
    Confirmable(tx) || (tx.state == Submitted && tx.hash == "")
  }

  function Needed(required: seq<string>): seq<string> {
    required + [AUDITED_SITE]
  }

  ghost predicate AllProved(db: Db, e: string, needed: seq<string>) {
    forall s :: s in needed ==> (e, s) in db.proofs
  }

  ghost predicate ProofsCanCome(db: Db, gated: bool, e: string, needed: seq<string>)
    requires e in db.events
  {
    AllProved(db, e, needed) || (db.events[e].status == Active && (gated ==> Opens(db.events[e].tx)))
  }

  predicate SettlementCanCome(db: Db, gated: bool, e: string)
    requires e in db.events
  {
    gated && db.events[e].status == Closed ==> db.events[e].closeTx.Some? && Confirmable(db.events[e].closeTx.value)
  }

  predicate ClaimCanCome(db: Db, gated: bool, e: string)
    requires e in db.events
  {
    var k := (e, AUDITED_SITE);
    db.events[e].status == Settled ==>
      k in db.settlements && (db.settlements[k].status == Claimed || (gated ==> Confirmable(db.settlements[k].tx)))
  }

  /** What a caller can read off the tables. */
  ghost predicate CanComplete(db: Db, gated: bool, e: string, required: seq<string>) {
    e in db.events ==>
      && ProofsCanCome(db, gated, e, Needed(required))
      && SettlementCanCome(db, gated, e)
      && ClaimCanCome(db, gated, e)
  }

  ghost predicate Complete(db: Db, e: string, required: seq<string>) {
    e in db.events && Summarize(db, e, required).value.step == Completed
  }

  /** The turns are calls and passes as the service makes them, and end with the event in the last step. */
  ghost predicate Completes(db: Db, gated: bool, hash: Hasher, turns: seq<Turn>, e: string, required: seq<string>)
    decreases |turns|
  {
    if turns == [] then Complete(db, e, required)
    else
      && WellFormed(db, turns[0].call)
      && (turns[0].call.Pass? ==> Visits(db, turns[0].call.event, turns[0].call.answers, turns[0].call.done))
      && Completes(Take(db, gated, hash, turns[0]), gated, hash, turns[1..], e, required)
  }

  lemma {:induction false} CompletesIsRun(db: Db, gated: bool, hash: Hasher, turns: seq<Turn>, e: string,
                                          required: seq<string>)
    requires Completes(db, gated, hash, turns, e, required)
    ensures Legal(db, gated, hash, turns) && Complete(Run(db, gated, hash, turns), e, required)
    decreases |turns|
  {
    hide Take, WellFormed, Complete;
    if turns != [] {
      CompletesIsRun(Take(db, gated, hash, turns[0]), gated, hash, turns[1..], e, required);
    }
  }

  // ---- Blocked stays blocked ----

  lemma CompleteCan(db: Db, gated: bool, hash: Hasher, e: string, required: seq<string>)
    requires DbInv(db, hash) && Complete(db, e, required)
    ensures CanComplete(db, gated, e, required)
  {
    var k := (e, AUDITED_SITE);
    assert k in db.settlements && db.settlements[k].status == Claimed && k in db.proofs;
    assert k in RowsOf(db, e);
  }

  lemma UpdatedConfirmable(tx: Tx, answers: Snapshot, visited: bool)
    ensures Confirmable(UpdatedIf(tx, answers, visited)) ==> Confirmable(tx)
    ensures Opens(UpdatedIf(tx, answers, visited)) ==> Opens(tx)
  {
  }

  lemma PassStepsBack(db: Db, gated: bool, answers: Snapshot, done: set<Slot>, e: string, required: seq<string>)
    requires e in db.events && CanComplete(Reconciled(db, answers, done), gated, e, required)
    ensures CanComplete(db, gated, e, required)
  {
    UpdatedConfirmable(db.events[e].tx, answers, CreateTx(e) in done);
    if db.events[e].closeTx.Some? {
      UpdatedConfirmable(db.events[e].closeTx.value, answers, CloseTx(e) in done);
    }
    if (e, AUDITED_SITE) in db.settlements {
      UpdatedConfirmable(db.settlements[(e, AUDITED_SITE)].tx, answers, SettleTx(e, AUDITED_SITE) in done);
    }
    var next := Reconciled(db, answers, done);
    assert forall s :: (e, s) in next.proofs <==> (e, s) in db.proofs;
    hide UpdatedIf, Confirmable, Opens;
  }

  lemma ProofStepsBack(db: Db, gated: bool, hash: Hasher, p: ProofRequest, actor: string, tx: Tx, now: string,
                       e: string,
                       required: seq<string>)
    requires e in db.events && ProofGuard(db, gated, hash, p, now) == None
             && ProofCommit(db, hash, p, actor, tx, now).Ok?
    requires CanComplete(ProofCommit(db, hash, p, actor, tx, now).value, gated, e, required)
    ensures CanComplete(db, gated, e, required)
  {
    hide HashAccepted;
  }

  lemma CloseStepsBack(db: Db, gated: bool, x: string, tx: Tx, now: string, e: string, required: seq<string>)
    requires e in db.events && CloseGuard(db, x) == None
    requires CanComplete(CloseCommit(db, x, tx, now), gated, e, required)
    ensures CanComplete(db, gated, e, required)
  {
    hide Confirmable, Opens;
  }

  lemma SettleStepsBack(db: Db, next: Db, gated: bool, x: string, list: seq<string>, tx: Tx, now: string, e: string,
                        required: seq<string>)
    requires e in db.events && Settles(db, next, x, list, tx, now)
    requires gated ==> CloseConfirmed(db, x) == None
    requires CanComplete(next, gated, e, required)
    ensures CanComplete(db, gated, e, required)
  {
    hide Opens, NeedsReconcile, Payout.CalculatePayout;
    assert AllProved(next, e, Needed(required)) <==> AllProved(db, e, Needed(required));
  }

  lemma ClaimStepsBack(db: Db, gated: bool, x: string, site: string, actor: string, tx: Tx, now: string, e: string,
                       required: seq<string>)
    requires e in db.events && ClaimGuard(db, gated, x, site, actor) == None
    requires CanComplete(ClaimCommit(db, x, site, tx, now), gated, e, required)
    ensures CanComplete(db, gated, e, required)
  {
    hide Opens, NeedsReconcile;
  }

  lemma CreateStepsBack(db: Db, gated: bool, req: CreateRequest, tx: Tx, now: string, e: string, required: seq<string>)
    requires e in db.events && ValidRequest(req) && CreateGuard(db, req) == None
    requires CanComplete(CreateCommit(db, req, tx, now), gated, e, required)
    ensures CanComplete(db, gated, e, required)
  {
    hide Opens, Confirmable, ValidRequest, TimeOrder.ToRfc3339, TimeOrder.LexLess;
  }

  lemma PerformStepsBack(db: Db, gated: bool, hash: Hasher, call: ServiceCall, tx: Tx, now: string, e: string,
                         required: seq<string>)
    requires e in db.events && WellFormed(db, call) && Perform(db, gated, hash, call, tx, now).Ok?
    requires CanComplete(Perform(db, gated, hash, call, tx, now).value, gated, e, required)
    ensures CanComplete(db, gated, e, required)
  {
    hide CanComplete, SettleList, SettleRows, CreateGuard, CloseGuard, ClaimGuard, ProofGuard, InsertRows;
    match call
    case Create(req) => CreateStepsBack(db, gated, req, tx, now, e, required);
    case SubmitProof(p, actor) => ProofStepsBack(db, gated, hash, p, actor, tx, now, e, required);
    case Close(x) => CloseStepsBack(db, gated, x, tx, now, e, required);
    case Settle(x, sites) =>
      SettleCommitSettles(db, gated, x, sites, tx, now);
      SettleStepsBack(db, Perform(db, gated, hash, call, tx, now).value, gated, x, SettleList(db, x, sites), tx, now,
                      e, required);
    case Claim(x, site, actor) => ClaimStepsBack(db, gated, x, site, actor, tx, now, e, required);
    case RequestAudit(x, site) => AuditStepsBack(db, gated, x, site, now, e, required);
    case Pass(_, answers, done) => PassStepsBack(db, gated, answers, done, e, required);
  }

  lemma AuditStepsBack(db: Db, gated: bool, x: string, site: string, now: string, e: string, required: seq<string>)
    requires e in db.events && Audit(db, x, site, now).Ok?
             && CanComplete(Audit(db, x, site, now).value, gated, e, required)
    ensures CanComplete(db, gated, e, required)
  {
    hide Opens, Confirmable;
  }

  lemma TakeStepsBack(db: Db, gated: bool, hash: Hasher, t: Turn, e: string, required: seq<string>)
    requires e in db.events && WellFormed(db, t.call) && CanComplete(Take(db, gated, hash, t), gated, e, required)
    ensures CanComplete(db, gated, e, required)
  {
    hide CanComplete, Perform, WellFormed;
    var tx := if t.reply.Some? then t.reply.value else Tx("", None, Submitted, "", None, None);
    if Perform(db, gated, hash, t.call, tx, t.now).Ok? && Take(db, gated, hash, t) != db {
      PerformStepsBack(db, gated, hash, t.call, tx, t.now, e, required);
    }
  }

  /** An event that can no longer be completed is not completed by any run. */
  lemma {:induction false} OnlyThenCompleted(db: Db, gated: bool, hash: Hasher, turns: seq<Turn>, e: string,
                                             required: seq<string>)
    requires DbInv(db, hash) && Legal(db, gated, hash, turns) && Complete(Run(db, gated, hash, turns), e, required)
    ensures CanComplete(db, gated, e, required)
    decreases |turns|
  {
    if e !in db.events {
    } else if turns == [] {
      CompleteCan(db, gated, hash, e, required);
    } else {
      hide CanComplete, Complete, DbInv, Take, WellFormed;
      TakeKeepsDbInv(db, gated, hash, turns[0]);
      OnlyThenCompleted(Take(db, gated, hash, turns[0]), gated, hash, turns[1..], e, required);
      TakeStepsBack(db, gated, hash, turns[0], e, required);
    }
  }

  // ---- The calls that complete an event ----

  /** The chain confirms everything that is looked up. */
  function AllConfirmed(db: Db, e: string, now: string): Snapshot {
    map x | x in SlotsOf(db, e) && TxAt(db, x).Some? ::
        TxAt(db, x).value.hash := CheckResult(Confirmed, Some("0"), Some(now), None)
  }

  function Seen(db: Db, e: string, now: string): Db {
    Reconciled(db, AllConfirmed(db, e, now), SlotsOf(db, e))
  }

  function PassTurn(db: Db, e: string, now: string): Turn {
    Turn(Pass(e, AllConfirmed(db, e, now), SlotsOf(db, e)), None, now)
  }

  function CallTurn(call: ServiceCall, h: string, now: string): Turn {
    Turn(call, Some(Tx(h, None, Submitted, now, None, None)), now)
  }

  lemma SlotConfirmed(db: Db, e: string, now: string, x: Slot)
    requires x.event == e && TxAt(db, x).Some? && Confirmable(TxAt(db, x).value)
    ensures TxAt(Seen(db, e, now), x).Some? && TxAt(Seen(db, e, now), x).value.state == Confirmed
  {
    SlotsOfFilled(db, e, x);
    hide SlotsOf, Reconciled;
    ReconciledAt(db, AllConfirmed(db, e, now), SlotsOf(db, e), x);
  }

  lemma PassIsFull(db: Db, e: string, now: string)
    ensures Visits(db, e, AllConfirmed(db, e, now), SlotsOf(db, e))
  {
    var answers := AllConfirmed(db, e, now);
    hide SlotsOf, TxAt, NeedsReconcile;
    assert Answered(db, answers, SlotsOf(db, e));
    assert PassOf(db, e, PassRecord(answers, SlotsOf(db, e), None));
  }

  /** Such a pass is one the service makes; it keeps every business column and confirms what can be confirmed. */
  lemma PassTaken(db: Db, gated: bool, hash: Hasher, e: string, now: string) returns (t: Turn)
    requires DbInv(db, hash)
    ensures t == PassTurn(db, e, now) && WellFormed(db, t.call) && Visits(db, e, t.call.answers, t.call.done)
    ensures Take(db, gated, hash, t) == Seen(db, e, now) && DbInv(Seen(db, e, now), hash)
    ensures SameBusiness(db, Seen(db, e, now))
  {
    hide DbInv, Reconciled, SlotsOf, SameBusiness, AllConfirmed, Visits;
    t := PassTurn(db, e, now);
    PassIsFull(db, e, now);
    PassKeepsDbInv(db, hash, t.call.answers, t.call.done);
    ReconcileKeepsBusiness(db, t.call.answers, t.call.done);
  }

  /** A turn before the rest. */
  lemma Then(db: Db, next: Db, gated: bool, hash: Hasher, t: Turn, rest: seq<Turn>, e: string, required: seq<string>)
    returns (turns: seq<Turn>)
    requires WellFormed(db, t.call) && (t.call.Pass? ==> Visits(db, t.call.event, t.call.answers, t.call.done))
    requires next == Take(db, gated, hash, t) && Completes(next, gated, hash, rest, e, required)
    ensures turns == [t] + rest && Completes(db, gated, hash, turns, e, required)
  {
    turns := [t] + rest;
    hide Take, WellFormed, Visits, Complete;
    assert turns[0] == t && turns[1..] == rest;
  }

  /** The audit of a claimed and proved event. */
  lemma FinishAudit(db: Db, gated: bool, hash: Hasher, h: string, now: string, e: string, required: seq<string>)
    returns (turns: seq<Turn>)
    requires e in db.events && db.events[e].status == Settled && AllProved(db, e, Needed(required))
    requires (e, AUDITED_SITE) in db.settlements && db.settlements[(e, AUDITED_SITE)].status == Claimed
    ensures Completes(db, gated, hash, turns, e, required)
  {
    var t := CallTurn(RequestAudit(e, AUDITED_SITE), h, now);
    assert AUDITED_SITE in Needed(required);
    var next := Take(db, gated, hash, t);
    assert next == db.(audits := db.audits[(e, AUDITED_SITE) := now]);
    assert Complete(next, e, required);
    hide Take, Complete;
    turns := Then(db, next, gated, hash, t, [], e, required);
  }

  lemma ClaimTaken(db: Db, gated: bool, hash: Hasher, h: string, now: string, e: string, actor: string)
    returns (t: Turn)
    requires (e, AUDITED_SITE) in db.settlements && db.settlements[(e, AUDITED_SITE)].status == Unclaimed
    requires gated ==> db.settlements[(e, AUDITED_SITE)].tx.state == Confirmed
    requires (e, AUDITED_SITE) in db.proofs && db.proofs[(e, AUDITED_SITE)].submitter == actor
    ensures t == CallTurn(Claim(e, AUDITED_SITE, actor), h, now)
    ensures Take(db, gated, hash, t) == ClaimCommit(db, e, AUDITED_SITE, t.reply.value, now)
  {
    t := CallTurn(Claim(e, AUDITED_SITE, actor), h, now);
  }

  /** The claim of site-a by its proof's submitter, then the audit. */
  lemma FinishClaim(db: Db, gated: bool, hash: Hasher, h: string, now: string, e: string, required: seq<string>)
    returns (turns: seq<Turn>)
    requires e in db.events && db.events[e].status == Settled && AllProved(db, e, Needed(required))
    requires (e, AUDITED_SITE) in db.settlements
    requires db.settlements[(e, AUDITED_SITE)].status == Claimed || !gated
             || db.settlements[(e, AUDITED_SITE)].tx.state == Confirmed
    ensures Completes(db, gated, hash, turns, e, required)
  {
    if db.settlements[(e, AUDITED_SITE)].status == Claimed {
      turns := FinishAudit(db, gated, hash, h, now, e, required);
    } else {
      assert AUDITED_SITE in Needed(required);
      var t := ClaimTaken(db, gated, hash, h, now, e, db.proofs[(e, AUDITED_SITE)].submitter);
      var next := ClaimCommit(db, e, AUDITED_SITE, t.reply.value, now);
      hide Take, Completes;
      var rest := FinishAudit(next, gated, hash, h, now, e, required);
      turns := Then(db, next, gated, hash, t, rest, e, required);
    }
  }

  lemma SeenProved(db: Db, next: Db, e: string, needed: seq<string>)
    requires SameBusiness(db, next) && e in db.events
    ensures e in next.events && next.events[e].status == db.events[e].status
    ensures AllProved(next, e, needed) <==> AllProved(db, e, needed)
    ensures forall s :: (e, s) in db.proofs <==> (e, s) in next.proofs
    ensures forall s :: (e, s) in db.settlements <==> (e, s) in next.settlements
    ensures forall s :: (e, s) in db.settlements ==> next.settlements[(e, s)].status == db.settlements[(e, s)].status
  {
    assert db.events[e].(tx := next.events[e].tx, closeTx := next.events[e].closeTx) == next.events[e];
    forall s | (e, s) in db.settlements ensures next.settlements[(e, s)].status == db.settlements[(e, s)].status {
      var k := (e, s);
      assert db.settlements[k].(tx := next.settlements[k].tx, claimTx := next.settlements[k].claimTx)
          == next.settlements[k];
    }
  }

  /** From a settled event: when needed a pass, then the claim. */
  lemma FinishSettled(db: Db, gated: bool, hash: Hasher, h: string, now: string, e: string, required: seq<string>)
    returns (turns: seq<Turn>)
    requires DbInv(db, hash)
    requires e in db.events && db.events[e].status == Settled && AllProved(db, e, Needed(required))
             && ClaimCanCome(db, gated, e)
    ensures Completes(db, gated, hash, turns, e, required)
  {
    var k := (e, AUDITED_SITE);
    hide DbInv, Completes, Take, Visits, SameBusiness, NeedsReconcile, AllProved;
    if db.settlements[k].status == Claimed || !gated {
      turns := FinishClaim(db, gated, hash, h, now, e, required);
    } else {
      var t := PassTaken(db, gated, hash, e, now);
      SeenProved(db, Seen(db, e, now), e, Needed(required));
      SlotConfirmed(db, e, now, SettleTx(e, AUDITED_SITE));
      hide Seen;
      var rest := FinishClaim(Seen(db, e, now), gated, hash, h, now, e, required);
      turns := Then(db, Seen(db, e, now), gated, hash, t, rest, e, required);
    }
  }

  lemma SettleTaken(db: Db, gated: bool, hash: Hasher, h: string, now: string, e: string, needed: seq<string>)
    returns (t: Turn, next: Db)
    requires DbInv(db, hash) && e in db.events && db.events[e].status == Closed && AllProved(db, e, needed)
    requires AUDITED_SITE in needed && (gated ==> CloseConfirmed(db, e) == None) && h != ""
    ensures t == CallTurn(Settle(e, []), h, now) && next == Take(db, gated, hash, t) && DbInv(next, hash)
    ensures e in next.events && next.events[e].status == Settled && AllProved(next, e, needed)
            && ClaimCanCome(next, gated, e)
  {
    t := CallTurn(Settle(e, []), h, now);
    EverySiteListed(db, e);
    assert AUDITED_SITE in SettleList(db, e, []);
    hide DbInv, SettleList, SettleGuard, SettleCommit, Settles;
    TakeKeepsDbInv(db, gated, hash, t);
    AllListedOk(db, gated, hash, e);
    SettleCommitSettles(db, gated, e, [], t.reply.value, now);
    next := Take(db, gated, hash, t);
    assert next == SettleCommit(db, e, SettleGuard(db, gated, e, []).value, t.reply.value, now);
    hide Take;
    AfterSettling(db, next, gated, e, SettleList(db, e, []), h, now, needed);
  }

  lemma AllListedOk(db: Db, gated: bool, hash: Hasher, e: string)
    requires DbInv(db, hash) && e in db.events && db.events[e].status == Closed && SettleList(db, e, []) != []
    requires gated ==> CloseConfirmed(db, e) == None
    ensures SettleGuard(db, gated, e, []).Ok?
  {
    ProvedSettleable(db, hash, e);
    hide DbInv, SettleList, SettleRows, AllSettleable;
    SettleRowsOkIff(db, e, SettleList(db, e, []), db.events[e].targetKw / |SettleList(db, e, [])|);
  }

  lemma AfterSettling(db: Db, next: Db, gated: bool, e: string, list: seq<string>, h: string, now: string,
                      needed: seq<string>)
    requires Settles(db, next, e, list, Tx(h, None, Submitted, now, None, None), now)
    requires AUDITED_SITE in list && h != "" && AllProved(db, e, needed)
    ensures e in next.events && next.events[e].status == Settled && AllProved(next, e, needed)
            && ClaimCanCome(next, gated, e)
  {
    hide Payout.CalculatePayout;
  }

  lemma EverySiteListed(db: Db, e: string)
    ensures forall s :: s in SettleList(db, e, []) <==> (e, s) in db.proofs
  {
    SettleListMembers(db, e, []);
    forall s ensures s in ProofSites(db, e) <==> (e, s) in db.proofs {
      if (e, s) in db.proofs {
        assert (e, s).0 == e && (e, s).1 == s;
      }
    }
  }

  lemma ProvedSettleable(db: Db, hash: Hasher, e: string)
    requires DbInv(db, hash) && e in db.events && db.events[e].status == Closed
    ensures AllSettleable(db, e, SettleList(db, e, []))
  {
    EverySiteListed(db, e);
    assert RowsOf(db, e) == {};
    forall s ensures (e, s) !in db.settlements {
      assert (e, s) !in RowsOf(db, e);
    }
  }

  /** From a closed event: when needed a pass, then the settlement of every proved site. */
  lemma FinishClosed(db: Db, gated: bool, hash: Hasher, h: string, now: string, e: string, required: seq<string>)
    returns (turns: seq<Turn>)
    requires DbInv(db, hash) && h != ""
    requires e in db.events && db.events[e].status == Closed && AllProved(db, e, Needed(required))
             && SettlementCanCome(db, gated, e)
    ensures Completes(db, gated, hash, turns, e, required)
  {
    hide DbInv, Completes, Take, Visits, SameBusiness, NeedsReconcile, AllProved, ClaimCanCome;
    assert AUDITED_SITE in Needed(required);
    if !gated || db.events[e].closeTx.value.state == Confirmed {
      var t, next := SettleTaken(db, gated, hash, h, now, e, Needed(required));
      var rest := FinishSettled(next, gated, hash, h, now, e, required);
      turns := Then(db, next, gated, hash, t, rest, e, required);
    } else {
      var p := PassTaken(db, gated, hash, e, now);
      var seen := Seen(db, e, now);
      SeenProved(db, seen, e, Needed(required));
      SlotConfirmed(db, e, now, CloseTx(e));
      hide Seen;
      var t, next := SettleTaken(seen, gated, hash, h, now, e, Needed(required));
      var rest := FinishSettled(next, gated, hash, h, now, e, required);
      var later := Then(seen, next, gated, hash, t, rest, e, required);
      turns := Then(db, seen, gated, hash, p, later, e, required);
    }
  }

  lemma CloseTaken(db: Db, gated: bool, hash: Hasher, h: string, now: string, e: string, needed: seq<string>)
    returns (t: Turn, next: Db)
    requires DbInv(db, hash) && e in db.events && db.events[e].status == Active && AllProved(db, e, needed) && h != ""
    ensures t == CallTurn(Close(e), h, now) && next == Take(db, gated, hash, t) && DbInv(next, hash)
    ensures e in next.events && next.events[e].status == Closed && AllProved(next, e, needed)
            && SettlementCanCome(next, gated, e)
  {
    t := CallTurn(Close(e), h, now);
    TakeKeepsDbInv(db, gated, hash, t);
    hide DbInv;
    next := Take(db, gated, hash, t);
  }

  /** From an active event with its proofs: close. */
  lemma FinishActive(db: Db, gated: bool, hash: Hasher, h: string, now: string, e: string, required: seq<string>)
    returns (turns: seq<Turn>)
    requires DbInv(db, hash) && h != ""
    requires e in db.events && db.events[e].status == Active && AllProved(db, e, Needed(required))
    ensures Completes(db, gated, hash, turns, e, required)
  {
    hide DbInv, Completes, Take, AllProved, SettlementCanCome;
    var t, next := CloseTaken(db, gated, hash, h, now, e, Needed(required));
    var rest := FinishClosed(next, gated, hash, h, now, e, required);
    turns := Then(db, next, gated, hash, t, rest, e, required);
  }

  function NoReading(e: string, site: string): ProofRequest {
    ProofRequest(e, site, 0, 0, "", "", None, "")
  }

  lemma ProofTaken(db: Db, gated: bool, hash: Hasher, h: string, now: string, e: string, site: string)
    returns (t: Turn, next: Db)
    requires DbInv(db, hash) && e in db.events && db.events[e].status == Active && (e, site) !in db.proofs
    requires gated ==> CreateConfirmed(db, e) == None
    ensures t == CallTurn(SubmitProof(NoReading(e, site), ""), h, now) && next == Take(db, gated, hash, t)
            && DbInv(next, hash)
    ensures next.events == db.events && forall k :: k in next.proofs <==> k in db.proofs || k == (e, site)
  {
    t := CallTurn(SubmitProof(NoReading(e, site), ""), h, now);
    TakeKeepsDbInv(db, gated, hash, t);
    hide DbInv;
    next := Take(db, gated, hash, t);
  }

  /** From an active event whose create transaction lets proofs in: the missing proofs, one by one. */
  lemma {:induction false} FinishProofs(db: Db, gated: bool, hash: Hasher, h: string, now: string, e: string,
                                        required: seq<string>, n: nat)
    returns (turns: seq<Turn>)
    requires DbInv(db, hash) && h != "" && n <= |Needed(required)|
    requires e in db.events && db.events[e].status == Active && AllProved(db, e, Needed(required)[..n])
    requires gated ==> CreateConfirmed(db, e) == None
    ensures Completes(db, gated, hash, turns, e, required)
    decreases |Needed(required)| - n
  {
    var needed := Needed(required);
    if n == |needed| {
      assert needed[..n] == needed;
      turns := FinishActive(db, gated, hash, h, now, e, required);
    } else {
      hide DbInv, Completes, Take;
      assert needed[..n + 1] == needed[..n] + [needed[n]];
      if (e, needed[n]) in db.proofs {
        turns := FinishProofs(db, gated, hash, h, now, e, required, n + 1);
      } else {
        var t, next := ProofTaken(db, gated, hash, h, now, e, needed[n]);
        var rest := FinishProofs(next, gated, hash, h, now, e, required, n + 1);
        turns := Then(db, next, gated, hash, t, rest, e, required);
      }
    }
  }

  lemma OpensConfirmed(tx: Tx)
    requires Opens(tx) && !NeedsReconcile(tx)
    ensures tx.state == Confirmed || (tx.state == Submitted && tx.hash == "")
  {
  }

  /** From an active event: when needed a pass, then the proofs. */
  lemma FinishOpen(db: Db, gated: bool, hash: Hasher, h: string, now: string, e: string, required: seq<string>)
    returns (turns: seq<Turn>)
    requires DbInv(db, hash) && h != ""
    requires e in db.events && db.events[e].status == Active && (gated ==> Opens(db.events[e].tx))
    ensures Completes(db, gated, hash, turns, e, required)
  {
    hide DbInv, Completes, Take, Visits, SameBusiness, Needed, Opens, NeedsReconcile;
    if gated && NeedsReconcile(db.events[e].tx) {
      var t := PassTaken(db, gated, hash, e, now);
      var seen := Seen(db, e, now);
      SeenProved(db, seen, e, []);
      SlotConfirmed(db, e, now, CreateTx(e));
      hide Seen;
      var rest := FinishProofs(seen, gated, hash, h, now, e, required, 0);
      turns := Then(db, seen, gated, hash, t, rest, e, required);
    } else {
      if gated { OpensConfirmed(db.events[e].tx); }
      turns := FinishProofs(db, gated, hash, h, now, e, required, 0);
    }
  }

  lemma CreateTaken(db: Db, gated: bool, hash: Hasher, h: string, now: string, req: CreateRequest)
    returns (t: Turn, next: Db)
    requires DbInv(db, hash) && req.eventId !in db.events && h != "" && ValidRequest(req)
    requires TimeOrder.LexLess(TimeOrder.ToRfc3339(req.start), TimeOrder.ToRfc3339(req.end))
    ensures t == CallTurn(Create(req), h, now) && WellFormed(db, t.call) && next == Take(db, gated, hash, t)
            && DbInv(next, hash)
    ensures req.eventId in next.events && next.events[req.eventId].status == Active
            && Opens(next.events[req.eventId].tx)
  {
    t := CallTurn(Create(req), h, now);
    TakeKeepsDbInv(db, gated, hash, t);
    hide DbInv, TimeOrder.LexLess, TimeOrder.ToRfc3339;
    next := Take(db, gated, hash, t);
  }

  /** The calls that complete any event that can be completed; req creates it when it does not exist. */
  lemma WhenCompletable(db: Db, gated: bool, hash: Hasher, h: string, now: string, req: CreateRequest,
                        required: seq<string>)
    returns (turns: seq<Turn>)
    requires DbInv(db, hash) && h != "" && CanComplete(db, gated, req.eventId, required)
    requires ValidRequest(req) && TimeOrder.LexLess(TimeOrder.ToRfc3339(req.start), TimeOrder.ToRfc3339(req.end))
    ensures Completes(db, gated, hash, turns, req.eventId, required)
  {
    hide DbInv, Completes, Take, Visits, AllProved, Opens, SettlementCanCome, ClaimCanCome, WellFormed,
         TimeOrder.LexLess, TimeOrder.ToRfc3339, ValidRequest;
    var e := req.eventId;
    if e !in db.events {
      var t, next := CreateTaken(db, gated, hash, h, now, req);
      var rest := FinishOpen(next, gated, hash, h, now, e, required);
      turns := Then(db, next, gated, hash, t, rest, e, required);
    } else if AllProved(db, e, Needed(required)) {
      match db.events[e].status
      case Active => turns := FinishActive(db, gated, hash, h, now, e, required);
      case Closed => turns := FinishClosed(db, gated, hash, h, now, e, required);
      case Settled => turns := FinishSettled(db, gated, hash, h, now, e, required);
    } else {
      turns := FinishOpen(db, gated, hash, h, now, e, required);
    }
  }

  ghost predicate SomeRunCompletes(db: Db, gated: bool, hash: Hasher, e: string, required: seq<string>) {
    exists turns: seq<Turn> :: Legal(db, gated, hash, turns) && Complete(Run(db, gated, hash, turns), e, required)
  }

  lemma RunWitness(db: Db, gated: bool, hash: Hasher, turns: seq<Turn>, e: string, required: seq<string>)
    requires Legal(db, gated, hash, turns) && Complete(Run(db, gated, hash, turns), e, required)
    ensures SomeRunCompletes(db, gated, hash, e, required)
  {
  }

  const FIRST_INSTANT := TimeOrder.Instant(1970, 1, 1, 0, 0, 0, 0)
  const NEXT_INSTANT := TimeOrder.Instant(1970, 1, 1, 0, 0, 1, 0)

  /** From any tables a run can keep, the event can be completed exactly when the tables say so. */
  lemma CompletableIff(db: Db, gated: bool, hash: Hasher, e: string, required: seq<string>)
    requires DbInv(db, hash)
    ensures SomeRunCompletes(db, gated, hash, e, required) <==> CanComplete(db, gated, e, required)
  {
    hide DbInv, Legal, Run, Complete, CanComplete, Completes;
    if CanComplete(db, gated, e, required) {
      var req := CreateRequest(e, FIRST_INSTANT, NEXT_INSTANT, 0, 0, 0);
      ASecondApart();
      var turns := WhenCompletable(db, gated, hash, "0x1", "", req, required);
      CompletesIsRun(db, gated, hash, turns, e, required);
      RunWitness(db, gated, hash, turns, e, required);
    }
    if SomeRunCompletes(db, gated, hash, e, required) {
      var turns: seq<Turn> :| Legal(db, gated, hash, turns) && Complete(Run(db, gated, hash, turns), e, required);
      OnlyThenCompleted(db, gated, hash, turns, e, required);
    }
  }

  lemma ASecondApart()
    ensures TimeOrder.ValidInstant(FIRST_INSTANT) && TimeOrder.ValidInstant(NEXT_INSTANT)
    ensures TimeOrder.LexLess(TimeOrder.ToRfc3339(FIRST_INSTANT), TimeOrder.ToRfc3339(NEXT_INSTANT))
  {
    var first, next := FIRST_INSTANT, NEXT_INSTANT;
    assert TimeOrder.ValidInstant(first) && TimeOrder.ValidInstant(next);
    OneSecondLater(first, next);
  }

  lemma OneSecondLater(a: TimeOrder.Instant, b: TimeOrder.Instant)
    requires TimeOrder.ValidInstant(a) && TimeOrder.ValidInstant(b)
    requires b == a.(second := b.second) && a.second < b.second
    ensures TimeOrder.LexLess(TimeOrder.ToRfc3339(a), TimeOrder.ToRfc3339(b))
  {
    hide TimeOrder.DayNumber, TimeOrder.LexLess, TimeOrder.ToRfc3339, TimeOrder.ValidInstant;
    TimeOrder.WindowTestsAgree(a, b);
  }

  /** When nothing is waited for: active, or closed with every proof and, once settled, with a row for site-a. */
  lemma UngatedCanComplete(db: Db, e: string, required: seq<string>)
    requires e in db.events
    ensures CanComplete(db, false, e, required) <==>
      || db.events[e].status == Active
      || (AllProved(db, e, required + [AUDITED_SITE])
          && (db.events[e].status == Settled ==> (e, AUDITED_SITE) in db.settlements))
  {
  }
}
