/**
 One event with any number of sites, from creation to paid rewards: what each call of its lifecycle writes in the
 tables and does on the chain. The two sides are described apart, each for its own readings.
 */
module Lifecycle {
  import opened Common
  import opened Database
  import opened Reconcile
  import opened Submitter
  import opened DbRuns
  import S = SyncSimulation
  import H = HybridGating
  import J = JudgeSummary
  import C = Contracts
  import R = ChainRuns
  import T = Tokens
  import Payout
  import TimeOrder

  datatype Reading = Reading(proof: ProofRequest, actor: string)

  /** The sites prove in the order of sites; ask is the settlement request; claims are made in the order of claims. */
  datatype Case = Case(req: CreateRequest, sites: seq<string>, readings: map<string, Reading>, ask: seq<string>,
                       claims: seq<string>, audit: string, now: string, time: nat)
  {
    function Event(): string { req.eventId }

    /** The sites that are settled: the request's, or all, without repeats. */
    function Listed(): seq<string> {
      Dedup(if ask == [] then SortedSites(set s | s in sites) else ask)
    }

    function Kwh(s: string): nat
    {
      if s in readings then Reduction(readings[s].proof.baselineKwh, readings[s].proof.actualKwh) else 0
    }

    function Share(): nat {
      if Listed() == [] then 0 else req.targetKw / |Listed()|
    }

    function Pay(s: string): int {
      Payout.CalculatePayout(Kwh(s), Share(), req.rewardRate, req.penaltyRate)
    }

    function Last(): nat {
      |sites| + |claims| + 4
    }
  }

  ghost predicate ReadingFits(x: Case, hash: Hasher, s: string) {
    && s in x.readings
    && var p := x.readings[s].proof;
       && p.eventId == x.Event() && p.siteId == s
       && HashAccepted(p.proofHash, hash(BuildPayload(p, x.now)))
       && IsUint256(p.baselineKwh) && IsUint256(p.actualKwh)
  }

  /** A non-empty list of sites, each with an acceptable reading; a request, claims and an audit among them. */
  ghost predicate Fits(x: Case, hash: Hasher) {
    && ValidRequest(x.req)
    && x.sites != [] && NoDup(x.sites) && (forall s :: s in x.sites ==> ReadingFits(x, hash, s))
    && (forall s :: s in x.ask ==> s in x.sites)
    && NoDup(x.claims) && (forall s :: s in x.claims ==> s in x.Listed())
    && x.audit in x.sites
    && Payout.BoundedRates(x.req.targetKw, x.req.rewardRate, x.req.penaltyRate)
  }

  /** The k-th call: create, prove each site, close, settle, claim each site, audit. */
  function CallAt(x: Case, k: nat): ServiceCall
    requires k < x.Last() && forall s :: s in x.sites ==> s in x.readings
  {
    var n := |x.sites|;
    if k == 0 then Create(x.req)
    else if k <= n then SubmitProof(x.readings[x.sites[k - 1]].proof, x.readings[x.sites[k - 1]].actor)
    else if k == n + 1 then Close(x.Event())
    else if k == n + 2 then Settle(x.Event(), x.ask)
    else if k < n + 3 + |x.claims| then
      var s := x.claims[k - n - 3];
      Claim(x.Event(), s, if s in x.readings then x.readings[s].actor else "")
    else RequestAudit(x.Event(), x.audit)
  }

  lemma ListedMembers(x: Case)
    requires x.sites != [] && forall s :: s in x.ask ==> s in x.sites
    ensures x.Listed() != [] && NoDup(x.Listed())
    ensures forall s :: s in x.Listed() ==> s in x.sites
    ensures x.ask == [] ==> forall s :: s in x.sites ==> s in x.Listed()
  {
    var all := set s | s in x.sites;
    DedupSameIds(if x.ask == [] then SortedSites(all) else x.ask);
    SortedSitesAll(all);
    if x.ask == [] {
      assert x.sites[0] in all;
      assert x.sites[0] in x.Listed();
    } else {
      assert x.ask[0] in x.Listed();
    }
  }

  // ---- The tables after k calls ----

  function StatusAfter(x: Case, k: nat): EventStatus {
    if k <= |x.sites| + 1 then EventStatus.Active
    else if k == |x.sites| + 2 then EventStatus.Closed
    else EventStatus.Settled
  }

  function Least2(a: nat, b: nat): nat {
    if a <= b then a else b
  }

  /** The sites proved, and the sites claimed, before the k-th call. */
  function Proved(x: Case, k: nat): seq<string> {
    if k == 0 then [] else x.sites[..Least2(k - 1, |x.sites|)]
  }

  function Paid(x: Case, k: nat): seq<string> {
    if k <= |x.sites| + 3 then [] else x.claims[..Least2(k - |x.sites| - 3, |x.claims|)]
  }

  ghost predicate EventAt(db: Db, x: Case, status: EventStatus) {
    && x.Event() in db.events
    && db.events[x.Event()].targetKw == x.req.targetKw
    && db.events[x.Event()].rewardRate == x.req.rewardRate
    && db.events[x.Event()].penaltyRate == x.req.penaltyRate
    && db.events[x.Event()].status == status
  }

  ghost predicate ProofsAt(db: Db, x: Case, proved: seq<string>) {
    && (forall s :: (x.Event(), s) in db.proofs <==> s in proved)
    && (forall s :: s in proved ==>
         && s in x.readings && (x.Event(), s) in db.proofs
         && db.proofs[(x.Event(), s)].submitter == x.readings[s].actor
         && db.proofs[(x.Event(), s)].reductionKwh == x.Kwh(s))
  }

  ghost predicate RowsAt(db: Db, x: Case, listed: seq<string>, paid: seq<string>) {
    && (forall s :: (x.Event(), s) in db.settlements <==> s in listed)
    && (forall s :: s in listed ==>
         && (x.Event(), s) in db.settlements
         && db.settlements[(x.Event(), s)].payout == x.Pay(s)
         && (db.settlements[(x.Event(), s)].status == ClaimStatus.Claimed <==> s in paid))
  }

  ghost predicate StageDb(db: Db, x: Case, k: nat) {
    if k == 0 then x.Event() !in db.events
    else
      && EventAt(db, x, StatusAfter(x, k)) && ProofsAt(db, x, Proved(x, k))
      && (k >= |x.sites| + 3 ==> RowsAt(db, x, x.Listed(), Paid(x, k)))
      && (k >= x.Last() ==> (x.Event(), x.audit) in db.audits)
  }

  /** What hybrid mode waits for: the event's create, close and settle transactions are confirmed. */
  ghost predicate Clear(db: Db, e: string) {
    forall y: Slot :: y.event == e && !y.ProofTx? && !y.ClaimTx? && TxAt(db, y).Some? ==>
        TxAt(db, y).value.state == Confirmed
  }

  lemma ClearCreate(db: Db, e: string)
    requires Clear(db, e) && e in db.events
    ensures db.events[e].tx.state == Confirmed
    ensures db.events[e].closeTx.Some? ==> db.events[e].closeTx.value.state == Confirmed
  {
    assert TxAt(db, CreateTx(e)) == Some(db.events[e].tx);
    assert TxAt(db, CloseTx(e)) == db.events[e].closeTx;
  }

  lemma ClearRow(db: Db, e: string, s: string)
    requires Clear(db, e) && (e, s) in db.settlements
    ensures db.settlements[(e, s)].tx.state == Confirmed
  {
    assert TxAt(db, SettleTx(e, s)) == Some(db.settlements[(e, s)].tx);
  }

  lemma NewEventNoRows(db: Db, hash: Hasher, e: string)
    requires DbInv(db, hash) && e !in db.events
    ensures forall s :: (e, s) !in db.proofs && (e, s) !in db.settlements
  {
    forall s ensures (e, s) !in db.proofs && (e, s) !in db.settlements {
      assert (e, s) in db.proofs ==> (e, s).0 in db.events;
      assert (e, s) in db.settlements ==> (e, s).0 in db.events;
    }
  }

  lemma OpenHasNoRows(db: Db, hash: Hasher, e: string)
    requires DbInv(db, hash) && e in db.events && db.events[e].status != EventStatus.Settled
    ensures RowsOf(db, e) == {} && forall s :: (e, s) !in db.settlements
  {
    assert RowsOf(db, e) == {};
    forall s ensures (e, s) !in db.settlements {
      assert (e, s) !in RowsOf(db, e);
    }
  }

  lemma ProvedMore(x: Case, k: nat)
    requires 1 <= k <= |x.sites|
    ensures Proved(x, k + 1) == Proved(x, k) + [x.sites[k - 1]]
    ensures NoDup(x.sites) ==> x.sites[k - 1] !in Proved(x, k)
  {
    assert x.sites[..k] == x.sites[..k - 1] + [x.sites[k - 1]];
  }

  lemma AllProved(x: Case, k: nat)
    requires k > |x.sites|
    ensures Proved(x, k) == x.sites
  {
  }

  lemma PaidMore(x: Case, k: nat)
    requires |x.sites| + 3 <= k < |x.sites| + 3 + |x.claims|
    ensures Paid(x, k + 1) == Paid(x, k) + [x.claims[k - |x.sites| - 3]]
    ensures NoDup(x.claims) ==> x.claims[k - |x.sites| - 3] !in Paid(x, k)
  {
    var j := k - |x.sites| - 3;
    assert x.claims[..j + 1] == x.claims[..j] + [x.claims[j]];
  }

  // ---- What each call writes ----

  lemma CreateWrites(db: Db, gated: bool, hash: Hasher, x: Case, tx: Tx)
    requires DbInv(db, hash) && Fits(x, hash) && CreateGuard(db, x.req) == None
    ensures Perform(db, gated, hash, CallAt(x, 0), tx, x.now) == Ok(CreateCommit(db, x.req, tx, x.now))
    ensures StageDb(CreateCommit(db, x.req, tx, x.now), x, 1)
  {
    NewEventNoRows(db, hash, x.Event());
    hide DbInv;
    assert Proved(x, 1) == [];
  }

  lemma ProofWrites(db: Db, gated: bool, hash: Hasher, x: Case, k: nat, tx: Tx)
    requires Fits(x, hash) && 1 <= k <= |x.sites| && StageDb(db, x, k) && (gated ==> Clear(db, x.Event()))
    ensures x.sites[k - 1] in x.readings
    ensures var p := x.readings[x.sites[k - 1]];
            && ProofGuard(db, gated, hash, p.proof, x.now) == None
            && ProofCommit(db, hash, p.proof, p.actor, tx, x.now).Ok?
            && StageDb(ProofCommit(db, hash, p.proof, p.actor, tx, x.now).value, x, k + 1)
  {
    var s := x.sites[k - 1];
    assert ReadingFits(x, hash, s);
    ProvedMore(x, k);
    if gated { ClearCreate(db, x.Event()); }
    hide HashAccepted, Payout.BoundedRates, Clear;
  }

  lemma CloseWrites(db: Db, hash: Hasher, x: Case, tx: Tx)
    requires StageDb(db, x, |x.sites| + 1)
    ensures CloseGuard(db, x.Event()) == None
    ensures StageDb(CloseCommit(db, x.Event(), tx, x.now), x, |x.sites| + 2)
  {
    AllProved(x, |x.sites| + 1);
    AllProved(x, |x.sites| + 2);
  }

  lemma ListIsListed(db: Db, x: Case)
    requires ProofsAt(db, x, x.sites)
    ensures SettleList(db, x.Event(), x.ask) == x.Listed()
  {
    forall s ensures s in ProofSites(db, x.Event()) <==> s in x.sites {
      if s in x.sites {
        assert (x.Event(), s).0 == x.Event() && (x.Event(), s).1 == s;
      }
    }
    assert ProofSites(db, x.Event()) == set s | s in x.sites;
  }

  lemma ClosedIsClear(db: Db, hash: Hasher, e: string)
    requires DbInv(db, hash) && Clear(db, e) && e in db.events && db.events[e].status != EventStatus.Active
    ensures CloseConfirmed(db, e) == None
  {
    assert db.events[e].closeTx.Some?;
    ClearCreate(db, e);
  }

  lemma ListedSettleable(db: Db, hash: Hasher, x: Case)
    requires DbInv(db, hash) && Fits(x, hash) && StageDb(db, x, |x.sites| + 2)
    ensures x.Event() in db.events && SettleOpen(db, x.Event()) == None
    ensures SettleList(db, x.Event(), x.ask) == x.Listed() && x.Listed() != []
            && AllSettleable(db, x.Event(), x.Listed())
  {
    AllProved(x, |x.sites| + 2);
    ListIsListed(db, x);
    ListedMembers(x);
    OpenHasNoRows(db, hash, x.Event());
    hide SettleList, DbInv, Dedup, SortedSites, Payout.BoundedRates, ReadingFits;
  }

  lemma SettleOpens(db: Db, gated: bool, hash: Hasher, x: Case)
    requires DbInv(db, hash) && Fits(x, hash) && StageDb(db, x, |x.sites| + 2) && (gated ==> Clear(db, x.Event()))
    ensures SettleGuard(db, gated, x.Event(), x.ask).Ok? && SettleList(db, x.Event(), x.ask) == x.Listed()
  {
    hide SettleGuard, SettleList, SettleRows, DbInv, Fits, StageDb, SettleOpen, CloseConfirmed, AllSettleable, Clear,
         Dedup, SortedSites;
    ListedSettleable(db, hash, x);
    if gated {
      OpenMeansClosed(db, x.Event());
      ClosedIsClear(db, hash, x.Event());
    }
    GuardPasses(db, gated, x.Event(), x.ask);
  }

  lemma GuardPasses(db: Db, gated: bool, e: string, ask: seq<string>)
    requires e in db.events && SettleOpen(db, e) == None && (gated ==> CloseConfirmed(db, e) == None)
    requires SettleList(db, e, ask) != [] && AllSettleable(db, e, SettleList(db, e, ask))
    ensures SettleGuard(db, gated, e, ask).Ok?
  {
    hide SettleList, SettleRows, SettleOpen, CloseConfirmed, AllSettleable;
    SettleRowsOkIff(db, e, SettleList(db, e, ask), db.events[e].targetKw / |SettleList(db, e, ask)|);
  }

  lemma OpenMeansClosed(db: Db, e: string)
    requires SettleOpen(db, e) == None
    ensures e in db.events && db.events[e].status == EventStatus.Closed
  {
  }

  lemma SettledRowsAt(db: Db, next: Db, x: Case, listed: seq<string>, tx: Tx)
    requires EventAt(db, x, EventStatus.Closed) && ProofsAt(db, x, x.sites) && listed == x.Listed()
    requires forall s :: (x.Event(), s) !in db.settlements
    requires Settles(db, next, x.Event(), listed, tx, x.now) && forall s :: s in listed ==> s in x.sites
    ensures RowsAt(next, x, listed, [])
  {
    var e := x.Event();
    hide Payout.CalculatePayout, Dedup, SortedSites;
    assert x.Share() == db.events[e].targetKw / |listed|;
    forall s ensures (e, s) in next.settlements <==> s in listed {
      assert (e, s).0 == e && (e, s).1 == s;
    }
    forall s | s in listed ensures (e, s) in next.settlements && next.settlements[(e, s)].payout == x.Pay(s) {
      assert (e, s) in db.proofs && db.proofs[(e, s)].reductionKwh == x.Kwh(s);
    }
  }

  lemma SettledDb(db: Db, next: Db, hash: Hasher, x: Case, tx: Tx)
    requires DbInv(db, hash) && StageDb(db, x, |x.sites| + 2) && x.Listed() != []
    requires Settles(db, next, x.Event(), x.Listed(), tx, x.now)
    requires forall s :: s in x.Listed() ==> s in x.sites
    ensures StageDb(next, x, |x.sites| + 3)
  {
    AllProved(x, |x.sites| + 2);
    OpenHasNoRows(db, hash, x.Event());
    hide DbInv, Dedup, SortedSites, EventAt, ProofsAt, RowsAt, Settles;
    SettledRowsAt(db, next, x, x.Listed(), tx);
    SettledOthers(db, next, x, tx);
    StageAfterSettling(next, x);
  }

  lemma SettledOthers(db: Db, next: Db, x: Case, tx: Tx)
    requires EventAt(db, x, EventStatus.Closed) && ProofsAt(db, x, x.sites)
    requires Settles(db, next, x.Event(), x.Listed(), tx, x.now)
    ensures EventAt(next, x, EventStatus.Settled) && ProofsAt(next, x, x.sites)
  {
    hide Dedup, SortedSites, Payout.CalculatePayout;
  }

  lemma StageAfterSettling(next: Db, x: Case)
    requires EventAt(next, x, EventStatus.Settled) && ProofsAt(next, x, x.sites) && RowsAt(next, x, x.Listed(), [])
    ensures StageDb(next, x, |x.sites| + 3)
  {
    AllProved(x, |x.sites| + 3);
    assert Paid(x, |x.sites| + 3) == [];
    hide EventAt, ProofsAt, RowsAt, Dedup, SortedSites;
  }

  lemma SettleWrites(db: Db, gated: bool, hash: Hasher, x: Case, tx: Tx)
    requires DbInv(db, hash) && Fits(x, hash) && StageDb(db, x, |x.sites| + 2) && (gated ==> Clear(db, x.Event()))
    ensures SettleGuard(db, gated, x.Event(), x.ask).Ok? && SettleList(db, x.Event(), x.ask) == x.Listed()
    ensures x.Event() in db.events
    ensures StageDb(SettleCommit(db, x.Event(), SettleGuard(db, gated, x.Event(), x.ask).value, tx, x.now), x,
                    |x.sites| + 3)
  {
    SettleOpens(db, gated, hash, x);
    ListedMembers(x);
    hide SettleList, SettleRows, InsertRows, DbInv, Dedup, SortedSites;
    SettleCommitSettles(db, gated, x.Event(), x.ask, tx, x.now);
    SettledDb(db, SettleCommit(db, x.Event(), SettleGuard(db, gated, x.Event(), x.ask).value, tx, x.now), hash, x, tx);
  }

  lemma ClaimOpens(db: Db, gated: bool, x: Case, s: string, paid: seq<string>)
    requires ProofsAt(db, x, x.sites) && RowsAt(db, x, x.Listed(), paid) && (gated ==> Clear(db, x.Event()))
    requires s in x.Listed() && s in x.sites && s !in paid
    ensures s in x.readings && (x.Event(), s) in db.settlements
    ensures ClaimGuard(db, gated, x.Event(), s, x.readings[s].actor) == None
  {
    if gated { ClearRow(db, x.Event(), s); }
    hide Payout.CalculatePayout, Dedup, SortedSites, Clear;
  }

  lemma ClaimedRows(db: Db, x: Case, s: string, paid: seq<string>, tx: Tx)
    requires RowsAt(db, x, x.Listed(), paid) && (x.Event(), s) in db.settlements
    ensures RowsAt(ClaimCommit(db, x.Event(), s, tx, x.now), x, x.Listed(), paid + [s])
  {
    hide Payout.CalculatePayout, Dedup, SortedSites;
  }

  lemma ClaimWrites(db: Db, gated: bool, hash: Hasher, x: Case, k: nat, tx: Tx)
    requires Fits(x, hash) && |x.sites| + 3 <= k < |x.sites| + 3 + |x.claims| && StageDb(db, x, k)
             && (gated ==> Clear(db, x.Event()))
    ensures var s := x.claims[k - |x.sites| - 3];
            && s in x.readings
            && ClaimGuard(db, gated, x.Event(), s, x.readings[s].actor) == None && (x.Event(), s) in db.settlements
            && StageDb(ClaimCommit(db, x.Event(), s, tx, x.now), x, k + 1)
  {
    var s := x.claims[k - |x.sites| - 3];
    ListedMembers(x);
    assert s in x.Listed() && s in x.sites && NoDup(x.claims);
    AllProved(x, k);
    AllProved(x, k + 1);
    PaidMore(x, k);
    hide Fits, Dedup, SortedSites, Clear, ClaimGuard, RowsAt;
    ClaimOpens(db, gated, x, s, Paid(x, k));
    ClaimedRows(db, x, s, Paid(x, k), tx);
  }

  lemma AuditWrites(db: Db, hash: Hasher, x: Case)
    requires Fits(x, hash) && StageDb(db, x, x.Last() - 1)
    ensures Audit(db, x.Event(), x.audit, x.now).Ok?
    ensures StageDb(Audit(db, x.Event(), x.audit, x.now).value, x, x.Last())
  {
    AllProved(x, x.Last() - 1);
    AllProved(x, x.Last());
    assert Paid(x, x.Last()) == Paid(x, x.Last() - 1);
    hide Payout.CalculatePayout, Payout.BoundedRates, Dedup, SortedSites;
  }

  // ---- The chain after k calls ----

  ghost predicate InfoAt(c: C.Chain, x: Case, status: C.EventStatus) {
    && x.Event() in c.events
    && c.events[x.Event()].targetKw == x.req.targetKw
    && c.events[x.Event()].rewardRate == x.req.rewardRate
    && c.events[x.Event()].penaltyRate == x.req.penaltyRate
    && c.events[x.Event()].status == status
  }

  /** ours says that the service's wallet posted the proofs. */
  ghost predicate ReadingsAt(c: C.Chain, d: C.Deployment, x: Case, proved: seq<string>, ours: bool) {
    && (forall s :: (x.Event(), s) in c.proofs <==> s in proved)
    && (forall s :: s in proved ==>
         && (x.Event(), s) in c.proofs && c.proofs[(x.Event(), s)].reductionKwh == x.Kwh(s)
         && (ours ==> c.proofs[(x.Event(), s)].submitter == d.operator))
  }

  ghost predicate RecordsAt(c: C.Chain, x: Case, listed: seq<string>, paid: seq<string>) {
    forall s :: s in listed ==>
      && (x.Event(), s) in c.records
      && c.records[(x.Event(), s)].payout == x.Pay(s)
      && (c.records[(x.Event(), s)].status == C.Claimed <==> s in paid)
  }

  function PaidSum(x: Case, paid: seq<string>): int {
    if paid == [] then 0 else PaidSum(x, paid[..|paid| - 1]) + Payout.Positive(x.Pay(paid[|paid| - 1]))
  }

  /** The positive payouts of the paid sites went from the Settlement account to the service's wallet. */
  ghost predicate Moved(before: T.Token, after: T.Token, d: C.Deployment, x: Case, paid: seq<string>) {
    && after.Balance(d.operator) == before.Balance(d.operator) + PaidSum(x, paid)
    && after.Balance(d.settlement) == before.Balance(d.settlement) - PaidSum(x, paid)
  }

  ghost predicate StageChain(c: C.Chain, d: C.Deployment, x: Case, token: T.Token, ours: bool, k: nat) {
    && Moved(token, c.token, d, x, Paid(x, k))
    && if k == 0 then x.Event() !in c.events && forall s :: (x.Event(), s) !in c.proofs
       else
         && InfoAt(c, x, S.StatusOnChain(StatusAfter(x, k))) && ReadingsAt(c, d, x, Proved(x, k), ours)
         && (k >= |x.sites| + 3 ==> RecordsAt(c, x, x.Listed(), Paid(x, k)))
  }

  ghost predicate Funded(d: C.Deployment, x: Case, token: T.Token) {
    token.Balance(d.settlement) >= x.req.targetKw * x.req.rewardRate
  }

  // ---- What each call does on the chain ----

  function CreateCall(x: Case): C.Call
    requires ValidRequest(x.req)
  {
    C.CreateEvent(x.Event(), S.Seconds(TimeOrder.ToRfc3339(x.req.start)), S.Seconds(TimeOrder.ToRfc3339(x.req.end)),
                  x.req.targetKw, x.req.rewardRate, x.req.penaltyRate)
  }

  lemma CreateMines(d: C.Deployment, c: C.Chain, x: Case, token: T.Token, ours: bool) returns (n: C.Chain)
    requires StageChain(c, d, x, token, ours, 0) && S.Operates(d) && ValidRequest(x.req) && C.Encodable(CreateCall(x))
    requires TimeOrder.LexLess(TimeOrder.ToRfc3339(x.req.start), TimeOrder.ToRfc3339(x.req.end))
    ensures C.Execute(d, c, d.operator, x.time, CreateCall(x)) == Ok(n) && StageChain(n, d, x, token, ours, 1)
  {
    hide CreateCall, ValidRequest, StageChain, TimeOrder.ToRfc3339, TimeOrder.LexLess, C.Execute, C.Encodable,
         S.Operates;
    WindowOpens(x);
    CreateCallShape(x);
    NewToChain(c, d, x, token, ours);
    n := CreateOnChain(d, c, CreateCall(x), x.time);
    CreatedChain(c, n, d, x, token, ours, CreateCall(x));
  }

  lemma NewToChain(c: C.Chain, d: C.Deployment, x: Case, token: T.Token, ours: bool)
    requires StageChain(c, d, x, token, ours, 0)
    ensures x.Event() !in c.events
  {
  }

  lemma CreatedChain(c: C.Chain, n: C.Chain, d: C.Deployment, x: Case, token: T.Token, ours: bool, call: C.Call)
    requires StageChain(c, d, x, token, ours, 0)
    requires call.CreateEvent? && call.id == x.Event() && call.targetKw == x.req.targetKw
    requires call.rewardRate == x.req.rewardRate && call.penaltyRate == x.req.penaltyRate && 0 <= call.start
             && 0 <= call.end
    requires n == c.(events := c.events[call.id :=
                       C.EventInfo(call.start, call.end, call.targetKw, call.rewardRate, call.penaltyRate, C.Active,
                                   d.operator)])
    ensures StageChain(n, d, x, token, ours, 1)
  {
    assert Proved(x, 1) == [] && Paid(x, 0) == Paid(x, 1);
    hide PaidSum;
  }

  lemma CreateCallShape(x: Case)
    requires ValidRequest(x.req)
    ensures CreateCall(x).CreateEvent? && CreateCall(x).id == x.Event() && CreateCall(x).targetKw == x.req.targetKw
    ensures CreateCall(x).rewardRate == x.req.rewardRate && CreateCall(x).penaltyRate == x.req.penaltyRate
  {
    hide S.Seconds, TimeOrder.ToRfc3339;
  }

  lemma CreateOnChain(d: C.Deployment, c: C.Chain, call: C.Call, time: nat) returns (n: C.Chain)
    requires S.Operates(d) && call.CreateEvent? && C.Encodable(call) && call.start < call.end && call.id !in c.events
    ensures 0 <= call.start && 0 <= call.end
    ensures C.Execute(d, c, d.operator, time, call) == Ok(n)
    ensures n == c.(events := c.events[call.id :=
                      C.EventInfo(call.start, call.end, call.targetKw, call.rewardRate, call.penaltyRate, C.Active,
                                  d.operator)])
  {
    n := C.Execute(d, c, d.operator, time, call).value;
  }

  lemma WindowOpens(x: Case)
    requires ValidRequest(x.req) && TimeOrder.LexLess(TimeOrder.ToRfc3339(x.req.start), TimeOrder.ToRfc3339(x.req.end))
    ensures CreateCall(x).start < CreateCall(x).end
  {
    hide S.Seconds, TimeOrder.ToRfc3339, TimeOrder.LexLess, TimeOrder.UnixSeconds;
    S.TimesReadBack(x.req);
  }

  /** A proof call for the next site, from any account. */
  lemma ProofMines(d: C.Deployment, c: C.Chain, x: Case, token: T.Token, ours: bool, k: nat, sender: T.Address,
                   proofHash: string, uri: string)
    returns (n: C.Chain)
    requires 1 <= k <= |x.sites| && StageChain(c, d, x, token, ours, k) && NoDup(x.sites)
    requires x.sites[k - 1] in x.readings && (ours ==> sender == d.operator)
    requires IsUint256(x.readings[x.sites[k - 1]].proof.baselineKwh)
             && IsUint256(x.readings[x.sites[k - 1]].proof.actualKwh)
    ensures var p := x.readings[x.sites[k - 1]].proof;
            var call := C.SubmitProof(x.Event(), x.sites[k - 1], p.baselineKwh, p.actualKwh, proofHash, uri);
            C.Execute(d, c, sender, x.time, call) == Ok(n)
    ensures StageChain(n, d, x, token, ours, k + 1)
  {
    var p := x.readings[x.sites[k - 1]].proof;
    ProvedMore(x, k);
    n := C.Execute(d, c, sender, x.time, C.SubmitProof(x.Event(), x.sites[k - 1], p.baselineKwh, p.actualKwh,
                                                       proofHash, uri)).value;
    hide PaidSum;
  }

  lemma CloseMines(d: C.Deployment, c: C.Chain, x: Case, token: T.Token, ours: bool) returns (n: C.Chain)
    requires StageChain(c, d, x, token, ours, |x.sites| + 1)
    ensures C.Execute(d, c, d.operator, x.time, C.CloseEvent(x.Event())) == Ok(n)
    ensures StageChain(n, d, x, token, ours, |x.sites| + 2)
  {
    AllProved(x, |x.sites| + 1);
    AllProved(x, |x.sites| + 2);
    n := C.Execute(d, c, d.operator, x.time, C.CloseEvent(x.Event())).value;
  }

  lemma ListedPayable(c: C.Chain, d: C.Deployment, x: Case, ours: bool)
    requires InfoAt(c, x, C.Closed) && ReadingsAt(c, d, x, x.sites, ours)
    requires x.Listed() != [] && forall s :: s in x.Listed() ==> s in x.sites
    requires Payout.BoundedRates(x.req.targetKw, x.req.rewardRate, x.req.penaltyRate)
    ensures C.Payable(c.proofs, c.events[x.Event()], x.Event(), x.Listed(), x.Share())
    ensures forall s :: s in x.Listed() ==>
      Payout.ContractPayout(c.proofs[(x.Event(), s)].reductionKwh, x.Share(), x.req.rewardRate, x.req.penaltyRate)
          == Some(x.Pay(s))
  {
    hide Dedup, SortedSites, Payout.ContractPayout, Payout.CalculatePayout, Payout.BoundedRates;
    forall s | s in x.Listed()
      ensures (x.Event(), s) in c.proofs
      ensures Payout.ContractPayout(c.proofs[(x.Event(), s)].reductionKwh, x.Share(), x.req.rewardRate,
                                    x.req.penaltyRate) == Some(x.Pay(s))
    {
      Payout.BoundedRatesAgree(x.Kwh(s), x.req.targetKw, |x.Listed()|, x.req.rewardRate, x.req.penaltyRate);
    }
  }

  lemma SettleMines(d: C.Deployment, c: C.Chain, x: Case, hash: Hasher, token: T.Token, ours: bool) returns (n: C.Chain)
    requires StageChain(c, d, x, token, ours, |x.sites| + 2) && Fits(x, hash) && S.Operates(d) && R.RecordsAnchored(c)
    ensures C.Execute(d, c, d.operator, x.time, C.SettleEvent(x.Event(), x.Listed())) == Ok(n)
    ensures StageChain(n, d, x, token, ours, |x.sites| + 3)
  {
    var e, listed := x.Event(), x.Listed();
    AllProved(x, |x.sites| + 2);
    AllProved(x, |x.sites| + 3);
    ListedMembers(x);
    ListedPayable(c, d, x, ours);
    R.ClosedHasNoRecords(c, e);
    hide Fits, Dedup, SortedSites, Payout.ContractPayout, Payout.CalculatePayout, PaidSum, R.RecordsAnchored;
    C.SettleSitesSucceedsIff(c.proofs, c.records, c.events[e], e, listed, x.Share(), x.time);
    assert C.Unrecorded(c.records, e, listed);
    hide C.SettleSites;
    n := C.Execute(d, c, d.operator, x.time, C.SettleEvent(e, listed)).value;
    R.SettleEventSettles(d, c, d.operator, x.time, e, listed);
    hide C.Execute;
    SettledChain(c, n, d, x, token, ours);
  }

  lemma SettledChain(c: C.Chain, n: C.Chain, d: C.Deployment, x: Case, token: T.Token, ours: bool)
    requires StageChain(c, d, x, token, ours, |x.sites| + 2) && R.Settles(c, n, x.Event(), x.Listed(), x.time)
    requires forall s :: s in x.Listed() ==>
      && (x.Event(), s) in c.proofs
      && Payout.ContractPayout(c.proofs[(x.Event(), s)].reductionKwh, x.Share(), x.req.rewardRate, x.req.penaltyRate)
           == Some(x.Pay(s))
    ensures StageChain(n, d, x, token, ours, |x.sites| + 3)
  {
    AllProved(x, |x.sites| + 2);
    AllProved(x, |x.sites| + 3);
    assert Paid(x, |x.sites| + 2) == Paid(x, |x.sites| + 3) == [];
    hide Dedup, SortedSites, Payout.ContractPayout, Payout.CalculatePayout, PaidSum;
    assert C.SettledTogether(c.proofs, c.records, n.records, c.events[x.Event()], x.Event(), x.Listed(), x.Share(),
                             x.time);
  }

  // ---- Paying the claims ----

  lemma PayUnderShare(x: Case, s: string)
    ensures 0 <= Payout.Positive(x.Pay(s)) <= x.Share() * x.req.rewardRate
  {
    Payout.PayoutRange(x.Kwh(s), x.Share(), x.req.rewardRate, x.req.penaltyRate);
    Payout.MulMonotone(0, x.Share(), x.req.rewardRate);
    hide Payout.CalculatePayout;
  }

  lemma {:induction false} PaidSumBound(x: Case, paid: seq<string>)
    ensures 0 <= PaidSum(x, paid) <= |paid| * (x.Share() * x.req.rewardRate)
  {
    hide Payout.CalculatePayout, Payout.Positive;
    if paid != [] {
      PaidSumBound(x, paid[..|paid| - 1]);
      PayUnderShare(x, paid[|paid| - 1]);
      OneLess(|paid|, x.Share() * x.req.rewardRate);
    }
  }

  /** No repeat-free list of settled sites costs more than the event promised. */
  lemma PaidWithinBudget(x: Case, paid: seq<string>)
    requires NoDup(paid) && (forall s :: s in paid ==> s in x.Listed())
    ensures PaidSum(x, paid) <= x.req.targetKw * x.req.rewardRate
  {
    PaidSumBound(x, paid);
    if paid == [] {
      Payout.MulMonotone(0, x.req.targetKw, x.req.rewardRate);
    } else {
      var m := |x.Listed()|;
      assert paid[0] in x.Listed();
      SubsetLength(paid, x.Listed());
      Payout.ShareBelowTarget(x.req.targetKw, m);
      Payout.SharesBelowTarget(m, x.Share(), x.req.targetKw, x.req.rewardRate);
      Payout.MulMonotone(0, x.Share(), x.req.rewardRate);
      Payout.MulMonotone(|paid|, m, x.Share() * x.req.rewardRate);
    }
  }

  lemma SubsetLength(a: seq<string>, b: seq<string>)
    requires NoDup(a) && forall s :: s in a ==> s in b
    ensures |a| <= |b|
    decreases |b|
  {
    if a != [] {
      var last := a[|a| - 1];
      assert last in b;
      var i :| 0 <= i < |b| && b[i] == last;
      var rest := b[..i] + b[i + 1..];
      forall s | s in a[..|a| - 1] ensures s in rest {
        var j :| 0 <= j < |a| - 1 && a[j] == s;
        assert a[j] in b;
      }
      SubsetLength(a[..|a| - 1], rest);
    }
  }

  lemma PaidSumMore(x: Case, paid: seq<string>, s: string)
    ensures PaidSum(x, paid + [s]) == PaidSum(x, paid) + Payout.Positive(x.Pay(s))
  {
    assert (paid + [s])[..|paid|] == paid;
  }

  /** A claim of a due record by its proof's submitter, when the account can pay it. */
  lemma ClaimOnChain(d: C.Deployment, c: C.Chain, e: string, s: string, time: nat) returns (n: C.Chain)
    requires c.token.Valid() && S.Operates(d)
    requires (e, s) in c.records && c.records[(e, s)].status == C.Due
    requires (e, s) in c.proofs && c.proofs[(e, s)].submitter == d.operator
    requires c.records[(e, s)].payout <= c.token.Balance(d.settlement)
    ensures C.Execute(d, c, d.operator, time, C.ClaimReward(e, s)) == Ok(n)
    ensures var claimed := c.records[(e, s)].(status := C.Claimed, claimedAt := C.Uint64(time));
            n == c.(records := c.records[(e, s) := claimed], token := n.token)
    ensures n.token.Balance(d.operator) == c.token.Balance(d.operator) + Payout.Positive(c.records[(e, s)].payout)
    ensures n.token.Balance(d.settlement) == c.token.Balance(d.settlement) - Payout.Positive(c.records[(e, s)].payout)
  {
    if c.records[(e, s)].payout > 0 {
      T.TransferConserves(c.token, d.settlement, d.operator, c.records[(e, s)].payout);
    }
    n := C.Execute(d, c, d.operator, time, C.ClaimReward(e, s)).value;
  }

  /** The record of the next claim. */
  lemma ClaimStage(d: C.Deployment, c: C.Chain, x: Case, token: T.Token, k: nat, s: string)
    requires |x.sites| + 3 <= k < |x.sites| + 3 + |x.claims| && StageChain(c, d, x, token, true, k)
    requires s == x.claims[k - |x.sites| - 3] && s in x.Listed() && s in x.sites && NoDup(x.claims)
    ensures (x.Event(), s) in c.records && c.records[(x.Event(), s)].status == C.Due
            && c.records[(x.Event(), s)].payout == x.Pay(s)
    ensures (x.Event(), s) in c.proofs && c.proofs[(x.Event(), s)].submitter == d.operator
    ensures Moved(token, c.token, d, x, Paid(x, k))
  {
    AllProved(x, k);
    PaidMore(x, k);
    hide Dedup, SortedSites, PaidSum, Payout.CalculatePayout, Moved;
  }

  lemma ClaimedChain(d: C.Deployment, c: C.Chain, n: C.Chain, x: Case, token: T.Token, k: nat, s: string)
    requires |x.sites| + 3 <= k < |x.sites| + 3 + |x.claims| && StageChain(c, d, x, token, true, k)
    requires s == x.claims[k - |x.sites| - 3] && (x.Event(), s) in c.records
             && c.records[(x.Event(), s)].payout == x.Pay(s)
    requires n.events == c.events && n.proofs == c.proofs && Moved(token, n.token, d, x, Paid(x, k) + [s])
    requires (x.Event(), s) in n.records && n.records == c.records[(x.Event(), s) := n.records[(x.Event(), s)]]
    requires n.records[(x.Event(), s)].status == C.Claimed && n.records[(x.Event(), s)].payout == x.Pay(s)
    ensures StageChain(n, d, x, token, true, k + 1)
  {
    AllProved(x, k);
    AllProved(x, k + 1);
    PaidMore(x, k);
    hide Dedup, SortedSites, PaidSum, Payout.CalculatePayout, Moved;
  }

  lemma ClaimMines(d: C.Deployment, c: C.Chain, x: Case, hash: Hasher, token: T.Token, k: nat) returns (n: C.Chain)
    requires |x.sites| + 3 <= k < |x.sites| + 3 + |x.claims| && StageChain(c, d, x, token, true, k)
    requires Fits(x, hash) && S.Operates(d) && c.token.Valid() && Funded(d, x, token)
    ensures C.Execute(d, c, d.operator, x.time, C.ClaimReward(x.Event(), x.claims[k - |x.sites| - 3])) == Ok(n)
    ensures StageChain(n, d, x, token, true, k + 1)
  {
    var s := x.claims[k - |x.sites| - 3];
    assert NoDup(x.claims);
    hide Fits, Funded, StageChain, Dedup, SortedSites, PaidSum, Payout.CalculatePayout, S.Operates, Paid, C.Execute;
    NextPaid(x, hash, k);
    ClaimStage(d, c, x, token, k, s);
    ClaimAffordable(d, c, x, hash, token, k);
    PaidSumMore(x, Paid(x, k), s);
    n := ClaimOnChain(d, c, x.Event(), s, x.time);
    ClaimedChain(d, c, n, x, token, k, s);
  }

  lemma ClaimAffordable(d: C.Deployment, c: C.Chain, x: Case, hash: Hasher, token: T.Token, k: nat)
    requires |x.sites| + 3 <= k < |x.sites| + 3 + |x.claims| && Moved(token, c.token, d, x, Paid(x, k))
    requires Fits(x, hash) && Funded(d, x, token)
    ensures var s := x.claims[k - |x.sites| - 3];
            s in x.Listed() && s in x.sites && x.Pay(s) <= c.token.Balance(d.settlement)
  {
    var s := x.claims[k - |x.sites| - 3];
    NextPaid(x, hash, k);
    hide Fits, Dedup, SortedSites, Payout.CalculatePayout, Payout.Positive;
    PaidWithinBudget(x, Paid(x, k + 1));
    PaidSumMore(x, Paid(x, k), s);
    hide PaidSum, Paid;
    PayIsPositivePart(x.Pay(s));
  }

  lemma PayIsPositivePart(pay: int)
    ensures pay <= Payout.Positive(pay)
  {
  }

  lemma NextPaid(x: Case, hash: Hasher, k: nat)
    requires |x.sites| + 3 <= k < |x.sites| + 3 + |x.claims| && Fits(x, hash)
    ensures var s := x.claims[k - |x.sites| - 3];
            s in x.Listed() && s in x.sites && Paid(x, k + 1) == Paid(x, k) + [s]
    ensures NoDup(Paid(x, k + 1)) && forall s :: s in Paid(x, k + 1) ==> s in x.Listed()
  {
    ListedMembers(x);
    PaidMore(x, k);
    hide ReadingFits, Dedup, SortedSites, Payout.BoundedRates;
  }

  // ---- Both sides of a call ----

  ghost predicate ChecksPass(db: Db, gated: bool, hash: Hasher, call: ServiceCall, now: string)
    requires WellFormed(db, call)
  {
    if gated then H.ChecksPass(db, hash, call, now) else S.ChecksPass(db, hash, call, now)
  }

  /** The call passes its checks, is written as next and takes the chain to n. */
  ghost predicate Goes(db: Db, next: Db, c: C.Chain, n: C.Chain, d: C.Deployment, gated: bool, hash: Hasher, x: Case,
                       call: ServiceCall, tx: Tx)
  {
    && WellFormed(db, call) && !call.Pass? && !call.RequestAudit?
    && ChecksPass(db, gated, hash, call, x.now)
    && Perform(db, gated, hash, call, tx, x.now) == Ok(next)
    && C.Execute(d, c, d.operator, x.time, S.ChainCall(db, hash, call, x.now)) == Ok(n)
  }

  /** What the whole lifecycle rests on. */
  ghost predicate Given(d: C.Deployment, hash: Hasher, x: Case, token: T.Token) {
    && S.Operates(d) && Fits(x, hash) && Funded(d, x, token)
    && C.Encodable(CreateCall(x))
    && TimeOrder.LexLess(TimeOrder.ToRfc3339(x.req.start), TimeOrder.ToRfc3339(x.req.end))
  }

  ghost predicate Between(db: Db, c: C.Chain, d: C.Deployment, gated: bool, hash: Hasher, x: Case, token: T.Token,
                          k: nat) {
    && DbInv(db, hash) && R.Inv(d, c) && (gated ==> Clear(db, x.Event()))
    && StageDb(db, x, k) && StageChain(c, d, x, token, true, k)
  }

  lemma SitesRead(x: Case, hash: Hasher)
    requires Fits(x, hash)
    ensures forall s :: s in x.sites ==> s in x.readings
  {
    forall s | s in x.sites ensures s in x.readings {
      assert ReadingFits(x, hash, s);
    }
  }

  // Each call's two sides, put together.

  lemma CreateJoins(db: Db, c: C.Chain, n: C.Chain, d: C.Deployment, gated: bool, hash: Hasher, x: Case, tx: Tx)
    requires ValidRequest(x.req) && CreateGuard(db, x.req) == None
    requires C.Execute(d, c, d.operator, x.time, CreateCall(x)) == Ok(n)
    ensures Goes(db, CreateCommit(db, x.req, tx, x.now), c, n, d, gated, hash, x, Create(x.req), tx)
  {
    CreateSendsCall(db, hash, x);
    hide CreateGuard, CreateCommit, C.Execute, ValidRequest, S.ChainCall, CreateCall;
  }

  lemma CreateSendsCall(db: Db, hash: Hasher, x: Case)
    requires ValidRequest(x.req)
    ensures S.ChainCall(db, hash, Create(x.req), x.now) == CreateCall(x)
  {
    hide S.Seconds, TimeOrder.ToRfc3339;
  }

  lemma ProofJoins(db: Db, c: C.Chain, n: C.Chain, d: C.Deployment, gated: bool, hash: Hasher, x: Case, p: Reading,
                   tx: Tx)
    requires ProofGuard(db, gated, hash, p.proof, x.now) == None
             && ProofCommit(db, hash, p.proof, p.actor, tx, x.now).Ok?
    requires C.Execute(d, c, d.operator, x.time,
               C.SubmitProof(p.proof.eventId, p.proof.siteId, p.proof.baselineKwh, p.proof.actualKwh,
                             hash(BuildPayload(p.proof, x.now)), p.proof.uri)) == Ok(n)
    ensures Goes(db, ProofCommit(db, hash, p.proof, p.actor, tx, x.now).value, c, n, d, gated, hash, x,
                 SubmitProof(p.proof, p.actor), tx)
  {
    hide ProofGuard, ProofCommit, C.Execute;
  }

  lemma CloseJoins(db: Db, c: C.Chain, n: C.Chain, d: C.Deployment, gated: bool, hash: Hasher, x: Case, tx: Tx)
    requires CloseGuard(db, x.Event()) == None && C.Execute(d, c, d.operator, x.time, C.CloseEvent(x.Event())) == Ok(n)
    ensures x.Event() in db.events
    ensures Goes(db, CloseCommit(db, x.Event(), tx, x.now), c, n, d, gated, hash, x, Close(x.Event()), tx)
  {
    hide C.Execute;
  }

  lemma SettleJoins(db: Db, c: C.Chain, n: C.Chain, d: C.Deployment, gated: bool, hash: Hasher, x: Case, tx: Tx)
    requires SettleGuard(db, gated, x.Event(), x.ask).Ok? && x.Event() in db.events
    requires SettleList(db, x.Event(), x.ask) == x.Listed()
    requires C.Execute(d, c, d.operator, x.time, C.SettleEvent(x.Event(), x.Listed())) == Ok(n)
    ensures Goes(db, SettleCommit(db, x.Event(), SettleGuard(db, gated, x.Event(), x.ask).value, tx, x.now), c, n, d,
                 gated, hash, x,
                 Settle(x.Event(), x.ask), tx)
  {
    hide SettleGuard, SettleCommit, SettleList, C.Execute, Dedup, SortedSites;
  }

  lemma ClaimJoins(db: Db, c: C.Chain, n: C.Chain, d: C.Deployment, gated: bool, hash: Hasher, x: Case, s: string,
                   actor: string, tx: Tx)
    requires ClaimGuard(db, gated, x.Event(), s, actor) == None && (x.Event(), s) in db.settlements
    requires C.Execute(d, c, d.operator, x.time, C.ClaimReward(x.Event(), s)) == Ok(n)
    ensures Goes(db, ClaimCommit(db, x.Event(), s, tx, x.now), c, n, d, gated, hash, x, Claim(x.Event(), s, actor), tx)
  {
    hide ClaimGuard, ClaimCommit, C.Execute;
  }

  lemma CreateGoes(db: Db, c: C.Chain, d: C.Deployment, gated: bool, hash: Hasher, x: Case, token: T.Token, tx: Tx)
    returns (next: Db, n: C.Chain)
    requires Given(d, hash, x, token) && Between(db, c, d, gated, hash, x, token, 0)
    ensures Goes(db, next, c, n, d, gated, hash, x, Create(x.req), tx)
    ensures StageDb(next, x, 1) && StageChain(n, d, x, token, true, 1)
  {
    assert ValidRequest(x.req) && CreateGuard(db, x.req) == None;
    hide Goes, DbInv, R.Inv, StageDb, StageChain, Fits, Funded, C.Encodable, C.Execute, S.Operates, CreateGuard,
         CreateCommit,
         TimeOrder.LexLess, TimeOrder.ToRfc3339, CreateCall, Clear, ValidRequest, Perform, CallAt;
    CreateWrites(db, gated, hash, x, tx);
    next := CreateCommit(db, x.req, tx, x.now);
    n := CreateMines(d, c, x, token, true);
    CreateJoins(db, c, n, d, gated, hash, x, tx);
  }

  lemma ProofGoes(db: Db, c: C.Chain, d: C.Deployment, gated: bool, hash: Hasher, x: Case, token: T.Token, k: nat,
                  p: Reading, tx: Tx)
    returns (next: Db, n: C.Chain)
    requires Given(d, hash, x, token) && Between(db, c, d, gated, hash, x, token, k) && 1 <= k <= |x.sites|
    requires x.sites[k - 1] in x.readings && p == x.readings[x.sites[k - 1]]
    ensures Goes(db, next, c, n, d, gated, hash, x, SubmitProof(p.proof, p.actor), tx)
    ensures StageDb(next, x, k + 1) && StageChain(n, d, x, token, true, k + 1)
  {
    assert ReadingFits(x, hash, x.sites[k - 1]) && NoDup(x.sites);
    hide Goes, DbInv, R.Inv, StageDb, StageChain, Fits, Funded, C.Encodable, C.Execute, S.Operates, HashAccepted,
         TimeOrder.LexLess, TimeOrder.ToRfc3339, CreateCall, Clear, ProofCommit, ProofGuard;
    ProofWrites(db, gated, hash, x, k, tx);
    next := ProofCommit(db, hash, p.proof, p.actor, tx, x.now).value;
    n := ProofMines(d, c, x, token, true, k, d.operator, hash(BuildPayload(p.proof, x.now)), p.proof.uri);
    ProofJoins(db, c, n, d, gated, hash, x, p, tx);
  }

  lemma CloseGoes(db: Db, c: C.Chain, d: C.Deployment, gated: bool, hash: Hasher, x: Case, token: T.Token, tx: Tx)
    returns (next: Db, n: C.Chain)
    requires Between(db, c, d, gated, hash, x, token, |x.sites| + 1)
    ensures Goes(db, next, c, n, d, gated, hash, x, Close(x.Event()), tx)
    ensures StageDb(next, x, |x.sites| + 2) && StageChain(n, d, x, token, true, |x.sites| + 2)
  {
    hide Goes, DbInv, R.Inv, StageDb, StageChain, C.Execute, Clear, CloseGuard, CloseCommit;
    CloseWrites(db, hash, x, tx);
    n := CloseMines(d, c, x, token, true);
    CloseJoins(db, c, n, d, gated, hash, x, tx);
    next := CloseCommit(db, x.Event(), tx, x.now);
  }

  lemma AnchoredAndValid(d: C.Deployment, c: C.Chain)
    requires R.Inv(d, c)
    ensures R.RecordsAnchored(c) && c.token.Valid()
  {
  }

  lemma SettleGoes(db: Db, c: C.Chain, d: C.Deployment, gated: bool, hash: Hasher, x: Case, token: T.Token, tx: Tx)
    returns (next: Db, n: C.Chain)
    requires Given(d, hash, x, token) && Between(db, c, d, gated, hash, x, token, |x.sites| + 2)
    ensures Goes(db, next, c, n, d, gated, hash, x, Settle(x.Event(), x.ask), tx)
    ensures StageDb(next, x, |x.sites| + 3) && StageChain(n, d, x, token, true, |x.sites| + 3)
  {
    hide Goes, DbInv, R.Inv, R.RecordsAnchored, StageDb, StageChain, Fits, Funded, C.Encodable, C.Execute, S.Operates,
         SettleGuard,
         TimeOrder.LexLess, TimeOrder.ToRfc3339, CreateCall, Clear, SettleList, SettleCommit, Dedup, SortedSites;
    SettleWrites(db, gated, hash, x, tx);
    AnchoredAndValid(d, c);
    next := SettleCommit(db, x.Event(), SettleGuard(db, gated, x.Event(), x.ask).value, tx, x.now);
    n := SettleMines(d, c, x, hash, token, true);
    SettleJoins(db, c, n, d, gated, hash, x, tx);
  }

  lemma ClaimGoes(db: Db, c: C.Chain, d: C.Deployment, gated: bool, hash: Hasher, x: Case, token: T.Token, k: nat,
                  s: string,
                  actor: string, tx: Tx)
    returns (next: Db, n: C.Chain)
    requires Given(d, hash, x, token) && Between(db, c, d, gated, hash, x, token, k)
    requires |x.sites| + 3 <= k < |x.sites| + 3 + |x.claims| && s == x.claims[k - |x.sites| - 3]
    requires s in x.readings ==> actor == x.readings[s].actor
    ensures Goes(db, next, c, n, d, gated, hash, x, Claim(x.Event(), s, actor), tx)
    ensures StageDb(next, x, k + 1) && StageChain(n, d, x, token, true, k + 1)
  {
    hide Goes, DbInv, R.Inv, StageDb, StageChain, Fits, Funded, C.Encodable, C.Execute, S.Operates, ClaimGuard,
         ClaimCommit,
         TimeOrder.LexLess, TimeOrder.ToRfc3339, CreateCall, Clear;
    ClaimWrites(db, gated, hash, x, k, tx);
    AnchoredAndValid(d, c);
    next := ClaimCommit(db, x.Event(), s, tx, x.now);
    n := ClaimMines(d, c, x, hash, token, k);
    ClaimJoins(db, c, n, d, gated, hash, x, s, actor, tx);
  }

  lemma GivenReads(d: C.Deployment, hash: Hasher, x: Case, token: T.Token)
    requires Given(d, hash, x, token)
    ensures forall s :: s in x.sites ==> s in x.readings
  {
    SitesRead(x, hash);
  }

  /** Every chain call of the lifecycle goes through on both sides and leads to the next stage. */
  lemma CallGoes(db: Db, c: C.Chain, d: C.Deployment, gated: bool, hash: Hasher, x: Case, token: T.Token, k: nat,
                 tx: Tx)
    returns (next: Db, n: C.Chain)
    requires Given(d, hash, x, token) && Between(db, c, d, gated, hash, x, token, k) && k < x.Last() - 1
    ensures forall s :: s in x.sites ==> s in x.readings
    ensures Goes(db, next, c, n, d, gated, hash, x, CallAt(x, k), tx)
    ensures StageDb(next, x, k + 1) && StageChain(n, d, x, token, true, k + 1)
  {
    hide Given, Between, Goes, StageDb, StageChain;
    GivenReads(d, hash, x, token);
    if k == 0 {
      next, n := CreateGoes(db, c, d, gated, hash, x, token, tx);
    } else if k <= |x.sites| {
      next, n := ProofGoes(db, c, d, gated, hash, x, token, k, x.readings[x.sites[k - 1]], tx);
    } else if k == |x.sites| + 1 {
      next, n := CloseGoes(db, c, d, gated, hash, x, token, tx);
    } else if k == |x.sites| + 2 {
      next, n := SettleGoes(db, c, d, gated, hash, x, token, tx);
    } else {
      var s := x.claims[k - |x.sites| - 3];
      next, n := ClaimGoes(db, c, d, gated, hash, x, token, k, s, if s in x.readings then x.readings[s].actor else "",
                           tx);
    }
  }

  // ---- The end ----

  /** The settled, claimed and audited event, the same on both sides, with the claimed rewards paid. */
  ghost predicate Finished(db: Db, c: C.Chain, d: C.Deployment, x: Case, token: T.Token) {
    && EventAt(db, x, EventStatus.Settled) && ProofsAt(db, x, x.sites)
    && RowsAt(db, x, x.Listed(), x.claims) && RecordsAt(c, x, x.Listed(), x.claims)
    && (x.Event(), x.audit) in db.audits
    && Moved(token, c.token, d, x, x.claims)
  }

  lemma LastStageIsFinished(db: Db, c: C.Chain, d: C.Deployment, x: Case, token: T.Token)
    requires StageDb(db, x, x.Last()) && StageChain(c, d, x, token, true, x.Last() - 1)
    ensures Finished(db, c, d, x, token)
  {
    hide EventAt, ProofsAt, RowsAt, RecordsAt, Moved, ReadingsAt, InfoAt;
    AllProved(x, x.Last());
    assert Paid(x, x.Last()) == Paid(x, x.Last() - 1) == x.claims;
  }

  /** When site-a is claimed and audited, the summary reads completed for every required list among the sites. */
  lemma FinishedReadsCompleted(db: Db, c: C.Chain, d: C.Deployment, x: Case, token: T.Token, required: seq<string>)
    requires Finished(db, c, d, x, token) && (forall s :: s in required ==> s in x.sites)
    requires J.AUDITED_SITE in x.claims && J.AUDITED_SITE in x.Listed() && x.audit == J.AUDITED_SITE
    ensures J.Summarize(db, x.Event(), required).Ok?
    ensures J.Summarize(db, x.Event(), required).value.step == J.Completed
    ensures J.Summarize(db, x.Event(), required).value.pct == 100
  {
    hide Payout.CalculatePayout, Dedup, SortedSites, RecordsAt, Moved;
    J.FullProgressIffCompleted(db, x.Event(), required);
    assert (x.Event(), J.AUDITED_SITE) in db.settlements;
  }
}
