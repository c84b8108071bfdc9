/**
 The page's automatic run: up to 18 passes, each deriving the current step from the page's state and performing it
 against the service in simulated mode. A pass may instead be put off because a confirmation is still pending.
 */
module RunDriver {
  import opened Common
  import opened Database
  import opened Submitter
  import opened DbRuns
  import opened SubmitterObject
  import opened JudgeSummary
  import opened Reconcile
  import ChainReplies
  import TimeOrder

  const MAX_LOOPS := 18

  datatype StepDone = DidCreate | DidProve(site: string) | DidClose | DidSettle | DidClaim | DidAudit

  datatype Outcome = Finished | Exceeded | Thrown(error: ServiceError)

  /** The values a run asks for: one clock text and one transaction hash per pass. */
  datatype Flow = Flow(eventId: string, required: seq<string>, auditSite: string, req: CreateRequest,
                       now: nat -> string, uuid: nat -> string)
  {
    ghost predicate Valid() {
      && required != [] && ValidRequest(req) && req.eventId == eventId
      && TimeOrder.LexLess(TimeOrder.ToRfc3339(req.start), TimeOrder.ToRfc3339(req.end))
    }

    /** The distinct required sites in the order in which the run proves them. */
    function Order(): seq<string> {
      Dedup(required)
    }
  }

  function Reading(site: string): (int, int) {
    if site == "site-a" then (150, 40)
    else if site == "site-b" then (150, 120)
    else (150, 100)
  }

  /** What a site delivers in the run, in kilowatt hours. */
  function Delivered(site: string): nat {
    if site == "site-a" then 110 else if site == "site-b" then 30 else 50
  }

  /** Every step of a complete run, once each. */
  function Steps(order: seq<string>): seq<StepDone> {
    [DidCreate] + seq(|order|, i requires 0 <= i < |order| => DidProve(order[i]))
    + [DidClose, DidSettle, DidClaim, DidAudit]
  }

  // ---- The state after k steps ----

  function Proven(order: seq<string>, k: nat): seq<string>
    requires k >= 1
  {
    if k - 1 < |order| then order[..k - 1] else order
  }

  function StatusAfter(n: nat, k: nat): EventStatus
    requires k >= 1
  {
    if k <= n + 1 then EventStatus.Active else if k == n + 2 then EventStatus.Closed else EventStatus.Settled
  }

  function ClaimAfter(n: nat, k: nat, site: string): ClaimStatus {
    if k >= n + 4 && site == AUDITED_SITE then ClaimStatus.Claimed else Unclaimed
  }

  ghost predicate DbAfter(db: Db, e: string, order: seq<string>, k: nat) {
    var n := |order|;
    && (e in db.events <==> k >= 1)
    && (k == 0 ==> forall s :: (e, s) !in db.proofs)
    && (k >= 1 ==>
         && db.events[e].status == StatusAfter(n, k)
         && (forall s :: (e, s) in db.proofs <==> s in Proven(order, k))
         && (forall s :: (e, s) in db.proofs ==>
              && db.proofs[(e, s)].submitter == s && db.proofs[(e, s)].reductionKwh == Delivered(s)))
    && (k < n + 3 ==> forall s :: (e, s) !in db.settlements)
    && (k >= n + 3 ==>
         forall s :: ((e, s) in db.settlements <==> s in order)
                     && ((e, s) in db.settlements ==> db.settlements[(e, s)].status == ClaimAfter(n, k, s)))
    && (k < n + 5 ==> (e, AUDITED_SITE) !in db.audits)
  }

  ghost predicate UiAfter(ui: Ui, order: seq<string>, k: nat) {
    var n := |order|;
    && ui.event == (if k == 0 then None else Some(StatusAfter(n, k)))
    && (k == 0 ==> ui.proofs == {})
    && (k >= 1 ==> forall s :: s in ui.proofs <==> s in Proven(order, k))
    && (k < n + 3 ==> ui.settlements == [])
    && (k >= n + 3 ==>
         |ui.settlements| == n && forall i :: 0 <= i < n ==>
             ui.settlements[i] == (order[i], ClaimAfter(n, k, order[i])))
    && (k < n + 5 ==> !ui.audit && !ui.summaryAudit)
    && (k == n + 5 ==> ui.audit)
  }

  function PhaseAfter(n: nat, k: nat): Phase {
    if k == 0 then CreatePhase
    else if k <= n then ProofsPhase
    else if k == n + 1 then ClosePhase
    else if k == n + 2 then SettlePhase
    else if k == n + 3 then ClaimPhase
    else if k == n + 4 then AuditPhase
    else Completed
  }

  lemma {:induction false} FindRowAt(rows: seq<(string, ClaimStatus)>, i: nat)
    requires i < |rows|
    requires forall j :: 0 <= j < i ==> rows[j].0 != rows[i].0
    ensures FindRow(rows, rows[i].0) == Some(rows[i].1)
  {
    if i > 0 {
      assert rows[0].0 != rows[i].0;
      FindRowAt(rows[1..], i - 1);
    }
  }

  /** After k steps the page derives exactly the next step. */
  lemma DerivedStep(ui: Ui, required: seq<string>, order: seq<string>, k: nat)
    requires order == Dedup(required) && order != [] && k <= |order| + 5
    requires UiAfter(ui, order, k)
    requires k >= |order| + 4 ==> AUDITED_SITE in order
    ensures DeriveUi(ui, required).step == PhaseAfter(|order|, k)
  {
    DedupSameIds(required);
    var n := |order|;
    if 1 <= k <= n {
      assert order[k - 1] !in Proven(order, k);
      assert order[k - 1] in required;
    }
    if n + 3 <= k {
      FindRowFinds(ui.settlements, AUDITED_SITE);
      if AUDITED_SITE in order {
        var i :| 0 <= i < n && order[i] == AUDITED_SITE;
        FindRowAt(ui.settlements, i);
      }
    }
  }

  // ---- Which site is proved next ----

  lemma {:induction false} FirstIndexIsFirst(sites: seq<string>, j: nat)
    requires j < |sites|
    ensures sites[j] in sites && FirstIndex(sites, sites[j]) <= j
  {
    if j > 0 && sites[0] != sites[j] {
      assert sites[1..][j - 1] == sites[j];
      FirstIndexIsFirst(sites[1..], j - 1);
    }
  }

  /** The first required site without a proof is the next one in order. */
  lemma NextMissing(required: seq<string>, order: seq<string>, k: nat, j: nat)
    requires order == Dedup(required) && 1 <= k <= |order| && j < |required|
    requires required[j] !in order[..k - 1]
    requires forall p :: 0 <= p < j ==> required[p] in order[..k - 1]
    ensures required[j] == order[k - 1]
  {
    DedupSameIds(required);
    assert required[j] in order;
    var m :| 0 <= m < |order| && order[m] == required[j];
    assert m >= k - 1;
    if m > k - 1 {
      DedupOrderStable(required, k - 1, m);
      FirstIndexIsFirst(required, j);
    }
  }

  lemma SomeMissing(required: seq<string>, order: seq<string>, k: nat)
    requires order == Dedup(required) && 1 <= k <= |order|
    ensures exists j :: 0 <= j < |required| && required[j] !in order[..k - 1]
  {
    DedupSameIds(required);
    assert order[k - 1] in required && order[k - 1] !in order[..k - 1];
  }

  lemma ProvenMore(order: seq<string>, k: nat)
    requires 1 <= k <= |order|
    ensures forall s :: s in Proven(order, k + 1) <==> s in Proven(order, k) || s == order[k - 1]
  {
    assert Proven(order, k + 1) == order[..k];
    assert order[..k] == order[..k - 1] + [order[k - 1]];
  }

  // ---- What one step does to the tables and to the page ----

  lemma CreateStep(db: Db, e: string, order: seq<string>, req: CreateRequest, tx: Tx, now: string)
    requires DbAfter(db, e, order, 0) && ValidRequest(req) && req.eventId == e
    requires TimeOrder.LexLess(TimeOrder.ToRfc3339(req.start), TimeOrder.ToRfc3339(req.end))
    ensures CreateGuard(db, req) == None && DbAfter(CreateCommit(db, req, tx, now), e, order, 1)
  {
    hide TimeOrder.ToRfc3339, TimeOrder.LexLess;
    assert Proven(order, 1) == [];
  }

  lemma ProofStep(db: Db, e: string, order: seq<string>, k: nat, hash: Hasher, req: ProofRequest, tx: Tx, now: string)
    requires DbAfter(db, e, order, k) && NoDup(order) && 1 <= k <= |order|
    requires req.eventId == e && req.siteId == order[k - 1] && req.proofHash == None
    requires Reduction(req.baselineKwh, req.actualKwh) == Delivered(req.siteId)
    ensures ProofGuard(db, false, hash, req, now) == None
    ensures ProofCommit(db, hash, req, req.siteId, tx, now).Ok?
    ensures DbAfter(ProofCommit(db, hash, req, req.siteId, tx, now).value, e, order, k + 1)
  {
    ProvenMore(order, k);
    assert order[k - 1] !in Proven(order, k);
  }

  lemma ProofUiStep(ui: Ui, order: seq<string>, k: nat)
    requires UiAfter(ui, order, k) && 1 <= k <= |order|
    ensures UiAfter(ui.(proofs := ui.proofs + {order[k - 1]}), order, k + 1)
  {
    ProvenMore(order, k);
  }

  lemma CloseStep(db: Db, e: string, order: seq<string>, tx: Tx, now: string)
    requires DbAfter(db, e, order, |order| + 1)
    ensures CloseGuard(db, e) == None && DbAfter(CloseCommit(db, e, tx, now), e, order, |order| + 2)
  {
    assert Proven(order, |order| + 1) == Proven(order, |order| + 2) == order;
  }

  lemma CloseUiStep(ui: Ui, order: seq<string>)
    requires UiAfter(ui, order, |order| + 1)
    ensures UiAfter(ui.(event := Some(EventStatus.Closed)), order, |order| + 2)
  {
    assert Proven(order, |order| + 1) == Proven(order, |order| + 2) == order;
  }

  lemma SettlementOpens(db: Db, e: string, required: seq<string>, order: seq<string>)
    requires DbAfter(db, e, order, |order| + 2) && order == Dedup(required) && order != []
    ensures SettleGuard(db, false, e, required).Ok? && SettleList(db, e, required) == order
    ensures |SettleGuard(db, false, e, required).value| == |order|
    ensures forall i :: 0 <= i < |order| ==> SettleGuard(db, false, e, required).value[i].0 == order[i]
  {
    var share := db.events[e].targetKw / |order|;
    assert required != [];
    SettleRowsOkIff(db, e, order, share);
    SettleRowsPriced(db, e, order, share);
  }

  lemma SettleStep(db: Db, next: Db, e: string, order: seq<string>, tx: Tx, now: string)
    requires DbAfter(db, e, order, |order| + 2) && Settles(db, next, e, order, tx, now)
    ensures DbAfter(next, e, order, |order| + 3)
  {
    assert Proven(order, |order| + 2) == Proven(order, |order| + 3) == order;
    forall s ensures (e, s) in next.settlements <==> s in order {
      assert (e, s).0 == e && (e, s).1 == s;
    }
  }

  /** The whole settlement of the required sites, from open to written. */
  lemma SettleWhole(db: Db, e: string, required: seq<string>, order: seq<string>, tx: Tx, now: string)
    requires DbAfter(db, e, order, |order| + 2) && order == Dedup(required) && order != []
    ensures SettleOpen(db, e) == None
    ensures SettleGuard(db, false, e, required).Ok? && e in db.events
    ensures var rows := SettleGuard(db, false, e, required).value;
            && |rows| == |order| && (forall i :: 0 <= i < |order| ==> rows[i].0 == order[i])
            && DbAfter(SettleCommit(db, e, rows, tx, now), e, order, |order| + 3)
  {
    hide Dedup, SettleList, SettleRows, InsertRows;
    SettlementOpens(db, e, required, order);
    SettleCommitSettles(db, false, e, required, tx, now);
    SettleStep(db, SettleCommit(db, e, SettleGuard(db, false, e, required).value, tx, now), e, order, tx, now);
  }

  lemma SettleUiStep(ui: Ui, order: seq<string>, rows: seq<(string, ClaimStatus)>)
    requires UiAfter(ui, order, |order| + 2)
    requires |rows| == |order| && forall i :: 0 <= i < |order| ==> rows[i] == (order[i], Unclaimed)
    ensures UiAfter(ui.(event := Some(EventStatus.Settled), settlements := rows), order, |order| + 3)
  {
    assert Proven(order, |order| + 2) == Proven(order, |order| + 3) == order;
  }

  lemma ClaimStep(db: Db, e: string, order: seq<string>, tx: Tx, now: string)
    requires DbAfter(db, e, order, |order| + 3)
    ensures if AUDITED_SITE in order
            then ClaimGuard(db, false, e, AUDITED_SITE, AUDITED_SITE) == None
                 && (e, AUDITED_SITE) in db.settlements
                 && DbAfter(ClaimCommit(db, e, AUDITED_SITE, tx, now), e, order, |order| + 4)
            else ClaimGuard(db, false, e, AUDITED_SITE, AUDITED_SITE) == Some(SettlementNotFound)
  {
    assert Proven(order, |order| + 3) == Proven(order, |order| + 4) == order;
  }

  /** Replace the site's row in the page's list. */
  function MarkClaimed(rows: seq<(string, ClaimStatus)>, site: string): seq<(string, ClaimStatus)> {
    seq(|rows|, i requires 0 <= i < |rows| => if rows[i].0 == site then (site, ClaimStatus.Claimed) else rows[i])
  }

  lemma ClaimUiStep(ui: Ui, order: seq<string>)
    requires UiAfter(ui, order, |order| + 3)
    ensures UiAfter(ui.(settlements := MarkClaimed(ui.settlements, AUDITED_SITE)), order, |order| + 4)
  {
    assert Proven(order, |order| + 3) == Proven(order, |order| + 4) == order;
  }

  lemma AuditStep(db: Db, e: string, order: seq<string>, site: string, now: string)
    requires DbAfter(db, e, order, |order| + 4)
    ensures if site in order then Audit(db, e, site, now).Ok?
            && DbAfter(Audit(db, e, site, now).value, e, order, |order| + 5)
            else Audit(db, e, site, now) == Err(ProofNotFound)
  {
    assert Proven(order, |order| + 4) == Proven(order, |order| + 5) == order;
  }

  lemma AuditUiStep(ui: Ui, order: seq<string>)
    requires UiAfter(ui, order, |order| + 4)
    ensures UiAfter(ui.(audit := true), order, |order| + 5)
  {
    assert Proven(order, |order| + 4) == Proven(order, |order| + 5) == order;
  }

  function StepAfter(order: seq<string>, k: nat): StepDone
    requires k < |order| + 5
  {
    if k == 0 then DidCreate
    else if k <= |order| then DidProve(order[k - 1])
    else if k == |order| + 1 then DidClose
    else if k == |order| + 2 then DidSettle
    else if k == |order| + 3 then DidClaim
    else DidAudit
  }

  lemma OneMoreStep(order: seq<string>, k: nat)
    requires k < |order| + 5
    ensures |Steps(order)| == |order| + 5
    ensures Steps(order)[..k + 1] == Steps(order)[..k] + [StepAfter(order, k)]
  {
    assert Steps(order)[k] == StepAfter(order, k);
  }

  ghost predicate IsPrefix(log: seq<StepDone>, order: seq<string>) {
    |log| <= |order| + 5 && forall k :: 0 <= k < |log| ==> log[k] == StepAfter(order, k)
  }

  lemma NothingLogged(order: seq<string>)
    ensures IsPrefix([], order)
  {
  }

  lemma LogFits(log: seq<StepDone>, order: seq<string>)
    requires IsPrefix(log, order)
    ensures |log| <= |order| + 5
  {
  }

  lemma LongerLog(log: seq<StepDone>, order: seq<string>)
    requires IsPrefix(log, order) && |log| < |order| + 5
    ensures IsPrefix(log + [StepAfter(order, |log|)], order)
  {
  }

  lemma PrefixLog(log: seq<StepDone>, order: seq<string>)
    requires IsPrefix(log, order)
    ensures |Steps(order)| == |order| + 5 && log == Steps(order)[..|log|]
  {
    forall k | 0 <= k < |log| ensures log[k] == Steps(order)[k] {
      OneMoreStep(order, k);
      assert Steps(order)[..k + 1][k] == Steps(order)[k];
    }
  }

  // ---- The page ----

  const NO_REPLY := ChainReplies.Raised(false)

  /** Off a live chain a look-up answers without asking. */
  function NoLookUps(now: string): Oracle {
    OracleOf(false, (m: nat, h: string) => NO_REPLY, now)
  }

  function ErrorOf<T>(r: Result<T, ServiceError>): Option<ServiceError> {
    match r
    case Ok(_) => None
    case Err(e) => Some(e)
  }

  class RunDriver {
    const service: SubmitterService
    const flow: Flow
    const plan: WaitPlan
    var event: Option<EventStatus>
    var proofs: set<string>
    var settlements: seq<(string, ClaimStatus)>
    var audit: bool
    var summaryAudit: bool

    constructor (svc: SubmitterService, f: Flow, p: WaitPlan)
      ensures service == svc && flow == f && plan == p
      ensures View() == Ui(None, {}, [], false, false, false)
    {
      service, flow, plan := svc, f, p;
      event, proofs, settlements, audit, summaryAudit := None, {}, [], false, false;
    }

    function View(): Ui
      reads this
    {
      Ui(event, proofs, settlements, audit, summaryAudit, false)
    }

    ghost predicate Ready() {
      !service.live && flow.Valid() && plan.Ticks()
    }

    /** The run has made its first k steps. */
    ghost predicate At(k: nat)
      reads this, service
    {
      && k <= |flow.Order()| + 5
      && DbAfter(service.Tables(), flow.eventId, flow.Order(), k)
      && UiAfter(View(), flow.Order(), k)
    }

    method CreateEvent(i: nat) returns (error: Option<ServiceError>)
      requires Ready() && At(0)
      modifies this, service
      ensures error == None && At(1)
    {
      hide TimeOrder.ToRfc3339, TimeOrder.LexLess, DbAfter, CreateGuard;
      ghost var before := service.Tables();
      var r := service.CreateEvent(flow.req, flow.uuid(i), NO_REPLY, flow.now(i));
      CreateStep(before, flow.eventId, flow.Order(), flow.req,
                 ChainReplies.ReadTx(false, flow.uuid(i), NO_REPLY, flow.now(i)).value, flow.now(i));
      error := ErrorOf(r);
      if error.Some? { return; }
      proofs, settlements, audit, summaryAudit := {}, [], false, false;
      event := Some(r.value.status);
      assert Proven(flow.Order(), 1) == [];
    }

    /** Find the first required site without a proof and prove it. */
    method SubmitNextProof(i: nat, ghost k: nat) returns (error: Option<ServiceError>, site: string)
      requires Ready() && 1 <= k <= |flow.Order()| && At(k)
      modifies this, service
      ensures error == None && At(k + 1) && site == flow.Order()[k - 1]
    {
      var j := 0;
      SomeMissing(flow.required, flow.Order(), k);
      while flow.required[j] in proofs
        invariant 0 <= j < |flow.required|
        invariant forall p :: 0 <= p < j ==> flow.required[p] in proofs
        invariant exists m :: j <= m < |flow.required| && flow.required[m] !in proofs
        decreases |flow.required| - j
      {
        j := j + 1;
      }
      site := flow.required[j];
      NextMissing(flow.required, flow.Order(), k, j);
      error := ProveSite(i, site, k);
    }

    method ProveSite(i: nat, site: string, ghost k: nat) returns (error: Option<ServiceError>)
      requires Ready() && 1 <= k <= |flow.Order()| && At(k) && site == flow.Order()[k - 1]
      modifies this, service
      ensures error == None && At(k + 1)
    {
      ProofUiStep(View(), flow.Order(), k);
      error := SendProof(i, site, k);
      hide DbAfter, UiAfter, Dedup;
      if error.Some? { return; }
      proofs := proofs + {site};
    }

    method SendProof(i: nat, site: string, ghost k: nat) returns (error: Option<ServiceError>)
      requires Ready() && 1 <= k <= |flow.Order()| && site == flow.Order()[k - 1]
      requires DbAfter(service.Tables(), flow.eventId, flow.Order(), k)
      modifies service
      ensures error == None && DbAfter(service.Tables(), flow.eventId, flow.Order(), k + 1)
    {
      var reading := Reading(site);
      var req := ProofRequest(flow.eventId, site, reading.0, reading.1, "ipfs://" + site, "", None, "simple");
      ghost var before := service.Tables();
      DedupSameIds(flow.required);
      ProofStep(before, flow.eventId, flow.Order(), k, service.hash, req,
                ChainReplies.ReadTx(false, flow.uuid(i), NO_REPLY, flow.now(i)).value, flow.now(i));
      NoPasses(before, flow.eventId);
      hide DbAfter, Dedup, ProofCommit, ProofGuard, AfterPasses, PassesOf;
      var r, passes := service.SubmitProof(req, site, plan, (n: nat) => NoLookUps(flow.now(i)), flow.uuid(i), NO_REPLY,
                                           flow.now(i));
      error := ErrorOf(r);
    }

    method CloseEvent(i: nat) returns (error: Option<ServiceError>)
      requires Ready() && At(|flow.Order()| + 1)
      modifies this, service
      ensures error == None && At(|flow.Order()| + 2)
    {
      CloseStep(service.Tables(), flow.eventId, flow.Order(),
                ChainReplies.ReadTx(false, flow.uuid(i), NO_REPLY, flow.now(i)).value, flow.now(i));
      CloseUiStep(View(), flow.Order());
      hide DbAfter, UiAfter, Dedup;
      var r := service.CloseEvent(flow.eventId, flow.uuid(i), NO_REPLY, flow.now(i));
      error := ErrorOf(r);
      if error.Some? { return; }
      event := Some(r.value.status);
    }

    method SettleEvent(i: nat) returns (error: Option<ServiceError>)
      requires Ready() && At(|flow.Order()| + 2) && flow.Order() != []
      modifies this, service
      ensures error == None && At(|flow.Order()| + 3)
    {
      hide DbAfter, Dedup;
      var rows;
      error, rows := SendSettle(i);
      if error.Some? { return; }
      SettleUiStep(View(), flow.Order(), rows);
      hide UiAfter;
      settlements := rows;
      event := Some(EventStatus.Settled);
    }

    method SendSettle(i: nat) returns (error: Option<ServiceError>, rows: seq<(string, ClaimStatus)>)
      requires Ready() && flow.Order() != []
               && DbAfter(service.Tables(), flow.eventId, flow.Order(), |flow.Order()| + 2)
      modifies service
      ensures error == None && DbAfter(service.Tables(), flow.eventId, flow.Order(), |flow.Order()| + 3)
      ensures |rows| == |flow.Order()| && forall j :: 0 <= j < |rows| ==> rows[j] == (flow.Order()[j], Unclaimed)
    {
      ghost var before := service.Tables();
      SettleWhole(before, flow.eventId, flow.required, flow.Order(),
                  ChainReplies.ReadTx(false, flow.uuid(i), NO_REPLY, flow.now(i)).value, flow.now(i));
      NoPasses(before, flow.eventId);
      hide DbAfter, Dedup, SettleGuard, SettleCommit, AfterPasses, PassesOf, PassOf, Reconciled, SettleOpen;
      var r, passes, late := service.SettleEvent(flow.eventId, flow.required, plan, (n: nat) => NoLookUps(flow.now(i)),
                                                 flow.uuid(i), NO_REPLY, flow.now(i));
      error, rows := ErrorOf(r), [];
      if error.Some? { return; }
      rows := seq(|r.value|, j requires 0 <= j < |r.value| => (r.value[j].0, r.value[j].1.status));
    }

    /** Claiming needs a settlement row of site-a. */
    method ClaimSiteA(i: nat) returns (error: Option<ServiceError>)
      requires Ready() && At(|flow.Order()| + 3)
      modifies this, service
      ensures error == if AUDITED_SITE in flow.Order() then None else Some(SettlementNotFound)
      ensures At(if error == None then |flow.Order()| + 4 else |flow.Order()| + 3)
    {
      ClaimStep(service.Tables(), flow.eventId, flow.Order(),
                ChainReplies.ReadTx(false, flow.uuid(i), NO_REPLY, flow.now(i)).value, flow.now(i));
      ClaimUiStep(View(), flow.Order());
      hide DbAfter, UiAfter, Dedup, ClaimGuard, ClaimCommit, PassOf, Reconciled;
      var r, _ := service.ClaimReward(flow.eventId, AUDITED_SITE, AUDITED_SITE, NoLookUps(flow.now(i)), flow.uuid(i),
                                      NO_REPLY, flow.now(i));
      error := ErrorOf(r);
      if error.Some? { return; }
      settlements := MarkClaimed(settlements, AUDITED_SITE);
    }

    method GetAudit(i: nat) returns (error: Option<ServiceError>)
      requires Ready() && At(|flow.Order()| + 4)
      modifies this, service
      ensures error == if flow.auditSite in flow.Order() then None else Some(ProofNotFound)
      ensures At(if error == None then |flow.Order()| + 5 else |flow.Order()| + 4)
    {
      AuditStep(service.Tables(), flow.eventId, flow.Order(), flow.auditSite, flow.now(i));
      AuditUiStep(View(), flow.Order());
      hide DbAfter, UiAfter, Dedup, Audit;
      var r := service.GetAudit(flow.eventId, flow.auditSite, flow.now(i));
      error := ErrorOf(r);
      if error.Some? { return; }
      audit := true;
    }

    /** A pending confirmation: nothing is done in this pass but refreshing the summary. */
    method PutOff(ghost k: nat)
      requires At(k) && k < |flow.Order()| + 4
      modifies this`summaryAudit
      ensures At(k)
    {
      summaryAudit := (flow.eventId, AUDITED_SITE) in service.audits;
    }

    method DeriveStep(ghost k: nat) returns (phase: Phase)
      requires At(k) && flow.Order() != []
      requires k >= |flow.Order()| + 4 ==> AUDITED_SITE in flow.Order()
      ensures phase == PhaseAfter(|flow.Order()|, k)
    {
      hide DbAfter;
      DerivedStep(View(), flow.required, flow.Order(), k);
      phase := DeriveUi(View(), flow.required).step;
    }

    /** The two requests the service can refuse: a claim without site-a's row, an audit without the site's proof. */
    predicate Refused(k: nat) {
      || (k == |flow.Order()| + 3 && AUDITED_SITE !in flow.Order())
      || (k == |flow.Order()| + 4 && flow.auditSite !in flow.Order())
    }

    method DoStep(i: nat, phase: Phase, ghost k: nat) returns (error: Option<ServiceError>, done: StepDone)
      requires Ready() && At(k) && k < |flow.Order()| + 5 && flow.Order() != []
               && phase == PhaseAfter(|flow.Order()|, k)
      modifies this, service
      ensures error.Some? <==> Refused(k)
      ensures error.Some? ==> At(k)
      ensures error.None? ==> At(k + 1) && done == StepAfter(flow.Order(), k)
    {
      hide At, Ready, Dedup;
      done := DidCreate;
      match phase {
        case CreatePhase =>
          error := CreateEvent(i);
        case ProofsPhase =>
          var site;
          error, site := SubmitNextProof(i, k);
          done := DidProve(site);
        case ClosePhase =>
          error := CloseEvent(i);
          done := DidClose;
        case SettlePhase =>
          error := SettleEvent(i);
          done := DidSettle;
        case ClaimPhase =>
          error := ClaimSiteA(i);
          done := DidClaim;
        case AuditPhase =>
          error := GetAudit(i);
          done := DidAudit;
        case Completed =>
          assert false;
      }
    }

    /** One pass that is not the last: the derived step, unless it is put off. */
    method OnePass(i: nat, phase: Phase, pending: bool, ghost k: nat)
      returns (error: Option<ServiceError>, done: Option<StepDone>)
      requires Ready() && At(k) && k < |flow.Order()| + 5 && flow.Order() != []
               && phase == PhaseAfter(|flow.Order()|, k)
      modifies this, service
      ensures error.Some? ==> Refused(k) && At(k)
      ensures error.None? && done.None? ==> pending && At(k)
      ensures error.None? && done.Some? ==> !Refused(k) && done.value == StepAfter(flow.Order(), k) && At(k + 1)
    {
      hide At, Ready, Dedup, Refused, StepAfter;
      if pending && (phase == ProofsPhase || phase == SettlePhase || phase == ClaimPhase) {
        PutOff(k);
        return None, None;
      }
      var step;
      error, step := DoStep(i, phase, k);
      done := Some(step);
    }

    /**
     The run performs the steps of Steps(Order()) in order, each at most once. With n distinct required sites and d
     passes put off it finishes exactly when site-a and the audited site are among them and n + 6 + d is at most 18.
     */
    method RunFullFlow(pending: nat -> bool) returns (outcome: Outcome, log: seq<StepDone>, deferrals: nat)
      requires Ready() && At(0)
      modifies this, service
      ensures |log| <= |flow.Order()| + 5 == |Steps(flow.Order())| && log == Steps(flow.Order())[..|log|] && At(|log|)
      ensures outcome == Finished <==>
                AUDITED_SITE in flow.Order() && flow.auditSite in flow.Order()
                    && |flow.Order()| + 6 + deferrals <= MAX_LOOPS
      ensures outcome == Finished ==> log == Steps(flow.Order())
      ensures outcome.Thrown? ==> AUDITED_SITE !in flow.Order() || flow.auditSite !in flow.Order()
      ensures (forall i :: !pending(i)) ==> deferrals == 0
    {
      DedupSameIds(flow.required);
      assert flow.required[0] in flow.Order();
      log, deferrals, outcome := [], 0, Exceeded;
      var i := 0;
      hide At, Ready, Steps, Dedup, StepAfter, IsPrefix, Refused;
      NothingLogged(flow.Order());
      while i < MAX_LOOPS && outcome == Exceeded
        invariant i <= MAX_LOOPS && IsPrefix(log, flow.Order()) && At(|log|)
        invariant |log| <= |flow.Order()| + 5
        invariant outcome == Exceeded ==> i == |log| + deferrals
        invariant outcome == Exceeded ==> |log| >= |flow.Order()| + 4 ==> AUDITED_SITE in flow.Order()
        invariant outcome == Exceeded ==> |log| == |flow.Order()| + 5 ==> flow.auditSite in flow.Order()
        invariant outcome == Finished ==>
                    && AUDITED_SITE in flow.Order() && flow.auditSite in flow.Order()
                    && |log| == |flow.Order()| + 5 && |log| + deferrals < MAX_LOOPS
        invariant outcome.Thrown? ==> AUDITED_SITE !in flow.Order() || flow.auditSite !in flow.Order()
        invariant deferrals > 0 ==> exists j :: pending(j)
        decreases MAX_LOOPS - i
      {
        outcome, log, deferrals := RunPass(i, log, deferrals, pending(i));
        i := i + 1;
      }
      PrefixLog(log, flow.Order());
    }

    method RunPass(i: nat, log: seq<StepDone>, deferrals: nat, pending: bool)
      returns (outcome: Outcome, more: seq<StepDone>, late: nat)
      requires Ready() && IsPrefix(log, flow.Order()) && At(|log|) && flow.Order() != []
      requires |log| >= |flow.Order()| + 4 ==> AUDITED_SITE in flow.Order()
      modifies this, service
      ensures IsPrefix(more, flow.Order()) && At(|more|) && |more| <= |flow.Order()| + 5
      ensures outcome == Exceeded ==>
                if late == deferrals then |more| == |log| + 1 else pending && late == deferrals + 1 && more == log
      ensures outcome == Exceeded && |more| == |log| + 1 ==>
                && (|more| >= |flow.Order()| + 4 ==> AUDITED_SITE in flow.Order())
                && (|more| == |flow.Order()| + 5 ==> flow.auditSite in flow.Order())
      ensures outcome == Finished <==> |log| == |flow.Order()| + 5
      ensures outcome != Exceeded ==> more == log && late == deferrals
      ensures outcome.Thrown? ==> AUDITED_SITE !in flow.Order() || flow.auditSite !in flow.Order()
    {
      hide At, Ready, Dedup, StepAfter, IsPrefix;
      more, late := log, deferrals;
      LogFits(log, flow.Order());
      var phase := DeriveStep(|log|);
      if phase == Completed {
        return Finished, log, deferrals;
      }
      var error, done := OnePass(i, phase, pending, |log|);
      if error.Some? {
        return Thrown(error.value), log, deferrals;
      }
      if done.Some? {
        LongerLog(log, flow.Order());
        more := log + [done.value];
      } else {
        late := deferrals + 1;
      }
      outcome := Exceeded;
    }
  }
}
