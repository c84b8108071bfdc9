/**
 Progress in hybrid mode: when the chain confirms each transaction and a pass sees it, an event with any number of sites
 runs from creation to paid rewards. Each call is served, mined and reconciled before the next.
 */
module HybridLifecycle {
  import opened Common
  import opened Database
  import opened Reconcile
  import opened Submitter
  import opened DbRuns
  import opened Lifecycle
  import opened HybridSteps
  import H = HybridGating
  import SH = SharedHashes
  import S = SyncSimulation
  import SL = SyncLifecycle
  import C = Contracts
  import R = ChainRuns
  import T = Tokens

  ghost predicate Stage(w: H.World, d: C.Deployment, hash: Hasher, x: Case, token: T.Token, k: nat) {
    && Good(w, d, hash) && Quiet(w.db, x.Event()) && Clear(w.db, x.Event())
    && StageDb(w.db, x, k) && StageChain(w.chain, d, x, token, true, Least2(k, x.Last() - 1))
  }

  /** A new event in an arbitrary state of a run, with what its lifecycle rests on. */
  ghost predicate Ready(w: H.World, d: C.Deployment, hash: Hasher, x: Case) {
    && Good(w, d, hash) && Given(d, hash, x, w.chain.token)
    && x.Event() !in w.db.events && x.Event() !in w.chain.events
  }

  /** One hash for each call that reaches the chain. */
  ghost predicate FreshHashes(w: H.World, x: Case, hs: seq<string>, k: nat) {
    |hs| == x.Last() - 1 && NoDup(hs) && forall i :: k <= i < |hs| ==> FreshHash(w, hs[i])
  }

  lemma NoSlots(db: Db, hash: Hasher, e: string)
    requires DbInv(db, hash) && e !in db.events
    ensures Quiet(db, e) && Clear(db, e)
  {
    NewEventNoRows(db, hash, e);
    hide DbInv;
    forall y: Slot | y.event == e ensures TxAt(db, y).None? {
      match y
      case CreateTx(_) =>
      case CloseTx(_) =>
      case ProofTx(_, s) => assert (e, s) !in db.proofs;
      case SettleTx(_, s) => assert (e, s) !in db.settlements;
      case ClaimTx(_, s) => assert (e, s) !in db.settlements;
    }
  }

  lemma ReadyIsStage(w: H.World, d: C.Deployment, hash: Hasher, x: Case)
    requires Ready(w, d, hash, x)
    ensures Stage(w, d, hash, x, w.chain.token, 0)
  {
    GoodParts(w, d, hash);
    hide Good, Given, StageChain, Quiet, Clear, DbInv, R.Inv, H.SlotsTrue;
    NoSlots(w.db, hash, x.Event());
    SL.NewOnChain(d, w.chain, x);
  }

  lemma HashAt(w: H.World, x: Case, hs: seq<string>, k: nat)
    requires k < x.Last() - 1 && FreshHashes(w, x, hs, k)
    ensures k < |hs| && FreshHash(w, hs[k])
  {
  }

  lemma HashesStayFresh(w: H.World, n: H.World, x: Case, hs: seq<string>, k: nat, sent: H.Sent)
    requires k < x.Last() - 1 && FreshHashes(w, x, hs, k) && n.txs == w.txs[hs[k] := sent]
    ensures FreshHashes(n, x, hs, k + 1)
  {
  }

  lemma StageIsBetween(w: H.World, d: C.Deployment, hash: Hasher, x: Case, token: T.Token, k: nat)
    requires k < x.Last() - 1 && Stage(w, d, hash, x, token, k)
    ensures Between(w.db, w.chain, d, true, hash, x, token, k)
    ensures Good(w, d, hash) && Quiet(w.db, x.Event()) && Clear(w.db, x.Event())
  {
    hide StageDb, StageChain, Quiet, Clear, DbInv, R.Inv, H.SlotsTrue, Good;
    GoodParts(w, d, hash);
  }

  lemma SeenStage(n: H.World, d: C.Deployment, hash: Hasher, x: Case, token: T.Token, k: nat, db: Db, h: string)
    requires k < x.Last() - 1 && StageDb(db, x, k + 1) && StageChain(n.chain, d, x, token, true, k + 1)
    requires n.db == Reconciled(db, Answer(h, Confirmed, x.now), SlotsOf(db, x.Event()))
    requires Good(n, d, hash) && Quiet(n.db, x.Event()) && Clear(n.db, x.Event())
    ensures Stage(n, d, hash, x, token, k + 1)
  {
    hide StageDb, StageChain, Quiet, Clear, Good, Reconciled, SlotsOf;
    StageSeen(db, Answer(h, Confirmed, x.now), SlotsOf(db, x.Event()), x, k + 1);
  }

  /** The k-th call, sent, mined and seen. */
  lemma NextStage(w: H.World, d: C.Deployment, hash: Hasher, x: Case, token: T.Token, hs: seq<string>, k: nat,
                  call: ServiceCall)
    returns (acts: seq<H.Action>, n: H.World)
    requires k < x.Last() - 1 && Stage(w, d, hash, x, token, k) && Given(d, hash, x, token) && FreshHashes(w, x, hs, k)
    requires (forall s :: s in x.sites ==> s in x.readings) && call == CallAt(x, k)
    ensures |acts| == 3 && acts[0] == H.Serve(call, Some(H.Pending(hs[k], x.now)), x.now)
    ensures H.LegalRun(w, d, hash, acts) && n == H.Run(w, d, hash, acts)
    ensures Stage(n, d, hash, x, token, k + 1) && FreshHashes(n, x, hs, k + 1)
  {
    hide Good, Stage, Between, Quiet, Clear, Given, StageDb, StageChain, FreshHashes, FreshHash, Goes, CallAt,
         H.LegalRun, H.Run,
         Reconciled, SlotsOf, S.ChainCall;
    HashAt(w, x, hs, k);
    var h := hs[k];
    StageIsBetween(w, d, hash, x, token, k);
    var db, c := CallGoes(w.db, w.chain, d, true, hash, x, token, k, H.Pending(h, x.now));
    n := CallConfirms(w, d, hash, x, call, h, db, c);
    acts := Acts(x.Event(), call, db, h, x.now, x.time);
    SeenStage(n, d, hash, x, token, k, db, h);
    HashesStayFresh(w, n, x, hs, k, n.txs[h]);
  }

  lemma AuditRun(w: H.World, d: C.Deployment, hash: Hasher, x: Case, token: T.Token)
    returns (acts: seq<H.Action>, n: H.World)
    requires Stage(w, d, hash, x, token, x.Last() - 1) && Given(d, hash, x, token)
    ensures H.LegalRun(w, d, hash, acts) && n == H.Run(w, d, hash, acts)
    ensures Finished(n.db, n.chain, d, x, token)
  {
    SL.GivenParts(d, hash, x, token);
    hide Good, Quiet, Clear, Given, Fits, StageDb, StageChain, H.LegalRun, H.Run, H.Step, Audit, S.Operates;
    AuditWrites(w.db, hash, x);
    n := AuditServed(w, d, hash, x);
    acts := [H.Serve(RequestAudit(x.Event(), x.audit), None, x.now)];
    OneAction(w, d, hash, acts[0]);
    LastStageIsFinished(n.db, n.chain, d, x, token);
  }

  lemma AuditServed(w: H.World, d: C.Deployment, hash: Hasher, x: Case) returns (n: H.World)
    requires Audit(w.db, x.Event(), x.audit, x.now).Ok?
    ensures var a := H.Serve(RequestAudit(x.Event(), x.audit), None, x.now);
            H.Enabled(w, d, a) && n == H.Step(w, d, hash, a)
    ensures n == w.(db := Audit(w.db, x.Event(), x.audit, x.now).value)
  {
    hide Audit;
    n := H.Step(w, d, hash, H.Serve(RequestAudit(x.Event(), x.audit), None, x.now));
  }

  lemma {:induction false} StagesFollow(w: H.World, d: C.Deployment, hash: Hasher, x: Case, token: T.Token,
                                        hs: seq<string>, k: nat)
    returns (acts: seq<H.Action>, n: H.World)
    requires k < x.Last() && Stage(w, d, hash, x, token, k) && Given(d, hash, x, token) && FreshHashes(w, x, hs, k)
    ensures H.LegalRun(w, d, hash, acts) && n == H.Run(w, d, hash, acts)
    ensures Finished(n.db, n.chain, d, x, token)
    decreases x.Last() - k
  {
    hide Stage, Given, FreshHashes, Finished, H.Step, H.Enabled, H.LegalRun, H.Run;
    if k == x.Last() - 1 {
      acts, n := AuditRun(w, d, hash, x, token);
    } else {
      GivenReads(d, hash, x, token);
      var first, mid := NextStage(w, d, hash, x, token, hs, k, CallAt(x, k));
      var rest;
      rest, n := StagesFollow(mid, d, hash, x, token, hs, k + 1);
      RunsJoin(w, d, hash, first, rest);
      acts := first + rest;
    }
  }

  /**
   For any sites, request and order of claims there is a legal run that ends with the event settled, claimed and
   audited: records and rows with the same payouts, every awaited transaction confirmed, and the claimed rewards paid.
   */
  lemma LifecycleFinishes(w: H.World, d: C.Deployment, hash: Hasher, x: Case, hs: seq<string>)
    returns (acts: seq<H.Action>, n: H.World)
    requires Ready(w, d, hash, x) && FreshHashes(w, x, hs, 0)
    ensures H.LegalRun(w, d, hash, acts) && n == H.Run(w, d, hash, acts)
    ensures Finished(n.db, n.chain, d, x, w.chain.token)
  {
    ReadyIsStage(w, d, hash, x);
    hide Stage, Good, Given, FreshHashes, Finished, H.LegalRun, H.Run;
    acts, n := StagesFollow(w, d, hash, x, w.chain.token, hs, 0);
  }

  /** Such a start exists: fresh contracts whose supply is held by the Settlement account, and empty tables. */
  lemma FundedStartIsReady(d: C.Deployment, hash: Hasher, supply: nat, x: Case)
    requires T.DeployDrt(d.settlement, supply).Ok? && Given(d, hash, x, T.DeployDrt(d.settlement, supply).value)
    ensures Ready(H.Start(T.DeployDrt(d.settlement, supply).value), d, hash, x)
  {
    SL.GivenParts(d, hash, x, T.DeployDrt(d.settlement, supply).value);
    hide Given, H.Inv, SH.Shared, T.DeployDrt, S.Operates;
    H.StartSatisfiesInv(d, hash, d.settlement, supply);
    EmptyIsShared();
  }

  lemma EmptyIsShared()
    ensures SH.Shared(EMPTY_DB)
  {
    assert forall x :: TxAt(EMPTY_DB, x) == None;
  }
}
