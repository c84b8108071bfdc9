/**
 Progress in sync mode: an event with any number of sites, taken from creation to a completed audit and paid rewards.
 */
module SyncLifecycle {
  import opened Common
  import opened Database
  import opened Submitter
  import opened DbRuns
  import opened Lifecycle
  import S = SyncSimulation
  import C = Contracts
  import R = ChainRuns
  import T = Tokens
  import Payout
  import TimeOrder

  /** A new event in an arbitrary state, with what its lifecycle rests on. */
  ghost predicate Ready(w: S.World, d: C.Deployment, hash: Hasher, x: Case) {
    && S.Inv(w, d, hash) && Given(d, hash, x, w.chain.token)
    && CreateGuard(w.db, x.req) == None && x.Event() !in w.chain.events
  }

  ghost predicate Stage(w: S.World, d: C.Deployment, hash: Hasher, x: Case, token: T.Token, k: nat) {
    && S.Inv(w, d, hash)
    && StageDb(w.db, x, k)
    && StageChain(w.chain, d, x, token, true, Least2(k, x.Last() - 1))
  }

  function TurnAt(x: Case, tx: Tx, k: nat): S.Turn
    requires k < x.Last() && forall s :: s in x.sites ==> s in x.readings
  {
    S.Serve(CallAt(x, k), true, tx, x.now, x.time)
  }

  /** The calls from the k-th on. */
  function TurnsFrom(x: Case, tx: Tx, k: nat): seq<S.Turn>
    requires k <= x.Last() && forall s :: s in x.sites ==> s in x.readings
    decreases x.Last() - k
  {
    if k == x.Last() then [] else [TurnAt(x, tx, k)] + TurnsFrom(x, tx, k + 1)
  }

  lemma NewOnChain(d: C.Deployment, c: C.Chain, x: Case)
    requires R.Inv(d, c) && x.Event() !in c.events
    ensures StageChain(c, d, x, c.token, true, 0)
  {
    forall s ensures (x.Event(), s) !in c.proofs {
      assert (x.Event(), s) in c.proofs ==> (x.Event(), s).0 in c.events;
    }
    assert Paid(x, 0) == [];
  }

  lemma ReadyIsStage(w: S.World, d: C.Deployment, hash: Hasher, x: Case)
    requires Ready(w, d, hash, x)
    ensures Stage(w, d, hash, x, w.chain.token, 0)
  {
    NewOnChain(d, w.chain, x);
    hide S.Inv, StageChain, Given;
  }

  /** A call that goes through on both sides takes effect on both. */
  lemma GoingCallTakesEffect(w: S.World, d: C.Deployment, hash: Hasher, x: Case, call: ServiceCall, tx: Tx, db: Db,
                             c: C.Chain)
    requires S.Inv(w, d, hash) && S.Operates(d) && Goes(w.db, db, w.chain, c, d, false, hash, x, call, tx)
    requires call.Create? ==> Payout.BoundedRates(call.req.targetKw, call.req.rewardRate, call.req.penaltyRate)
    ensures var t := S.Serve(call, true, tx, x.now, x.time);
            && S.WellFormedTurn(w, d, t) && S.BoundedTurn(t)
            && S.Step(w, d, hash, t) == S.World(db, c) && S.Inv(S.World(db, c), d, hash)
  {
    hide S.Inv, Perform, S.ChecksPass, C.Execute, S.Operates, Payout.BoundedRates, S.ChainCall;
    var t := S.Serve(call, true, tx, x.now, x.time);
    S.StepKeepsInv(w, d, hash, t);
  }

  lemma InvParts(w: S.World, d: C.Deployment, hash: Hasher)
    requires S.Inv(w, d, hash)
    ensures DbInv(w.db, hash) && R.Inv(d, w.chain)
  {
  }

  lemma GivenParts(d: C.Deployment, hash: Hasher, x: Case, token: T.Token)
    requires Given(d, hash, x, token)
    ensures S.Operates(d) && Fits(x, hash)
    ensures Payout.BoundedRates(x.req.targetKw, x.req.rewardRate, x.req.penaltyRate)
  {
    hide S.Operates, ReadingFits, Funded, C.Encodable, TimeOrder.LexLess;
  }

  lemma OnlyFirstCreates(x: Case, k: nat)
    requires k < x.Last() && forall s :: s in x.sites ==> s in x.readings
    ensures CallAt(x, k).Create? ==> CallAt(x, k).req == x.req
    ensures CallAt(x, x.Last() - 1) == RequestAudit(x.Event(), x.audit)
  {
  }

  lemma NextStage(w: S.World, d: C.Deployment, hash: Hasher, x: Case, token: T.Token, tx: Tx, k: nat)
    requires k < x.Last() - 1 && Stage(w, d, hash, x, token, k) && Given(d, hash, x, token)
    ensures forall s :: s in x.sites ==> s in x.readings
    ensures S.WellFormedTurn(w, d, TurnAt(x, tx, k)) && S.BoundedTurn(TurnAt(x, tx, k))
    ensures Stage(S.Step(w, d, hash, TurnAt(x, tx, k)), d, hash, x, token, k + 1)
  {
    hide S.Inv, Given, StageDb, StageChain, Goes, CallAt, S.Step, S.WellFormedTurn, S.BoundedTurn, S.Operates,
         Payout.BoundedRates;
    InvParts(w, d, hash);
    hide DbInv, R.Inv;
    var db, c := CallGoes(w.db, w.chain, d, false, hash, x, token, k, tx);
    GivenParts(d, hash, x, token);
    OnlyFirstCreates(x, k);
    hide Fits;
    GoingCallTakesEffect(w, d, hash, x, CallAt(x, k), tx, db, c);
  }

  lemma AuditServed(w: S.World, d: C.Deployment, hash: Hasher, x: Case, tx: Tx)
    requires Audit(w.db, x.Event(), x.audit, x.now).Ok?
    ensures var t := S.Serve(RequestAudit(x.Event(), x.audit), true, tx, x.now, x.time);
            && S.WellFormedTurn(w, d, t) && S.BoundedTurn(t)
            && S.Step(w, d, hash, t) == w.(db := Audit(w.db, x.Event(), x.audit, x.now).value)
  {
    hide Audit;
  }

  lemma AuditStage(w: S.World, d: C.Deployment, hash: Hasher, x: Case, token: T.Token, tx: Tx)
    requires Stage(w, d, hash, x, token, x.Last() - 1) && Given(d, hash, x, token)
    ensures forall s :: s in x.sites ==> s in x.readings
    ensures S.WellFormedTurn(w, d, TurnAt(x, tx, x.Last() - 1)) && S.BoundedTurn(TurnAt(x, tx, x.Last() - 1))
    ensures Stage(S.Step(w, d, hash, TurnAt(x, tx, x.Last() - 1)), d, hash, x, token, x.Last())
  {
    hide S.Inv, Fits, Given, StageDb, StageChain, S.Step, S.WellFormedTurn, S.BoundedTurn, S.Operates, Audit, CallAt;
    GivenParts(d, hash, x, token);
    GivenReads(d, hash, x, token);
    OnlyFirstCreates(x, 0);
    AuditWrites(w.db, hash, x);
    AuditServed(w, d, hash, x, tx);
    S.StepKeepsInv(w, d, hash, TurnAt(x, tx, x.Last() - 1));
  }

  lemma LegalHead(w: S.World, d: C.Deployment, hash: Hasher, t: S.Turn, rest: seq<S.Turn>)
    requires S.WellFormedTurn(w, d, t) && S.BoundedTurn(t) && S.LegalRun(S.Step(w, d, hash, t), d, hash, rest)
    ensures S.LegalRun(w, d, hash, [t] + rest) && S.Run(w, d, hash, [t] + rest)
              == S.Run(S.Step(w, d, hash, t), d, hash, rest)
  {
    hide S.Step;
    assert ([t] + rest)[1..] == rest;
  }

  lemma {:induction false} StagesFollow(w: S.World, d: C.Deployment, hash: Hasher, x: Case, token: T.Token, tx: Tx,
                                        k: nat)
    requires k <= x.Last() && Stage(w, d, hash, x, token, k) && Given(d, hash, x, token)
    ensures forall s :: s in x.sites ==> s in x.readings
    ensures S.LegalRun(w, d, hash, TurnsFrom(x, tx, k))
    ensures Stage(S.Run(w, d, hash, TurnsFrom(x, tx, k)), d, hash, x, token, x.Last())
    decreases x.Last() - k
  {
    hide Stage, Given, S.Step, S.WellFormedTurn, S.BoundedTurn, TurnAt;
    GivenReads(d, hash, x, token);
    if k < x.Last() {
      if k == x.Last() - 1 {
        AuditStage(w, d, hash, x, token, tx);
      } else {
        NextStage(w, d, hash, x, token, tx, k);
      }
      StagesFollow(S.Step(w, d, hash, TurnAt(x, tx, k)), d, hash, x, token, tx, k + 1);
      LegalHead(w, d, hash, TurnAt(x, tx, k), TurnsFrom(x, tx, k + 1));
    }
  }

  /** All calls of the lifecycle are accepted, for any sites, request and order of claims. */
  lemma LifecycleFinishes(w: S.World, d: C.Deployment, hash: Hasher, x: Case, tx: Tx)
    requires Ready(w, d, hash, x)
    ensures forall s :: s in x.sites ==> s in x.readings
    ensures S.LegalRun(w, d, hash, TurnsFrom(x, tx, 0))
    ensures var n := S.Run(w, d, hash, TurnsFrom(x, tx, 0)); Finished(n.db, n.chain, d, x, w.chain.token)
  {
    ReadyIsStage(w, d, hash, x);
    hide S.Inv, Stage, Given, S.Run, S.LegalRun;
    StagesFollow(w, d, hash, x, w.chain.token, tx, 0);
    StageEnds(S.Run(w, d, hash, TurnsFrom(x, tx, 0)), d, hash, x, w.chain.token);
  }

  lemma StageEnds(w: S.World, d: C.Deployment, hash: Hasher, x: Case, token: T.Token)
    requires Stage(w, d, hash, x, token, x.Last())
    ensures Finished(w.db, w.chain, d, x, token)
  {
    hide S.Inv, StageDb, StageChain;
    LastStageIsFinished(w.db, w.chain, d, x, token);
  }

  lemma EmptyIsRelated(d: C.Deployment, token: T.Token)
    ensures S.Rel(S.World(EMPTY_DB, R.Fresh(token)), d) && S.Bounded(EMPTY_DB)
  {
  }

  /** Such a start exists: fresh contracts whose supply is held by the Settlement account. */
  lemma FundedStartIsReady(d: C.Deployment, hash: Hasher, supply: nat, x: Case)
    requires T.DeployDrt(d.settlement, supply).Ok? && Given(d, hash, x, T.DeployDrt(d.settlement, supply).value)
    ensures Ready(S.World(EMPTY_DB, R.Fresh(T.DeployDrt(d.settlement, supply).value)), d, hash, x)
  {
    assert CreateGuard(EMPTY_DB, x.req) == None by {
      hide Fits, Funded, C.Encodable, TimeOrder.LexLess;
      StartGuard(d, hash, x, T.DeployDrt(d.settlement, supply).value);
    }
    hide Given, CreateGuard, R.Inv, DbInv, S.Rel, S.Bounded;
    R.FreshSatisfiesInv(d, d.settlement, supply);
    EmptyDbInv(hash);
    EmptyIsRelated(d, T.DeployDrt(d.settlement, supply).value);
    hide T.DeployDrt;
  }

  lemma StartGuard(d: C.Deployment, hash: Hasher, x: Case, token: T.Token)
    requires Given(d, hash, x, token)
    ensures CreateGuard(EMPTY_DB, x.req) == None
  {
    hide Funded, C.Encodable, TimeOrder.LexLess, ReadingFits;
  }
}
