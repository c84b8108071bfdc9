/** Stretches of hybrid runs: a call served, mined and seen by a pass, with what they leave on both sides. */
module HybridSteps {
  import opened Common
  import opened Database
  import opened Reconcile
  import opened Submitter
  import opened DbRuns
  import opened Lifecycle
  import H = HybridGating
  import SH = SharedHashes
  import S = SyncSimulation
  import C = Contracts
  import R = ChainRuns
  import Payout

  // ---- Joining runs ----

  lemma {:induction false} RunsJoin(w: H.World, d: C.Deployment, hash: Hasher, a: seq<H.Action>, b: seq<H.Action>)
    requires H.LegalRun(w, d, hash, a) && H.LegalRun(H.Run(w, d, hash, a), d, hash, b)
    ensures H.LegalRun(w, d, hash, a + b) && H.Run(w, d, hash, a + b) == H.Run(H.Run(w, d, hash, a), d, hash, b)
    decreases |a|
  {
    hide H.Step, H.Enabled;
    if a == [] {
      assert a + b == b;
    } else {
      RunsJoin(H.Step(w, d, hash, a[0]), d, hash, a[1..], b);
      assert (a + b)[1..] == a[1..] + b;
    }
  }

  lemma OneAction(w: H.World, d: C.Deployment, hash: Hasher, a: H.Action)
    requires H.Enabled(w, d, a)
    ensures H.LegalRun(w, d, hash, [a]) && H.Run(w, d, hash, [a]) == H.Step(w, d, hash, a)
  {
    hide H.Step, H.Enabled;
    NoAction(H.Step(w, d, hash, a), d, hash);
    assert [a][1..] == [];
  }

  lemma NoAction(w: H.World, d: C.Deployment, hash: Hasher)
    ensures H.LegalRun(w, d, hash, []) && H.Run(w, d, hash, []) == w
  {
  }

  /** A world of a run: what every run keeps. */
  ghost predicate Good(w: H.World, d: C.Deployment, hash: Hasher) {
    H.Inv(w, d, hash) && SH.Shared(w.db) && S.Operates(d)
  }

  lemma GoodParts(w: H.World, d: C.Deployment, hash: Hasher)
    requires Good(w, d, hash)
    ensures DbInv(w.db, hash) && R.Inv(d, w.chain) && "" !in w.txs && S.Operates(d) && H.SlotsTrue(w.db, w.txs)
  {
  }

  lemma ActionKeepsGood(w: H.World, d: C.Deployment, hash: Hasher, a: H.Action)
    requires Good(w, d, hash) && H.Enabled(w, d, a)
    ensures Good(H.Step(w, d, hash, a), d, hash)
  {
    hide H.Inv, SH.Shared, H.Step, H.Enabled;
    H.StepKeepsInv(w, d, hash, a);
    SH.HybridStepKeepsShared(w, d, hash, a);
  }

  // ---- Single actions ----

  ghost predicate FreshHash(w: H.World, h: string) {
    h != "" && h !in w.txs
  }

  /** Serving a call whose checks pass; the tables change when the write goes through. */
  lemma Sends(w: H.World, d: C.Deployment, hash: Hasher, call: ServiceCall, h: string, now: string,
              r: Result<Db, ServiceError>, sent: C.Call)
    returns (n: H.World)
    requires Good(w, d, hash) && FreshHash(w, h)
    requires WellFormed(w.db, call) && !call.Pass? && !call.RequestAudit? && H.ChecksPass(w.db, hash, call, now)
    requires r == Perform(w.db, true, hash, call, H.Pending(h, now), now) && sent == S.ChainCall(w.db, hash, call, now)
    ensures H.Enabled(w, d, H.Serve(call, Some(H.Pending(h, now)), now))
            && n == H.Step(w, d, hash, H.Serve(call, Some(H.Pending(h, now)), now))
    ensures Good(n, d, hash)
    ensures n == H.World(if r.Ok? then r.value else w.db, w.chain, w.txs[h := H.Sent(sent, Submitted)])
  {
    hide Good, Perform, H.ChecksPass, C.Execute, S.ChainCall;
    n := H.Step(w, d, hash, H.Serve(call, Some(H.Pending(h, now)), now));
    ActionKeepsGood(w, d, hash, H.Serve(call, Some(H.Pending(h, now)), now));
  }

  /** Mining a pending transaction: executed and confirmed, or failed and without effect. */
  lemma Mines(w: H.World, d: C.Deployment, hash: Hasher, h: string, included: bool, time: nat,
              r: Result<C.Chain, C.Revert>)
    returns (n: H.World)
    requires Good(w, d, hash) && h in w.txs && w.txs[h].state == Submitted
    requires r == C.Execute(d, w.chain, d.operator, time, w.txs[h].call)
    ensures H.Enabled(w, d, H.Mine(h, included, time)) && n == H.Step(w, d, hash, H.Mine(h, included, time))
    ensures Good(n, d, hash)
    ensures n == if included && r.Ok? then H.World(w.db, r.value, w.txs[h := w.txs[h].(state := Confirmed)])
                 else H.World(w.db, w.chain, w.txs[h := w.txs[h].(state := TxState.Failed)])
  {
    hide Good, C.Execute;
    n := H.Step(w, d, hash, H.Mine(h, included, time));
    ActionKeepsGood(w, d, hash, H.Mine(h, included, time));
  }

  /** Every transaction of the event is final, or is the one under way. */
  ghost predicate Open(db: Db, e: string, h: string, now: string) {
    forall y: Slot :: y.event == e && TxAt(db, y).Some? ==>
      TxAt(db, y).value.state != Submitted || TxAt(db, y).value == H.Pending(h, now)
  }

  ghost predicate Quiet(db: Db, e: string) {
    forall y: Slot :: y.event == e && TxAt(db, y).Some? ==> TxAt(db, y).value.state != Submitted
  }

  /** What hybrid mode waits for is confirmed, or is under way. */
  ghost predicate Clearing(db: Db, e: string, h: string, now: string) {
    forall y: Slot :: y.event == e && !y.ProofTx? && !y.ClaimTx? && TxAt(db, y).Some? ==>
      TxAt(db, y).value.state == Confirmed || TxAt(db, y).value == H.Pending(h, now)
  }

  function Answer(h: string, state: TxState, now: string): Snapshot {
    map[h := CheckResult(state, Some("0"), if state == Confirmed then Some(now) else None, None)]
  }

  lemma PassIsFull(db: Db, e: string, h: string, state: TxState, now: string)
    requires Open(db, e, h, now)
    ensures Visits(db, e, Answer(h, state, now), SlotsOf(db, e))
  {
    var answers := Answer(h, state, now);
    forall y | y in SlotsOf(db, e) && TxAt(db, y).Some? && NeedsReconcile(TxAt(db, y).value)
      ensures TxAt(db, y).value.hash in answers
    {
      SlotsOfFilled(db, e, y);
    }
    assert Answered(db, answers, SlotsOf(db, e));
    assert PassOf(db, e, PassRecord(answers, SlotsOf(db, e), None));
  }

  /** A pass that sees where the transaction under way stands. */
  lemma Sees(w: H.World, d: C.Deployment, hash: Hasher, e: string, h: string, state: TxState, now: string)
    returns (n: H.World)
    requires Good(w, d, hash) && Open(w.db, e, h, now) && h in w.txs && w.txs[h].state == state && state != Submitted
    ensures H.Enabled(w, d, H.Reconcile(e, Answer(h, state, now), SlotsOf(w.db, e)))
    ensures n == H.Step(w, d, hash, H.Reconcile(e, Answer(h, state, now), SlotsOf(w.db, e))) && Good(n, d, hash)
    ensures n == w.(db := Reconciled(w.db, Answer(h, state, now), SlotsOf(w.db, e)))
  {
    PassIsFull(w.db, e, h, state, now);
    hide Good, Open, SlotsOf, Reconciled, Visits;
    n := H.Step(w, d, hash, H.Reconcile(e, Answer(h, state, now), SlotsOf(w.db, e)));
    ActionKeepsGood(w, d, hash, H.Reconcile(e, Answer(h, state, now), SlotsOf(w.db, e)));
  }

  // ---- What a pass shows ----

  lemma SlotSeen(db: Db, e: string, h: string, state: TxState, now: string, y: Slot)
    requires h != "" && state != Submitted && y.event == e && TxAt(db, y).Some?
    ensures var n := Reconciled(db, Answer(h, state, now), SlotsOf(db, e));
            && TxAt(n, y).Some?
            && (TxAt(db, y).value == H.Pending(h, now) ==> TxAt(n, y).value.state == state)
            && (TxAt(db, y).value.state != Submitted ==> TxAt(n, y) == TxAt(db, y))
  {
    SlotsOfFilled(db, e, y);
    hide Reconciled, SlotsOf;
    ReconciledAt(db, Answer(h, state, now), SlotsOf(db, e), y);
    UpdatedSettled(TxAt(db, y).value, Answer(h, state, now));
  }

  lemma SameFilled(db: Db, answers: Snapshot, done: set<Slot>, y: Slot)
    ensures TxAt(Reconciled(db, answers, done), y).Some? <==> TxAt(db, y).Some?
  {
    hide Reconciled;
    ReconciledAt(db, answers, done, y);
  }

  lemma PassQuiets(db: Db, e: string, h: string, state: TxState, now: string)
    requires Open(db, e, h, now) && h != "" && state != Submitted
    ensures Quiet(Reconciled(db, Answer(h, state, now), SlotsOf(db, e)), e)
  {
    var n := Reconciled(db, Answer(h, state, now), SlotsOf(db, e));
    hide Reconciled, SlotsOf, TxAt;
    forall y: Slot | y.event == e && TxAt(n, y).Some? ensures TxAt(n, y).value.state != Submitted {
      SameFilled(db, Answer(h, state, now), SlotsOf(db, e), y);
      SlotSeen(db, e, h, state, now, y);
    }
  }

  lemma PassClears(db: Db, e: string, h: string, now: string)
    requires Clearing(db, e, h, now) && h != ""
    ensures Clear(Reconciled(db, Answer(h, Confirmed, now), SlotsOf(db, e)), e)
  {
    var n := Reconciled(db, Answer(h, Confirmed, now), SlotsOf(db, e));
    hide Reconciled, SlotsOf, TxAt;
    forall y: Slot | y.event == e && !y.ProofTx? && !y.ClaimTx? && TxAt(n, y).Some?
      ensures TxAt(n, y).value.state == Confirmed {
      SameFilled(db, Answer(h, Confirmed, now), SlotsOf(db, e), y);
      SlotSeen(db, e, h, Confirmed, now, y);
    }
  }

  /** A failed answer about a proof leaves what hybrid mode waits for confirmed. */
  lemma FailureKeepsClear(db: Db, e: string, h: string, now: string)
    requires Clear(db, e) && h != ""
    ensures Clear(Reconciled(db, Answer(h, TxState.Failed, now), SlotsOf(db, e)), e)
  {
    var n := Reconciled(db, Answer(h, TxState.Failed, now), SlotsOf(db, e));
    hide Reconciled, SlotsOf, TxAt;
    forall y: Slot | y.event == e && !y.ProofTx? && !y.ClaimTx? && TxAt(n, y).Some?
      ensures TxAt(n, y).value.state == Confirmed {
      SameFilled(db, Answer(h, TxState.Failed, now), SlotsOf(db, e), y);
      SlotSeen(db, e, h, TxState.Failed, now, y);
    }
  }

  lemma StageSeen(db: Db, answers: Snapshot, done: set<Slot>, x: Case, k: nat)
    requires StageDb(db, x, k)
    ensures StageDb(Reconciled(db, answers, done), x, k)
  {
    ReconcileKeepsBusiness(db, answers, done);
    hide Reconciled, Dedup, SortedSites, Payout.CalculatePayout;
    var n := Reconciled(db, answers, done);
    if k > 0 {
      assert db.events[x.Event()].(tx := n.events[x.Event()].tx, closeTx := n.events[x.Event()].closeTx)
          == n.events[x.Event()];
    }
    forall s | (x.Event(), s) in db.proofs
      ensures db.proofs[(x.Event(), s)].(tx := n.proofs[(x.Event(), s)].tx) == n.proofs[(x.Event(), s)] {
    }
  }

  // ---- A call from sending to confirmation ----

  /** The write fills slots with the pending transaction and leaves the others as they were. */
  lemma WriteOpens(db: Db, next: Db, hash: Hasher, call: ServiceCall, e: string, h: string, now: string)
    requires DbInv(db, hash) && WellFormed(db, call) && !call.Pass?
    requires Perform(db, true, hash, call, H.Pending(h, now), now) == Ok(next)
    ensures Quiet(db, e) ==> Open(next, e, h, now)
    ensures Clear(db, e) ==> Clearing(next, e, h, now)
  {
    hide DbInv, Perform, TxAt;
    var filled := SH.CallFills(db, true, hash, call, H.Pending(h, now), now);
  }

  /** Serve, mine and reconcile. */
  function Acts(e: string, call: ServiceCall, db: Db, h: string, now: string, time: nat): seq<H.Action> {
    [H.Serve(call, Some(H.Pending(h, now)), now), H.Mine(h, true, time),
     H.Reconcile(e, Answer(h, Confirmed, now), SlotsOf(db, e))]
  }

  lemma ThreeSteps(w: H.World, w1: H.World, w2: H.World, w3: H.World, d: C.Deployment, hash: Hasher,
                   a: H.Action, b: H.Action, c: H.Action)
    requires H.Enabled(w, d, a) && w1 == H.Step(w, d, hash, a)
    requires H.Enabled(w1, d, b) && w2 == H.Step(w1, d, hash, b)
    requires H.Enabled(w2, d, c) && w3 == H.Step(w2, d, hash, c)
    ensures H.LegalRun(w, d, hash, [a, b, c]) && H.Run(w, d, hash, [a, b, c]) == w3
  {
    hide H.Step, H.Enabled, H.LegalRun, H.Run;
    OneAction(w, d, hash, a);
    OneAction(w1, d, hash, b);
    OneAction(w2, d, hash, c);
    RunsJoin(w1, d, hash, [b], [c]);
    assert [b] + [c] == [b, c];
    RunsJoin(w, d, hash, [a], [b, c]);
    assert [a] + [b, c] == [a, b, c];
  }

  lemma MinedOnce(txs: map<string, H.Sent>, h: string, call: C.Call, state: TxState)
    ensures txs[h := H.Sent(call, Submitted)][h := H.Sent(call, Submitted).(state := state)]
              == txs[h := H.Sent(call, state)]
  {
  }

  /**
   After the three actions the call is written, executed and confirmed on both sides, and nothing of the event is
   pending.
   */
  lemma CallConfirms(w: H.World, d: C.Deployment, hash: Hasher, x: Case, call: ServiceCall, h: string, db: Db,
                     c: C.Chain)
    returns (n: H.World)
    requires Good(w, d, hash) && FreshHash(w, h) && Quiet(w.db, x.Event()) && Clear(w.db, x.Event())
    requires Goes(w.db, db, w.chain, c, d, true, hash, x, call, H.Pending(h, x.now))
    ensures H.LegalRun(w, d, hash, Acts(x.Event(), call, db, h, x.now, x.time))
    ensures n == H.Run(w, d, hash, Acts(x.Event(), call, db, h, x.now, x.time)) && Good(n, d, hash)
    ensures n.db == Reconciled(db, Answer(h, Confirmed, x.now), SlotsOf(db, x.Event())) && n.chain == c
    ensures n.txs == w.txs[h := H.Sent(S.ChainCall(w.db, hash, call, x.now), Confirmed)]
    ensures Quiet(n.db, x.Event()) && Clear(n.db, x.Event())
  {
    var sent := S.ChainCall(w.db, hash, call, x.now);
    GoodParts(w, d, hash);
    hide Good, Perform, H.ChecksPass, C.Execute, S.ChainCall, H.Step, H.Enabled, H.LegalRun, H.Run, Reconciled, SlotsOf,
         DbInv, R.Inv, S.Operates, H.SlotsTrue, Quiet, Open, Clear, Clearing, WellFormed;
    WriteOpens(w.db, db, hash, call, x.Event(), h, x.now);
    var w1 := Sends(w, d, hash, call, h, x.now, Ok(db), sent);
    var w2 := Mines(w1, d, hash, h, true, x.time, Ok(c));
    MinedOnce(w.txs, h, sent, Confirmed);
    n := Sees(w2, d, hash, x.Event(), h, Confirmed, x.now);
    PassQuiets(db, x.Event(), h, Confirmed, x.now);
    PassClears(db, x.Event(), h, x.now);
    ThreeSteps(w, w1, w2, n, d, hash, H.Serve(call, Some(H.Pending(h, x.now)), x.now), H.Mine(h, true, x.time),
               H.Reconcile(x.Event(), Answer(h, Confirmed, x.now), SlotsOf(db, x.Event())));
  }
}
