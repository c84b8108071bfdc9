/** Every call of the service object is a stretch of the runs that the theorems are about: its passes, then one turn. */
module ServiceRuns {
  import opened Common
  import opened Database
  import opened Reconcile
  import opened Submitter
  import opened ChainReplies
  import opened DbRuns
  import opened SubmitterObject
  import HS = HybridSteps
  import H = HybridGating
  import S = SyncSimulation
  import C = Contracts

  /** The transaction with which a call gets to its write, if it gets there. */
  function Reached(cut: bool, reply: Result<Tx, ServiceError>): Option<Tx> {
    if cut || reply.Err? then None else Some(reply.value)
  }

  ghost predicate Callable(call: ServiceCall) {
    !call.Pass? && (call.Create? ==> ValidRequest(call.req))
  }

  /** The tables after the passes and one turn. */
  ghost predicate Served(db: Db, n: Db, gated: bool, hash: Hasher, e: string, passes: seq<PassRecord>,
                         call: ServiceCall, reply: Option<Tx>,
                         now: string)
    requires Callable(call)
  {
    PassesOf(db, e, passes) && n == Take(AfterPasses(db, passes), gated, hash, Turn(call, reply, now))
  }

  // ---- Method by method ----

  lemma CreateServes(db: Db, n: Db, gated: bool, hash: Hasher, req: CreateRequest, reply: Result<Tx, ServiceError>,
                     now: string,
                     r: Result<EventRow, ServiceError>)
    requires ValidRequest(req) && CreateOutcome(db, n, req, reply, now, r)
    ensures Served(db, n, gated, hash, req.eventId, [], Create(req), Reached(false, reply), now)
  {
    NoPasses(db, req.eventId);
    hide CreateGuard, CreateCommit, ValidRequest;
  }

  lemma CloseServes(db: Db, n: Db, gated: bool, hash: Hasher, e: string, reply: Result<Tx, ServiceError>, now: string,
                    r: Result<EventRow, ServiceError>)
    requires CloseOutcome(db, n, e, reply, now, r)
    ensures Served(db, n, gated, hash, e, [], Close(e), Reached(false, reply), now)
  {
    NoPasses(db, e);
    hide CloseGuard, CloseCommit;
  }

  lemma ProofServes(db: Db, n: Db, gated: bool, hash: Hasher, req: ProofRequest, actor: string, passes: seq<PassRecord>,
                    reply: Result<Tx, ServiceError>, now: string, r: Result<ProofRow, ServiceError>)
    requires ProofOutcome(db, n, gated, hash, req, actor, passes, reply, now, r)
    ensures Served(db, n, gated, hash, req.eventId, passes, SubmitProof(req, actor), Reached(CutShort(passes), reply),
                   now)
  {
    NoPasses(db, req.eventId);
    hide PassesOf, AfterPasses, CreateConfirmed, HashAccepted, ProofCommit;
  }

  lemma SettleOpenStays(db: Db, gated: bool, e: string, sites: seq<string>, passes: seq<PassRecord>)
    requires SettleOpen(db, e).Some?
    ensures SettleGuard(AfterPasses(db, passes), gated, e, sites).Err?
  {
    PassesKeepBusiness(db, passes);
    if e in db.events { EventStays(db, e, passes); }
    hide AfterPasses;
  }

  lemma SettleTurn(mid: Db, n: Db, gated: bool, hash: Hasher, e: string, sites: seq<string>, reply: Option<Tx>,
                   now: string)
    requires reply.None? || SettleGuard(mid, gated, e, sites).Err? ==> n == mid
    requires reply.Some? && SettleGuard(mid, gated, e, sites).Ok? ==>
      e in mid.events && n == SettleCommit(mid, e, SettleGuard(mid, gated, e, sites).value, reply.value, now)
    ensures n == Take(mid, gated, hash, Turn(Settle(e, sites), reply, now))
  {
    hide SettleCommit, SettleList, SettleRows, CloseConfirmed;
  }

  lemma GuardHasEvent(db: Db, gated: bool, e: string, sites: seq<string>)
    requires SettleGuard(db, gated, e, sites).Ok?
    ensures e in db.events
  {
    hide SettleList, SettleRows;
  }

  /** The pass after a raised chain step counts among the passes. */
  lemma SettleServes(db: Db, n: Db, gated: bool, hash: Hasher, e: string, sites: seq<string>, passes: seq<PassRecord>,
                     late: Option<PassRecord>, raw: RawReply, reply: Result<Tx, ServiceError>, now: string,
                     r: Result<seq<(string, SettlementRow)>, ServiceError>)
    requires SettleOutcome(db, n, gated, e, sites, passes, late, raw, reply, now, r)
    ensures Served(db, n, gated, hash, e, passes + (if late.Some? then [late.value] else []), Settle(e, sites),
                   Reached(CutShort(passes), reply), now)
  {
    var mid, sent := AfterPasses(db, passes), Reached(CutShort(passes), reply);
    hide PassesOf, AfterPasses, PassOf, Reconciled, SettleGuard, SettleCommit, RowsReturned, Take;
    if SettleOpen(db, e).Some? { SettleOpenStays(db, gated, e, sites, passes); }
    hide SettleOpen;
    if late.Some? {
      OneMorePass(db, e, passes, late.value);
      SettleTurn(n, n, gated, hash, e, sites, None, now);
    } else {
      assert passes + [] == passes;
      if SettleGuard(mid, gated, e, sites).Ok? { GuardHasEvent(mid, gated, e, sites); }
      SettleTurn(mid, n, gated, hash, e, sites, sent, now);
    }
  }

  lemma ClaimTurn(mid: Db, n: Db, gated: bool, hash: Hasher, e: string, site: string, actor: string, reply: Option<Tx>,
                  now: string)
    requires ClaimGuard(mid, gated, e, site, actor).Some? || reply.None? ==> n == mid
    requires ClaimGuard(mid, gated, e, site, actor).None? ==> (e, site) in mid.settlements
    requires ClaimGuard(mid, gated, e, site, actor).None? && reply.Some? ==>
               n == ClaimCommit(mid, e, site, reply.value, now)
    ensures n == Take(mid, gated, hash, Turn(Claim(e, site, actor), reply, now))
  {
    hide ClaimGuard, ClaimCommit;
  }

  lemma OnePass(db: Db, e: string, pass: PassRecord)
    requires PassOf(db, e, pass)
    ensures PassesOf(db, e, [pass]) && AfterPasses(db, [pass]) == Reconciled(db, pass.answers, pass.done)
  {
    NoPasses(db, e);
    OneMorePass(db, e, [], pass);
    assert [] + [pass] == [pass];
  }

  lemma ClaimServes(db: Db, n: Db, gated: bool, hash: Hasher, e: string, site: string, actor: string, pass: PassRecord,
                    reply: Result<Tx, ServiceError>, now: string, r: Result<SettlementRow, ServiceError>)
    requires ClaimOutcome(db, n, gated, e, site, actor, pass, reply, now, r)
    ensures Served(db, n, gated, hash, e, if gated then [pass] else [], Claim(e, site, actor),
                   Reached(pass.cutAt.Some?, reply), now)
  {
    var mid := if gated then Reconciled(db, pass.answers, pass.done) else db;
    if ClaimGuard(mid, gated, e, site, actor).None? { ClaimHasRow(mid, gated, e, site, actor); }
    hide PassesOf, AfterPasses, PassOf, Reconciled, ClaimGuard, ClaimCommit, Take;
    NoPasses(db, e);
    if gated { OnePass(db, e, pass); }
    ClaimTurn(mid, n, gated, hash, e, site, actor, Reached(pass.cutAt.Some?, reply), now);
  }

  lemma AuditServes(db: Db, n: Db, gated: bool, hash: Hasher, e: string, site: string, now: string,
                    r: Result<(string, string, bool), ServiceError>)
    requires AuditOutcome(db, n, hash, e, site, now, r)
    ensures Served(db, n, gated, hash, e, [], RequestAudit(e, site), None, now)
  {
    NoPasses(db, e);
    hide Audit;
  }

  // ---- As runs on the tables ----

  lemma {:induction false} OneMoreTurn(db: Db, gated: bool, hash: Hasher, turns: seq<Turn>, t: Turn)
    requires Legal(db, gated, hash, turns) && WellFormed(Run(db, gated, hash, turns), t.call)
    ensures Legal(db, gated, hash, turns + [t])
    ensures Run(db, gated, hash, turns + [t]) == Take(Run(db, gated, hash, turns), gated, hash, t)
    decreases |turns|
  {
    hide WellFormed, Take;
    if turns == [] {
      assert turns + [t] == [t] && [t][1..] == [];
    } else {
      OneMoreTurn(Take(db, gated, hash, turns[0]), gated, hash, turns[1..], t);
      assert (turns + [t])[1..] == turns[1..] + [t];
    }
  }

  function PassTurns(e: string, passes: seq<PassRecord>): seq<Turn> {
    seq(|passes|, i requires 0 <= i < |passes| => Turn(Pass(e, passes[i].answers, passes[i].done), None, ""))
  }

  lemma {:induction false} PassesAreTurns(db: Db, gated: bool, hash: Hasher, e: string, passes: seq<PassRecord>)
    requires PassesOf(db, e, passes)
    ensures Legal(db, gated, hash, PassTurns(e, passes))
    ensures Run(db, gated, hash, PassTurns(e, passes)) == AfterPasses(db, passes)
  {
    hide PassOf, Reconciled, SlotsOf;
    if passes != [] {
      var front, last := passes[..|passes| - 1], passes[|passes| - 1];
      PassesAreTurns(db, gated, hash, e, front);
      PassOwnsSlots(AfterPasses(db, front), e, last);
      OneMoreTurn(db, gated, hash, PassTurns(e, front), Turn(Pass(e, last.answers, last.done), None, ""));
      assert PassTurns(e, passes) == PassTurns(e, front) + [Turn(Pass(e, last.answers, last.done), None, "")];
    }
  }

  lemma PassOwnsSlots(db: Db, e: string, p: PassRecord)
    requires PassOf(db, e, p)
    ensures p.done <= SlotsOf(db, e) && Visits(db, e, p.answers, p.done)
  {
    assert p == PassRecord(p.answers, p.done, p.cutAt);
  }

  /**
   In either mode a call's passes and its turn are a run on the tables, so every theorem about runs is about the object.
   */
  lemma ServedIsRun(db: Db, n: Db, gated: bool, hash: Hasher, e: string, passes: seq<PassRecord>, call: ServiceCall,
                    reply: Option<Tx>,
                    now: string)
    requires Callable(call) && Served(db, n, gated, hash, e, passes, call, reply, now)
    ensures Legal(db, gated, hash, PassTurns(e, passes) + [Turn(call, reply, now)])
    ensures Run(db, gated, hash, PassTurns(e, passes) + [Turn(call, reply, now)]) == n
  {
    hide PassesOf, AfterPasses, Take;
    PassesAreTurns(db, gated, hash, e, passes);
    OneMoreTurn(db, gated, hash, PassTurns(e, passes), Turn(call, reply, now));
  }

  // ---- As runs in the hybrid world ----

  function Looks(e: string, passes: seq<PassRecord>): seq<H.Action> {
    seq(|passes|, i requires 0 <= i < |passes| => H.Reconcile(e, passes[i].answers, passes[i].done))
  }

  lemma {:induction false} PassesAreLooks(w: H.World, d: C.Deployment, hash: Hasher, e: string, passes: seq<PassRecord>)
    requires PassesOf(w.db, e, passes) && forall i :: 0 <= i < |passes| ==> H.Truthful(passes[i].answers, w.txs)
    ensures H.LegalRun(w, d, hash, Looks(e, passes))
    ensures H.Run(w, d, hash, Looks(e, passes)) == w.(db := AfterPasses(w.db, passes))
  {
    hide PassOf, Reconciled, SlotsOf, H.LegalRun, H.Run, H.Truthful, Visits;
    if passes == [] {
      HS.NoAction(w, d, hash);
      assert Looks(e, passes) == [];
    } else {
      var front, last := passes[..|passes| - 1], passes[|passes| - 1];
      PassesAreLooks(w, d, hash, e, front);
      var mid := w.(db := AfterPasses(w.db, front));
      PassOwnsSlots(mid.db, e, last);
      HS.OneAction(mid, d, hash, H.Reconcile(e, last.answers, last.done));
      HS.RunsJoin(w, d, hash, Looks(e, front), [H.Reconcile(e, last.answers, last.done)]);
      assert Looks(e, passes) == Looks(e, front) + [H.Reconcile(e, last.answers, last.done)];
    }
  }

  lemma RefusedIsErr(db: Db, hash: Hasher, call: ServiceCall, tx: Tx, now: string)
    requires WellFormed(db, call) && !call.Pass? && !call.RequestAudit? && !H.ChecksPass(db, hash, call, now)
    ensures Perform(db, true, hash, call, tx, now).Err?
  {
    hide SettleGuard, CreateGuard, CloseGuard, ClaimGuard, ProofGuard;
  }

  /** The turn of a call is a Serve action. */
  lemma TurnIsServe(w: H.World, d: C.Deployment, hash: Hasher, call: ServiceCall, reply: Option<Tx>, now: string)
    requires Callable(call) && (reply.Some? ==> H.NewReply(reply.value, w.txs))
    ensures H.Enabled(w, d, H.Serve(call, reply, now))
    ensures var n := H.Step(w, d, hash, H.Serve(call, reply, now));
            n.db == Take(w.db, true, hash, Turn(call, reply, now)) && n.chain == w.chain
  {
    if reply.Some? && !call.RequestAudit? && !H.ChecksPass(w.db, hash, call, now) {
      RefusedIsErr(w.db, hash, call, reply.value, now);
    }
    hide Perform, H.ChecksPass;
    if call.RequestAudit? {
      AuditIgnoresReply(w.db, hash, call, reply, now);
    }
  }

  lemma AuditIgnoresReply(db: Db, hash: Hasher, call: ServiceCall, reply: Option<Tx>, now: string)
    requires call.RequestAudit?
    ensures Take(db, true, hash, Turn(call, reply, now)) == Take(db, true, hash, Turn(call, None, now))
  {
  }

  /**
   In hybrid mode, where a chain step returns a new submitted transaction, a call whose look-ups are answered truthfully
   is a legal stretch of Reconcile actions and one Serve.
   */
  lemma ServedIsHybridRun(w: H.World, n: Db, d: C.Deployment, hash: Hasher, e: string, passes: seq<PassRecord>,
                          call: ServiceCall, reply: Option<Tx>, now: string)
    requires Callable(call) && (reply.Some? ==> H.NewReply(reply.value, w.txs))
    requires Served(w.db, n, true, hash, e, passes, call, reply, now)
    requires forall i :: 0 <= i < |passes| ==> H.Truthful(passes[i].answers, w.txs)
    ensures H.LegalRun(w, d, hash, Looks(e, passes) + [H.Serve(call, reply, now)])
    ensures H.Run(w, d, hash, Looks(e, passes) + [H.Serve(call, reply, now)]).db == n
    ensures H.Run(w, d, hash, Looks(e, passes) + [H.Serve(call, reply, now)]).chain == w.chain
  {
    hide PassesOf, AfterPasses, Take, H.LegalRun, H.Run, H.Step, H.Enabled;
    var mid := w.(db := AfterPasses(w.db, passes));
    PassesAreLooks(w, d, hash, e, passes);
    TurnIsServe(mid, d, hash, call, reply, now);
    HS.OneAction(mid, d, hash, H.Serve(call, reply, now));
    HS.RunsJoin(w, d, hash, Looks(e, passes), [H.Serve(call, reply, now)]);
  }

  // ---- From raw answers ----

  /** The look-ups of a pass read the raw answers of live chain actions. */
  ghost predicate ReadsRaw(check: Oracle, raws: (nat, string) -> RawReply, now: string) {
    forall i: nat, h :: check(i, h) == ReadCheck(true, raws(i, h), now)
  }

  /** Every answer that says confirmed or failed is about a transaction that stands so. */
  ghost predicate Honest(raws: (nat, string) -> RawReply, txs: map<string, H.Sent>) {
    forall i: nat, h :: raws(i, h).Replied? ==>
      && (Says(raws(i, h).state, "confirmed") ==> h in txs && txs[h].state == Confirmed)
      && (Says(raws(i, h).state, "failed") ==> h in txs && txs[h].state == TxState.Failed)
  }

  lemma LookUpsReadRaw(raws: (nat, string) -> RawReply, now: string)
    ensures ReadsRaw(OracleOf(true, raws, now), raws, now)
  {
    hide ReadCheck;
  }

  /** Honest raw answers, read by the look-ups, make the pass's answers what the gating theorem asks for. */
  lemma HonestAnswersAreTruthful(pass: PassRecord, check: Oracle, raws: (nat, string) -> RawReply, now: string,
                                 txs: map<string, H.Sent>)
    requires AnsweredBy(pass, check) && ReadsRaw(check, raws, now) && Honest(raws, txs)
    ensures H.Truthful(pass.answers, txs)
  {
    var queried :| Cached(pass.answers, queried, check);
    forall h | h in pass.answers && pass.answers[h].state != Submitted
      ensures h in txs && txs[h].state == pass.answers[h].state
    {
      var i: nat :| i < |queried| && queried[i] == h;
      assert check(i, h) == Some(pass.answers[h]);
      ReadCheckSays(raws(i, h), now);
      hide ReadCheck, Says;
    }
  }

  /** The chain step raises, or its reply says neither confirmed nor failed, names a new hash and no fee. */
  ghost predicate StillPending(raw: RawReply, txs: map<string, H.Sent>) {
    raw.Replied? ==>
      && !Says(raw.state, "confirmed") && !Says(raw.state, "failed") && raw.fee == None
      && (raw.hash.Some? ==> raw.hash.value !in txs)
  }

  lemma PendingReplyIsNew(uuid: string, raw: RawReply, now: string, cut: bool, txs: map<string, H.Sent>)
    requires StillPending(raw, txs)
    ensures Reached(cut, ReadTx(true, uuid, raw, now)).Some? ==>
              H.NewReply(Reached(cut, ReadTx(true, uuid, raw, now)).value, txs)
  {
    ReadTxSays(uuid, raw, now);
    hide Says, ReadTx;
  }

  /**
   So a call in hybrid mode keeps the gates from the raw answers on: when what the chain actions say about transactions
   is true, and the step's own reply is still pending, the tables after the call are those of a legal stretch, and the
   gating invariant holds there.
   */
  lemma RawAnswersKeepGates(w: H.World, n: Db, d: C.Deployment, hash: Hasher, e: string, passes: seq<PassRecord>,
                            checks: nat -> Oracle, raws: nat -> (nat, string) -> RawReply, times: nat -> string,
                            call: ServiceCall, uuid: string, raw: RawReply, cut: bool, now: string)
    returns (actions: seq<H.Action>)
    requires H.Inv(w, d, hash) && S.Operates(d) && Callable(call) && StillPending(raw, w.txs)
    requires AllAnsweredBy(passes, checks)
    requires forall i: nat :: i < |passes| ==> ReadsRaw(checks(i), raws(i), times(i)) && Honest(raws(i), w.txs)
    requires Served(w.db, n, true, hash, e, passes, call, Reached(cut, ReadTx(true, uuid, raw, now)), now)
    ensures actions == Looks(e, passes) + [H.Serve(call, Reached(cut, ReadTx(true, uuid, raw, now)), now)]
    ensures H.LegalRun(w, d, hash, actions) && H.Run(w, d, hash, actions).db == n
    ensures H.Inv(H.Run(w, d, hash, actions), d, hash)
  {
    hide H.Inv, S.Operates, Served, H.LegalRun, H.Run, AnsweredBy, ReadsRaw, Honest, H.Truthful, ReadTx;
    var reply := Reached(cut, ReadTx(true, uuid, raw, now));
    PendingReplyIsNew(uuid, raw, now, cut, w.txs);
    forall i | 0 <= i < |passes| ensures H.Truthful(passes[i].answers, w.txs) {
      HonestAnswersAreTruthful(passes[i], checks(i), raws(i), times(i), w.txs);
    }
    actions := Looks(e, passes) + [H.Serve(call, reply, now)];
    ServedIsHybridRun(w, n, d, hash, e, passes, call, reply, now);
    H.RunKeepsInv(w, d, hash, actions);
  }
}
