/** The service as an object that updates its tables, each call held to the functions of Submitter and Reconcile. */
module SubmitterObject {
  import opened Common
  import opened Database
  import opened Reconcile
  import opened Submitter
  import opened ChainReplies
  import Payout
  import TimeOrder

  // ---- The answers of one pass ----

  /** The i-th look-up of a pass: what the chain says about a hash, or nothing when the look-up raises. */
  type Oracle = (nat, string) -> Option<CheckResult>

  /** The look-ups that read a chain action's raw answers. */
  function OracleOf(live: bool, raws: (nat, string) -> RawReply, now: string): Oracle {
    (i: nat, h: string) => ReadCheck(live, raws(i, h), now)
  }

  /** The cache holds one answer per hash queried, in query order. */
  ghost predicate Cached(cache: Snapshot, queried: seq<string>, check: Oracle) {
    && NoDup(queried)
    && (forall h :: h in cache <==> h in queried)
    && (forall i :: 0 <= i < |queried| ==> queried[i] in cache && check(i, queried[i]) == Some(cache[queried[i]]))
  }

  /** The pass's answers are those of its look-ups. */
  ghost predicate AnsweredBy(pass: PassRecord, check: Oracle) {
    exists queried :: Cached(pass.answers, queried, check)
  }

  ghost predicate AllAnsweredBy(passes: seq<PassRecord>, checks: nat -> Oracle) {
    forall i: nat :: i < |passes| ==> AnsweredBy(passes[i], checks(i))
  }

  lemma OneMoreAnswered(passes: seq<PassRecord>, more: seq<PassRecord>, checks: nat -> Oracle)
    requires AllAnsweredBy(passes, checks) && |more| == |passes| + 1 && more[..|passes|] == passes
    requires AnsweredBy(more[|passes|], checks(|passes|))
    ensures AllAnsweredBy(more, checks)
  {
    forall i: nat | i < |more| ensures AnsweredBy(more[i], checks(i)) {
      assert i < |passes| ==> more[i] == more[..|passes|][i];
    }
  }

  lemma NoneAsked(check: Oracle)
    ensures AnsweredBy(PassRecord(map[], {}, None), check)
  {
    assert Cached(map[], [], check);
  }

  /** A pass under way: the tables are the old ones with the handled slots updated from the cache. */
  ghost predicate Progress(before: Db, now: Db, e: string, cache: Snapshot, queried: seq<string>, check: Oracle,
                           done: set<Slot>) {
    && Cached(cache, queried, check)
    && done <= SlotsOf(before, e)
    && Answered(before, cache, done)
    && now == Reconciled(before, cache, done)
  }

  /** The pass ended at a pending slot whose look-up raised. */
  ghost predicate LookUpRaised(before: Db, e: string, pass: PassRecord, queried: seq<string>, check: Oracle) {
    && pass.cutAt.Some?
    && CutAt(before, e, pass.answers, pass.done, pass.cutAt.value)
    && check(|queried|, TxAt(before, pass.cutAt.value).value.hash) == None
  }

  lemma StartOfPass(before: Db, e: string, check: Oracle)
    ensures Progress(before, before, e, map[], [], check, {})
  {
    var same := Reconciled(before, map[], {});
    ReconcileKeepsBusiness(before, map[], {});
    SameBusinessSymmetric(before, same);
    forall x ensures TxAt(same, x) == TxAt(before, x) {
      ReconciledAt(before, map[], {}, x);
    }
    SameTables(same, before);
  }

  lemma ProgressKeepsRows(before: Db, now: Db, e: string, cache: Snapshot, queried: seq<string>, check: Oracle,
                          done: set<Slot>)
    requires Progress(before, now, e, cache, queried, check, done)
    ensures now.proofs.Keys == before.proofs.Keys && now.settlements.Keys == before.settlements.Keys
    ensures forall k :: k in before.settlements ==>
              (now.settlements[k].claimTx.Some? <==> before.settlements[k].claimTx.Some?)
  {
    hide Cached, Answered, SlotsOf, Updated;
  }

  ghost predicate Grew(cache: Snapshot, larger: Snapshot) {
    forall h :: h in cache ==> h in larger && larger[h] == cache[h]
  }

  lemma HandledSlot(before: Db, now: Db, e: string, cache: Snapshot, queried: seq<string>, check: Oracle,
                    done: set<Slot>,
                    x: Slot, larger: Snapshot, asked: seq<string>)
    requires Progress(before, now, e, cache, queried, check, done)
    requires x in SlotsOf(before, e) && x !in done && TxAt(before, x).Some?
    requires Cached(larger, asked, check) && Grew(cache, larger)
    requires NeedsReconcile(TxAt(before, x).value) ==> TxAt(before, x).value.hash in larger
    ensures TxAt(now, x) == TxAt(before, x)
    ensures Progress(before, SetTx(now, x, Updated(TxAt(before, x).value, larger)), e, larger, asked, check, done + {x})
  {
    hide Reconciled, Cached;
    SnapshotGrows(before, cache, larger, done);
    OneMoreSlot(before, larger, done, x);
  }

  lemma SetSameTx(db: Db, x: Slot)
    requires TxAt(db, x).Some?
    ensures SetTx(db, x, TxAt(db, x).value) == db
  {
    var same := SetTx(db, x, TxAt(db, x).value);
    SetTxKeepsBusiness(db, x, TxAt(db, x).value);
    SameBusinessSymmetric(db, same);
    SetTxFrame(db, x, TxAt(db, x).value);
    SameTables(same, db);
  }

  // ---- Which slots a pass has visited ----

  function KeyOf(x: Slot): Key {
    match x
    case CreateTx(e) => (e, "")
    case CloseTx(e) => (e, "")
    case ProofTx(e, s) => (e, s)
    case SettleTx(e, s) => (e, s)
    case ClaimTx(e, s) => (e, s)
  }

  /** Everything before one table's phase, and of that table all but the rows still waiting. */
  ghost predicate Visited(before: Db, e: string, done: set<Slot>, phase: nat, waiting: set<Key>) {
    forall x :: x in done <==>
      x in SlotsOf(before, e) && (Phase(x) < phase || (Phase(x) == phase && KeyOf(x) !in waiting))
  }

  lemma VisitedEvent(before: Db, e: string, done: set<Slot>)
    requires e !in before.events ==> done == {}
    requires e in before.events ==> done == {CreateTx(e)} + if before.events[e].closeTx.Some? then {CloseTx(e)} else {}
    ensures Visited(before, e, done, 2, set k | k in before.proofs && k.0 == e)
  {
    forall x ensures x in done <==>
      x in SlotsOf(before, e)
          && (Phase(x) < 2 || (Phase(x) == 2 && KeyOf(x) !in (set k | k in before.proofs && k.0 == e)))
    {
      SlotsOfFilled(before, e, x);
    }
  }

  lemma VisitedProof(before: Db, e: string, done: set<Slot>, waiting: set<Key>, k: Key)
    requires Visited(before, e, done, 2, waiting)
    requires k in waiting && k in before.proofs && k.0 == e
    ensures ProofTx(k.0, k.1) in SlotsOf(before, e) && ProofTx(k.0, k.1) !in done
    ensures Visited(before, e, done + {ProofTx(k.0, k.1)}, 2, waiting - {k})
  {
    SlotsOfFilled(before, e, ProofTx(k.0, k.1));
    assert k == (k.0, k.1);
  }

  lemma VisitedProofs(before: Db, e: string, done: set<Slot>)
    requires Visited(before, e, done, 2, {})
    ensures Visited(before, e, done, 3, set k | k in before.settlements && k.0 == e)
  {
    forall x ensures x in done <==>
      x in SlotsOf(before, e)
          && (Phase(x) < 3 || (Phase(x) == 3 && KeyOf(x) !in (set k | k in before.settlements && k.0 == e)))
    {
      SlotsOfFilled(before, e, x);
    }
  }

  /** The claim column is visited only where it is filled. */
  function RowSlots(before: Db, k: Key): set<Slot>
    requires k in before.settlements
  {
    {SettleTx(k.0, k.1)} + (if before.settlements[k].claimTx.Some? then {ClaimTx(k.0, k.1)} else {})
  }

  lemma VisitedSettlement(before: Db, e: string, done: set<Slot>, waiting: set<Key>, k: Key)
    requires Visited(before, e, done, 3, waiting)
    requires k in waiting && k in before.settlements && k.0 == e
    ensures RowSlots(before, k) <= SlotsOf(before, e) && RowSlots(before, k) !! done
    ensures Visited(before, e, done + RowSlots(before, k), 3, waiting - {k})
  {
    assert k == (k.0, k.1);
    forall x ensures x in SlotsOf(before, e) && Phase(x) == 3 && KeyOf(x) == k <==> x in RowSlots(before, k) {
      SlotsOfFilled(before, e, x);
    }
  }

  lemma VisitedAll(before: Db, e: string, done: set<Slot>)
    requires Visited(before, e, done, 3, {})
    ensures done == SlotsOf(before, e)
  {
    assert forall x: Slot :: Phase(x) <= 3;
  }

  // ---- Waiting ----

  function Ceil(x: real): int {
    -((-x).Floor)
  }

  /** The environment's wait settings, None when unset or unreadable, and the readings of the monotonic clock. */
  datatype WaitPlan = WaitPlan(timeoutSetting: Option<int>, pollSetting: Option<real>, clock: nat -> real) {
    function Timeout(): (t: real)
      ensures t >= 1.0
    {
      match timeoutSetting
      case None => 6.0
      case Some(v) => if v < 1 then 1.0 else v as real
    }

    function Poll(): (p: real)
      ensures p >= 0.2
    {
      match pollSetting
      case None => 0.8
      case Some(v) => if v < 0.2 then 0.2 else v
    }

    /** Between two readings inside the loop lies one sleep of the poll interval. */
    ghost predicate Ticks() {
      && clock(1) >= clock(0)
      && forall i: nat, j: nat :: 1 <= i && j == i + 1 ==> clock(j) >= clock(i) + Poll()
    }

    function MaxPolls(): int {
      Ceil(Timeout() / Poll()) + 1
    }
  }

  /** Unset, the settings allow nine polls; however they are set, at most five for each second and one more. */
  lemma PollsBounded(plan: WaitPlan)
    ensures plan.timeoutSetting == None && plan.pollSetting == None ==> plan.MaxPolls() == 9
    ensures plan.timeoutSetting == None ==> plan.MaxPolls() <= 31
    ensures plan.timeoutSetting.Some? ==>
              plan.MaxPolls() <= 5 * (if plan.timeoutSetting.value < 1 then 1 else plan.timeoutSetting.value) + 1
  {
    var timeout, poll := plan.Timeout(), plan.Poll();
    assert timeout / poll <= 5.0 * timeout by {
      assert timeout <= (5.0 * timeout) * poll;
    }
  }

  lemma CeilBound(n: int, x: real)
    requires n as real < x
    ensures n + 1 <= Ceil(x)
  {
  }

  /** A poll that neither decided nor ran out of time leaves room for one more. */
  lemma AnotherPollFits(plan: WaitPlan, n: nat)
    requires n >= 1 && plan.clock(n) - plan.clock(0) < plan.Timeout()
    requires plan.clock(n) >= plan.clock(0) + (n - 1) as real * plan.Poll()
    ensures n + 1 <= plan.MaxPolls()
  {
    var poll, timeout := plan.Poll(), plan.Timeout();
    assert (n - 1) as real * poll < timeout;
    assert (n - 1) as real < timeout / poll;
    CeilBound(n - 1, timeout / poll);
  }

  lemma ClockAdvances(plan: WaitPlan, n: nat)
    requires plan.Ticks() && n >= 1 && plan.clock(n) >= plan.clock(0) + (n - 1) as real * plan.Poll()
    ensures plan.clock(n + 1) >= plan.clock(0) + n as real * plan.Poll()
  {
    assert n as real * plan.Poll() == (n - 1) as real * plan.Poll() + plan.Poll();
  }

  lemma FirstPollFits(plan: WaitPlan)
    ensures plan.MaxPolls() >= 2
  {
    assert plan.Timeout() / plan.Poll() > 0.0;
    CeilBound(0, plan.Timeout() / plan.Poll());
  }

  lemma NoPasses(db: Db, e: string)
    ensures PassesOf(db, e, []) && AfterPasses(db, []) == db
  {
  }

  lemma OneMorePass(db: Db, e: string, passes: seq<PassRecord>, p: PassRecord)
    requires PassesOf(db, e, passes) && PassOf(AfterPasses(db, passes), e, p)
    ensures PassesOf(db, e, passes + [p])
    ensures AfterPasses(db, passes + [p]) == Reconciled(AfterPasses(db, passes), p.answers, p.done)
  {
    hide PassOf, Reconciled;
    assert (passes + [p])[..|passes|] == passes;
  }

  /** The last pass met a look-up that raised, which ends the call. */
  predicate CutShort(passes: seq<PassRecord>) {
    passes != [] && passes[|passes| - 1].cutAt.Some?
  }

  lemma EventStays(db: Db, e: string, passes: seq<PassRecord>)
    requires e in db.events
    ensures e in AfterPasses(db, passes).events
    ensures AfterPasses(db, passes).events[e].status == db.events[e].status
    ensures AfterPasses(db, passes).events[e].targetKw == db.events[e].targetKw
  {
    PassesKeepBusiness(db, passes);
    hide AfterPasses;
  }

  lemma ProofStaysOpen(db: Db, e: string, passes: seq<PassRecord>)
    ensures ProofOpen(AfterPasses(db, passes), e) == ProofOpen(db, e)
  {
    PassesKeepBusiness(db, passes);
    hide AfterPasses;
    var after := AfterPasses(db, passes);
    if e in db.events {
      assert after.events[e].status == db.events[e].status;
    }
  }

  // ---- Settlement rows ----

  lemma {:induction false} SettleRowsStops(db: Db, e: string, list: seq<string>, share: nat, n: nat)
    requires e in db.events && n <= |list| && SettleRows(db, e, list[..n], share).Err?
    ensures SettleRows(db, e, list, share) == SettleRows(db, e, list[..n], share)
    decreases |list| - n
  {
    if n == |list| {
      assert list[..n] == list;
    } else {
      assert list[..n + 1][..n] == list[..n];
      SettleRowsStops(db, e, list, share, n + 1);
    }
  }

  lemma SettleRowsExtends(db: Db, e: string, list: seq<string>, share: nat, n: nat)
    requires e in db.events && n < |list| && SettleRows(db, e, list[..n], share).Ok?
    ensures SettleRows(db, e, list[..n + 1], share) ==
      match SettleRow(db, e, list[n], share)
      case Err(error) => Err(error)
      case Ok(row) => Ok(SettleRows(db, e, list[..n], share).value + [row])
  {
    assert list[..n + 1][..n] == list[..n];
  }

  // ---- What each call comes to: its passes, then its checks, then the chain step's reply and the write ----

  ghost predicate CreateOutcome(db: Db, n: Db, req: CreateRequest, reply: Result<Tx, ServiceError>, now: string,
                                r: Result<EventRow, ServiceError>)
    requires ValidRequest(req)
  {
    match CreateGuard(db, req)
    case Some(x) => r == Err(x) && n == db
    case None =>
      match reply
      case Err(x) => r == Err(x) && n == db
      case Ok(tx) => n == CreateCommit(db, req, tx, now) && r == Ok(n.events[req.eventId])
  }

  ghost predicate CloseOutcome(db: Db, n: Db, e: string, reply: Result<Tx, ServiceError>, now: string,
                               r: Result<EventRow, ServiceError>) {
    match CloseGuard(db, e)
    case Some(x) => r == Err(x) && n == db
    case None =>
      match reply
      case Err(x) => r == Err(x) && n == db
      case Ok(tx) => n == CloseCommit(db, e, tx, now) && r == Ok(n.events[e])
  }

  ghost predicate ProofOutcome(db: Db, n: Db, gated: bool, hash: Hasher, req: ProofRequest, actor: string,
                               passes: seq<PassRecord>,
                               reply: Result<Tx, ServiceError>, now: string, r: Result<ProofRow, ServiceError>) {
    && PassesOf(db, req.eventId, passes) && (!gated ==> passes == [])
    && var mid := AfterPasses(db, passes);
       if ProofOpen(db, req.eventId).Some? then r == Err(ProofOpen(db, req.eventId).value) && passes == [] && n == mid
       else if CutShort(passes) then r == Err(ChainTxFailed) && n == mid
       else
         match ProofGuard(mid, gated, hash, req, now)
         case Some(x) => r == Err(x) && n == mid
         case None =>
           match reply
           case Err(x) => r == Err(x) && n == mid
           case Ok(tx) =>
             match ProofCommit(mid, hash, req, actor, tx, now)
             case Err(x) => r == Err(x) && n == mid
             case Ok(next) => n == next && r == Ok(n.proofs[(req.eventId, req.siteId)])
  }

  /** What a settlement is refused for, in the order of the checks; mid are the tables after the wait. */
  ghost function SettleError(db: Db, mid: Db, gated: bool, e: string, sites: seq<string>, cut: bool,
                             reply: Result<Tx, ServiceError>)
    : Option<ServiceError>
  {
    if SettleOpen(db, e).Some? then SettleOpen(db, e)
    else if cut then Some(ChainTxFailed)
    else
      match SettleGuard(mid, gated, e, sites)
      case Err(error) => Some(error)
      case Ok(_) => if reply.Err? then Some(reply.error) else None
  }

  ghost predicate RowsReturned(created: seq<(string, SettlementRow)>, rows: seq<(string, int)>, tx: Tx, now: string) {
    && |created| == |rows|
    && forall i :: 0 <= i < |rows| ==>
         created[i] == (rows[i].0, SettlementRow(rows[i].1, Unclaimed, now, None, tx, None))
  }

  /** late is the pass made when the chain step raised because the event is not closed there. */
  ghost predicate SettleOutcome(db: Db, n: Db, gated: bool, e: string, sites: seq<string>, passes: seq<PassRecord>,
                                late: Option<PassRecord>, raw: RawReply, reply: Result<Tx, ServiceError>, now: string,
                                r: Result<seq<(string, SettlementRow)>, ServiceError>) {
    && PassesOf(db, e, passes) && (!gated ==> passes == [])
    && var mid := AfterPasses(db, passes);
       var error := SettleError(db, mid, gated, e, sites, CutShort(passes), reply);
       match late
       case Some(pass) =>
         && gated && raw.Raised? && raw.mustBeClosed && reply.Err? && error == Some(reply.error)
         && PassOf(mid, e, pass) && n == Reconciled(mid, pass.answers, pass.done)
         && r == Err(if pass.cutAt.Some? then ChainTxFailed else EventNotClosedOnchain)
       case None =>
         match error
         case Some(x) => r == Err(x) && n == mid
         case None =>
           var rows := SettleGuard(mid, gated, e, sites);
           && rows.Ok? && reply.Ok? && n == SettleCommit(mid, e, rows.value, reply.value, now)
           && r.Ok? && RowsReturned(r.value, rows.value, reply.value, now)
  }

  ghost predicate ClaimOutcome(db: Db, n: Db, gated: bool, e: string, site: string, actor: string, pass: PassRecord,
                               reply: Result<Tx, ServiceError>, now: string, r: Result<SettlementRow, ServiceError>) {
    && (if gated then PassOf(db, e, pass) else pass.cutAt == None)
    && var mid := if gated then Reconciled(db, pass.answers, pass.done) else db;
       if pass.cutAt.Some? then r == Err(ChainTxFailed) && n == mid
       else
         match ClaimGuard(mid, gated, e, site, actor)
         case Some(x) => r == Err(x) && n == mid
         case None =>
           match reply
           case Err(x) => r == Err(x) && n == mid
           case Ok(tx) => n == ClaimCommit(mid, e, site, tx, now) && r == Ok(n.settlements[(e, site)])
  }

  ghost predicate AuditOutcome(db: Db, n: Db, hash: Hasher, e: string, site: string, now: string,
                               r: Result<(string, string, bool), ServiceError>) {
    match Audit(db, e, site, now)
    case Err(x) => r == Err(x) && n == db
    case Ok(next) =>
      && n == next && r.Ok?
      && r.value.0 == n.proofs[(e, site)].proofHash && r.value.1 == hash(n.proofs[(e, site)].payload)
      && r.value.2 == (Lower(r.value.0) == Lower(r.value.1))
  }

  class SubmitterService {
    const live: bool
    const hybrid: bool
    const hash: Hasher
    var events: map<string, EventRow>
    var proofs: map<Key, ProofRow>
    var settlements: map<Key, SettlementRow>
    var audits: map<Key, string>

    constructor (liveChain: bool, hybridMode: bool, hasher: Hasher)
      ensures live == liveChain && hybrid == hybridMode && hash == hasher && Tables() == EMPTY_DB
    {
      live, hybrid, hash := liveChain, hybridMode, hasher;
      events, proofs, settlements, audits := map[], map[], map[], map[];
    }

    function Tables(): Db
      reads this
    {
      Db(events, proofs, settlements, audits)
    }

    predicate Gated() {
      live && hybrid
    }

    // ---- Reconciliation ----

    /** Write one answer into one slot's columns; a submitted answer writes nothing. */
    method UpdateTxFields(x: Slot, r: CheckResult) returns (updated: bool)
      requires TxAt(Tables(), x).Some?
      modifies this`events, this`proofs, this`settlements
      ensures Tables() == SetTx(old(Tables()), x, ApplyCheck(TxAt(old(Tables()), x).value, r))
      ensures updated <==> r.state != Submitted
    {
      if r.state == Submitted {
        SetSameTx(Tables(), x);
        return false;
      }
      var tx := TxAt(Tables(), x).value;
      tx := tx.(state := r.state);
      tx := tx.(fee := Coalesce(r.fee, tx.fee));
      if r.state == Confirmed {
        tx := tx.(confirmedAt := Coalesce(r.confirmedAt, tx.confirmedAt), error := None);
      } else {
        tx := tx.(error := r.error);
      }
      match x {
        case CreateTx(e) => events := events[e := events[e].(tx := tx)];
        case CloseTx(e) => events := events[e := events[e].(closeTx := Some(tx))];
        case ProofTx(e, s) => proofs := proofs[(e, s) := proofs[(e, s)].(tx := tx)];
        case SettleTx(e, s) => settlements := settlements[(e, s) := settlements[(e, s)].(tx := tx)];
        case ClaimTx(e, s) => settlements := settlements[(e, s) := settlements[(e, s)].(claimTx := Some(tx))];
      }
      return true;
    }

    /** Look a hash up once per pass. */
    method CachedCheck(h: string, cache: Snapshot, queried: seq<string>, check: Oracle)
      returns (answer: Option<CheckResult>, larger: Snapshot, asked: seq<string>)
      requires Cached(cache, queried, check)
      ensures answer.Some? ==>
                Cached(larger, asked, check) && Grew(cache, larger) && h in larger && answer.value == larger[h]
      ensures answer.None? ==> larger == cache && h !in cache && asked == queried && check(|queried|, h) == None
    {
      larger, asked := cache, queried;
      if h in cache {
        return Some(cache[h]), cache, queried;
      }
      answer := check(|queried|, h);
      if answer.Some? {
        larger := cache[h := answer.value];
        asked := queried + [h];
      }
    }

    /** One row's turn in the pass. */
    method ReconcileSlot(x: Slot, e: string, cache: Snapshot, queried: seq<string>, check: Oracle,
                         ghost before: Db, ghost done: set<Slot>)
      returns (ok: bool, larger: Snapshot, asked: seq<string>)
      requires Progress(before, Tables(), e, cache, queried, check, done)
      requires x in SlotsOf(before, e) && x !in done
      modifies this`events, this`proofs, this`settlements
      ensures ok ==> Progress(before, Tables(), e, larger, asked, check, done + {x})
      ensures !ok ==>
        && Progress(before, Tables(), e, larger, asked, check, done)
        && TxAt(before, x).Some? && NeedsReconcile(TxAt(before, x).value) && TxAt(before, x).value.hash !in larger
        && check(|asked|, TxAt(before, x).value.hash) == None
    {
      hide Reconciled, Cached, Answered, SetTx, NeedsReconcile, ApplyCheck;
      SlotsOfFilled(before, e, x);
      ReconciledAt(before, cache, done, x);
      larger, asked := cache, queried;
      var tx := TxAt(Tables(), x).value;
      if !NeedsReconcile(tx) {
        HandledSlot(before, Tables(), e, cache, queried, check, done, x, cache, queried);
        SetSameTx(Tables(), x);
        return true, cache, queried;
      }
      var answer;
      answer, larger, asked := CachedCheck(tx.hash, cache, queried, check);
      if answer.None? {
        return false, larger, asked;
      }
      HandledSlot(before, Tables(), e, cache, queried, check, done, x, larger, asked);
      var _ := UpdateTxFields(x, answer.value);
      return true, larger, asked;
    }

    method ReconcileEventRow(e: string, check: Oracle) returns (pass: PassRecord, queried: seq<string>)
      modifies this`events, this`proofs, this`settlements
      ensures Progress(old(Tables()), Tables(), e, pass.answers, queried, check, pass.done)
      ensures pass.cutAt.None? ==> Visited(old(Tables()), e, pass.done, 2, set k | k in old(proofs) && k.0 == e)
      ensures pass.cutAt.Some? ==> LookUpRaised(old(Tables()), e, pass, queried, check)
    {
      ghost var before := Tables();
      hide Reconciled, Cached, NeedsReconcile;
      var cache: Snapshot := map[];
      queried := [];
      var done: set<Slot> := {};
      StartOfPass(before, e, check);
      if e in events {
        var filled := events[e].closeTx.Some?;
        SlotsOfFilled(before, e, CreateTx(e));
        SlotsOfFilled(before, e, CloseTx(e));
        var ok;
        ok, cache, queried := ReconcileSlot(CreateTx(e), e, cache, queried, check, before, done);
        if !ok { return PassRecord(cache, done, Some(CreateTx(e))), queried; }
        done := done + {CreateTx(e)};
        if filled {
          ok, cache, queried := ReconcileSlot(CloseTx(e), e, cache, queried, check, before, done);
          if !ok { return PassRecord(cache, done, Some(CloseTx(e))), queried; }
          done := done + {CloseTx(e)};
        }
      }
      VisitedEvent(before, e, done);
      return PassRecord(cache, done, None), queried;
    }

    method ReconcileProofRows(e: string, check: Oracle, start: PassRecord, asked: seq<string>, ghost before: Db)
      returns (pass: PassRecord, queried: seq<string>)
      requires Progress(before, Tables(), e, start.answers, asked, check, start.done)
      requires Visited(before, e, start.done, 2, set k | k in before.proofs && k.0 == e)
      modifies this`events, this`proofs, this`settlements
      ensures Progress(before, Tables(), e, pass.answers, queried, check, pass.done)
      ensures pass.cutAt.None? ==> Visited(before, e, pass.done, 3, set k | k in before.settlements && k.0 == e)
      ensures pass.cutAt.Some? ==> LookUpRaised(before, e, pass, queried, check)
    {
      hide Cached, NeedsReconcile, Answered, SlotsOf, Updated, Reconciled;
      var cache, done := start.answers, start.done;
      queried := asked;
      ProgressKeepsRows(before, Tables(), e, cache, queried, check, done);
      var rows := set k | k in proofs && k.0 == e;
      assert rows == set k | k in before.proofs && k.0 == e;
      while rows != {}
        invariant Progress(before, Tables(), e, cache, queried, check, done)
        invariant rows <= (set k | k in before.proofs && k.0 == e)
        invariant Visited(before, e, done, 2, rows)
        decreases rows
      {
        var k :| k in rows;
        VisitedProof(before, e, done, rows, k);
        var ok;
        ok, cache, queried := ReconcileSlot(ProofTx(k.0, k.1), e, cache, queried, check, before, done);
        if !ok { return PassRecord(cache, done, Some(ProofTx(k.0, k.1))), queried; }
        done := done + {ProofTx(k.0, k.1)};
        rows := rows - {k};
      }
      VisitedProofs(before, e, done);
      return PassRecord(cache, done, None), queried;
    }

    method ReconcileSettlementRows(e: string, check: Oracle, start: PassRecord, asked: seq<string>, ghost before: Db)
      returns (pass: PassRecord, queried: seq<string>)
      requires Progress(before, Tables(), e, start.answers, asked, check, start.done)
      requires Visited(before, e, start.done, 3, set k | k in before.settlements && k.0 == e)
      modifies this`events, this`proofs, this`settlements
      ensures Progress(before, Tables(), e, pass.answers, queried, check, pass.done)
      ensures pass.cutAt.None? ==> pass.done == SlotsOf(before, e)
      ensures pass.cutAt.Some? ==> LookUpRaised(before, e, pass, queried, check)
    {
      hide Cached, NeedsReconcile, Answered, SlotsOf, Updated, Reconciled;
      var cache, done := start.answers, start.done;
      queried := asked;
      ProgressKeepsRows(before, Tables(), e, cache, queried, check, done);
      var rows := set k | k in settlements && k.0 == e;
      assert rows == set k | k in before.settlements && k.0 == e;
      while rows != {}
        invariant Progress(before, Tables(), e, cache, queried, check, done)
        invariant rows <= (set k | k in before.settlements && k.0 == e)
        invariant Visited(before, e, done, 3, rows)
        decreases rows
      {
        var k :| k in rows;
        VisitedSettlement(before, e, done, rows, k);
        ProgressKeepsRows(before, Tables(), e, cache, queried, check, done);
        var filled := settlements[k].claimTx.Some?;
        ghost var reached := done + RowSlots(before, k);
        var ok;
        ok, cache, queried := ReconcileSlot(SettleTx(k.0, k.1), e, cache, queried, check, before, done);
        if !ok { return PassRecord(cache, done, Some(SettleTx(k.0, k.1))), queried; }
        done := done + {SettleTx(k.0, k.1)};
        if filled {
          ok, cache, queried := ReconcileSlot(ClaimTx(k.0, k.1), e, cache, queried, check, before, done);
          if !ok { return PassRecord(cache, done, Some(ClaimTx(k.0, k.1))), queried; }
          done := done + {ClaimTx(k.0, k.1)};
        }
        assert done == reached;
        rows := rows - {k};
      }
      VisitedAll(before, e, done);
      return PassRecord(cache, done, None), queried;
    }

    /**
     One pass: events, then proofs, then settlements. Each distinct hash is looked up at most once, and the result is
     the old tables with every visited slot updated from one snapshot. A look-up that raises leaves the rest for later.
     */
    method ReconcilePending(e: string, check: Oracle) returns (pass: PassRecord, queried: seq<string>)
      modifies this`events, this`proofs, this`settlements
      ensures !Gated() ==> Tables() == old(Tables()) && queried == [] && pass == PassRecord(map[], {}, None)
      ensures Gated() ==>
                PassOf(old(Tables()), e, pass) && Tables() == Reconciled(old(Tables()), pass.answers, pass.done)
      ensures Gated() ==> Cached(pass.answers, queried, check) && AnsweredBy(pass, check)
      ensures pass.cutAt.Some? ==> LookUpRaised(old(Tables()), e, pass, queried, check)
    {
      hide Cached, NeedsReconcile, Answered, SlotsOf, Reconciled, Visited;
      if !Gated() {
        return PassRecord(map[], {}, None), [];
      }
      ghost var before := Tables();
      pass, queried := ReconcileEventRow(e, check);
      if pass.cutAt.None? {
        pass, queried := ReconcileProofRows(e, check, pass, queried, before);
      }
      if pass.cutAt.None? {
        pass, queried := ReconcileSettlementRows(e, check, pass, queried, before);
      }
    }

    // ---- Wait loops ----

    method PollOnce(e: string, passes: seq<PassRecord>, check: Oracle, ghost before: Db) returns (more: seq<PassRecord>)
      requires Gated() && PassesOf(before, e, passes) && Tables() == AfterPasses(before, passes)
      modifies this`events, this`proofs, this`settlements
      ensures |more| == |passes| + 1 && more[..|passes|] == passes && AnsweredBy(more[|passes|], check)
      ensures PassesOf(before, e, more) && Tables() == AfterPasses(before, more)
    {
      hide Reconciled, PassOf, PassesOf, AfterPasses, AnsweredBy;
      var pass, _ := ReconcilePending(e, check);
      OneMorePass(before, e, passes, pass);
      more := passes + [pass];
    }

    /** Poll until the create transaction is confirmed or failed, or time is up. */
    method EnsureCreateConfirmed(e: string, plan: WaitPlan, checks: nat -> Oracle)
      returns (error: Option<ServiceError>, passes: seq<PassRecord>)
      requires plan.Ticks()
      modifies this`events, this`proofs, this`settlements
      ensures |passes| <= plan.MaxPolls()
      ensures PassesOf(old(Tables()), e, passes) && Tables() == AfterPasses(old(Tables()), passes)
      ensures AllAnsweredBy(passes, checks)
      ensures !Gated() ==> error == None && passes == []
      ensures Gated() && error == None ==>
                e in events && CreateConfirmed(Tables(), e) == None
                    && (events[e].tx.state == Confirmed || events[e].tx.hash == "")
      ensures error.Some? ==>
                error == if CutShort(passes) then Some(ChainTxFailed) else if e !in events then Some(EventNotFound)
                    else CreateConfirmed(Tables(), e)
      ensures error == Some(CreateTxPending) ==> plan.clock(|passes|) - plan.clock(0) >= plan.Timeout()
      ensures CutShort(passes) ==> error.Some?
    {
      hide Reconciled, PassOf, PassesOf, AfterPasses, AnsweredBy;
      NoPasses(Tables(), e);
      error, passes := None, [];
      if !Gated() {
        return;
      }
      var started := plan.clock(0);
      FirstPollFits(plan);
      while true
        invariant |passes| < plan.MaxPolls()
        invariant PassesOf(old(Tables()), e, passes) && Tables() == AfterPasses(old(Tables()), passes)
        invariant AllAnsweredBy(passes, checks)
        invariant plan.clock(|passes| + 1) >= started + |passes| as real * plan.Poll()
        decreases plan.MaxPolls() - |passes|
      {
        ghost var earlier := passes;
        passes := PollOnce(e, passes, checks(|passes|), old(Tables()));
        OneMoreAnswered(earlier, passes, checks);
        if CutShort(passes) { return Some(ChainTxFailed), passes; }
        if e !in events { return Some(EventNotFound), passes; }
        var tx := events[e].tx;
        if tx.state == Confirmed { return None, passes; }
        if tx.state == TxState.Failed { return Some(CreateTxFailed), passes; }
        if tx.hash == "" { return None, passes; }
        if plan.clock(|passes|) - started >= plan.Timeout() {
          return Some(CreateTxPending), passes;
        }
        AnotherPollFits(plan, |passes|);
        ClockAdvances(plan, |passes|);
      }
    }

    /** The same for the close transaction, where a missing hash is an error. */
    method EnsureCloseConfirmed(e: string, plan: WaitPlan, checks: nat -> Oracle)
      returns (error: Option<ServiceError>, passes: seq<PassRecord>)
      requires plan.Ticks()
      modifies this`events, this`proofs, this`settlements
      ensures |passes| <= plan.MaxPolls()
      ensures PassesOf(old(Tables()), e, passes) && Tables() == AfterPasses(old(Tables()), passes)
      ensures AllAnsweredBy(passes, checks)
      ensures !Gated() ==> error == None && passes == []
      ensures Gated() && error == None ==>
                e in events && events[e].closeTx.Some? && events[e].closeTx.value.state == Confirmed
      ensures error.Some? ==>
                error == if CutShort(passes) then Some(ChainTxFailed) else if e !in events then Some(EventNotFound)
                    else CloseConfirmed(Tables(), e)
      ensures error == Some(CloseTxPending) ==> plan.clock(|passes|) - plan.clock(0) >= plan.Timeout()
      ensures CutShort(passes) ==> error.Some?
    {
      hide Reconciled, PassOf, PassesOf, AfterPasses, AnsweredBy;
      NoPasses(Tables(), e);
      error, passes := None, [];
      if !Gated() {
        return;
      }
      var started := plan.clock(0);
      FirstPollFits(plan);
      while true
        invariant |passes| < plan.MaxPolls()
        invariant PassesOf(old(Tables()), e, passes) && Tables() == AfterPasses(old(Tables()), passes)
        invariant AllAnsweredBy(passes, checks)
        invariant plan.clock(|passes| + 1) >= started + |passes| as real * plan.Poll()
        decreases plan.MaxPolls() - |passes|
      {
        ghost var earlier := passes;
        passes := PollOnce(e, passes, checks(|passes|), old(Tables()));
        OneMoreAnswered(earlier, passes, checks);
        if CutShort(passes) { return Some(ChainTxFailed), passes; }
        if e !in events { return Some(EventNotFound), passes; }
        if events[e].closeTx.None? { return Some(EventNotClosed), passes; }
        var tx := events[e].closeTx.value;
        if tx.state == Confirmed { return None, passes; }
        if tx.state == TxState.Failed { return Some(CloseTxFailed), passes; }
        if tx.hash == "" { return Some(EventNotClosed), passes; }
        if plan.clock(|passes|) - started >= plan.Timeout() {
          return Some(CloseTxPending), passes;
        }
        AnotherPollFits(plan, |passes|);
        ClockAdvances(plan, |passes|);
      }
    }

    // ---- Lifecycle ----

    method CreateEvent(req: CreateRequest, uuid: string, raw: RawReply, now: string)
      returns (r: Result<EventRow, ServiceError>)
      requires ValidRequest(req)
      modifies this`events
      ensures CreateOutcome(old(Tables()), Tables(), req, ReadTx(live, uuid, raw, now), now, r)
    {
      var start, end := TimeOrder.ToRfc3339(req.start), TimeOrder.ToRfc3339(req.end);
      if !TimeOrder.LexLess(start, end) { return Err(InvalidTimeWindow); }
      if req.eventId in events { return Err(EventExists); }
      var tx := ReadTx(live, uuid, raw, now);
      if tx.Err? { return Err(tx.error); }
      var row := EventRow(start, end, req.targetKw, req.rewardRate, req.penaltyRate, Active, tx.value, None, now, None,
                          None);
      events := events[req.eventId := row];
      return Ok(row);
    }

    method CloseEvent(e: string, uuid: string, raw: RawReply, now: string) returns (r: Result<EventRow, ServiceError>)
      modifies this`events
      ensures CloseOutcome(old(Tables()), Tables(), e, ReadTx(live, uuid, raw, now), now, r)
    {
      if e !in events { return Err(EventNotFound); }
      var row := events[e];
      if row.status == Closed { return Err(EventAlreadyClosed); }
      if row.status == Settled { return Err(EventAlreadySettled); }
      var tx := ReadTx(live, uuid, raw, now);
      if tx.Err? { return Err(tx.error); }
      row := row.(status := Closed, closedAt := Some(now), closeTx := Some(tx.value));
      events := events[e := row];
      return Ok(row);
    }

    method SubmitProof(req: ProofRequest, actor: string, plan: WaitPlan, checks: nat -> Oracle, uuid: string,
                       raw: RawReply, now: string)
      returns (r: Result<ProofRow, ServiceError>, passes: seq<PassRecord>)
      requires plan.Ticks()
      modifies this`events, this`proofs, this`settlements
      ensures |passes| <= plan.MaxPolls()
      ensures ProofOutcome(old(Tables()), Tables(), Gated(), hash, req, actor, passes, ReadTx(live, uuid, raw, now),
                           now, r)
      ensures AllAnsweredBy(passes, checks)
    {
      hide AfterPasses, PassesOf, Reconciled, HashAccepted, AnsweredBy;
      NoPasses(Tables(), req.eventId);
      passes := [];
      if req.eventId !in events { return Err(EventNotFound), []; }
      if events[req.eventId].status != Active { return Err(EventNotActive), []; }
      var error;
      error, passes := EnsureCreateConfirmed(req.eventId, plan, checks);
      ProofStaysOpen(old(Tables()), req.eventId, passes);
      if error.Some? { return Err(error.value), passes; }
      r := InsertProof(req, actor, uuid, raw, now);
    }

    method InsertProof(req: ProofRequest, actor: string, uuid: string, raw: RawReply, now: string)
      returns (r: Result<ProofRow, ServiceError>)
      modifies this`proofs
      ensures if !HashAccepted(req.proofHash, hash(BuildPayload(req, now))) then r == Err(ProofHashMismatch)
              && Tables() == old(Tables())
              else
                match ReadTx(live, uuid, raw, now)
                case Err(x) => r == Err(x) && Tables() == old(Tables())
                case Ok(tx) =>
                  match ProofCommit(old(Tables()), hash, req, actor, tx, now)
                  case Err(x) => r == Err(x) && Tables() == old(Tables())
                  case Ok(next) => Tables() == next && r == Ok(proofs[(req.eventId, req.siteId)])
    {
      hide HashAccepted;
      var k := (req.eventId, req.siteId);
      var payload := BuildPayload(req, now);
      var computed := hash(payload);
      if !HashAccepted(req.proofHash, computed) { return Err(ProofHashMismatch); }
      var tx := ReadTx(live, uuid, raw, now);
      if tx.Err? { return Err(tx.error); }
      if k in proofs { return Err(ProofExists); }
      var row := ProofRow(req.baselineKwh, req.actualKwh, payload.reductionKwh, computed, req.uri, payload, tx.value,
                          actor, now);
      proofs := proofs[k := row];
      return Ok(row);
    }

    /** The payouts of the listed sites, or the first site that cannot be settled. */
    method PriceSites(e: string, ids: seq<string>, share: nat) returns (rows: Result<seq<(string, int)>, ServiceError>)
      requires e in events
      ensures rows == SettleRows(Tables(), e, ids, share)
    {
      hide Payout.CalculatePayout;
      var priced: seq<(string, int)> := [];
      var i := 0;
      while i < |ids|
        invariant 0 <= i <= |ids|
        invariant SettleRows(Tables(), e, ids[..i], share) == Ok(priced)
      {
        SettleRowsExtends(Tables(), e, ids, share, i);
        var k := (e, ids[i]);
        if k !in proofs || k in settlements {
          SettleRowsStops(Tables(), e, ids, share, i + 1);
          return Err(if k !in proofs then ProofMissing(ids[i]) else AlreadySettled(ids[i]));
        }
        var payout := Payout.CalculatePayout(proofs[k].reductionKwh, share, events[e].rewardRate,
                                             events[e].penaltyRate);
        priced := priced + [(ids[i], payout)];
        i := i + 1;
      }
      assert ids[..i] == ids;
      return Ok(priced);
    }

    /**
     The inserts and the status update of one database transaction: an insert of a key that exists rolls everything
     back.
     */
    method WriteSettlement(e: string, rows: seq<(string, int)>, tx: Tx, now: string)
      returns (r: Result<seq<(string, SettlementRow)>, ServiceError>)
      requires e in events
      modifies this`events, this`settlements
      ensures r.Ok? <==> Insertable(old(settlements), e, rows)
      ensures r.Ok? ==>
                Tables() == SettleCommit(old(Tables()), e, rows, tx, now) && RowsReturned(r.value, rows, tx, now)
      ensures r.Err? ==> r == Err(SettlementTxFailed) && Tables() == old(Tables())
    {
      var written := settlements;
      var created := [];
      var i := 0;
      while i < |rows|
        invariant 0 <= i <= |rows| && e in events && Tables() == old(Tables())
        invariant written == InsertRows(settlements, e, rows[..i], tx, now)
        invariant Insertable(settlements, e, rows[..i])
        invariant |created| == i
        invariant forall j :: 0 <= j < i ==>
                    created[j] == (rows[j].0, SettlementRow(rows[j].1, Unclaimed, now, None, tx, None))
      {
        assert rows[..i + 1][..i] == rows[..i];
        InsertedKeys(settlements, e, rows[..i], tx, now, (e, rows[i].0));
        if (e, rows[i].0) in written {
          ghost var k := (e, rows[i].0);
          if k !in settlements {
            ghost var j :| 0 <= j < i && k == (e, rows[..i][j].0);
            assert rows[j].0 == rows[i].0;
          }
          return Err(SettlementTxFailed);
        }
        var row := SettlementRow(rows[i].1, Unclaimed, now, None, tx, None);
        written := written[(e, rows[i].0) := row];
        created := created + [(rows[i].0, row)];
        i := i + 1;
      }
      assert rows[..i] == rows;
      settlements := written;
      events := events[e := events[e].(status := Settled, settledAt := Some(now))];
      return Ok(created);
    }

    method SettleEvent(e: string, sites: seq<string>, plan: WaitPlan, checks: nat -> Oracle, uuid: string,
                       raw: RawReply, now: string)
      returns (r: Result<seq<(string, SettlementRow)>, ServiceError>, passes: seq<PassRecord>, late: Option<PassRecord>)
      requires plan.Ticks()
      modifies this`events, this`proofs, this`settlements
      ensures |passes| <= plan.MaxPolls()
      ensures SettleOutcome(old(Tables()), Tables(), Gated(), e, sites, passes, late, raw,
                            ReadTx(live, uuid, raw, now), now, r)
      ensures AllAnsweredBy(passes, checks) && (late.Some? ==> AnsweredBy(late.value, checks(|passes|)))
    {
      hide Reconciled, PassOf, PassesOf, AfterPasses, SettleRows, InsertRows, SettleCommit, Insertable, RowsReturned,
           SortedSites, Dedup, ReadTx, ProofSites, SameBusiness, AnsweredBy;
      NoPasses(Tables(), e);
      passes, late := [], None;
      if e !in events { return Err(EventNotFound), [], None; }
      var event := events[e];
      if event.status == Settled { return Err(EventAlreadySettled), [], None; }
      if event.status != Closed { return Err(EventNotClosed), [], None; }
      ghost var before := Tables();
      var error;
      error, passes := EnsureCloseConfirmed(e, plan, checks);
      EventStays(before, e, passes);
      if error.Some? { return Err(error.value), passes, None; }

      ghost var mid := Tables();
      var ids := sites;
      if |sites| == 0 {
        ids := SortedSites(ProofSites(Tables(), e));
      }
      ids := Dedup(ids);
      if |ids| == 0 { return Err(EmptySiteIds), passes, None; }
      var rows := PriceSites(e, ids, event.targetKw / |ids|);
      assert rows == SettleGuard(mid, Gated(), e, sites);
      if rows.Err? { return Err(rows.error), passes, None; }

      var tx := ReadTx(live, uuid, raw, now);
      if tx.Err? {
        if Gated() && raw.Raised? && raw.mustBeClosed {
          var pass, _ := ReconcilePending(e, checks(|passes|));
          return Err(if pass.cutAt.Some? then ChainTxFailed else EventNotClosedOnchain), passes, Some(pass);
        }
        return Err(tx.error), passes, None;
      }
      GuardedRowsInsert(mid, Gated(), e, sites);
      r := WriteSettlement(e, rows.value, tx.value, now);
    }

    method ClaimReward(e: string, site: string, actor: string, check: Oracle, uuid: string, raw: RawReply, now: string)
      returns (r: Result<SettlementRow, ServiceError>, pass: PassRecord)
      modifies this`events, this`proofs, this`settlements
      ensures ClaimOutcome(old(Tables()), Tables(), Gated(), e, site, actor, pass, ReadTx(live, uuid, raw, now), now, r)
      ensures AnsweredBy(pass, check)
    {
      hide Reconciled, PassOf, AnsweredBy;
      NoneAsked(check);
      pass := PassRecord(map[], {}, None);
      if Gated() {
        var queried;
        pass, queried := ReconcilePending(e, check);
        if pass.cutAt.Some? { return Err(ChainTxFailed), pass; }
      }
      var k := (e, site);
      if k !in settlements { return Err(SettlementNotFound), pass; }
      var record := settlements[k];
      if Gated() {
        if record.tx.state == Submitted { return Err(SettleTxPending), pass; }
        if record.tx.state == TxState.Failed { return Err(SettleTxFailed), pass; }
      }
      if record.status != Unclaimed { return Err(NotClaimable), pass; }
      if k !in proofs { return Err(ProofNotFound), pass; }
      if proofs[k].submitter != actor { return Err(NotProofSubmitter), pass; }
      var tx := ReadTx(live, uuid, raw, now);
      if tx.Err? { return Err(tx.error), pass; }
      record := record.(status := Claimed, claimedAt := Some(now), claimTx := Some(tx.value));
      settlements := settlements[k := record];
      return Ok(record), pass;
    }

    /** The audit recomputes the hash of the stored payload and records when it was asked for. */
    method GetAudit(e: string, site: string, now: string) returns (r: Result<(string, string, bool), ServiceError>)
      modifies this`audits
      ensures AuditOutcome(old(Tables()), Tables(), hash, e, site, now, r)
      ensures r.Ok? ==> (r.value.2 <==> SameLetters(r.value.0, r.value.1))
    {
      if (e, site) !in proofs { return Err(ProofNotFound); }
      var row := proofs[(e, site)];
      audits := audits[(e, site) := now];
      var recomputed := hash(row.payload);
      LowerAgrees(row.proofHash, recomputed);
      return Ok((row.proofHash, recomputed, Lower(row.proofHash) == Lower(recomputed)));
    }
  }
}
