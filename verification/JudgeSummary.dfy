/** Where an event stands: the service's summary, the page's own derivation, and how both move over runs. */
module JudgeSummary {
  import opened Common
  import opened Database
  import opened Submitter
  import opened DbRuns
  import TimeOrder

  datatype Phase = CreatePhase | ProofsPhase | ClosePhase | SettlePhase | ClaimPhase | AuditPhase | Completed

  function Rank(p: Phase): nat {
    match p
    case CreatePhase => 0
    case ProofsPhase => 1
    case ClosePhase => 2
    case SettlePhase => 3
    case ClaimPhase => 4
    case AuditPhase => 5
    case Completed => 6
  }

  datatype Health = Pending | InProgress | Done | Error

  datatype Flags = Flags(created: bool, proofs: bool, close: bool, settle: bool, claim: bool, audit: bool)

  function StepOf(f: Flags): Phase {
    if !f.created then CreatePhase
    else if !f.proofs then ProofsPhase
    else if !f.close then ClosePhase
    else if !f.settle then SettlePhase
    else if !f.claim then ClaimPhase
    else if !f.audit then AuditPhase
    else Completed
  }

  function Bit(b: bool): nat {
    if b then 1 else 0
  }

  function CompletedSteps(f: Flags): nat {
    Bit(f.created) + Bit(f.proofs) + Bit(f.close) + Bit(f.settle) + Bit(f.claim) + Bit(f.audit)
  }

  /** Python's round: a tie goes to the even neighbour. */
  function RoundHalfEven(num: nat, den: nat): nat
    requires den > 0
  {
    var q, r := num / den, num % den;
    if 2 * r < den then q else if 2 * r > den then q + 1 else if q % 2 == 0 then q else q + 1
  }

  /** JavaScript's Math.round: a tie goes up. */
  function RoundHalfUp(num: nat, den: nat): nat
    requires den > 0
  {
    (2 * num + den) / (2 * den)
  }

  datatype Summary = Summary(step: Phase, completed: nat, pct: nat, health: Health)

  // ---- The service's summary ----

  const AUDITED_SITE := "site-a"

  function DbFlags(db: Db, e: string, required: seq<string>): Flags
    requires e in db.events
  {
    var k := (e, AUDITED_SITE);
    Flags(true,
          forall s :: s in required ==> (e, s) in db.proofs,
          db.events[e].status != Active,
          exists j :: j in db.settlements && j.0 == e,
          k in db.settlements && db.settlements[k].status == Claimed,
          k in db.audits)
  }

  function Summarize(db: Db, e: string, required: seq<string>): Result<Summary, ServiceError> {
    if e !in db.events then Err(EventNotFound)
    else
      var f := DbFlags(db, e, required);
      Ok(Summary(StepOf(f), CompletedSteps(f), RoundHalfEven(100 * CompletedSteps(f), 6),
                 if CompletedSteps(f) == 0 then Pending else if StepOf(f) == Completed then Done else InProgress))
  }

  // ---- The page's derivation ----

  /** What the page keeps of one event: its status, the proved sites, the settlement list, and the two audit hints. */
  datatype Ui = Ui(event: Option<EventStatus>, proofs: set<string>, settlements: seq<(string, ClaimStatus)>,
                   audit: bool, summaryAudit: bool, lastError: bool)

  function FindRow(rows: seq<(string, ClaimStatus)>, site: string): Option<ClaimStatus> {
    if rows == [] then None
    else if rows[0].0 == site then Some(rows[0].1)
    else FindRow(rows[1..], site)
  }

  function UiFlags(ui: Ui, required: seq<string>): Flags {
    Flags(ui.event.Some?,
          forall s :: s in required ==> s in ui.proofs,
          ui.event == Some(Closed) || ui.event == Some(Settled),
          |ui.settlements| > 0,
          FindRow(ui.settlements, AUDITED_SITE) == Some(Claimed),
          ui.audit || ui.summaryAudit)
  }

  function DeriveUi(ui: Ui, required: seq<string>): Summary {
    var f := UiFlags(ui, required);
    Summary(StepOf(f), CompletedSteps(f), RoundHalfUp(100 * CompletedSteps(f), 6),
            if ui.lastError then Error
            else if CompletedSteps(f) == 0 then Pending
            else if CompletedSteps(f) >= 6 then Done
            else InProgress)
  }

  /** The page shows what the tables hold: the event's rows in any order, and an audit of site-a. */
  ghost predicate Mirrors(ui: Ui, db: Db, e: string) {
    && ui.event == (if e in db.events then Some(db.events[e].status) else None)
    && (forall s :: s in ui.proofs <==> (e, s) in db.proofs)
    && (forall s, c :: (s, c) in ui.settlements <==> (e, s) in db.settlements && db.settlements[(e, s)].status == c)
    && ((ui.audit || ui.summaryAudit) <==> (e, AUDITED_SITE) in db.audits)
  }

  lemma {:induction false} FindRowFinds(rows: seq<(string, ClaimStatus)>, site: string)
    ensures FindRow(rows, site).Some? ==> (site, FindRow(rows, site).value) in rows
    ensures FindRow(rows, site).None? ==> forall c :: (site, c) !in rows
  {
    if rows != [] {
      FindRowFinds(rows[1..], site);
      assert rows == [rows[0]] + rows[1..];
    }
  }

  lemma PercentagesAgree(n: nat)
    requires n <= 6
    ensures RoundHalfEven(100 * n, 6) == RoundHalfUp(100 * n, 6)
    ensures RoundHalfEven(100 * n, 6) == 100 <==> n == 6
  {
  }

  /** The finished steps, as places in the list of six. */
  ghost function DoneSteps(f: Flags): set<nat> {
    set i: nat | i < 6 && [f.created, f.proofs, f.close, f.settle, f.claim, f.audit][i]
  }

  /** The count is that of the finished steps, the step the first unfinished one, the percentage the rounded share. */
  lemma SummaryCounts(f: Flags)
    ensures CompletedSteps(f) == |DoneSteps(f)| <= 6
    ensures Rank(StepOf(f)) == 6 <==> CompletedSteps(f) == 6
    ensures Rank(StepOf(f)) < 6 ==> Rank(StepOf(f)) !in DoneSteps(f)
    ensures forall i: nat :: i < Rank(StepOf(f)) ==> i in DoneSteps(f)
    ensures RoundHalfEven(100 * CompletedSteps(f), 6) == [0, 17, 33, 50, 67, 83, 100][CompletedSteps(f)]
  {
    var steps := [f.created, f.proofs, f.close, f.settle, f.claim, f.audit];
    DoneOf(steps, 6);
    assert DoneSteps(f) == DoneAmong(steps, 6);
  }

  ghost function DoneAmong(steps: seq<bool>, n: nat): set<nat>
    requires n <= |steps|
  {
    set i: nat | i < n && steps[i]
  }

  lemma DoneOf(steps: seq<bool>, n: nat)
    requires |steps| == 6 && n <= 6
    ensures |DoneAmong(steps, n)| == (if n > 0 then Bit(steps[0]) else 0) + (if n > 1 then Bit(steps[1]) else 0)
              + (if n > 2 then Bit(steps[2]) else 0) + (if n > 3 then Bit(steps[3]) else 0)
              + (if n > 4 then Bit(steps[4]) else 0) + (if n > 5 then Bit(steps[5]) else 0)
  {
    if n == 0 {
      assert DoneAmong(steps, 0) == {};
    } else {
      DoneOf(steps, n - 1);
      assert DoneAmong(steps, n) == DoneAmong(steps, n - 1) + if steps[n - 1] then {n - 1} else {};
    }
  }

  lemma MirroredFlags(ui: Ui, db: Db, e: string, required: seq<string>)
    requires Mirrors(ui, db, e) && e in db.events
    ensures UiFlags(ui, required) == DbFlags(db, e, required)
  {
    FindRowFinds(ui.settlements, AUDITED_SITE);
    var f, g := UiFlags(ui, required), DbFlags(db, e, required);
    if f.settle {
      var row := ui.settlements[0];
      assert (row.0, row.1) == row;
      assert (e, row.0) in db.settlements;
    }
    if g.settle {
      var j :| j in db.settlements && j.0 == e;
      assert j == (e, j.1);
      assert (j.1, db.settlements[j].status) in ui.settlements;
    }
    if g.claim {
      assert (AUDITED_SITE, Claimed) in ui.settlements;
    }
  }

  /**
   A page that mirrors the tables shows the service's step, count, percentage and, without an error of its own, health.
   */
  lemma UiAgreesWithService(ui: Ui, db: Db, e: string, required: seq<string>)
    requires Mirrors(ui, db, e) && e in db.events
    ensures Summarize(db, e, required).Ok?
    ensures var s, u := Summarize(db, e, required).value, DeriveUi(ui, required);
            u.step == s.step && u.completed == s.completed && u.pct == s.pct && (!ui.lastError ==> u.health == s.health)
  {
    MirroredFlags(ui, db, e, required);
    PercentagesAgree(CompletedSteps(DbFlags(db, e, required)));
  }

  /** The page shows its own error first, and otherwise how many of the six steps are done. */
  lemma UiHealthIff(ui: Ui, required: seq<string>)
    ensures var health, steps := DeriveUi(ui, required).health, DoneSteps(UiFlags(ui, required));
            && (health == Error <==> ui.lastError)
            && (health == Pending <==> !ui.lastError && steps == {})
            && (health == Done <==> !ui.lastError && |steps| == 6)
  {
    SummaryCounts(UiFlags(ui, required));
    hide CompletedSteps, UiFlags, StepOf, Rank;
    var steps := DoneSteps(UiFlags(ui, required));
    if |steps| == 0 {
      assert steps == {};
    }
    hide DoneSteps;
  }

  // ---- Progress over runs ----

  ghost predicate FlagsGrow(f: Flags, g: Flags) {
    && (f.created ==> g.created) && (f.proofs ==> g.proofs) && (f.close ==> g.close)
    && (f.settle ==> g.settle) && (f.claim ==> g.claim) && (f.audit ==> g.audit)
  }

  lemma GrowingTablesGrowFlags(db: Db, next: Db, e: string, required: seq<string>)
    requires Grows(db, next) && e in db.events
    ensures FlagsGrow(DbFlags(db, e, required), DbFlags(next, e, required))
  {
  }

  lemma GrowingFlags(f: Flags, g: Flags)
    requires FlagsGrow(f, g)
    ensures Rank(StepOf(f)) <= Rank(StepOf(g)) && CompletedSteps(f) <= CompletedSteps(g)
    ensures RoundHalfEven(100 * CompletedSteps(f), 6) <= RoundHalfEven(100 * CompletedSteps(g), 6)
  {
    RoundingMonotone(CompletedSteps(f), CompletedSteps(g));
  }

  lemma RoundingMonotone(m: nat, n: nat)
    requires m <= n <= 6
    ensures RoundHalfEven(100 * m, 6) <= RoundHalfEven(100 * n, 6)
  {
  }

  /** No sequence of service calls moves an event's step or its count of finished steps back. */
  lemma ProgressNeverDrops(db: Db, gated: bool, hash: Hasher, turns: seq<Turn>, e: string, required: seq<string>)
    requires DbInv(db, hash) && Legal(db, gated, hash, turns) && e in db.events
    ensures var next := Run(db, gated, hash, turns);
            && e in next.events
            && var before, after := Summarize(db, e, required).value, Summarize(next, e, required).value;
            && Rank(before.step) <= Rank(after.step)
            && before.completed <= after.completed && before.pct <= after.pct
  {
    RunGrows(db, gated, hash, turns);
    var next := Run(db, gated, hash, turns);
    GrowingTablesGrowFlags(db, next, e, required);
    assert e in next.events;
    GrowingFlags(DbFlags(db, e, required), DbFlags(next, e, required));
    hide Grows, Legal, Run, DbFlags, FlagsGrow, StepOf, CompletedSteps, RoundHalfEven, DbInv, Rank;
  }

  /** The percentage is 100 exactly in the last step. */
  lemma FullProgressIffCompleted(db: Db, e: string, required: seq<string>)
    requires e in db.events
    ensures var s := Summarize(db, e, required).value;
            && (s.pct == 100 <==> s.step == Completed) && (s.completed == 6 <==> s.step == Completed)
            && (s.health == Done <==> s.step == Completed) && (s.health == InProgress <==> s.step != Completed)
            && Rank(s.step) <= s.completed <= 6
  {
    PercentagesAgree(CompletedSteps(DbFlags(db, e, required)));
  }

  // ---- An event closed too early ----

  lemma CallKeepsProofs(db: Db, gated: bool, hash: Hasher, call: ServiceCall, tx: Tx, now: string, e: string)
    requires WellFormed(db, call) && !call.Settle? && !call.Pass? && e in db.events && db.events[e].status != Active
    requires Perform(db, gated, hash, call, tx, now).Ok?
    ensures forall s :: (e, s) in Perform(db, gated, hash, call, tx, now).value.proofs <==> (e, s) in db.proofs
  {
    hide HashAccepted, CreateConfirmed, TimeOrder.LexLess, TimeOrder.ToRfc3339, ClaimGuard;
  }

  lemma SameProofsOfEvent(db: Db, gated: bool, hash: Hasher, t: Turn, e: string)
    requires WellFormed(db, t.call) && e in db.events && db.events[e].status != Active
    ensures forall s :: (e, s) in Take(db, gated, hash, t).proofs <==> (e, s) in db.proofs
  {
    var tx := if t.reply.Some? then t.reply.value else Tx("", None, Submitted, "", None, None);
    if !t.call.Settle? && !t.call.Pass? && Perform(db, gated, hash, t.call, tx, t.now).Ok? {
      hide WellFormed, Perform;
      CallKeepsProofs(db, gated, hash, t.call, tx, t.now, e);
    } else {
      hide SettleGuard, InsertRows, CreateGuard, CloseGuard, ClaimGuard, ProofGuard;
    }
  }

  /**
   A site without a proof when its event is closed stays without one, so the event never gets past the proofs step.
   */
  lemma {:induction false} ClosedTooEarlyNeverCompletes(db: Db, gated: bool, hash: Hasher, turns: seq<Turn>, e: string,
                                                        required: seq<string>)
    requires DbInv(db, hash) && Legal(db, gated, hash, turns)
    requires e in db.events && db.events[e].status != Active
    requires Summarize(db, e, required).value.step == ProofsPhase
    ensures e in Run(db, gated, hash, turns).events
    ensures Summarize(Run(db, gated, hash, turns), e, required).value.step == ProofsPhase
    decreases |turns|
  {
    hide Take, DbInv, WellFormed;
    if turns != [] {
      var mid := Take(db, gated, hash, turns[0]);
      TakeKeepsDbInv(db, gated, hash, turns[0]);
      TakeGrows(db, gated, hash, turns[0]);
      SameProofsOfEvent(db, gated, hash, turns[0], e);
      assert mid.events[e].status != Active;
      ClosedTooEarlyNeverCompletes(mid, gated, hash, turns[1..], e, required);
    }
  }

  // ---- The last transition ----

  /** Python's max of strings. */
  function LexMax(points: seq<string>): string
    requires points != []
  {
    if |points| == 1 then points[0]
    else
      var m := LexMax(points[..|points| - 1]);
      if TimeOrder.LexLess(m, points[|points| - 1]) then points[|points| - 1] else m
  }

  ghost predicate AllValid(times: seq<TimeOrder.Instant>) {
    forall i :: 0 <= i < |times| ==> TimeOrder.ValidInstant(times[i])
  }

  /** Among timestamps in the service's format, the greatest string is the latest instant. */
  lemma {:induction false} GreatestTextIsLatest(times: seq<TimeOrder.Instant>, points: seq<string>) returns (last: nat)
    requires times != [] && |points| == |times| && AllValid(times)
    requires forall i :: 0 <= i < |times| ==> points[i] == TimeOrder.ToRfc3339(times[i])
    ensures last < |times| && LexMax(points) == TimeOrder.ToRfc3339(times[last])
    ensures forall i :: 0 <= i < |times| ==> TimeOrder.UnixSeconds(times[i]) <= TimeOrder.UnixSeconds(times[last])
  {
    hide TimeOrder.ToRfc3339, TimeOrder.UnixSeconds;
    if |times| == 1 {
      last := 0;
    } else {
      var n := |times| - 1;
      last := GreatestTextIsLatest(times[..n], points[..n]);
      TimeOrder.WindowTestsAgree(times[last], times[n]);
      if TimeOrder.LexLess(LexMax(points[..n]), points[n]) {
        last := n;
      }
    }
  }
}
