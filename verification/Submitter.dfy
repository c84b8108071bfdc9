/**
 The service's lifecycle calls as functions on its tables. A call is its local checks followed, when they pass and
 the chain step returns a transaction, by one write. gated says that the service runs live in hybrid mode, where it
 waits for earlier transactions to be confirmed.
 */
module Submitter {
  import opened Common
  import opened Database
  import opened Reconcile
  import TimeOrder
  import Payout

  datatype ServiceError =
    | InvalidTimeWindow | EventExists | EventNotFound | EventAlreadyClosed | EventAlreadySettled
    | EventNotActive | EventNotClosed | EventNotClosedOnchain
    | SettlementTxFailed | CreateTxFailed | CreateTxPending | CloseTxFailed | CloseTxPending
    | SettleTxFailed | SettleTxPending
    | ProofHashMismatch | ProofExists | ProofMissing(site: string) | AlreadySettled(site: string) | EmptySiteIds
    | SettlementNotFound | NotClaimable | ProofNotFound | NotProofSubmitter
    | ChainTxFailed | ChainTxInvalidResponse

  datatype CreateRequest = CreateRequest(
    eventId: string, start: TimeOrder.Instant, end: TimeOrder.Instant, targetKw: nat, rewardRate: nat, penaltyRate: nat)

  predicate ValidRequest(req: CreateRequest) {
    TimeOrder.ValidInstant(req.start) && TimeOrder.ValidInstant(req.end)
  }

  datatype ProofRequest = ProofRequest(
    eventId: string, siteId: string, baselineKwh: nat, actualKwh: nat, uri: string,
    rawPayload: string, proofHash: Option<string>, baselineMethod: string)

  /** The proof hash of a payload: canonical JSON and keccak, of which only determinism is used. */
  type Hasher = Payload -> string

  // ---- Create ----

  function CreateGuard(db: Db, req: CreateRequest): Option<ServiceError>
    requires ValidRequest(req)
  {
    if !TimeOrder.LexLess(TimeOrder.ToRfc3339(req.start), TimeOrder.ToRfc3339(req.end)) then Some(InvalidTimeWindow)
    else if req.eventId in db.events then Some(EventExists)
    else None
  }

  function CreateCommit(db: Db, req: CreateRequest, tx: Tx, now: string): Db
    requires ValidRequest(req)
  {
    db.(events := db.events[req.eventId :=
      EventRow(TimeOrder.ToRfc3339(req.start), TimeOrder.ToRfc3339(req.end), req.targetKw, req.rewardRate,
               req.penaltyRate,
               Active, tx, None, now, None, None)])
  }

  // ---- Close ----

  function CloseGuard(db: Db, e: string): Option<ServiceError> {
    if e !in db.events then Some(EventNotFound)
    else
      match db.events[e].status
      case Closed => Some(EventAlreadyClosed)
      case Settled => Some(EventAlreadySettled)
      case Active => None
  }

  function CloseCommit(db: Db, e: string, tx: Tx, now: string): Db
    requires e in db.events
  {
    db.(events := db.events[e := db.events[e].(status := Closed, closedAt := Some(now), closeTx := Some(tx))])
  }

  // ---- Proof ----

  function Reduction(baselineKwh: nat, actualKwh: nat): nat {
    if baselineKwh > actualKwh then baselineKwh - actualKwh else 0
  }

  function BuildPayload(req: ProofRequest, now: string): Payload {
    Payload(req.eventId, req.siteId, req.baselineKwh, req.actualKwh, Reduction(req.baselineKwh, req.actualKwh),
            req.baselineMethod, req.rawPayload, now)
  }

  function LowerChar(c: char): char {
    if 'A' <= c <= 'Z' then c - 'A' + 'a' else c
  }

  function Lower(s: string): string {
    seq(|s|, i requires 0 <= i < |s| => LowerChar(s[i]))
  }

  predicate HashAccepted(claimed: Option<string>, computed: string) {
    claimed == None || claimed == Some("") || Lower(claimed.value) == Lower(computed)
  }

  /** Where the wait for the create transaction ends: confirmed, failed, or out of time. */
  function CreateConfirmed(db: Db, e: string): Option<ServiceError>
    requires e in db.events
  {
    var tx := db.events[e].tx;
    if tx.state == Confirmed then None
    else if tx.state == Failed then Some(CreateTxFailed)
    else if tx.hash == "" then None
    else Some(CreateTxPending)
  }

  function ProofOpen(db: Db, e: string): Option<ServiceError> {
    if e !in db.events then Some(EventNotFound)
    else if db.events[e].status != Active then Some(EventNotActive)
    else None
  }

  function ProofGuard(db: Db, gated: bool, hash: Hasher, req: ProofRequest, now: string): Option<ServiceError> {
    if ProofOpen(db, req.eventId).Some? then ProofOpen(db, req.eventId)
    else if gated && CreateConfirmed(db, req.eventId).Some? then CreateConfirmed(db, req.eventId)
    else if !HashAccepted(req.proofHash, hash(BuildPayload(req, now))) then Some(ProofHashMismatch)
    else None
  }

  /** The insert fails on an existing key, after the chain step has been taken. */
  function ProofCommit(db: Db, hash: Hasher, req: ProofRequest, actor: string, tx: Tx,
                       now: string): Result<Db, ServiceError> {
    var k := (req.eventId, req.siteId);
    if k in db.proofs then Err(ProofExists)
    else
      var payload := BuildPayload(req, now);
      Ok(db.(proofs := db.proofs[k := ProofRow(req.baselineKwh, req.actualKwh, payload.reductionKwh, hash(payload),
                                                req.uri, payload, tx, actor, now)]))
  }

  // ---- Settle ----

  /** Keep the first occurrence of each id. */
  function Dedup(sites: seq<string>): seq<string> {
    if sites == [] then []
    else
      var front := Dedup(sites[..|sites| - 1]);
      var last := sites[|sites| - 1];
      if last in front then front else front + [last]
  }

  predicate IsLeast(s: set<string>, m: string) {
    m in s && forall t :: t in s ==> t == m || TimeOrder.LexLess(m, t)
  }

  lemma LeastOfLarger(s: set<string>, x: string, m: string)
    requires x in s && IsLeast(s - {x}, m)
    ensures IsLeast(s, if TimeOrder.LexLess(x, m) then x else m)
  {
    TimeOrder.LexTotal(x, m);
    if TimeOrder.LexLess(x, m) {
      forall t | t in s ensures t == x || TimeOrder.LexLess(x, t) {
        if t != x && t != m {
          TimeOrder.LexTransitive(x, m, t);
        }
      }
    }
  }

  lemma LeastExists(s: set<string>)
    requires s != {}
    ensures exists m :: IsLeast(s, m)
  {
    var x :| x in s;
    if s == {x} {
      assert IsLeast(s, x);
    } else {
      LeastExists(s - {x});
      var m :| IsLeast(s - {x}, m);
      LeastOfLarger(s, x, m);
    }
  }

  lemma LeastUnique(s: set<string>, m: string, n: string)
    requires IsLeast(s, m) && IsLeast(s, n)
    ensures m == n
  {
    if m != n {
      TimeOrder.LexTransitive(m, n, m);
      TimeOrder.LexIrreflexive(m);
    }
  }

  lemma LeastUniqueAll(s: set<string>)
    ensures forall m, n :: IsLeast(s, m) && IsLeast(s, n) ==> m == n
  {
    forall m, n | IsLeast(s, m) && IsLeast(s, n) ensures m == n {
      LeastUnique(s, m, n);
    }
  }

  function Least(s: set<string>): string
    requires s != {}
    ensures IsLeast(s, Least(s))
  {
    LeastExists(s);
    LeastUniqueAll(s);
    var m :| m in s && IsLeast(s, m);
    m
  }

  function SortedSites(s: set<string>): seq<string> {
    if s == {} then []
    else [Least(s)] + SortedSites(s - {Least(s)})
  }

  function ProofSites(db: Db, e: string): set<string> {
    set k | k in db.proofs && k.0 == e :: k.1
  }

  /** The sites a settlement covers: the request's, or all proved ones in id order, without repeats. */
  function SettleList(db: Db, e: string, sites: seq<string>): seq<string> {
    Dedup(if sites == [] then SortedSites(ProofSites(db, e)) else sites)
  }

  function SettleOpen(db: Db, e: string): Option<ServiceError> {
    if e !in db.events then Some(EventNotFound)
    else if db.events[e].status == Settled then Some(EventAlreadySettled)
    else if db.events[e].status != Closed then Some(EventNotClosed)
    else None
  }

  /** Where the wait for the close transaction ends. */
  function CloseConfirmed(db: Db, e: string): Option<ServiceError>
    requires e in db.events
  {
    match db.events[e].closeTx
    case None => Some(EventNotClosed)
    case Some(tx) =>
      if tx.state == Confirmed then None
      else if tx.state == Failed then Some(CloseTxFailed)
      else if tx.hash == "" then Some(EventNotClosed)
      else Some(CloseTxPending)
  }

  function SettleRow(db: Db, e: string, site: string, share: nat): Result<(string, int), ServiceError>
    requires e in db.events
  {
    if (e, site) !in db.proofs then Err(ProofMissing(site))
    else if (e, site) in db.settlements then Err(AlreadySettled(site))
    else Ok((site, Payout.CalculatePayout(db.proofs[(e, site)].reductionKwh, share, db.events[e].rewardRate,
                                          db.events[e].penaltyRate)))
  }

  function SettleRows(db: Db, e: string, sites: seq<string>, share: nat): Result<seq<(string, int)>, ServiceError>
    requires e in db.events
  {
    if sites == [] then Ok([])
    else
      match SettleRows(db, e, sites[..|sites| - 1], share)
      case Err(error) => Err(error)
      case Ok(rows) =>
        match SettleRow(db, e, sites[|sites| - 1], share)
        case Err(error) => Err(error)
        case Ok(row) => Ok(rows + [row])
  }

  ghost function SettleGuard(db: Db, gated: bool, e: string,
                             sites: seq<string>): Result<seq<(string, int)>, ServiceError> {
    if SettleOpen(db, e).Some? then Err(SettleOpen(db, e).value)
    else if gated && CloseConfirmed(db, e).Some? then Err(CloseConfirmed(db, e).value)
    else
      var list := SettleList(db, e, sites);
      if list == [] then Err(EmptySiteIds)
      else SettleRows(db, e, list, db.events[e].targetKw / |list|)
  }

  function InsertRows(table: map<Key, SettlementRow>, e: string, rows: seq<(string, int)>, tx: Tx,
                      now: string): map<Key, SettlementRow> {
    if rows == [] then table
    else
      var row := rows[|rows| - 1];
      var front := InsertRows(table, e, rows[..|rows| - 1], tx, now);
      front[(e, row.0) := SettlementRow(row.1, Unclaimed, now, None, tx, None)]
  }

  function SettleCommit(db: Db, e: string, rows: seq<(string, int)>, tx: Tx, now: string): Db
    requires e in db.events
  {
    db.(settlements := InsertRows(db.settlements, e, rows, tx, now),
        events := db.events[e := db.events[e].(status := Settled, settledAt := Some(now))])
  }

  // ---- Claim and audit ----

  function ClaimGuard(db: Db, gated: bool, e: string, site: string, actor: string): Option<ServiceError> {
    var k := (e, site);
    if k !in db.settlements then Some(SettlementNotFound)
    else if gated && db.settlements[k].tx.state == Submitted then Some(SettleTxPending)
    else if gated && db.settlements[k].tx.state == Failed then Some(SettleTxFailed)
    else if db.settlements[k].status != Unclaimed then Some(NotClaimable)
    else if k !in db.proofs then Some(ProofNotFound)
    else if db.proofs[k].submitter != actor then Some(NotProofSubmitter)
    else None
  }

  function ClaimCommit(db: Db, e: string, site: string, tx: Tx, now: string): Db
    requires (e, site) in db.settlements
  {
    var k := (e, site);
    var row := db.settlements[k].(status := Claimed, claimedAt := Some(now), claimTx := Some(tx));
    db.(settlements := db.settlements[k := row])
  }

  function Audit(db: Db, e: string, site: string, now: string): Result<Db, ServiceError> {
    if (e, site) !in db.proofs then Err(ProofNotFound)
    else Ok(db.(audits := db.audits[(e, site) := now]))
  }

  // ---- One service call ----

  /** A call together with the transaction its chain step returned, or one reconciliation pass. */
  datatype ServiceCall =
    | Create(req: CreateRequest)
    | SubmitProof(proof: ProofRequest, actor: string)
    | Close(event: string)
    | Settle(event: string, sites: seq<string>)
    | Claim(event: string, site: string, actor: string)
    | RequestAudit(event: string, site: string)
    | Pass(event: string, answers: Snapshot, done: set<Slot>)

  ghost predicate WellFormed(db: Db, call: ServiceCall) {
    match call
    case Create(req) => ValidRequest(req)
    case Pass(e, _, done) => done <= SlotsOf(db, e)
    case _ => true
  }

  ghost function Perform(db: Db, gated: bool, hash: Hasher, call: ServiceCall, tx: Tx,
                         now: string): Result<Db, ServiceError>
    requires WellFormed(db, call)
  {
    match call
    case Create(req) =>
      (match CreateGuard(db, req)
       case Some(error) => Err(error)
       case None => Ok(CreateCommit(db, req, tx, now)))
    case SubmitProof(req, actor) =>
      (match ProofGuard(db, gated, hash, req, now)
       case Some(error) => Err(error)
       case None => ProofCommit(db, hash, req, actor, tx, now))
    case Close(e) =>
      (match CloseGuard(db, e)
       case Some(error) => Err(error)
       case None => Ok(CloseCommit(db, e, tx, now)))
    case Settle(e, sites) =>
      (match SettleGuard(db, gated, e, sites)
       case Err(error) => Err(error)
       case Ok(rows) => Ok(SettleCommit(db, e, rows, tx, now)))
    case Claim(e, site, actor) =>
      (match ClaimGuard(db, gated, e, site, actor)
       case Some(error) => Err(error)
       case None => Ok(ClaimCommit(db, e, site, tx, now)))
    case RequestAudit(e, site) => Audit(db, e, site, now)
    case Pass(_, answers, done) => Ok(Reconciled(db, answers, done))
  }

  // ---- Lists without repeats ----

  /** The service's list has no repeats and the same ids. */
  lemma {:induction false} DedupSameIds(sites: seq<string>)
    ensures NoDup(Dedup(sites))
    ensures forall s :: s in Dedup(sites) <==> s in sites
  {
    if sites != [] {
      var front, last := sites[..|sites| - 1], sites[|sites| - 1];
      DedupSameIds(front);
      assert sites == front + [last];
    }
  }

  function FirstIndex(sites: seq<string>, s: string): nat
    requires s in sites
    ensures FirstIndex(sites, s) < |sites| && sites[FirstIndex(sites, s)] == s
  {
    if sites[0] == s then 0
    else
      assert sites == [sites[0]] + sites[1..];
      1 + FirstIndex(sites[1..], s)
  }

  lemma {:induction false} FirstIndexOfPrefix(sites: seq<string>, more: seq<string>, s: string)
    requires s in sites
    ensures s in sites + more && FirstIndex(sites + more, s) == FirstIndex(sites, s)
  {
    assert sites == [sites[0]] + sites[1..];
    if sites[0] != s {
      assert (sites + more)[1..] == sites[1..] + more;
      FirstIndexOfPrefix(sites[1..], more, s);
    }
  }

  lemma {:induction false} FirstIndexAfterPrefix(sites: seq<string>, s: string)
    requires s !in sites
    ensures FirstIndex(sites + [s], s) == |sites|
  {
    if sites != [] {
      assert (sites + [s])[1..] == sites[1..] + [s];
      FirstIndexAfterPrefix(sites[1..], s);
    } else {
      assert sites + [s] == [s];
    }
  }

  /** Ids stay in the order of their first occurrence. */
  lemma {:induction false} DedupOrderStable(sites: seq<string>, i: nat, j: nat)
    requires i < j < |Dedup(sites)|
    ensures Dedup(sites)[i] in sites && Dedup(sites)[j] in sites
    ensures FirstIndex(sites, Dedup(sites)[i]) < FirstIndex(sites, Dedup(sites)[j])
    decreases |sites|
  {
    var front, last := sites[..|sites| - 1], sites[|sites| - 1];
    assert sites == front + [last];
    DedupSameIds(sites);
    DedupSameIds(front);
    FirstIndexOfPrefix(front, [last], Dedup(sites)[i]);
    if j < |Dedup(front)| {
      DedupOrderStable(front, i, j);
      FirstIndexOfPrefix(front, [last], Dedup(sites)[j]);
    } else {
      FirstIndexAfterPrefix(front, last);
    }
  }

  /** The same letter, in either case. */
  ghost predicate SameLetter(c: char, d: char) {
    || c == d
    || ('A' <= c <= 'Z' && d as int == c as int + 32)
    || ('A' <= d <= 'Z' && c as int == d as int + 32)
  }

  ghost predicate SameLetters(a: string, b: string) {
    |a| == |b| && forall i :: 0 <= i < |b| ==> SameLetter(a[i], b[i])
  }

  /** Hashes are compared letter by letter without regard to case, and a missing or empty claim is not compared. */
  lemma HashAcceptedIff(claimed: Option<string>, computed: string)
    ensures HashAccepted(claimed, computed) <==>
              claimed.Some? && claimed.value != "" ==> SameLetters(claimed.value, computed)
  {
    if claimed.Some? && claimed.value != "" {
      LowerAgrees(claimed.value, computed);
    }
  }

  lemma LowerAgrees(a: string, b: string)
    ensures Lower(a) == Lower(b) <==> SameLetters(a, b)
  {
    if Lower(a) == Lower(b) {
      assert |Lower(a)| == |Lower(b)|;
      forall i | 0 <= i < |b| ensures SameLetter(a[i], b[i]) {
        assert Lower(a)[i] == Lower(b)[i];
      }
    }
  }

  /** The proved sites are listed in id order. */
  lemma {:induction false} SortedSitesAscend(s: set<string>, i: nat, j: nat)
    requires i < j < |SortedSites(s)|
    ensures TimeOrder.LexLess(SortedSites(s)[i], SortedSites(s)[j])
    decreases s
  {
    var rest := s - {Least(s)};
    SortedSitesAll(rest);
    if i > 0 {
      SortedSitesAscend(rest, i - 1, j - 1);
    } else {
      assert SortedSites(s)[j] == SortedSites(rest)[j - 1];
      assert SortedSites(rest)[j - 1] in rest;
    }
  }

  lemma {:induction false} SortedSitesAll(s: set<string>)
    ensures forall x :: x in SortedSites(s) <==> x in s
  {
    if s != {} {
      SortedSitesAll(s - {Least(s)});
    }
  }

  lemma SettleListMembers(db: Db, e: string, sites: seq<string>)
    ensures NoDup(SettleList(db, e, sites))
    ensures forall s :: s in SettleList(db, e, sites) <==> (if sites == [] then (e, s) in db.proofs else s in sites)
  {
    DedupSameIds(if sites == [] then SortedSites(ProofSites(db, e)) else sites);
    SortedSitesAll(ProofSites(db, e));
    forall s ensures s in ProofSites(db, e) <==> (e, s) in db.proofs {
      if (e, s) in db.proofs {
        assert (e, s).0 == e && (e, s).1 == s;
      }
    }
  }

  // ---- What the settlement rows say ----

  ghost predicate RowsPriced(db: Db, e: string, sites: seq<string>, share: nat, rows: seq<(string, int)>)
    requires e in db.events
  {
    && |rows| == |sites|
    && forall i :: 0 <= i < |sites| ==>
         && rows[i].0 == sites[i]
         && (e, sites[i]) in db.proofs
         && (e, sites[i]) !in db.settlements
         && rows[i].1 == Payout.CalculatePayout(db.proofs[(e, sites[i])].reductionKwh, share, db.events[e].rewardRate,
                                                db.events[e].penaltyRate)
  }

  lemma {:induction false} SettleRowsPriced(db: Db, e: string, sites: seq<string>, share: nat)
    requires e in db.events && SettleRows(db, e, sites, share).Ok?
    ensures RowsPriced(db, e, sites, share, SettleRows(db, e, sites, share).value)
  {
    hide Payout.CalculatePayout;
    if sites != [] {
      SettleRowsPriced(db, e, sites[..|sites| - 1], share);
    }
  }

  ghost predicate AllSettleable(db: Db, e: string, sites: seq<string>) {
    forall s :: s in sites ==> (e, s) in db.proofs && (e, s) !in db.settlements
  }

  /** The rows are refused exactly when some listed site lacks a proof or already has a record. */
  lemma {:induction false} SettleRowsOkIff(db: Db, e: string, sites: seq<string>, share: nat)
    requires e in db.events
    ensures SettleRows(db, e, sites, share).Ok? <==> AllSettleable(db, e, sites)
  {
    hide Payout.CalculatePayout;
    if sites != [] {
      var front, last := sites[..|sites| - 1], sites[|sites| - 1];
      SettleRowsOkIff(db, e, front, share);
      assert forall s :: s in sites <==> s in front || s == last by {
        assert sites == front + [last];
      }
    }
  }

  ghost predicate RowsInserted(table: map<Key, SettlementRow>, out: map<Key, SettlementRow>, e: string,
                               rows: seq<(string, int)>, tx: Tx, now: string) {
    && (forall k :: k in out <==> k in table || (exists i :: 0 <= i < |rows| && k == (e, rows[i].0)))
    && (forall i :: 0 <= i < |rows| ==>
         (e, rows[i].0) in out && out[(e, rows[i].0)] == SettlementRow(rows[i].1, Unclaimed, now, None, tx, None))
    && (forall k :: k in table && (forall i :: 0 <= i < |rows| ==> k != (e, rows[i].0)) ==>
        k in out && out[k] == table[k])
  }

  lemma OneMoreRow(table: map<Key, SettlementRow>, mid: map<Key, SettlementRow>, e: string,
                   rows: seq<(string, int)>, row: (string, int), tx: Tx, now: string)
    requires RowsInserted(table, mid, e, rows, tx, now)
    requires forall i :: 0 <= i < |rows| ==> rows[i].0 != row.0
    ensures RowsInserted(table, mid[(e, row.0) := SettlementRow(row.1, Unclaimed, now, None, tx, None)], e,
                         rows + [row], tx, now)
  {
    var out := mid[(e, row.0) := SettlementRow(row.1, Unclaimed, now, None, tx, None)];
    var all := rows + [row];
    assert all[|rows|] == row;
    forall k ensures k in out <==> k in table || (exists i :: 0 <= i < |all| && k == (e, all[i].0)) {
      if k in mid && k !in table {
        var i :| 0 <= i < |rows| && k == (e, rows[i].0);
        assert all[i] == rows[i];
      }
      if i :| 0 <= i < |all| && k == (e, all[i].0) {
        assert i < |rows| ==> all[i] == rows[i];
      }
    }
    forall k | k in table && (forall i :: 0 <= i < |all| ==> k != (e, all[i].0)) ensures k in out
        && out[k] == table[k] {
      forall i | 0 <= i < |rows| ensures k != (e, rows[i].0) {
        assert all[i] == rows[i];
      }
    }
  }

  lemma {:induction false} InsertRowsAdds(table: map<Key, SettlementRow>, e: string, rows: seq<(string, int)>, tx: Tx,
                                          now: string)
    requires forall i, j :: 0 <= i < j < |rows| ==> rows[i].0 != rows[j].0
    ensures RowsInserted(table, InsertRows(table, e, rows, tx, now), e, rows, tx, now)
  {
    if rows != [] {
      var front, last := rows[..|rows| - 1], rows[|rows| - 1];
      InsertRowsAdds(table, e, front, tx, now);
      OneMoreRow(table, InsertRows(table, e, front, tx, now), e, front, last, tx, now);
      assert rows == front + [last];
    }
  }

  /** The rows' keys are new to the table and to one another, so that every insert goes through. */
  ghost predicate Insertable(table: map<Key, SettlementRow>, e: string, rows: seq<(string, int)>) {
    && (forall i :: 0 <= i < |rows| ==> (e, rows[i].0) !in table)
    && (forall i, j :: 0 <= i < j < |rows| ==> rows[i].0 != rows[j].0)
  }

  /** A settlement that passes its checks never fails to insert. */
  lemma GuardedRowsInsert(db: Db, gated: bool, e: string, sites: seq<string>)
    requires SettleGuard(db, gated, e, sites).Ok?
    ensures Insertable(db.settlements, e, SettleGuard(db, gated, e, sites).value)
  {
    var list := SettleList(db, e, sites);
    SettleListMembers(db, e, sites);
    hide SettleList, SettleRows;
    SettleRowsOkIff(db, e, list, db.events[e].targetKw / |list|);
    SettleRowsPriced(db, e, list, db.events[e].targetKw / |list|);
  }

  lemma InsertedKeys(table: map<Key, SettlementRow>, e: string, rows: seq<(string, int)>, tx: Tx, now: string, k: Key)
    ensures k in InsertRows(table, e, rows, tx, now) <==>
              k in table || exists i :: 0 <= i < |rows| && k == (e, rows[i].0)
  {
    if rows != [] {
      var front, last := rows[..|rows| - 1], rows[|rows| - 1];
      InsertedKeys(table, e, front, tx, now, k);
      assert rows[|rows| - 1] == last;
      if i :| 0 <= i < |rows| && k == (e, rows[i].0) {
        assert i < |front| ==> front[i] == rows[i];
      }
      if i :| 0 <= i < |front| && k == (e, front[i].0) {
        assert rows[i] == front[i];
      }
    }
  }

  // ---- What each refusal means ----

  /** Creating is refused for a window that does not end after it starts, in whole seconds, and else for a known id. */
  lemma CreateRefusedIff(db: Db, req: CreateRequest)
    requires ValidRequest(req)
    ensures CreateGuard(db, req) == Some(InvalidTimeWindow) <==>
              TimeOrder.UnixSeconds(req.end) <= TimeOrder.UnixSeconds(req.start)
    ensures CreateGuard(db, req) == Some(EventExists) <==>
              req.eventId in db.events && TimeOrder.UnixSeconds(req.start) < TimeOrder.UnixSeconds(req.end)
    ensures CreateGuard(db, req) in {None, Some(InvalidTimeWindow), Some(EventExists)}
  {
    TimeOrder.WindowTestsAgree(req.start, req.end);
    hide TimeOrder.UnixSeconds, TimeOrder.ToRfc3339, TimeOrder.LexLess, ValidRequest;
  }

  ghost predicate InStatus(db: Db, e: string, status: EventStatus) {
    e in db.events && db.events[e].status == status
  }

  lemma CloseRefusedIff(db: Db, e: string)
    ensures CloseGuard(db, e) == Some(EventNotFound) <==> e !in db.events
    ensures CloseGuard(db, e) == Some(EventAlreadyClosed) <==> InStatus(db, e, Closed)
    ensures CloseGuard(db, e) == Some(EventAlreadySettled) <==> InStatus(db, e, Settled)
    ensures CloseGuard(db, e) == None <==> InStatus(db, e, Active)
  {
  }

  /** In hybrid mode a proof waits for its event's create transaction, unless that has no hash. */
  lemma ProofRefusedIff(db: Db, gated: bool, hash: Hasher, req: ProofRequest, now: string)
    ensures ProofGuard(db, gated, hash, req, now) == Some(EventNotFound) <==> req.eventId !in db.events
    ensures ProofGuard(db, gated, hash, req, now) == Some(EventNotActive) <==>
              req.eventId in db.events && !InStatus(db, req.eventId, Active)
    ensures ProofGuard(db, gated, hash, req, now) == Some(CreateTxFailed) <==>
              gated && InStatus(db, req.eventId, Active) && db.events[req.eventId].tx.state == Failed
    ensures ProofGuard(db, gated, hash, req, now) == Some(CreateTxPending) <==>
              gated && InStatus(db, req.eventId, Active) && db.events[req.eventId].tx.state == Submitted
                && db.events[req.eventId].tx.hash != ""
    ensures ProofGuard(db, gated, hash, req, now) == None ==>
              InStatus(db, req.eventId, Active) && HashAccepted(req.proofHash, hash(BuildPayload(req, now)))
    ensures ProofGuard(db, gated, hash, req, now) == Some(ProofHashMismatch) ==>
              !HashAccepted(req.proofHash, hash(BuildPayload(req, now)))
  {
    hide HashAccepted;
  }

  /** In hybrid mode a settlement waits for the close transaction. */
  lemma SettleRefusedIff(db: Db, gated: bool, e: string, sites: seq<string>)
    ensures SettleGuard(db, gated, e, sites) == Err(EventNotFound) <==> e !in db.events
    ensures SettleGuard(db, gated, e, sites) == Err(EventAlreadySettled) <==> InStatus(db, e, Settled)
    ensures gated && InStatus(db, e, Closed) && db.events[e].closeTx.Some? ==>
              && (SettleGuard(db, gated, e, sites) == Err(CloseTxFailed) <==>
                   db.events[e].closeTx.value.state == Failed)
              && (SettleGuard(db, gated, e, sites) == Err(CloseTxPending) <==>
                   db.events[e].closeTx.value.state == Submitted && db.events[e].closeTx.value.hash != "")
    ensures SettleGuard(db, gated, e, sites).Ok? ==> InStatus(db, e, Closed) && SettleList(db, e, sites) != []
    ensures SettleGuard(db, gated, e, sites).Ok? && gated ==>
              db.events[e].closeTx.Some? && db.events[e].closeTx.value.state == Confirmed
  {
    hide SettleList;
    if InStatus(db, e, Closed) && SettleList(db, e, sites) != [] {
      RowErrors(db, e, SettleList(db, e, sites), db.events[e].targetKw / |SettleList(db, e, sites)|);
    }
  }

  lemma {:induction false} RowErrors(db: Db, e: string, list: seq<string>, share: nat)
    requires e in db.events
    ensures SettleRows(db, e, list, share).Err? ==>
              SettleRows(db, e, list, share).error.ProofMissing? || SettleRows(db, e, list, share).error.AlreadySettled?
  {
    if list != [] {
      RowErrors(db, e, list[..|list| - 1], share);
    }
  }

  /** A claim is for an unclaimed row, with its settlement confirmed in hybrid mode, by its proof's submitter. */
  lemma ClaimRefusedIff(db: Db, gated: bool, e: string, site: string, actor: string)
    ensures var k := (e, site);
            && (ClaimGuard(db, gated, e, site, actor) == Some(SettlementNotFound) <==> k !in db.settlements)
            && (ClaimGuard(db, gated, e, site, actor) == Some(SettleTxPending) <==>
                 gated && k in db.settlements && db.settlements[k].tx.state == Submitted)
            && (ClaimGuard(db, gated, e, site, actor) == Some(SettleTxFailed) <==>
                 gated && k in db.settlements && db.settlements[k].tx.state == Failed)
            && (ClaimGuard(db, gated, e, site, actor) == None <==>
                 && k in db.settlements && (gated ==> db.settlements[k].tx.state == Confirmed)
                 && db.settlements[k].status == Unclaimed
                 && k in db.proofs && db.proofs[k].submitter == actor)
            && (ClaimGuard(db, gated, e, site, actor) == Some(NotProofSubmitter) ==>
                 k in db.proofs && db.proofs[k].submitter != actor)
            && (ClaimGuard(db, gated, e, site, actor) == Some(NotClaimable) ==>
                 k in db.settlements && db.settlements[k].status == Claimed)
  {
  }
}
