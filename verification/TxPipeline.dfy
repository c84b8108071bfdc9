/** Counting an event's transactions by hash, once by the service and once by the page, which read a row differently. */
module TxPipeline {
  import opened Common
  import opened Database
  import opened Reconcile
  import opened Submitter
  import opened ChainReplies
  import DbRuns
  import SharedHashes
  import H = HybridGating
  import S = SyncSimulation
  import C = Contracts
  import T = Tokens
  import O = SubmitterObject

  datatype Row = Row(hash: Option<string>, state: Option<string>, fee: Option<string>)

  datatype Counts = Counts(total: nat, submitted: nat, confirmed: nat, failed: nat)

  datatype Reader = Service | Page

  /** The service trims the state and lets a fee turn submitted into confirmed. */
  function ServiceState(r: Row): TxState {
    var state := NormalizeState(r.state);
    if !Blank(r.fee) && state == Submitted then Confirmed else state
  }

  /** The page does not trim, and looks at the fee only when the state is none of the three words. */
  function PageState(r: Row): TxState {
    var text := Lower(OrElse(r.state, ""));
    if text == "failed" then Failed
    else if text == "confirmed" then Confirmed
    else if text == "submitted" then Submitted
    else if !Blank(r.fee) then Confirmed
    else Submitted
  }

  function Reads(who: Reader, r: Row): TxState {
    match who
    case Service => ServiceState(r)
    case Page => PageState(r)
  }

  // ---- The join, said without an order ----

  predicate Named(r: Row) {
    OrElse(r.hash, "") != ""
  }

  ghost predicate Shows(rows: seq<Row>, who: Reader, h: string, state: TxState) {
    exists r :: r in rows && Named(r) && r.hash.value == h && Reads(who, r) == state
  }

  ghost function Hashes(rows: seq<Row>): set<string> {
    set r | r in rows && Named(r) :: r.hash.value
  }

  /** A hash is failed if any of its rows is, else submitted if any is, else confirmed. */
  ghost function ByHash(rows: seq<Row>, who: Reader): map<string, TxState> {
    map h | h in Hashes(rows) :: Joined(rows, who, h)
  }

  ghost function Joined(rows: seq<Row>, who: Reader, h: string): TxState {
    if Shows(rows, who, h, Failed) then Failed
    else if Shows(rows, who, h, Submitted) then Submitted
    else Confirmed
  }

  ghost function In(m: map<string, TxState>, state: TxState): set<string> {
    set h | h in m && m[h] == state
  }

  ghost function CountsOf(m: map<string, TxState>): Counts {
    Counts(|m|, |In(m, Submitted)|, |In(m, Confirmed)|, |In(m, Failed)|)
  }

  ghost function PipelineCounts(rows: seq<Row>, who: Reader): Counts {
    CountsOf(ByHash(rows, who))
  }

  // ---- The loop ----

  function Register(byHash: map<string, TxState>, r: Row, next: TxState): map<string, TxState> {
    if !Named(r) then byHash
    else
      var h := r.hash.value;
      if h !in byHash then byHash[h := next]
      else if byHash[h] == Failed || next == Failed then byHash[h := Failed]
      else if byHash[h] == Submitted || next == Submitted then byHash[h := Submitted]
      else byHash[h := Confirmed]
  }

  lemma ShowsMore(rows: seq<Row>, r: Row, who: Reader, h: string, state: TxState)
    ensures Shows(rows + [r], who, h, state) <==>
              Shows(rows, who, h, state) || (Named(r) && r.hash.value == h && Reads(who, r) == state)
  {
    hide Reads;
    if Named(r) && r.hash.value == h && Reads(who, r) == state {
      assert r in rows + [r];
    }
    if Shows(rows, who, h, state) {
      var x :| x in rows && Named(x) && x.hash.value == h && Reads(who, x) == state;
      assert x in rows + [r];
    }
  }

  lemma HashesMore(rows: seq<Row>, r: Row)
    ensures Hashes(rows + [r]) == Hashes(rows) + if Named(r) then {r.hash.value} else {}
  {
    if Named(r) {
      assert r in rows + [r];
    }
    forall x | x in rows && Named(x) ensures x.hash.value in Hashes(rows + [r]) {
      assert x in rows + [r];
    }
  }

  lemma AbsentShowsNothing(rows: seq<Row>, who: Reader, h: string, state: TxState)
    requires h !in Hashes(rows)
    ensures !Shows(rows, who, h, state)
  {
    hide Reads;
  }

  function JoinTwo(prev: TxState, next: TxState): TxState {
    if prev == Failed || next == Failed then Failed
    else if prev == Submitted || next == Submitted then Submitted
    else Confirmed
  }

  lemma JoinedMore(rows: seq<Row>, r: Row, who: Reader, h: string)
    ensures Joined(rows + [r], who, h) ==
              if !Named(r) || r.hash.value != h then Joined(rows, who, h)
              else if h in Hashes(rows) then JoinTwo(Joined(rows, who, h), Reads(who, r))
              else Reads(who, r)
  {
    ShowsMore(rows, r, who, h, Failed);
    ShowsMore(rows, r, who, h, Submitted);
    if h !in Hashes(rows) {
      AbsentShowsNothing(rows, who, h, Failed);
      AbsentShowsNothing(rows, who, h, Submitted);
    }
    hide Shows, Reads;
  }

  lemma RegisterJoins(rows: seq<Row>, r: Row, who: Reader)
    ensures Register(ByHash(rows, who), r, Reads(who, r)) == ByHash(rows + [r], who)
  {
    hide Reads, Joined, Hashes;
    var after := ByHash(rows + [r], who);
    var step := Register(ByHash(rows, who), r, Reads(who, r));
    HashesMore(rows, r);
    assert step.Keys == after.Keys;
    forall h | h in after ensures step[h] == after[h] {
      JoinedMore(rows, r, who, h);
    }
  }

  /** Both programs' loop: register every row, then count the states. */
  method CountRows(rows: seq<Row>, who: Reader) returns (c: Counts)
    ensures c == PipelineCounts(rows, who)
  {
    hide Reads, ByHash, Register;
    var byHash: map<string, TxState> := map[];
    var i := 0;
    NothingRegistered(who);
    while i < |rows|
      invariant 0 <= i <= |rows|
      invariant byHash == ByHash(rows[..i], who)
    {
      RegisterJoins(rows[..i], rows[i], who);
      byHash := Register(byHash, rows[i], Reads(who, rows[i]));
      i := i + 1;
      assert rows[..i] == rows[..i - 1] + [rows[i - 1]];
    }
    assert rows[..i] == rows;
    c := CountStates(byHash);
  }

  lemma NothingRegistered(who: Reader)
    ensures ByHash([], who) == map[]
  {
    hide Reads;
  }

  /** How many of the hashes seen so far are in a state. */
  ghost function Tally(m: map<string, TxState>, seen: set<string>, state: TxState): nat {
    |In(m, state) * seen|
  }

  method CountStates(byHash: map<string, TxState>) returns (c: Counts)
    ensures c == CountsOf(byHash)
  {
    hide Tally, In;
    var submitted, confirmed, failed := 0, 0, 0;
    var left := byHash.Keys;
    TallyEnds(byHash);
    while left != {}
      invariant left <= byHash.Keys
      invariant submitted == Tally(byHash, byHash.Keys - left, Submitted)
      invariant confirmed == Tally(byHash, byHash.Keys - left, Confirmed)
      invariant failed == Tally(byHash, byHash.Keys - left, Failed)
      decreases left
    {
      var h :| h in left;
      OneMoreSeen(byHash, byHash.Keys - left, h);
      if byHash[h] == Failed {
        failed := failed + 1;
      } else if byHash[h] == Confirmed {
        confirmed := confirmed + 1;
      } else {
        submitted := submitted + 1;
      }
      assert byHash.Keys - (left - {h}) == (byHash.Keys - left) + {h};
      left := left - {h};
    }
    assert byHash.Keys - {} == byHash.Keys;
    c := Counts(|byHash|, submitted, confirmed, failed);
  }

  lemma TallyEnds(m: map<string, TxState>)
    ensures forall state :: Tally(m, m.Keys - m.Keys, state) == 0 && Tally(m, m.Keys, state) == |In(m, state)|
  {
    forall state ensures Tally(m, m.Keys - m.Keys, state) == 0 && Tally(m, m.Keys, state) == |In(m, state)| {
      assert In(m, state) * (m.Keys - m.Keys) == {};
      assert In(m, state) * m.Keys == In(m, state);
    }
  }

  lemma OneMoreSeen(m: map<string, TxState>, seen: set<string>, h: string)
    requires h in m && h !in seen
    ensures forall state :: Tally(m, seen + {h}, state) == Tally(m, seen, state) + if m[h] == state then 1 else 0
  {
    forall state ensures Tally(m, seen + {h}, state) == Tally(m, seen, state) + if m[h] == state then 1 else 0 {
      if m[h] == state {
        assert In(m, state) * (seen + {h}) == In(m, state) * seen + {h};
      } else {
        assert In(m, state) * (seen + {h}) == In(m, state) * seen;
      }
    }
  }

  // ---- What the counts mean ----

  /** Every distinct non-empty hash is counted in exactly one state. */
  lemma CountsPartition(rows: seq<Row>, who: Reader)
    ensures var c := PipelineCounts(rows, who);
            c.total == |Hashes(rows)| && c.submitted + c.confirmed + c.failed == c.total
  {
    var m := ByHash(rows, who);
    assert m.Keys == Hashes(rows);
    assert m.Keys == In(m, Submitted) + In(m, Confirmed) + In(m, Failed);
  }

  ghost function FailedHashes(rows: seq<Row>, who: Reader): set<string> {
    set h | h in Hashes(rows) && SomeReads(rows, who, h, Failed)
  }

  ghost function ConfirmedHashes(rows: seq<Row>, who: Reader): set<string> {
    set h | h in Hashes(rows) && AllRead(rows, who, h, Confirmed)
  }

  lemma StateSet(m: map<string, TxState>, state: TxState, s: set<string>)
    requires forall h :: h in s <==> h in m && m[h] == state
    ensures In(m, state) == s
  {
  }

  /** A hash counts as failed if one of its rows is read so, as confirmed if all are, and as submitted otherwise. */
  lemma CountsMean(rows: seq<Row>, who: Reader)
    ensures var c := PipelineCounts(rows, who);
            && c.failed == |FailedHashes(rows, who)| && c.confirmed == |ConfirmedHashes(rows, who)|
            && c.submitted == |Hashes(rows) - FailedHashes(rows, who) - ConfirmedHashes(rows, who)|
  {
    var m := ByHash(rows, who);
    assert m.Keys == Hashes(rows);
    forall h | h in Hashes(rows)
      ensures h in m && m[h] == Joined(rows, who, h)
      ensures m[h] == Failed <==> h in FailedHashes(rows, who)
      ensures m[h] == Confirmed <==> h in ConfirmedHashes(rows, who)
    {
      JoinedMeans(rows, who, h);
      hide Joined, SomeReads, AllRead;
    }
    assert FailedHashes(rows, who) <= Hashes(rows) && ConfirmedHashes(rows, who) <= Hashes(rows);
    hide FailedHashes, ConfirmedHashes, ByHash, Hashes, In;
    StateSet(m, Failed, FailedHashes(rows, who));
    StateSet(m, Confirmed, ConfirmedHashes(rows, who));
    StateSet(m, Submitted, Hashes(rows) - FailedHashes(rows, who) - ConfirmedHashes(rows, who));
  }

  ghost predicate SomeReads(rows: seq<Row>, who: Reader, h: string, state: TxState) {
    exists i :: 0 <= i < |rows| && rows[i].hash == Some(h) && Reads(who, rows[i]) == state
  }

  ghost predicate AllRead(rows: seq<Row>, who: Reader, h: string, state: TxState) {
    forall i :: 0 <= i < |rows| && rows[i].hash == Some(h) ==> Reads(who, rows[i]) == state
  }

  lemma SomeReadsShows(rows: seq<Row>, who: Reader, h: string, state: TxState)
    requires h != ""
    ensures Shows(rows, who, h, state) <==> SomeReads(rows, who, h, state)
  {
    hide Reads;
    if r :| r in rows && Named(r) && r.hash.value == h && Reads(who, r) == state {
      var i :| 0 <= i < |rows| && rows[i] == r;
    }
  }

  lemma JoinedMeans(rows: seq<Row>, who: Reader, h: string)
    requires h in Hashes(rows)
    ensures Joined(rows, who, h) == Failed <==> SomeReads(rows, who, h, Failed)
    ensures Joined(rows, who, h) == Confirmed <==> AllRead(rows, who, h, Confirmed)
  {
    var named :| named in rows && Named(named) && named.hash.value == h;
    var k :| 0 <= k < |rows| && rows[k] == named;
    SomeReadsShows(rows, who, h, Failed);
    SomeReadsShows(rows, who, h, Submitted);
    hide Reads, Shows;
    if AllRead(rows, who, h, Confirmed) {
      assert Reads(who, rows[k]) == Confirmed;
    } else {
      var i :| 0 <= i < |rows| && rows[i].hash == Some(h) && Reads(who, rows[i]) != Confirmed;
      assert SomeReads(rows, who, h, Reads(who, rows[i]));
    }
  }

  /** The order of the rows does not matter, nor do repetitions. */
  lemma OrderDoesNotMatter(rows: seq<Row>, other: seq<Row>, who: Reader)
    requires forall r :: r in rows <==> r in other
    ensures PipelineCounts(rows, who) == PipelineCounts(other, who)
  {
    hide Reads;
    assert Hashes(rows) == Hashes(other);
    assert ByHash(rows, who) == ByHash(other, who);
  }

  // ---- Service and page ----

  function Text(r: Row): string {
    Lower(OrElse(r.state, ""))
  }

  function Trimmed(r: Row): string {
    Lower(StripRight(StripLeft(OrElse(r.state, ""))))
  }

  /** The two readings of a row differ exactly here. */
  predicate ReadDifferently(r: Row) {
    || (Text(r) == "submitted" && !Blank(r.fee))
    || (Text(r) != Trimmed(r) && (Trimmed(r) == "failed" || (Trimmed(r) == "confirmed" && Blank(r.fee))))
  }

  lemma NoSpaceToTrim(s: string)
    requires s != [] && !IsSpace(s[0]) && !IsSpace(s[|s| - 1])
    ensures StripRight(StripLeft(s)) == s
  {
  }

  lemma WordsNeedNoTrim(s: string)
    requires Lower(s) == "submitted" || Lower(s) == "confirmed" || Lower(s) == "failed"
    ensures StripRight(StripLeft(s)) == s
  {
    assert Lower(s)[0] == LowerChar(s[0]) && Lower(s)[|s| - 1] == LowerChar(s[|s| - 1]);
    NoSpaceToTrim(s);
  }

  lemma ReadingsDifferIff(r: Row)
    ensures ServiceState(r) != PageState(r) <==> ReadDifferently(r)
  {
    var s := OrElse(r.state, "");
    if Lower(s) == "submitted" || Lower(s) == "confirmed" || Lower(s) == "failed" {
      WordsNeedNoTrim(s);
    }
  }

  /** The service reads the trimmed word, and a submitted row with a fee as confirmed. */
  lemma ServiceReadsIff(r: Row)
    ensures ServiceState(r) == Failed <==> Says(r.state, "failed")
    ensures ServiceState(r) == Confirmed <==>
              Says(r.state, "confirmed") || (!Says(r.state, "failed") && r.fee.Some? && r.fee != Some(""))
  {
    StateIsWhatIsSaid(r.state);
    hide NormalizeState, Says;
  }

  /** The page reads the word itself, and what is none of the three words by its fee. */
  lemma PageReadsIff(r: Row)
    ensures PageState(r) == Failed <==> r.state.Some? && Spells(r.state.value, "failed")
    ensures PageState(r) == Confirmed <==>
              || (r.state.Some? && Spells(r.state.value, "confirmed"))
              || (r.fee.Some? && r.fee != Some("")
                  && !(r.state.Some? && (Spells(r.state.value, "failed") || Spells(r.state.value, "submitted"))))
  {
    var t := OrElse(r.state, "");
    assert r.state.Some? ==> t == r.state.value;
    LowerSpells(t, "failed");
    LowerSpells(t, "confirmed");
    LowerSpells(t, "submitted");
    assert Lower("") == "";
    hide Lower, Spells;
    if r.state.None? {
      EmptySpellsNothing();
    }
  }

  lemma EmptySpellsNothing()
    ensures !Spells("", "failed") && !Spells("", "confirmed") && !Spells("", "submitted")
  {
  }

  lemma SameReadingSameCounts(rows: seq<Row>)
    requires forall r :: r in rows && Named(r) ==> !ReadDifferently(r)
    ensures PipelineCounts(rows, Service) == PipelineCounts(rows, Page)
  {
    forall r | r in rows && Named(r) ensures Reads(Service, r) == Reads(Page, r) {
      ReadingsDifferIff(r);
    }
    hide Reads, ReadDifferently;
    forall h, state ensures Shows(rows, Service, h, state) <==> Shows(rows, Page, h, state) {
    }
    hide Shows;
    assert ByHash(rows, Service) == ByHash(rows, Page);
  }

  /**
   No weaker condition will do for every selection of rows: one row read differently is already counted differently.
   */
  lemma OneRowCountsDiffer(r: Row)
    requires Named(r) && ReadDifferently(r)
    ensures PipelineCounts([r], Service) != PipelineCounts([r], Page)
  {
    ReadingsDifferIff(r);
    OneRow(r, Service);
    OneRow(r, Page);
  }

  lemma OneRow(r: Row, who: Reader)
    requires Named(r)
    ensures PipelineCounts([r], who) ==
              Counts(1, if Reads(who, r) == Submitted then 1 else 0, if Reads(who, r) == Confirmed then 1 else 0,
                     if Reads(who, r) == Failed then 1 else 0)
  {
    hide Reads;
    var h, state := r.hash.value, Reads(who, r);
    assert r in [r];
    assert Hashes([r]) == {h};
    assert Shows([r], who, h, state);
    assert forall s :: Shows([r], who, h, s) ==> s == state;
    var m := ByHash([r], who);
    assert m == map[h := state];
    assert In(m, state) == {h};
    assert forall s :: s != state ==> In(m, s) == {};
  }

  /** The page prefers the summary's counts when it has them. */
  method CollectTxPipeline(summary: Option<Counts>, rows: seq<Row>) returns (c: Counts)
    ensures c == if summary.Some? then summary.value else PipelineCounts(rows, Page)
  {
    if summary.Some? {
      return summary.value;
    }
    c := CountRows(rows, Page);
  }

  // ---- Rows the service can reach ----

  function StateText(s: TxState): string {
    match s
    case Submitted => "submitted"
    case Confirmed => "confirmed"
    case Failed => "failed"
  }

  function Stored(t: Tx): Row {
    Row(Some(t.hash), Some(StateText(t.state)), t.fee)
  }

  lemma StoredReads(t: Tx)
    ensures Text(Stored(t)) == StateText(t.state) == Trimmed(Stored(t))
    ensures ServiceState(Stored(t)) == if t.state == Submitted && !Blank(t.fee) then Confirmed else t.state
    ensures PageState(Stored(t)) == t.state
  {
    assert Lower(StateText(t.state)) == StateText(t.state);
    WordsNeedNoTrim(StateText(t.state));
  }

  ghost predicate RowsOfSlots(db: Db, slots: set<Slot>, rows: seq<Row>) {
    forall r :: r in rows <==> exists x :: x in slots && TxAt(db, x).Some? && r == Stored(TxAt(db, x).value)
  }

  /** The rows one event contributes, in some order. */
  ghost predicate RowsOfEvent(db: Db, e: string, rows: seq<Row>) {
    RowsOfSlots(db, SlotsOf(db, e), rows)
  }

  lemma OneMoreSlotRow(db: Db, slots: set<Slot>, rows: seq<Row>, x: Slot)
    requires RowsOfSlots(db, slots, rows) && TxAt(db, x).Some?
    ensures RowsOfSlots(db, slots + {x}, rows + [Stored(TxAt(db, x).value)])
  {
    hide TxAt, Stored;
    var more, row := rows + [Stored(TxAt(db, x).value)], Stored(TxAt(db, x).value);
    forall r
      ensures r in more <==> exists y :: y in slots + {x} && TxAt(db, y).Some? && r == Stored(TxAt(db, y).value)
    {
      assert r in more <==> r in rows || r == row;
      if r == row {
        assert x in slots + {x};
      }
      if r in rows {
        var y :| y in slots && TxAt(db, y).Some? && r == Stored(TxAt(db, y).value);
        assert y in slots + {x};
      }
    }
  }

  /** The service's walk over an event's row, its proofs and its settlements. */
  method EventRows(db: Db, e: string) returns (rows: seq<Row>)
    ensures RowsOfEvent(db, e, rows)
  {
    hide RowsOfSlots, Stored, SlotsOf;
    rows := [];
    ghost var seen: set<Slot> := {};
    assert RowsOfSlots(db, {}, []) by { NoRows(db); }
    if e in db.events {
      rows := AddRow(db, seen, rows, CreateTx(e));
      seen := seen + {CreateTx(e)};
      if db.events[e].closeTx.Some? {
        rows := AddRow(db, seen, rows, CloseTx(e));
        seen := seen + {CloseTx(e)};
      }
    }
    O.VisitedEvent(db, e, seen);
    var proofs := set k | k in db.proofs && k.0 == e;
    while proofs != {}
      invariant RowsOfSlots(db, seen, rows) && O.Visited(db, e, seen, 2, proofs)
      invariant proofs <= (set k | k in db.proofs && k.0 == e)
      decreases proofs
    {
      var k :| k in proofs;
      assert k == (k.0, k.1);
      O.VisitedProof(db, e, seen, proofs, k);
      rows := AddRow(db, seen, rows, ProofTx(k.0, k.1));
      seen := seen + {ProofTx(k.0, k.1)};
      proofs := proofs - {k};
    }
    O.VisitedProofs(db, e, seen);
    rows := SettlementRows(db, e, rows, seen);
  }

  method SettlementRows(db: Db, e: string, before: seq<Row>, ghost visited: set<Slot>) returns (rows: seq<Row>)
    requires RowsOfSlots(db, visited, before) && O.Visited(db, e, visited, 3, set k | k in db.settlements && k.0 == e)
    ensures RowsOfEvent(db, e, rows)
  {
    hide RowsOfSlots, Stored, SlotsOf;
    rows := before;
    ghost var seen := visited;
    var settlements := set k | k in db.settlements && k.0 == e;
    while settlements != {}
      invariant RowsOfSlots(db, seen, rows) && O.Visited(db, e, seen, 3, settlements)
      invariant settlements <= (set k | k in db.settlements && k.0 == e)
      decreases settlements
    {
      var k :| k in settlements;
      assert k == (k.0, k.1);
      O.VisitedSettlement(db, e, seen, settlements, k);
      ghost var reached := seen + O.RowSlots(db, k);
      rows := AddRow(db, seen, rows, SettleTx(k.0, k.1));
      seen := seen + {SettleTx(k.0, k.1)};
      if db.settlements[k].claimTx.Some? {
        rows := AddRow(db, seen, rows, ClaimTx(k.0, k.1));
        seen := seen + {ClaimTx(k.0, k.1)};
      }
      assert seen == reached;
      settlements := settlements - {k};
    }
    O.VisitedAll(db, e, seen);
  }

  method AddRow(db: Db, ghost seen: set<Slot>, rows: seq<Row>, x: Slot) returns (more: seq<Row>)
    requires RowsOfSlots(db, seen, rows) && TxAt(db, x).Some?
    ensures RowsOfSlots(db, seen + {x}, more)
  {
    hide RowsOfSlots;
    OneMoreSlotRow(db, seen, rows, x);
    more := rows + [Stored(TxAt(db, x).value)];
  }

  lemma NoRows(db: Db)
    ensures RowsOfSlots(db, {}, [])
  {
  }

  /** The service's counts for one event, and the page's on the same rows. */
  method ServiceCounts(db: Db, e: string) returns (c: Counts)
    ensures forall rows :: RowsOfEvent(db, e, rows) ==> c == PipelineCounts(rows, Service)
    ensures SharedHashes.Shared(db) ==> forall rows :: RowsOfEvent(db, e, rows) ==> c == PipelineCounts(rows, Page)
  {
    var rows := EventRows(db, e);
    c := CountRows(rows, Service);
    hide PipelineCounts, SharedHashes.Shared;
    forall other | RowsOfEvent(db, e, other) ensures c == PipelineCounts(other, Service)
                                             ensures SharedHashes.Shared(db) ==> c == PipelineCounts(other, Page) {
      SameRowsCountAlike(db, e, rows, other);
      if SharedHashes.Shared(db) {
        SharedRowsCountAlike(db, e, other);
      }
    }
  }

  lemma SameRowsCountAlike(db: Db, e: string, rows: seq<Row>, other: seq<Row>)
    requires RowsOfEvent(db, e, rows) && RowsOfEvent(db, e, other)
    ensures PipelineCounts(rows, Service) == PipelineCounts(other, Service)
  {
    hide PipelineCounts, TxAt, Stored, SlotsOf;
    OrderDoesNotMatter(rows, other, Service);
  }

  /** Where rows with one hash agree both programs count alike, and each hash counts in the state all its rows show. */
  lemma SharedRowsCountAlike(db: Db, e: string, rows: seq<Row>)
    requires SharedHashes.Shared(db) && RowsOfEvent(db, e, rows)
    ensures PipelineCounts(rows, Service) == PipelineCounts(rows, Page)
    ensures forall x :: x in SlotsOf(db, e) && TxAt(db, x).Some? && TxAt(db, x).value.hash != "" ==>
              && TxAt(db, x).value.hash in ByHash(rows, Service)
              && ByHash(rows, Service)[TxAt(db, x).value.hash] == TxAt(db, x).value.state
  {
    forall r | r in rows ensures !ReadDifferently(r) {
      var x :| x in SlotsOf(db, e) && TxAt(db, x).Some? && r == Stored(TxAt(db, x).value);
      StoredReads(TxAt(db, x).value);
    }
    SameReadingSameCounts(rows);
    forall x | x in SlotsOf(db, e) && TxAt(db, x).Some? && TxAt(db, x).value.hash != ""
      ensures TxAt(db, x).value.hash in ByHash(rows, Service)
      ensures ByHash(rows, Service)[TxAt(db, x).value.hash] == TxAt(db, x).value.state
    {
      HashShowsItsState(db, e, rows, x);
    }
  }

  /** After every run of service calls, in either mode, both programs count an event's transactions alike. */
  lemma ReachableRowsCountAlike(gated: bool, hash: Hasher, turns: seq<DbRuns.Turn>, e: string, rows: seq<Row>)
    requires SharedHashes.FreshRun(EMPTY_DB, gated, hash, turns) && DbRuns.Legal(EMPTY_DB, gated, hash, turns)
    requires RowsOfEvent(DbRuns.Run(EMPTY_DB, gated, hash, turns), e, rows)
    ensures PipelineCounts(rows, Service) == PipelineCounts(rows, Page)
    ensures var db := DbRuns.Run(EMPTY_DB, gated, hash, turns);
            forall x :: x in SlotsOf(db, e) && TxAt(db, x).Some? && TxAt(db, x).value.hash != "" ==>
              && TxAt(db, x).value.hash in ByHash(rows, Service)
              && ByHash(rows, Service)[TxAt(db, x).value.hash] == TxAt(db, x).value.state
  {
    SharedHashes.EmptyRunInv(gated, hash);
    SharedHashes.RunKeepsShared(EMPTY_DB, gated, hash, turns);
    hide DbRuns.Run, DbRuns.Legal, SharedHashes.FreshRun, RowsOfEvent, PipelineCounts, ByHash;
    SharedRowsCountAlike(DbRuns.Run(EMPTY_DB, gated, hash, turns), e, rows);
  }

  /** And under every interleaving with the chain. */
  lemma HybridRowsCountAlike(d: C.Deployment, hash: Hasher, owner: T.Address, supply: nat, actions: seq<H.Action>,
                             e: string, rows: seq<Row>)
    requires T.DeployDrt(owner, supply).Ok? && S.Operates(d)
    requires H.LegalRun(H.Start(T.DeployDrt(owner, supply).value), d, hash, actions)
    requires RowsOfEvent(H.Run(H.Start(T.DeployDrt(owner, supply).value), d, hash, actions).db, e, rows)
    ensures PipelineCounts(rows, Service) == PipelineCounts(rows, Page)
  {
    var start := H.Start(T.DeployDrt(owner, supply).value);
    H.StartSatisfiesInv(d, hash, owner, supply);
    SharedHashes.EmptyRunInv(false, hash);
    hide H.Inv, H.LegalRun, H.Run, T.DeployDrt, S.Operates, RowsOfEvent, PipelineCounts, ByHash;
    SharedHashes.HybridRunKeepsShared(start, d, hash, actions);
    SharedRowsCountAlike(H.Run(start, d, hash, actions).db, e, rows);
  }

  lemma HashShowsItsState(db: Db, e: string, rows: seq<Row>, x: Slot)
    requires SharedHashes.Shared(db) && RowsOfEvent(db, e, rows)
    requires x in SlotsOf(db, e) && TxAt(db, x).Some? && TxAt(db, x).value.hash != ""
    ensures TxAt(db, x).value.hash in ByHash(rows, Service)
    ensures ByHash(rows, Service)[TxAt(db, x).value.hash] == TxAt(db, x).value.state
  {
    var t := TxAt(db, x).value;
    var row := Stored(t);
    assert row in rows;
    StoredReads(t);
    assert Shows(rows, Service, t.hash, t.state);
    forall s | Shows(rows, Service, t.hash, s) ensures s == t.state {
      var r :| r in rows && Named(r) && r.hash.value == t.hash && Reads(Service, r) == s;
      var y :| y in SlotsOf(db, e) && TxAt(db, y).Some? && r == Stored(TxAt(db, y).value);
      StoredReads(TxAt(db, y).value);
    }
  }
}
