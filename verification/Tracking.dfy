/**
 Rows that endpoint calls push forward through ranked statuses, found again by an idempotency key: what every run of
 such calls keeps, for the bridge's transfers and for interchain messages alike.
 */
module Tracking {
  import opened Common

  datatype TrackingError = NotFound | Conflict | TxFailed

  /** A chain action's answer: it raised, or it returned a hash, or nothing usable. */
  datatype Reply = Raised | Replied(hash: Option<string>)

  predicate Truthy(h: Option<string>) {
    h.Some? && h.value != ""
  }

  predicate Usable(reply: Reply) {
    reply.Replied? && Truthy(reply.hash)
  }

  /** The body is given at creation. */
  datatype Row<B, S> = Row(body: B, status: S, sourceHash: Option<string>, destHash: Option<string>,
                           error: Option<string>,
                           createdAt: string, updatedAt: string)

  /** The table and its unique index on idempotency keys. */
  datatype Table<B, S> = Table(rows: map<string, Row<B, S>>, index: map<string, string>)

  /** What an endpoint makes of a row: refuse, answer from it, or update some columns. */
  datatype Decision<S> =
    | Refuse(reason: TrackingError)
    | Keep
    | Push(status: S, source: Option<string>, dest: Option<string>, error: Option<string>)

  /** One service: its first status, the rank from which a destination hash may be on record, and its endpoints. */
  datatype Machine<!B, !S, !C> = Machine(
    first: S, destFrom: nat, rank: S -> nat, final: S -> bool, failed: S -> bool, decide: (Row<B, S>, C) -> Decision<S>)

  datatype Request<B, C> =
    | Create(key: string, body: B, id: string, now: string)
    | Act(id: string, op: C, now: string)

  function Pushed<B, S>(row: Row<B, S>, d: Decision<S>, now: string): Row<B, S>
    requires d.Push?
  {
    row.(status := d.status, updatedAt := now,
         sourceHash := if d.source.Some? then d.source else row.sourceHash,
         destHash := if d.dest.Some? then d.dest else row.destHash,
         error := if d.error.Some? then d.error else row.error)
  }

  ghost function Call<B, S, C>(m: Machine<B, S, C>, t: Table<B, S>,
                               r: Request<B, C>): Result<Table<B, S>, TrackingError> {
    match r
    case Create(key, body, id, now) =>
      if key in t.index && t.index[key] in t.rows then
        if t.rows[t.index[key]].body != body then Err(Conflict) else Ok(t)
      else Ok(Table(t.rows[id := Row(body, m.first, None, None, None, now, now)], t.index[key := id]))
    case Act(id, op, now) =>
      if id !in t.rows then Err(NotFound)
      else
        var d := m.decide(t.rows[id], op);
        if d.Refuse? then Err(d.reason) else if d.Keep? then Ok(t)
            else Ok(t.(rows := t.rows[id := Pushed(t.rows[id], d, now)]))
  }

  ghost function Step<B, S, C>(m: Machine<B, S, C>, t: Table<B, S>, r: Request<B, C>): Table<B, S> {
    match Call(m, t, r)
    case Ok(next) => next
    case Err(_) => t
  }

  /** Generated ids are fresh. */
  ghost predicate NewId<B, S, C>(t: Table<B, S>, r: Request<B, C>) {
    r.Create? ==> r.id !in t.rows
  }

  ghost predicate Legal<B, S, C>(m: Machine<B, S, C>, t: Table<B, S>, rs: seq<Request<B, C>>)
    decreases |rs|
  {
    rs == [] || (NewId(t, rs[0]) && Legal(m, Step(m, t, rs[0]), rs[1..]))
  }

  ghost function Run<B, S, C>(m: Machine<B, S, C>, t: Table<B, S>, rs: seq<Request<B, C>>): Table<B, S>
    decreases |rs|
  {
    if rs == [] then t else Run(m, Step(m, t, rs[0]), rs[1..])
  }

  // ---- What is asked of a service ----

  /** A hash is on record only from its status on, and an error exactly on failed rows. */
  ghost predicate RowShaped<B, S, C>(m: Machine<B, S, C>, row: Row<B, S>) {
    && (row.sourceHash.Some? ==> m.rank(row.status) >= 1)
    && (row.destHash.Some? ==> m.rank(row.status) >= m.destFrom)
    && (row.error.Some? <==> m.failed(row.status))
  }

  ghost predicate Forward<B, S, C>(m: Machine<B, S, C>, row: Row<B, S>, d: Decision<S>) {
    d.Push? ==>
      && m.rank(row.status) <= m.rank(d.status)
      && (d.source.Some? ==> m.rank(row.status) == 0 && m.rank(d.status) >= 1)
      && (d.dest.Some? ==> m.rank(d.status) >= m.destFrom)
      && (if m.final(row.status) then d.status == row.status && d.error.None? else d.error.Some? == m.failed(d.status))
  }

  /** No endpoint pushes a row back. */
  ghost predicate Sound<B(!new), S(!new), C(!new)>(m: Machine<B, S, C>) {
    && m.rank(m.first) == 0 && !m.failed(m.first) && m.destFrom >= 1
    && (forall s :: m.failed(s) ==> m.final(s))
    && forall row, op :: RowShaped(m, row) ==> Forward(m, row, m.decide(row, op))
  }

  // ---- What every run keeps ----

  ghost predicate Shaped<B, S, C>(m: Machine<B, S, C>, t: Table<B, S>) {
    && (forall id :: id in t.rows ==> RowShaped(m, t.rows[id]))
    && (forall k :: k in t.index ==> t.index[k] in t.rows)
  }

  ghost predicate RowAdvances<B, S, C>(m: Machine<B, S, C>, row: Row<B, S>, next: Row<B, S>) {
    && next.body == row.body && next.createdAt == row.createdAt
    && m.rank(row.status) <= m.rank(next.status)
    && (m.final(row.status) ==> next.status == row.status && next.error == row.error)
    && (row.sourceHash.Some? ==> next.sourceHash == row.sourceHash)
  }

  /** What no call undoes. */
  ghost predicate Advances<B, S, C>(m: Machine<B, S, C>, t: Table<B, S>, n: Table<B, S>) {
    && (forall id :: id in t.rows ==> id in n.rows && RowAdvances(m, t.rows[id], n.rows[id]))
    && (forall k :: k in t.index ==> k in n.index && n.index[k] == t.index[k])
  }

  lemma PushAdvances<B, S, C>(m: Machine<B, S, C>, row: Row<B, S>, d: Decision<S>, now: string)
    requires RowShaped(m, row) && d.Push? && Forward(m, row, d) && (m.failed(row.status) ==> m.final(row.status))
    ensures RowShaped(m, Pushed(row, d, now)) && RowAdvances(m, row, Pushed(row, d, now))
  {
  }

  lemma StepAdvances<B(!new), S(!new), C(!new)>(m: Machine<B, S, C>, t: Table<B, S>, r: Request<B, C>)
    requires Sound(m) && Shaped(m, t) && NewId(t, r)
    ensures Shaped(m, Step(m, t, r)) && Advances(m, t, Step(m, t, r))
  {
    if r.Act? && r.id in t.rows && m.decide(t.rows[r.id], r.op).Push? {
      PushAdvances(m, t.rows[r.id], m.decide(t.rows[r.id], r.op), r.now);
      hide RowShaped, RowAdvances, Forward, Pushed;
      SameRowAdvances(m, t);
    } else {
      SameRowAdvances(m, t);
    }
  }

  lemma SameRowAdvances<B, S, C>(m: Machine<B, S, C>, t: Table<B, S>)
    ensures forall id :: id in t.rows ==> RowAdvances(m, t.rows[id], t.rows[id])
  {
  }

  lemma AdvancesTransitive<B, S, C>(m: Machine<B, S, C>, a: Table<B, S>, b: Table<B, S>, c: Table<B, S>)
    requires Advances(m, a, b) && Advances(m, b, c)
    ensures Advances(m, a, c)
  {
    forall id | id in a.rows ensures id in c.rows && RowAdvances(m, a.rows[id], c.rows[id]) {
      assert RowAdvances(m, a.rows[id], b.rows[id]) && RowAdvances(m, b.rows[id], c.rows[id]);
    }
  }

  /** Over any run statuses never step back, final ones stay, and a recorded source hash is never written again. */
  lemma {:induction false} RunAdvances<B(!new), S(!new), C(!new)>(m: Machine<B, S, C>, t: Table<B, S>,
                                                                  rs: seq<Request<B, C>>)
    requires Sound(m) && Shaped(m, t) && Legal(m, t, rs)
    ensures Shaped(m, Run(m, t, rs)) && Advances(m, t, Run(m, t, rs))
    decreases |rs|
  {
    hide Step, Shaped, Sound, RowAdvances;
    if rs == [] {
      SameRowAdvances(m, t);
    } else {
      StepAdvances(m, t, rs[0]);
      RunAdvances(m, Step(m, t, rs[0]), rs[1..]);
      AdvancesTransitive(m, t, Step(m, t, rs[0]), Run(m, t, rs));
    }
  }

  // ---- The source hash is written once ----

  ghost predicate WritesSource<B, S, C>(m: Machine<B, S, C>, t: Table<B, S>, r: Request<B, C>, id: string) {
    r.Act? && r.id == id && id in t.rows && m.decide(t.rows[id], r.op).Push? && m.decide(t.rows[id], r.op).source.Some?
  }

  ghost function SourceWrites<B, S, C>(m: Machine<B, S, C>, t: Table<B, S>, rs: seq<Request<B, C>>, id: string): nat
    decreases |rs|
  {
    if rs == [] then 0
    else (if WritesSource(m, t, rs[0], id) then 1 else 0) + SourceWrites(m, Step(m, t, rs[0]), rs[1..], id)
  }

  lemma StepSource<B(!new), S(!new), C(!new)>(m: Machine<B, S, C>, t: Table<B, S>, r: Request<B, C>, id: string)
    requires Sound(m) && Shaped(m, t) && NewId(t, r) && id in Step(m, t, r).rows
    ensures Step(m, t, r).rows[id].sourceHash.Some? <==>
              (id in t.rows && t.rows[id].sourceHash.Some?) || WritesSource(m, t, r, id)
    ensures WritesSource(m, t, r, id) ==> m.rank(t.rows[id].status) == 0 && m.rank(Step(m, t, r).rows[id].status) >= 1
  {
    if WritesSource(m, t, r, id) {
      assert Forward(m, t.rows[id], m.decide(t.rows[id], r.op));
    }
  }

  lemma NoRowNoWrite<B, S, C>(m: Machine<B, S, C>, t: Table<B, S>, r: Request<B, C>, id: string)
    requires id !in Step(m, t, r).rows
    ensures id !in t.rows && !WritesSource(m, t, r, id)
  {
  }

  /** A row's source hash is written at most once, and it is on record exactly when a call of the run wrote it. */
  lemma {:induction false} SourceWrittenOnce<B(!new), S(!new), C(!new)>(
      m: Machine<B, S, C>, t: Table<B, S>, rs: seq<Request<B, C>>, id: string)
    requires Sound(m) && Shaped(m, t) && Legal(m, t, rs)
    ensures SourceWrites(m, t, rs, id) <= if id in t.rows && m.rank(t.rows[id].status) >= 1 then 0 else 1
    ensures id in Run(m, t, rs).rows ==>
      (Run(m, t, rs).rows[id].sourceHash.Some? <==>
        (id in t.rows && t.rows[id].sourceHash.Some?) || SourceWrites(m, t, rs, id) == 1)
    decreases |rs|
  {
    if rs != [] {
      var n := Step(m, t, rs[0]);
      StepAdvances(m, t, rs[0]);
      SourceWrittenOnce(m, n, rs[1..], id);
      if id in n.rows {
        StepSource(m, t, rs[0], id);
        assert id in t.rows ==> RowAdvances(m, t.rows[id], n.rows[id]);
      } else {
        NoRowNoWrite(m, t, rs[0], id);
      }
      hide Step, Sound, Shaped, WritesSource;
    }
  }

  // ---- The status is the highest that was named ----

  /** An accepted call brings its row to the rank it names, or leaves it where it is already further. */
  ghost predicate BringsTo<B(!new), S(!new), C(!new)>(m: Machine<B, S, C>, names: (C, S) -> nat) {
    forall row, op :: RowShaped(m, row) ==>
      var d, named := m.decide(row, op), names(op, row.status);
      && (d.Keep? ==> named <= m.rank(row.status))
      && (d.Push? ==> m.rank(d.status) == if named >= m.rank(row.status) then named else m.rank(row.status))
  }

  /** The run holds an accepted call on the row that names this rank or a higher one. */
  ghost predicate Reached<B, S, C>(m: Machine<B, S, C>, names: (C, S) -> nat, t: Table<B, S>, rs: seq<Request<B, C>>,
                                   id: string, rank: nat)
    decreases |rs|
  {
    && rs != []
    && ((rs[0].Act? && rs[0].id == id && id in t.rows && Call(m, t, rs[0]).Ok?
         && names(rs[0].op, t.rows[id].status) >= rank)
        || Reached(m, names, Step(m, t, rs[0]), rs[1..], id, rank))
  }

  lemma StepReaches<B(!new), S(!new), C(!new)>(
      m: Machine<B, S, C>, names: (C, S) -> nat, t: Table<B, S>, r: Request<B, C>, id: string, rank: nat)
    requires Sound(m) && BringsTo(m, names) && Shaped(m, t) && NewId(t, r) && id in Step(m, t, r).rows && rank >= 1
    ensures m.rank(Step(m, t, r).rows[id].status) >= rank <==>
              || (id in t.rows && m.rank(t.rows[id].status) >= rank)
              || (r.Act? && r.id == id && id in t.rows && Call(m, t, r).Ok? && names(r.op, t.rows[id].status) >= rank)
  {
    if r.Act? && r.id == id && id in t.rows {
      assert RowShaped(m, t.rows[id]);
      assert Forward(m, t.rows[id], m.decide(t.rows[id], r.op));
    }
  }

  /** Over any run a row has reached a rank exactly when it had, or an accepted call named it. */
  lemma {:induction false} RankIsReached<B(!new), S(!new), C(!new)>(
      m: Machine<B, S, C>, names: (C, S) -> nat, t: Table<B, S>, rs: seq<Request<B, C>>, id: string, rank: nat)
    requires Sound(m) && BringsTo(m, names) && Shaped(m, t) && Legal(m, t, rs) && rank >= 1
    ensures id in Run(m, t, rs).rows ==>
              (m.rank(Run(m, t, rs).rows[id].status) >= rank <==>
                (id in t.rows && m.rank(t.rows[id].status) >= rank) || Reached(m, names, t, rs, id, rank))
    decreases |rs|
  {
    if rs != [] {
      var n := Step(m, t, rs[0]);
      StepAdvances(m, t, rs[0]);
      RankIsReached(m, names, n, rs[1..], id, rank);
      if id in n.rows {
        StepReaches(m, names, t, rs[0], id, rank);
      } else {
        NoRowNoWrite(m, t, rs[0], id);
      }
      hide Step, Sound, Shaped, BringsTo;
    }
  }

  // ---- Replaying a create ----

  lemma CreatedRow<B, S, C>(m: Machine<B, S, C>, t: Table<B, S>, first: Request<B, C>)
    requires first.Create? && Call(m, t, first).Ok? && NewId(t, first)
    ensures var n := Step(m, t, first);
            first.key in n.index && n.index[first.key] in n.rows && n.rows[n.index[first.key]].body == first.body
  {
  }

  /**
   A create repeated with its key, after any calls, changes nothing and names the same row; another body is refused.
   */
  lemma CreateReplays<B(!new), S(!new), C(!new)>(
      m: Machine<B, S, C>, t: Table<B, S>, first: Request<B, C>, rs: seq<Request<B, C>>, again: Request<B, C>)
    requires Sound(m) && Shaped(m, t) && first.Create? && again.Create? && NewId(t, first) && first.key == again.key
    requires Call(m, t, first).Ok? && Legal(m, Step(m, t, first), rs)
    ensures var end := Run(m, Step(m, t, first), rs);
            && first.key in end.index && first.key in Step(m, t, first).index
            && end.index[first.key] == Step(m, t, first).index[first.key]
            && Call(m, end, again) == if first.body == again.body then Ok(end) else Err(Conflict)
  {
    var n := Step(m, t, first);
    StepAdvances(m, t, first);
    CreatedRow(m, t, first);
    hide Step, Run, Sound, Legal;
    RunAdvances(m, n, rs);
    assert RowAdvances(m, n.rows[n.index[first.key]], Run(m, n, rs).rows[n.index[first.key]]);
  }

  // ---- What an endpoint of a service answers ----

  /** The row the request is about. */
  ghost predicate Names<B, S, C>(t: Table<B, S>, r: Request<B, C>, id: string) {
    if r.Create? then r.key in t.index && t.index[r.key] == id else r.id == id
  }

  /**
   The new table is the call's, the answer is its error or the named row, and all that holds over runs holds of this
   step.
   */
  ghost predicate Serves<B, S, C>(m: Machine<B, S, C>, t: Table<B, S>, n: Table<B, S>, r: Request<B, C>,
                                  answer: Result<Row<B, S>, TrackingError>) {
    && Shaped(m, n) && Advances(m, t, n)
    && match Call(m, t, r)
       case Err(e) => answer == Err(e) && n == t
       case Ok(next) =>
         n == next && answer.Ok? && exists id :: Names(n, r, id) && id in n.rows && answer.value == n.rows[id]
  }

  lemma ServesOf<B(!new), S(!new), C(!new)>(m: Machine<B, S, C>, t: Table<B, S>, n: Table<B, S>, r: Request<B, C>,
                                            answer: Result<Row<B, S>, TrackingError>, id: string)
    requires Sound(m) && Shaped(m, t) && NewId(t, r)
    requires match Call(m, t, r)
             case Err(e) => answer == Err(e) && n == t
             case Ok(next) => n == next && Names(n, r, id) && id in n.rows && answer == Ok(n.rows[id])
    ensures Serves(m, t, n, r, answer)
  {
    StepAdvances(m, t, r);
    hide Sound, Shaped, Advances;
  }
}
