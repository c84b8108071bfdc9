/** The service's record of bridge transfers: rows that endpoint calls push forward through five statuses. */
module BridgeTracking {
  import opened Common
  import opened Tracking

  datatype Direction = HomeToRemote | RemoteToHome

  datatype Status = Initiated | SourceSubmitted | SourceConfirmed | DestSubmitted | Completed

  datatype Body = Body(sender: string, amountWei: string, direction: Direction)

  type Transfer = Row<Body, Status>

  type Transfers = Table<Body, Status>

  const NO_TRANSFERS: Transfers := Table(map[], map[])

  function Rank(s: Status): nat {
    match s
    case Initiated => 0
    case SourceSubmitted => 1
    case SourceConfirmed => 2
    case DestSubmitted => 3
    case Completed => 4
  }

  datatype Op =
    | MarkSourceSubmitted(hash: string)
    | SendTokens(reply: Reply)
    | MarkSourceConfirmed
    | MarkDestSubmitted(hash: string)
    | ReceiveTokens(reply: Reply)
    | MarkCompleted

  function Decide(row: Transfer, op: Op): Decision<Status> {
    match op
    case MarkSourceSubmitted(h) =>
      if Truthy(row.sourceHash) && row.sourceHash.value != h then Refuse(Conflict)
      else if Rank(row.status) >= 1 then Keep
      else Push(SourceSubmitted, Some(h), None, None)
    case SendTokens(reply) =>
      if row.status != Initiated then Keep
      else if !Usable(reply) then Refuse(TxFailed)
      else Push(SourceSubmitted, reply.hash, None, None)
    case MarkSourceConfirmed => if Rank(row.status) >= 2 then Keep else Push(SourceConfirmed, None, None, None)
    case MarkDestSubmitted(h) =>
      if Truthy(row.destHash) && row.destHash.value != h then Refuse(Conflict)
      else if Rank(row.status) >= 3 then Keep
      else Push(DestSubmitted, None, Some(h), None)
    case ReceiveTokens(reply) =>
      if row.status != SourceConfirmed && row.status != DestSubmitted then Keep
      else if !Usable(reply) then Refuse(TxFailed)
      else Push(DestSubmitted, None, reply.hash, None)
    case MarkCompleted => if Rank(row.status) >= 4 then Keep else Push(Completed, None, None, None)
  }

  const BRIDGE: Machine<Body, Status, Op> := Machine(Initiated, 3, s => Rank(s), s => s == Completed, s => false,
                                                     (row, op) => Decide(row, op))

  lemma BridgeIsSound()
    ensures Sound(BRIDGE)
  {
    forall row: Transfer, op | RowShaped(BRIDGE, row) ensures Forward(BRIDGE, row, BRIDGE.decide(row, op)) {
    }
  }

  /**
   Over every run of endpoint calls transfers only advance, completed ones stay, and a source hash is written at most
   once.
   */
  lemma TransfersAdvance(t: Transfers, rs: seq<Request<Body, Op>>, id: string)
    requires Shaped(BRIDGE, t) && Legal(BRIDGE, t, rs)
    ensures Shaped(BRIDGE, Run(BRIDGE, t, rs)) && Advances(BRIDGE, t, Run(BRIDGE, t, rs))
    ensures SourceWrites(BRIDGE, t, rs, id) <= if id in t.rows && t.rows[id].status != Initiated then 0 else 1
  {
    BridgeIsSound();
    hide Sound, Shaped, Advances, Legal, Run;
    RunAdvances(BRIDGE, t, rs);
    SourceWrittenOnce(BRIDGE, t, rs, id);
  }

  /** A call writes a source hash exactly when it marks or sends a transfer that has not been sent. */
  lemma WritesSourceIff(t: Transfers, r: Request<Body, Op>, id: string)
    requires Shaped(BRIDGE, t)
    ensures WritesSource(BRIDGE, t, r, id) <==>
      && r.Act? && r.id == id && id in t.rows && t.rows[id].status == Initiated
      && (r.op.MarkSourceSubmitted? || (r.op.SendTokens? && Usable(r.op.reply)))
  {
    assert id in t.rows ==> RowShaped(BRIDGE, t.rows[id]);
  }

  /**
   A call about a transfer is refused for another hash than the recorded one, or for a chain action without a usable
   answer where one is taken; nothing else is refused.
   */
  lemma RefusedIff(t: Transfers, id: string, op: Op, now: string)
    requires id in t.rows
    ensures var row, r := t.rows[id], Call(BRIDGE, t, Act(id, op, now));
            && (r == Err(Conflict) <==>
                 || (op.MarkSourceSubmitted? && row.sourceHash != None && row.sourceHash != Some("")
                     && row.sourceHash != Some(op.hash))
                 || (op.MarkDestSubmitted? && row.destHash != None && row.destHash != Some("")
                     && row.destHash != Some(op.hash)))
            && (r == Err(TxFailed) <==>
                 || (op.SendTokens? && row.status == Initiated && !Usable(op.reply))
                 || (op.ReceiveTokens? && row.status in {SourceConfirmed, DestSubmitted} && !Usable(op.reply)))
            && r != Err(NotFound)
  {
  }

  /** The rank an accepted call brings its transfer to; receiving does nothing before the source is confirmed. */
  function Named(op: Op, before: Status): nat {
    match op
    case MarkSourceSubmitted(_) => 1
    case SendTokens(_) => 1
    case MarkSourceConfirmed => 2
    case MarkDestSubmitted(_) => 3
    case ReceiveTokens(_) => if before == Initiated || before == SourceSubmitted then 0 else 3
    case MarkCompleted => 4
  }

  const NAMED: (Op, Status) -> nat := (op, before) => Named(op, before)

  lemma BridgeBrings()
    ensures BringsTo(BRIDGE, NAMED)
  {
    forall row: Transfer, op | RowShaped(BRIDGE, row)
      ensures BRIDGE.decide(row, op).Keep? ==> NAMED(op, row.status) <= BRIDGE.rank(row.status)
      ensures BRIDGE.decide(row, op).Push? ==>
                BRIDGE.rank(BRIDGE.decide(row, op).status)
                  == if NAMED(op, row.status) >= BRIDGE.rank(row.status) then NAMED(op, row.status)
                     else BRIDGE.rank(row.status)
    {
    }
  }

  /** Over any run a transfer has reached a status exactly when it had, or an accepted call named it or a later one. */
  lemma StatusIsReached(t: Transfers, rs: seq<Request<Body, Op>>, id: string, status: Status)
    requires Shaped(BRIDGE, t) && Legal(BRIDGE, t, rs) && status != Initiated && id in Run(BRIDGE, t, rs).rows
    ensures Rank(Run(BRIDGE, t, rs).rows[id].status) >= Rank(status) <==>
              || (id in t.rows && Rank(t.rows[id].status) >= Rank(status))
              || Reached(BRIDGE, NAMED, t, rs, id, Rank(status))
  {
    BridgeIsSound();
    BridgeBrings();
    hide Sound, BringsTo, Run, Legal, Shaped;
    RankIsReached(BRIDGE, NAMED, t, rs, id, Rank(status));
  }

  /**
   The destination hash is not written once. The one call that replaces a recorded one: receiving again while the row is
   still dest-submitted.
   */
  lemma DestHashReplacedIff(t: Transfers, r: Request<Body, Op>, id: string)
    requires Shaped(BRIDGE, t) && NewId(t, r)
    requires id in t.rows && t.rows[id].destHash.Some?
    ensures id in Step(BRIDGE, t, r).rows
    ensures Step(BRIDGE, t, r).rows[id].destHash != t.rows[id].destHash <==>
              && r.Act? && r.op.ReceiveTokens? && r.id == id && t.rows[id].status == DestSubmitted
              && Usable(r.op.reply) && r.op.reply.hash != t.rows[id].destHash
  {
    assert RowShaped(BRIDGE, t.rows[id]);
  }

  // ---- The service and its endpoints ----

  class BridgeService {
    var rows: map<string, Transfer>
    var index: map<string, string>

    constructor ()
      ensures State() == NO_TRANSFERS && Shaped(BRIDGE, State())
    {
      rows, index := map[], map[];
    }

    function State(): Transfers
      reads this
    {
      Table(rows, index)
    }

    method UpdateRow(id: string, status: Status, source: Option<string>, dest: Option<string>, now: string)
      returns (row: Transfer)
      requires id in rows
      modifies this`rows
      ensures rows == old(rows)[id := row]
      ensures row.body == old(rows)[id].body && row.createdAt == old(rows)[id].createdAt
              && row.error == old(rows)[id].error
      ensures row.status == status && row.updatedAt == now
      ensures row.sourceHash == if source.Some? then source else old(rows)[id].sourceHash
      ensures row.destHash == if dest.Some? then dest else old(rows)[id].destHash
    {
      row := rows[id].(status := status, updatedAt := now);
      if source.Some? {
        row := row.(sourceHash := source);
      }
      if dest.Some? {
        row := row.(destHash := dest);
      }
      rows := rows[id := row];
    }

    method CreateTransfer(key: string, body: Body, id: string, now: string) returns (r: Result<Transfer, TrackingError>)
      requires Shaped(BRIDGE, State()) && id !in rows
      modifies this
      ensures Serves(BRIDGE, old(State()), State(), Create(key, body, id, now), r)
      ensures r.Ok? ==> key in index && index[key] in rows && r.value == rows[index[key]] && r.value.body == body
    {
      BridgeIsSound();
      if key in index && index[key] in rows {
        var existing := rows[index[key]];
        r := if existing.body != body then Err(Conflict) else Ok(existing);
      } else {
        var row: Transfer := Row(body, Initiated, None, None, None, now, now);
        rows, index := rows[id := row], index[key := id];
        r := Ok(row);
      }
      ServesOf(BRIDGE, old(State()), State(), Create(key, body, id, now), r, if key in index then index[key] else "");
    }

    method SourceSubmittedCall(id: string, hash: string, now: string) returns (r: Result<Transfer, TrackingError>)
      requires Shaped(BRIDGE, State())
      modifies this`rows
      ensures Serves(BRIDGE, old(State()), State(), Act(id, MarkSourceSubmitted(hash), now), r)
      ensures r.Ok? && old(rows)[id].status == Initiated ==> rows[id].sourceHash == Some(hash)
      ensures id in old(rows) ==> rows[id].destHash == old(rows)[id].destHash
    {
      BridgeIsSound();
      ghost var before := State();
      if id !in rows {
        r := Err(NotFound);
      } else {
        var transfer := rows[id];
        if Truthy(transfer.sourceHash) && transfer.sourceHash.value != hash {
          r := Err(Conflict);
        } else if Rank(transfer.status) >= Rank(SourceSubmitted) {
          r := Ok(transfer);
        } else {
          transfer := UpdateRow(id, SourceSubmitted, Some(hash), None, now);
          r := Ok(transfer);
        }
      }
      ServesOf(BRIDGE, before, State(), Act(id, MarkSourceSubmitted(hash), now), r, id);
    }

    method SendTokensCall(id: string, reply: Reply, now: string) returns (r: Result<Transfer, TrackingError>)
      requires Shaped(BRIDGE, State())
      modifies this`rows
      ensures Serves(BRIDGE, old(State()), State(), Act(id, SendTokens(reply), now), r)
      ensures id in old(rows) ==>
                (var unsent := old(rows)[id].status == Initiated;
                 rows[id].sourceHash == if unsent && Usable(reply) then reply.hash else old(rows)[id].sourceHash)
      ensures id in old(rows) ==> rows[id].destHash == old(rows)[id].destHash
    {
      BridgeIsSound();
      ghost var before := State();
      if id !in rows {
        r := Err(NotFound);
      } else {
        var transfer := rows[id];
        if transfer.status != Initiated {
          r := Ok(transfer);
        } else if reply.Raised? || !Truthy(reply.hash) {
          r := Err(TxFailed);
        } else {
          transfer := UpdateRow(id, SourceSubmitted, reply.hash, None, now);
          r := Ok(transfer);
        }
      }
      ServesOf(BRIDGE, before, State(), Act(id, SendTokens(reply), now), r, id);
    }

    method SourceConfirmedCall(id: string, now: string) returns (r: Result<Transfer, TrackingError>)
      requires Shaped(BRIDGE, State())
      modifies this`rows
      ensures Serves(BRIDGE, old(State()), State(), Act(id, MarkSourceConfirmed, now), r)
      ensures id in old(rows) ==> rows[id].sourceHash == old(rows)[id].sourceHash
      ensures id in old(rows) ==> rows[id].destHash == old(rows)[id].destHash
      ensures r.Ok? ==> Rank(rows[id].status) >= Rank(SourceConfirmed)
    {
      BridgeIsSound();
      ghost var before := State();
      if id !in rows {
        r := Err(NotFound);
      } else {
        var transfer := rows[id];
        if Rank(transfer.status) >= Rank(SourceConfirmed) {
          r := Ok(transfer);
        } else {
          transfer := UpdateRow(id, SourceConfirmed, None, None, now);
          r := Ok(transfer);
        }
      }
      ServesOf(BRIDGE, before, State(), Act(id, MarkSourceConfirmed, now), r, id);
    }

    method DestSubmittedCall(id: string, hash: string, now: string) returns (r: Result<Transfer, TrackingError>)
      requires Shaped(BRIDGE, State())
      modifies this`rows
      ensures Serves(BRIDGE, old(State()), State(), Act(id, MarkDestSubmitted(hash), now), r)
      ensures r.Ok? && Rank(old(rows)[id].status) < Rank(DestSubmitted) ==> rows[id].destHash == Some(hash)
      ensures id in old(rows) ==> rows[id].sourceHash == old(rows)[id].sourceHash
    {
      BridgeIsSound();
      ghost var before := State();
      if id !in rows {
        r := Err(NotFound);
      } else {
        var transfer := rows[id];
        if Truthy(transfer.destHash) && transfer.destHash.value != hash {
          r := Err(Conflict);
        } else if Rank(transfer.status) >= Rank(DestSubmitted) {
          r := Ok(transfer);
        } else {
          transfer := UpdateRow(id, DestSubmitted, None, Some(hash), now);
          r := Ok(transfer);
        }
      }
      ServesOf(BRIDGE, before, State(), Act(id, MarkDestSubmitted(hash), now), r, id);
    }

    method ReceiveTokensCall(id: string, reply: Reply, now: string) returns (r: Result<Transfer, TrackingError>)
      requires Shaped(BRIDGE, State())
      modifies this`rows
      ensures Serves(BRIDGE, old(State()), State(), Act(id, ReceiveTokens(reply), now), r)
      ensures id in old(rows) ==>
                (var confirmed := old(rows)[id].status in {SourceConfirmed, DestSubmitted};
                 rows[id].destHash == if confirmed && Usable(reply) then reply.hash else old(rows)[id].destHash)
      ensures id in old(rows) ==> rows[id].sourceHash == old(rows)[id].sourceHash
    {
      BridgeIsSound();
      ghost var before := State();
      if id !in rows {
        r := Err(NotFound);
      } else {
        var transfer := rows[id];
        if transfer.status != SourceConfirmed && transfer.status != DestSubmitted {
          r := Ok(transfer);
        } else if reply.Raised? || !Truthy(reply.hash) {
          r := Err(TxFailed);
        } else {
          transfer := UpdateRow(id, DestSubmitted, None, reply.hash, now);
          r := Ok(transfer);
        }
      }
      ServesOf(BRIDGE, before, State(), Act(id, ReceiveTokens(reply), now), r, id);
    }

    method CompletedCall(id: string, now: string) returns (r: Result<Transfer, TrackingError>)
      requires Shaped(BRIDGE, State())
      modifies this`rows
      ensures Serves(BRIDGE, old(State()), State(), Act(id, MarkCompleted, now), r)
      ensures id in old(rows) ==> rows[id].sourceHash == old(rows)[id].sourceHash
      ensures id in old(rows) ==> rows[id].destHash == old(rows)[id].destHash
      ensures r.Ok? ==> rows[id].status == Completed
    {
      BridgeIsSound();
      ghost var before := State();
      if id !in rows {
        r := Err(NotFound);
      } else {
        var transfer := rows[id];
        if Rank(transfer.status) >= Rank(Completed) {
          r := Ok(transfer);
        } else {
          transfer := UpdateRow(id, Completed, None, None, now);
          r := Ok(transfer);
        }
      }
      ServesOf(BRIDGE, before, State(), Act(id, MarkCompleted, now), r, id);
    }
  }
}
