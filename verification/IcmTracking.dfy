/** The service's record of interchain messages, whose two final statuses, processed and failed, no call leaves. */
module IcmTracking {
  import opened Common
  import opened Tracking

  datatype MessageType = BridgeTransfer | SettlementSync | ProofAttestation

  datatype Status = Pending | Sent | Delivered | Processed | Failed

  datatype Draft = Draft(sourceChain: string, destChain: string, messageType: MessageType, sender: string,
                         payload: string)

  type Message = Row<Draft, Status>

  type Messages = Table<Draft, Status>

  const NO_MESSAGES: Messages := Table(map[], map[])

  function Rank(s: Status): nat {
    match s
    case Pending => 0
    case Sent => 1
    case Delivered => 2
    case Processed => 3
    case Failed => 4
  }

  datatype Op =
    | MarkSent(hash: string)
    | MarkDelivered(hash: string)
    | MarkProcessed
    | MarkFailed(reason: string)
    | Relay(reply: Reply)
    | ProcessOnchain(reply: Reply)

  function Decide(row: Message, op: Op): Decision<Status> {
    match op
    case MarkSent(h) =>
      if row.status == Failed then Refuse(Conflict)
      else if Truthy(row.sourceHash) && row.sourceHash.value != h then Refuse(Conflict)
      else if Rank(row.status) >= 1 then Keep
      else Push(Sent, Some(h), None, None)
    case MarkDelivered(h) =>
      if row.status == Failed then Refuse(Conflict)
      else if Truthy(row.destHash) && row.destHash.value != h then Refuse(Conflict)
      else if Rank(row.status) >= 2 then Keep
      else Push(Delivered, None, Some(h), None)
    case MarkProcessed =>
      if row.status == Failed then Refuse(Conflict)
      else if Rank(row.status) >= 3 then Keep
      else Push(Processed, None, None, None)
    case MarkFailed(reason) =>
      if row.status == Processed then Refuse(Conflict)
      else if row.status == Failed then Keep
      else Push(Failed, None, None, Some(reason))
    case Relay(reply) =>
      if row.status == Failed || row.status == Processed then Keep
      else if !Usable(reply) then Refuse(TxFailed)
      else Push(Delivered, None, reply.hash, None)
    case ProcessOnchain(reply) =>
      if row.status == Failed then Keep
      else if !Usable(reply) then Refuse(TxFailed)
      else Push(Processed, None, None, None)
  }

  predicate Final(s: Status) {
    s == Processed || s == Failed
  }

  const ICM: Machine<Draft, Status, Op> := Machine(Pending, 2, s => Rank(s), s => Final(s), s => s == Failed,
                                                   (row, op) => Decide(row, op))

  lemma IcmIsSound()
    ensures Sound(ICM)
  {
    forall row: Message, op | RowShaped(ICM, row) ensures Forward(ICM, row, ICM.decide(row, op)) {
    }
  }

  /**
   Over every run of endpoint calls messages only advance, processed and failed stay, and a source hash is written at
   most once.
   */
  lemma MessagesAdvance(t: Messages, rs: seq<Request<Draft, Op>>, id: string)
    requires Shaped(ICM, t) && Legal(ICM, t, rs)
    ensures Shaped(ICM, Run(ICM, t, rs)) && Advances(ICM, t, Run(ICM, t, rs))
    ensures SourceWrites(ICM, t, rs, id) <= if id in t.rows && t.rows[id].status != Pending then 0 else 1
  {
    IcmIsSound();
    hide Sound, Shaped, Advances, Legal, Run;
    RunAdvances(ICM, t, rs);
    SourceWrittenOnce(ICM, t, rs, id);
  }

  /**
   A call about a message is refused for another hash than the recorded one, across the two final statuses, or for a
   chain action without a usable answer where one is taken; nothing else is refused.
   */
  lemma RefusedIff(t: Messages, id: string, op: Op, now: string)
    requires id in t.rows
    ensures var row, r := t.rows[id], Call(ICM, t, Act(id, op, now));
            && (r == Err(Conflict) <==>
                 || (row.status == Failed && (op.MarkSent? || op.MarkDelivered? || op.MarkProcessed?))
                 || (row.status == Processed && op.MarkFailed?)
                 || (op.MarkSent? && row.sourceHash != None && row.sourceHash != Some("")
                     && row.sourceHash != Some(op.hash))
                 || (op.MarkDelivered? && row.destHash != None && row.destHash != Some("")
                     && row.destHash != Some(op.hash)))
            && (r == Err(TxFailed) <==>
                 || (op.Relay? && row.status != Failed && row.status != Processed && !Usable(op.reply))
                 || (op.ProcessOnchain? && row.status != Failed && !Usable(op.reply)))
            && r != Err(NotFound)
  {
  }

  /** The rank an accepted call brings its message to. */
  function Named(op: Op, before: Status): nat {
    match op
    case MarkSent(_) => 1
    case MarkDelivered(_) => 2
    case MarkProcessed => 3
    case MarkFailed(_) => 4
    case Relay(_) => 2
    case ProcessOnchain(_) => 3
  }

  const NAMED: (Op, Status) -> nat := (op, before) => Named(op, before)

  lemma IcmBrings()
    ensures BringsTo(ICM, NAMED)
  {
    forall row: Message, op | RowShaped(ICM, row)
      ensures ICM.decide(row, op).Keep? ==> NAMED(op, row.status) <= ICM.rank(row.status)
      ensures ICM.decide(row, op).Push? ==>
                ICM.rank(ICM.decide(row, op).status)
                  == if NAMED(op, row.status) >= ICM.rank(row.status) then NAMED(op, row.status)
                     else ICM.rank(row.status)
    {
    }
  }

  /** Over any run a message has reached a status exactly when it had, or an accepted call named it or a later one. */
  lemma StatusIsReached(t: Messages, rs: seq<Request<Draft, Op>>, id: string, status: Status)
    requires Shaped(ICM, t) && Legal(ICM, t, rs) && status != Pending && id in Run(ICM, t, rs).rows
    ensures Rank(Run(ICM, t, rs).rows[id].status) >= Rank(status) <==>
              || (id in t.rows && Rank(t.rows[id].status) >= Rank(status))
              || Reached(ICM, NAMED, t, rs, id, Rank(status))
  {
    IcmIsSound();
    IcmBrings();
    hide Sound, BringsTo, Run, Legal, Shaped;
    RankIsReached(ICM, NAMED, t, rs, id, Rank(status));
  }

  /**
   The destination hash is not written once: relaying a message that is already delivered replaces it, and nothing else
   does.
   */
  lemma DestHashReplacedIff(t: Messages, r: Request<Draft, Op>, id: string)
    requires Shaped(ICM, t) && NewId(t, r)
    requires id in t.rows && t.rows[id].destHash.Some?
    ensures id in Step(ICM, t, r).rows
    ensures Step(ICM, t, r).rows[id].destHash != t.rows[id].destHash <==>
              && r.Act? && r.op.Relay? && r.id == id && t.rows[id].status == Delivered
              && Usable(r.op.reply) && r.op.reply.hash != t.rows[id].destHash
  {
    assert RowShaped(ICM, t.rows[id]);
  }

  // ---- The service and its endpoints ----

  class ICMService {
    var rows: map<string, Message>
    var index: map<string, string>

    constructor ()
      ensures State() == NO_MESSAGES && Shaped(ICM, State())
    {
      rows, index := map[], map[];
    }

    function State(): Messages
      reads this
    {
      Table(rows, index)
    }

    method UpdateRow(id: string, status: Status, source: Option<string>, dest: Option<string>, error: Option<string>,
                     now: string)
      returns (row: Message)
      requires id in rows
      modifies this`rows
      ensures rows == old(rows)[id := row]
      ensures row.body == old(rows)[id].body && row.createdAt == old(rows)[id].createdAt
      ensures row.status == status && row.updatedAt == now
      ensures row.sourceHash == if source.Some? then source else old(rows)[id].sourceHash
      ensures row.destHash == if dest.Some? then dest else old(rows)[id].destHash
      ensures row.error == if error.Some? then error else old(rows)[id].error
    {
      row := rows[id].(status := status, updatedAt := now);
      if source.Some? {
        row := row.(sourceHash := source);
      }
      if dest.Some? {
        row := row.(destHash := dest);
      }
      if error.Some? {
        row := row.(error := error);
      }
      rows := rows[id := row];
    }

    method CreateMessage(key: string, draft: Draft, id: string, now: string) returns (r: Result<Message, TrackingError>)
      requires Shaped(ICM, State()) && id !in rows
      modifies this
      ensures Serves(ICM, old(State()), State(), Create(key, draft, id, now), r)
      ensures r.Ok? ==> key in index && index[key] in rows && r.value == rows[index[key]] && r.value.body == draft
    {
      IcmIsSound();
      if key in index && index[key] in rows {
        var existing := rows[index[key]];
        r := if existing.body != draft then Err(Conflict) else Ok(existing);
      } else {
        var row: Message := Row(draft, Pending, None, None, None, now, now);
        rows, index := rows[id := row], index[key := id];
        r := Ok(row);
      }
      ServesOf(ICM, old(State()), State(), Create(key, draft, id, now), r, if key in index then index[key] else "");
    }

    method SentCall(id: string, hash: string, now: string) returns (r: Result<Message, TrackingError>)
      requires Shaped(ICM, State())
      modifies this`rows
      ensures Serves(ICM, old(State()), State(), Act(id, MarkSent(hash), now), r)
      ensures r.Ok? && old(rows)[id].status == Pending ==> rows[id].sourceHash == Some(hash)
      ensures id in old(rows) ==> rows[id].destHash == old(rows)[id].destHash
    {
      IcmIsSound();
      ghost var before := State();
      if id !in rows {
        r := Err(NotFound);
      } else {
        var message := rows[id];
        if message.status == Failed {
          r := Err(Conflict);
        } else if Truthy(message.sourceHash) && message.sourceHash.value != hash {
          r := Err(Conflict);
        } else if Rank(message.status) >= Rank(Sent) {
          r := Ok(message);
        } else {
          message := UpdateRow(id, Sent, Some(hash), None, None, now);
          r := Ok(message);
        }
      }
      ServesOf(ICM, before, State(), Act(id, MarkSent(hash), now), r, id);
    }

    method DeliveredCall(id: string, hash: string, now: string) returns (r: Result<Message, TrackingError>)
      requires Shaped(ICM, State())
      modifies this`rows
      ensures Serves(ICM, old(State()), State(), Act(id, MarkDelivered(hash), now), r)
      ensures r.Ok? && Rank(old(rows)[id].status) < Rank(Delivered) ==> rows[id].destHash == Some(hash)
      ensures id in old(rows) ==> rows[id].sourceHash == old(rows)[id].sourceHash
    {
      IcmIsSound();
      ghost var before := State();
      if id !in rows {
        r := Err(NotFound);
      } else {
        var message := rows[id];
        if message.status == Failed {
          r := Err(Conflict);
        } else if Truthy(message.destHash) && message.destHash.value != hash {
          r := Err(Conflict);
        } else if Rank(message.status) >= Rank(Delivered) {
          r := Ok(message);
        } else {
          message := UpdateRow(id, Delivered, None, Some(hash), None, now);
          r := Ok(message);
        }
      }
      ServesOf(ICM, before, State(), Act(id, MarkDelivered(hash), now), r, id);
    }

    method ProcessedCall(id: string, now: string) returns (r: Result<Message, TrackingError>)
      requires Shaped(ICM, State())
      modifies this`rows
      ensures Serves(ICM, old(State()), State(), Act(id, MarkProcessed, now), r)
      ensures id in old(rows) ==> rows[id].sourceHash == old(rows)[id].sourceHash
      ensures id in old(rows) ==> rows[id].destHash == old(rows)[id].destHash
      ensures r.Ok? ==> rows[id].status == Processed
    {
      IcmIsSound();
      ghost var before := State();
      if id !in rows {
        r := Err(NotFound);
      } else {
        var message := rows[id];
        if message.status == Failed {
          r := Err(Conflict);
        } else if Rank(message.status) >= Rank(Processed) {
          r := Ok(message);
        } else {
          message := UpdateRow(id, Processed, None, None, None, now);
          r := Ok(message);
        }
      }
      ServesOf(ICM, before, State(), Act(id, MarkProcessed, now), r, id);
    }

    method FailedCall(id: string, reason: string, now: string) returns (r: Result<Message, TrackingError>)
      requires Shaped(ICM, State())
      modifies this`rows
      ensures Serves(ICM, old(State()), State(), Act(id, MarkFailed(reason), now), r)
      ensures id in old(rows) ==> rows[id].sourceHash == old(rows)[id].sourceHash
      ensures id in old(rows) ==> rows[id].destHash == old(rows)[id].destHash
      ensures r.Ok? ==> rows[id].status == Failed && rows[id].error.Some?
      ensures r.Ok? && old(rows)[id].status != Failed ==> rows[id].error == Some(reason)
    {
      IcmIsSound();
      ghost var before := State();
      if id !in rows {
        r := Err(NotFound);
      } else {
        var message := rows[id];
        if message.status == Processed {
          r := Err(Conflict);
        } else if message.status == Failed {
          r := Ok(message);
        } else {
          message := UpdateRow(id, Failed, None, None, Some(reason), now);
          r := Ok(message);
        }
      }
      ServesOf(ICM, before, State(), Act(id, MarkFailed(reason), now), r, id);
    }

    method RelayCall(id: string, reply: Reply, now: string) returns (r: Result<Message, TrackingError>)
      requires Shaped(ICM, State())
      modifies this`rows
      ensures Serves(ICM, old(State()), State(), Act(id, Relay(reply), now), r)
      ensures id in old(rows) ==>
                (var open := !Final(old(rows)[id].status);
                 rows[id].destHash == if open && Usable(reply) then reply.hash else old(rows)[id].destHash)
      ensures id in old(rows) ==> rows[id].sourceHash == old(rows)[id].sourceHash
    {
      IcmIsSound();
      ghost var before := State();
      if id !in rows {
        r := Err(NotFound);
      } else {
        var message := rows[id];
        if message.status == Failed || message.status == Processed {
          r := Ok(message);
        } else if reply.Raised? || !Truthy(reply.hash) {
          r := Err(TxFailed);
        } else {
          message := UpdateRow(id, Delivered, None, reply.hash, None, now);
          r := Ok(message);
        }
      }
      ServesOf(ICM, before, State(), Act(id, Relay(reply), now), r, id);
    }

    method ProcessOnchainCall(id: string, reply: Reply, now: string) returns (r: Result<Message, TrackingError>)
      requires Shaped(ICM, State())
      modifies this`rows
      ensures Serves(ICM, old(State()), State(), Act(id, ProcessOnchain(reply), now), r)
      ensures id in old(rows) ==> rows[id].sourceHash == old(rows)[id].sourceHash
      ensures id in old(rows) ==> rows[id].destHash == old(rows)[id].destHash
      ensures r.Ok? ==> Final(rows[id].status)
    {
      IcmIsSound();
      ghost var before := State();
      if id !in rows {
        r := Err(NotFound);
      } else {
        var message := rows[id];
        if message.status == Failed {
          r := Ok(message);
        } else if reply.Raised? || !Truthy(reply.hash) {
          r := Err(TxFailed);
        } else {
          message := UpdateRow(id, Processed, None, None, None, now);
          r := Ok(message);
        }
      }
      ServesOf(ICM, before, State(), Act(id, ProcessOnchain(reply), now), r, id);
    }
  }
}
