/** The service's tables as maps over their primary keys, and the transaction columns that reconciliation updates. */
module Database {
  import opened Common

  datatype TxState = Submitted | Confirmed | Failed

  /** The hash, fee, state, time and error columns of one recorded transaction. */
  datatype Tx = Tx(hash: string, fee: Option<string>, state: TxState,
                   submittedAt: string, confirmedAt: Option<string>, error: Option<string>)

  datatype EventStatus = Active | Closed | Settled

  datatype ClaimStatus = Unclaimed | Claimed

  datatype EventRow = EventRow(
    startTime: string, endTime: string, targetKw: nat, rewardRate: nat, penaltyRate: nat,
    status: EventStatus, tx: Tx, closeTx: Option<Tx>,
    createdAt: string, closedAt: Option<string>, settledAt: Option<string>)

  datatype Payload = Payload(
    eventId: string, siteId: string, baselineKwh: nat, actualKwh: nat, reductionKwh: nat,
    baselineMethod: string, rawPayload: string, createdAt: string)

  datatype ProofRow = ProofRow(
    baselineKwh: nat, actualKwh: nat, reductionKwh: nat, proofHash: string, uri: string, payload: Payload,
    tx: Tx, submitter: string, submittedAt: string)

  datatype SettlementRow = SettlementRow(
    payout: int, status: ClaimStatus, settledAt: string, claimedAt: Option<string>,
    tx: Tx, claimTx: Option<Tx>)

  type Key = (string, string)

  datatype Db = Db(
    events: map<string, EventRow>,
    proofs: map<Key, ProofRow>,
    settlements: map<Key, SettlementRow>,
    audits: map<Key, string>)

  const EMPTY_DB := Db(map[], map[], map[], map[])

  // ---- Transaction slots: every place a row records a transaction ----

  datatype Slot =
    | CreateTx(event: string)
    | CloseTx(event: string)
    | ProofTx(event: string, site: string)
    | SettleTx(event: string, site: string)
    | ClaimTx(event: string, site: string)

  function TxAt(db: Db, slot: Slot): Option<Tx> {
    match slot
    case CreateTx(e) => if e in db.events then Some(db.events[e].tx) else None
    case CloseTx(e) => if e in db.events then db.events[e].closeTx else None
    case ProofTx(e, s) => if (e, s) in db.proofs then Some(db.proofs[(e, s)].tx) else None
    case SettleTx(e, s) => if (e, s) in db.settlements then Some(db.settlements[(e, s)].tx) else None
    case ClaimTx(e, s) => if (e, s) in db.settlements then db.settlements[(e, s)].claimTx else None
  }

  /** Overwrite the transaction columns of one slot that is filled. */
  function SetTx(db: Db, slot: Slot, tx: Tx): Db
    requires TxAt(db, slot).Some?
  {
    match slot
    case CreateTx(e) => db.(events := db.events[e := db.events[e].(tx := tx)])
    case CloseTx(e) => db.(events := db.events[e := db.events[e].(closeTx := Some(tx))])
    case ProofTx(e, s) => db.(proofs := db.proofs[(e, s) := db.proofs[(e, s)].(tx := tx)])
    case SettleTx(e, s) => db.(settlements := db.settlements[(e, s) := db.settlements[(e, s)].(tx := tx)])
    case ClaimTx(e, s) => db.(settlements := db.settlements[(e, s) := db.settlements[(e, s)].(claimTx := Some(tx))])
  }

  /** All filled slots of one event's rows. */
  function SlotsOf(db: Db, e: string): set<Slot> {
    (if e in db.events then {CreateTx(e)} + (if db.events[e].closeTx.Some? then {CloseTx(e)} else {}) else {})
    + (set k | k in db.proofs && k.0 == e :: ProofTx(e, k.1))
    + (set k | k in db.settlements && k.0 == e :: SettleTx(e, k.1))
    + (set k | k in db.settlements && k.0 == e && db.settlements[k].claimTx.Some? :: ClaimTx(e, k.1))
  }

  lemma SlotsOfFilled(db: Db, e: string, x: Slot)
    ensures x in SlotsOf(db, e) <==> x.event == e && TxAt(db, x).Some?
  {
    match x
    case CreateTx(_) =>
    case CloseTx(_) =>
    case ProofTx(_, s) =>
      if (e, s) in db.proofs { assert (e, s).0 == e && (e, s).1 == s; }
    case SettleTx(_, s) =>
      if (e, s) in db.settlements { assert (e, s).0 == e && (e, s).1 == s; }
    case ClaimTx(_, s) =>
      if (e, s) in db.settlements { assert (e, s).0 == e && (e, s).1 == s; }
  }

  lemma SetTxFrame(db: Db, x: Slot, tx: Tx)
    requires TxAt(db, x).Some?
    ensures TxAt(SetTx(db, x, tx), x) == Some(tx)
    ensures forall y :: y != x ==> TxAt(SetTx(db, x, tx), y) == TxAt(db, y)
  {
    forall y | y != x ensures TxAt(SetTx(db, x, tx), y) == TxAt(db, y) {
      match y
      case CreateTx(_) =>
      case CloseTx(_) =>
      case ProofTx(_, _) =>
      case SettleTx(_, _) =>
      case ClaimTx(_, _) =>
    }
  }
}
