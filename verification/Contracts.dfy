/**
 The settlement contracts as one transactional machine: EventManager, ProofRegistry, Settlement and the DRT
 token. A call either yields the next state or reverts, and a revert leaves everything as it was.
 Event and site ids stand for their keccak labels, which are taken to be injective.
 */
module Contracts {
  import opened Common
  import opened Tokens
  import Payout

  type Id = string

  /** A missing key in the event map is the contract's Pending status with a zero creator. */
  datatype EventStatus = Active | Closed | Settled

  datatype EventInfo = EventInfo(
    startTime: nat, endTime: nat, targetKw: nat, rewardRate: nat, penaltyRate: nat,
    status: EventStatus, creator: Address)

  datatype SiteProof = SiteProof(
    baselineKwh: nat, actualKwh: nat, reductionKwh: nat, proofHash: string, uri: string,
    submittedAt: nat, submitter: Address)

  /** A missing key is the contract's SettlementStatus.None. */
  datatype RecordStatus = Due | Claimed

  datatype Record = Record(payout: int, status: RecordStatus, settledAt: nat, claimedAt: nat)

  type Records = map<(Id, Id), Record>

  datatype Revert =
    | NotOperator | NotSettlement | NotService | ZeroService
    | EventExists | InvalidWindow | EventNotFound | NotActive | MustBeClosed | EventAlreadySettled
    | ProofExists | ProofMissing | SiteAlreadySettled | EmptySites | ArithmeticPanic
    | NotClaimable | NotSubmitter | NotEncodable | TokenRevert(error: TokenError)

  /** Addresses fixed at deployment; the EventManager stays pointed at this Settlement contract. */
  datatype Deployment = Deployment(operator: Address, settlement: Address, settlementOperator: Address)

  datatype Chain = Chain(
    events: map<Id, EventInfo>,
    proofs: map<(Id, Id), SiteProof>,
    records: Records,
    services: set<Address>,
    token: Token)

  datatype Call =
    | CreateEvent(id: Id, start: int, end: int, targetKw: nat, rewardRate: nat, penaltyRate: nat)
    | CloseEvent(id: Id)
    | MarkSettled(id: Id)
    | SubmitProof(id: Id, site: Id, baselineKwh: nat, actualKwh: nat, proofHash: string, uri: string)
    | SettleEvent(id: Id, sites: seq<Id>)
    | ClaimReward(id: Id, site: Id)
    | SetService(service: Address, allowed: bool)
    | TokenTransfer(to: Address, amount: nat)
    | TokenApprove(spender: Address, amount: nat)
    | TokenTransferFrom(from: Address, to: Address, amount: nat)

  const TWO_64: int := 0x1_0000_0000_0000_0000

  function Uint64(t: nat): nat {
    t % TWO_64
  }

  /** Arguments that the ABI encoder accepts. */
  predicate Encodable(call: Call) {
    match call
    case CreateEvent(_, start, end, targetKw, rewardRate, penaltyRate) =>
      0 <= start < TWO_64 && 0 <= end < TWO_64 && IsUint256(targetKw) && IsUint256(rewardRate) && IsUint256(penaltyRate)
    case SubmitProof(_, _, baselineKwh, actualKwh, _, _) => IsUint256(baselineKwh) && IsUint256(actualKwh)
    case TokenTransfer(_, amount) => IsUint256(amount)
    case TokenApprove(_, amount) => IsUint256(amount)
    case TokenTransferFrom(_, _, amount) => IsUint256(amount)
    case _ => true
  }

  // ---- EventManager ----

  function DoCreateEvent(d: Deployment, c: Chain, sender: Address, id: Id, start: nat, end: nat,
                         targetKw: nat, rewardRate: nat, penaltyRate: nat): Result<Chain, Revert> {
    if sender != d.operator then Err(NotOperator)
    else if id in c.events then Err(EventExists)
    else if start >= end then Err(InvalidWindow)
    else Ok(c.(events := c.events[id := EventInfo(start, end, targetKw, rewardRate, penaltyRate, Active, sender)]))
  }

  function DoCloseEvent(d: Deployment, c: Chain, sender: Address, id: Id): Result<Chain, Revert> {
    if sender != d.operator then Err(NotOperator)
    else if id !in c.events then Err(EventNotFound)
    else if c.events[id].status != Active then Err(NotActive)
    else Ok(c.(events := c.events[id := c.events[id].(status := Closed)]))
  }

  /** Open to the Settlement contract and, directly, to the operator. */
  function DoMarkSettled(d: Deployment, c: Chain, sender: Address, id: Id): Result<Chain, Revert> {
    if sender != d.settlement && sender != d.operator then Err(NotSettlement)
    else if id !in c.events then Err(EventNotFound)
    else if c.events[id].status != Closed then Err(MustBeClosed)
    else Ok(c.(events := c.events[id := c.events[id].(status := Settled)]))
  }

  // ---- ProofRegistry ----

  function Reduction(baselineKwh: nat, actualKwh: nat): nat {
    if baselineKwh > actualKwh then baselineKwh - actualKwh else 0
  }

  function DoSubmitProof(c: Chain, sender: Address, now: nat, id: Id, site: Id, baselineKwh: nat, actualKwh: nat,
                         proofHash: string, uri: string): Result<Chain, Revert> {
    if (id, site) in c.proofs then Err(ProofExists)
    else if id !in c.events then Err(EventNotFound)
    else if c.events[id].status != Active then Err(NotActive)
    else
      var proof := SiteProof(baselineKwh, actualKwh, Reduction(baselineKwh, actualKwh), proofHash, uri, Uint64(now),
                             sender);
      Ok(c.(proofs := c.proofs[(id, site) := proof]))
  }

  // ---- Settlement ----

  function SettleSite(proofs: map<(Id, Id), SiteProof>, records: Records, info: EventInfo,
                      id: Id, site: Id, share: nat, now: nat): Result<Records, Revert> {
    if (id, site) !in proofs then Err(ProofMissing)
    else if (id, site) in records then Err(SiteAlreadySettled)
    else
      match Payout.ContractPayout(proofs[(id, site)].reductionKwh, share, info.rewardRate, info.penaltyRate)
      case None => Err(ArithmeticPanic)
      case Some(payout) => Ok(records[(id, site) := Record(payout, Due, Uint64(now), 0)])
  }

  function SettleSites(proofs: map<(Id, Id), SiteProof>, records: Records, info: EventInfo,
                       id: Id, sites: seq<Id>, share: nat, now: nat): Result<Records, Revert>
    decreases |sites|
  {
    if sites == [] then Ok(records)
    else
      match SettleSite(proofs, records, info, id, sites[0], share, now)
      case Err(e) => Err(e)
      case Ok(next) => SettleSites(proofs, next, info, id, sites[1..], share, now)
  }

  function DoSettleEvent(d: Deployment, c: Chain, sender: Address, now: nat, id: Id,
                         sites: seq<Id>): Result<Chain, Revert> {
    if sender != d.settlementOperator && sender !in c.services then Err(NotService)
    else if sites == [] then Err(EmptySites)
    else if id !in c.events then Err(EventNotFound)
    else
      var info := c.events[id];
      if info.status == Settled then Err(EventAlreadySettled)
      else if info.status != Closed then Err(MustBeClosed)
      else
        match SettleSites(c.proofs, c.records, info, id, sites, info.targetKw / |sites|, now)
        case Err(e) => Err(e)
        case Ok(records) => DoMarkSettled(d, c.(records := records), d.settlement, id)
  }

  function DoClaimReward(d: Deployment, c: Chain, sender: Address, now: nat, id: Id, site: Id): Result<Chain, Revert> {
    if (id, site) !in c.records || c.records[(id, site)].status != Due then Err(NotClaimable)
    else if (id, site) !in c.proofs then Err(ProofMissing)
    else if c.proofs[(id, site)].submitter != sender then Err(NotSubmitter)
    else
      var record := c.records[(id, site)];
      var records := c.records[(id, site) := record.(status := Claimed, claimedAt := Uint64(now))];
      if record.payout > 0 then
        match Transfer(c.token, d.settlement, sender, record.payout)
        case Err(e) => Err(TokenRevert(e))
        case Ok(token) => Ok(c.(records := records, token := token))
      else Ok(c.(records := records))
  }

  function DoSetService(d: Deployment, c: Chain, sender: Address, service: Address,
                        allowed: bool): Result<Chain, Revert> {
    if sender != d.settlementOperator then Err(NotOperator)
    else if service == ZERO_ADDRESS then Err(ZeroService)
    else Ok(c.(services := if allowed then c.services + {service} else c.services - {service}))
  }

  function OnToken(c: Chain, r: Result<Token, TokenError>): Result<Chain, Revert> {
    match r
    case Ok(token) => Ok(c.(token := token))
    case Err(e) => Err(TokenRevert(e))
  }

  /** One transaction, sent by an external account at a block time. */
  function Execute(d: Deployment, c: Chain, sender: Address, now: nat, call: Call): Result<Chain, Revert> {
    if !Encodable(call) then Err(NotEncodable)
    else
      match call
      case CreateEvent(id, start, end, targetKw, rewardRate, penaltyRate) =>
        DoCreateEvent(d, c, sender, id, start, end, targetKw, rewardRate, penaltyRate)
      case CloseEvent(id) => DoCloseEvent(d, c, sender, id)
      case MarkSettled(id) => DoMarkSettled(d, c, sender, id)
      case SubmitProof(id, site, baselineKwh, actualKwh, proofHash, uri) =>
        DoSubmitProof(c, sender, now, id, site, baselineKwh, actualKwh, proofHash, uri)
      case SettleEvent(id, sites) => DoSettleEvent(d, c, sender, now, id, sites)
      case ClaimReward(id, site) => DoClaimReward(d, c, sender, now, id, site)
      case SetService(service, allowed) => DoSetService(d, c, sender, service, allowed)
      case TokenTransfer(to, amount) => OnToken(c, Transfer(c.token, sender, to, amount))
      case TokenApprove(spender, amount) => OnToken(c, Approve(c.token, sender, spender, amount))
      case TokenTransferFrom(from, to, amount) => OnToken(c, TransferFrom(c.token, sender, from, to, amount))
  }

  // ---- The settlement loop as a whole ----

  ghost predicate NoRecords(records: Records, id: Id) {
    forall site :: (id, site) !in records
  }

  /** The records one successful settlement adds: one per listed site, all at the same share. */
  ghost predicate SettledTogether(proofs: map<(Id, Id), SiteProof>, before: Records, after: Records, info: EventInfo,
                                  id: Id, sites: seq<Id>, share: nat, now: nat) {
    && after.Keys == before.Keys + (set s | s in sites :: (id, s))
    && (forall k :: k in before ==> k in after && after[k] == before[k])
    && forall s :: s in sites ==>
         && (id, s) in proofs
         && (id, s) in after
         && after[(id, s)].status == Due
         && after[(id, s)].settledAt == Uint64(now) && after[(id, s)].claimedAt == 0
         && Payout.ContractPayout(proofs[(id, s)].reductionKwh, share, info.rewardRate, info.penaltyRate)
              == Some(after[(id, s)].payout)
  }

  ghost predicate Payable(proofs: map<(Id, Id), SiteProof>, info: EventInfo, id: Id, sites: seq<Id>, share: nat) {
    forall s :: s in sites ==>
      && (id, s) in proofs
      && Payout.ContractPayout(proofs[(id, s)].reductionKwh, share, info.rewardRate, info.penaltyRate).Some?
  }

  ghost predicate Unrecorded(records: Records, id: Id, sites: seq<Id>) {
    forall s :: s in sites ==> (id, s) !in records
  }

  lemma SettleOne(proofs: map<(Id, Id), SiteProof>, records: Records, info: EventInfo,
                  id: Id, sites: seq<Id>, share: nat, now: nat)
    requires sites != [] && SettleSite(proofs, records, info, id, sites[0], share, now).Ok?
    ensures var next := SettleSite(proofs, records, info, id, sites[0], share, now).value;
            SettledTogether(proofs, records, next, info, id, sites[..1], share, now)
  {
  }

  lemma SettleThenRest(proofs: map<(Id, Id), SiteProof>, before: Records, mid: Records, after: Records, info: EventInfo,
                       id: Id, sites: seq<Id>, share: nat, now: nat)
    requires sites != []
    requires SettledTogether(proofs, before, mid, info, id, sites[..1], share, now)
    requires SettledTogether(proofs, mid, after, info, id, sites[1..], share, now)
    ensures SettledTogether(proofs, before, after, info, id, sites, share, now)
  {
    assert sites == sites[..1] + sites[1..];
    assert forall s :: s in sites <==> s in sites[..1] || s in sites[1..];
  }

  /** A settlement that goes through lists distinct sites and adds exactly their records. */
  lemma {:induction false} SettleSitesAdds(proofs: map<(Id, Id), SiteProof>, records: Records, info: EventInfo,
                                           id: Id, sites: seq<Id>, share: nat, now: nat)
    requires SettleSites(proofs, records, info, id, sites, share, now).Ok?
    ensures NoDup(sites) && Unrecorded(records, id, sites)
    ensures SettledTogether(proofs, records, SettleSites(proofs, records, info, id, sites, share, now).value, info, id,
                            sites, share, now)
    decreases |sites|
  {
    if sites != [] {
      var next := SettleSite(proofs, records, info, id, sites[0], share, now).value;
      SettleOne(proofs, records, info, id, sites, share, now);
      SettleSitesAdds(proofs, next, info, id, sites[1..], share, now);
      SettleThenRest(proofs, records, next, SettleSites(proofs, next, info, id, sites[1..], share, now).value, info,
                     id, sites, share, now);
      assert (id, sites[0]) in next;
      forall i, j | 0 <= i < j < |sites| ensures sites[i] != sites[j] {
        assert sites[j] == sites[1..][j - 1];
        if i > 0 {
          assert sites[i] == sites[1..][i - 1];
        }
      }
      forall s | s in sites ensures (id, s) !in records {
        if s != sites[0] {
          assert s in sites[1..];
        }
      }
    }
  }

  /** Distinct sites without records never fail as already settled. */
  lemma {:induction false} FreshSitesNotSettled(proofs: map<(Id, Id), SiteProof>, records: Records, info: EventInfo,
                                                id: Id, sites: seq<Id>, share: nat, now: nat)
    requires NoDup(sites) && Unrecorded(records, id, sites)
    ensures SettleSites(proofs, records, info, id, sites, share, now) != Err(SiteAlreadySettled)
    decreases |sites|
  {
    if sites != [] {
      assert sites[0] in sites;
      var first := SettleSite(proofs, records, info, id, sites[0], share, now);
      if first.Ok? {
        forall s | s in sites[1..] ensures (id, s) !in first.value {
          var j :| 1 <= j < |sites| && sites[j] == s;
          assert s in sites;
        }
        forall i, j | 0 <= i < j < |sites[1..]| ensures sites[1..][i] != sites[1..][j] {
          assert sites[1..][i] == sites[i + 1] && sites[1..][j] == sites[j + 1];
        }
        FreshSitesNotSettled(proofs, first.value, info, id, sites[1..], share, now);
      }
    }
  }

  /** On payable sites without earlier records, the loop succeeds exactly on repeat-free lists. */
  lemma {:induction false} SettleSitesSucceedsIff(proofs: map<(Id, Id), SiteProof>, records: Records, info: EventInfo,
                                                  id: Id, sites: seq<Id>, share: nat, now: nat)
    requires Payable(proofs, info, id, sites, share)
    ensures SettleSites(proofs, records, info, id, sites, share, now).Ok? <==>
              NoDup(sites) && Unrecorded(records, id, sites)
    ensures SettleSites(proofs, records, info, id, sites, share, now).Err? ==>
              SettleSites(proofs, records, info, id, sites, share, now).error == SiteAlreadySettled
    decreases |sites|
  {
    if sites != [] {
      assert sites[0] in sites;
      var first := SettleSite(proofs, records, info, id, sites[0], share, now);
      if first.Ok? {
        assert Payable(proofs, info, id, sites[1..], share);
        SettleSitesSucceedsIff(proofs, first.value, info, id, sites[1..], share, now);
        if NoDup(sites) && Unrecorded(records, id, sites) {
          forall s | s in sites[1..] ensures (id, s) !in first.value {
            var j :| 0 <= j < |sites[1..]| && sites[1..][j] == s;
            assert sites[j + 1] == s && s in sites;
          }
          forall i, j | 0 <= i < j < |sites[1..]| ensures sites[1..][i] != sites[1..][j] {
            assert sites[1..][i] == sites[i + 1] && sites[1..][j] == sites[j + 1];
          }
        } else if SettleSites(proofs, records, info, id, sites, share, now).Ok? {
          SettleSitesAdds(proofs, records, info, id, sites, share, now);
        }
      } else {
        assert (id, sites[0]) in records;
      }
    }
  }

  /** For an event with no records, only a repeated id can trip the per-site check, and every repeat does. */
  lemma DuplicateSitesRejected(proofs: map<(Id, Id), SiteProof>, records: Records, info: EventInfo,
                               id: Id, sites: seq<Id>, share: nat, now: nat)
    requires NoRecords(records, id) && Payable(proofs, info, id, sites, share)
    ensures SettleSites(proofs, records, info, id, sites, share, now) == Err(SiteAlreadySettled) <==> !NoDup(sites)
  {
    SettleSitesSucceedsIff(proofs, records, info, id, sites, share, now);
  }
}
