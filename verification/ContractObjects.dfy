/** The three settlement contracts as objects that update their storage, each held to the machine of Contracts. */
module ContractObjects {
  import opened Common
  import opened Tokens
  import opened Contracts
  import Payout

  /** Storage seen by EventManager alone. */
  function EventsOnly(events: map<Id, EventInfo>): Chain {
    Chain(events, map[], map[], {}, EMPTY_TOKEN)
  }

  class EventManager {
    const operator: Address
    var settlementContract: Address
    var events: map<Id, EventInfo>

    constructor (operatorAddress: Address)
      requires operatorAddress != ZERO_ADDRESS
      ensures operator == operatorAddress && settlementContract == ZERO_ADDRESS && events == map[]
    {
      operator, settlementContract, events := operatorAddress, ZERO_ADDRESS, map[];
    }

    method SetSettlementContract(sender: Address, settlement: Address) returns (ok: bool)
      modifies this`settlementContract
      ensures ok <==> sender == operator && settlement != ZERO_ADDRESS
      ensures settlementContract == if ok then settlement else old(settlementContract)
    {
      ok := sender == operator && settlement != ZERO_ADDRESS;
      if ok {
        settlementContract := settlement;
      }
    }

    method Create(sender: Address, id: Id, start: nat, end: nat, targetKw: nat, rewardRate: nat, penaltyRate: nat)
      returns (r: Result<(), Revert>)
      modifies this`events
      ensures match DoCreateEvent(Deployment(operator, settlementContract, 0), EventsOnly(old(events)), sender, id,
                                  start, end, targetKw, rewardRate, penaltyRate)
              case Ok(c) => r == Ok(()) && events == c.events
              case Err(e) => r == Err(e) && events == old(events)
    {
      if sender != operator { return Err(NotOperator); }
      if id in events { return Err(EventExists); }
      if start >= end { return Err(InvalidWindow); }
      events := events[id := EventInfo(start, end, targetKw, rewardRate, penaltyRate, Active, sender)];
      return Ok(());
    }

    method Close(sender: Address, id: Id) returns (r: Result<(), Revert>)
      modifies this`events
      ensures match DoCloseEvent(Deployment(operator, settlementContract, 0), EventsOnly(old(events)), sender, id)
              case Ok(c) => r == Ok(()) && events == c.events
              case Err(e) => r == Err(e) && events == old(events)
    {
      if sender != operator { return Err(NotOperator); }
      if id !in events { return Err(EventNotFound); }
      if events[id].status != Active { return Err(NotActive); }
      events := events[id := events[id].(status := Closed)];
      return Ok(());
    }

    method MarkEventSettled(sender: Address, id: Id) returns (r: Result<(), Revert>)
      modifies this`events
      ensures match DoMarkSettled(Deployment(operator, settlementContract, 0), EventsOnly(old(events)), sender, id)
              case Ok(c) => r == Ok(()) && events == c.events
              case Err(e) => r == Err(e) && events == old(events)
    {
      if sender != settlementContract && sender != operator { return Err(NotSettlement); }
      if id !in events { return Err(EventNotFound); }
      if events[id].status != Closed { return Err(MustBeClosed); }
      events := events[id := events[id].(status := Settled)];
      return Ok(());
    }
  }

  /** The contract's two mappings, proofs and submitted, always have the same keys; one map stands for both. */
  class ProofRegistry {
    const eventManager: EventManager
    var proofs: map<(Id, Id), SiteProof>

    constructor (manager: EventManager)
      ensures eventManager == manager && proofs == map[]
    {
      eventManager, proofs := manager, map[];
    }

    method Submit(sender: Address, now: nat, id: Id, site: Id, baselineKwh: nat, actualKwh: nat, proofHash: string,
                  uri: string)
      returns (r: Result<(), Revert>)
      modifies this`proofs
      ensures match DoSubmitProof(EventsOnly(eventManager.events).(proofs := old(proofs)), sender, now, id, site,
                                  baselineKwh, actualKwh, proofHash, uri)
              case Ok(c) => r == Ok(()) && proofs == c.proofs
              case Err(e) => r == Err(e) && proofs == old(proofs)
    {
      if (id, site) in proofs { return Err(ProofExists); }
      if id !in eventManager.events { return Err(EventNotFound); }
      if eventManager.events[id].status != Active { return Err(NotActive); }
      var reduction := 0;
      if baselineKwh > actualKwh {
        reduction := baselineKwh - actualKwh;
      }
      proofs := proofs[(id, site) := SiteProof(baselineKwh, actualKwh, reduction, proofHash, uri, Uint64(now), sender)];
      return Ok(());
    }
  }

  class Settlement {
    const self: Address
    const operator: Address
    const eventManager: EventManager
    const proofRegistry: ProofRegistry
    const drtToken: Erc20
    var services: set<Address>
    var records: Records

    constructor (selfAddress: Address, operatorAddress: Address, manager: EventManager, registry: ProofRegistry,
                 token: Erc20)
      requires operatorAddress != ZERO_ADDRESS && registry.eventManager == manager
      ensures self == selfAddress && operator == operatorAddress
      ensures eventManager == manager && proofRegistry == registry && drtToken == token
      ensures services == {} && records == map[]
    {
      self, operator := selfAddress, operatorAddress;
      eventManager, proofRegistry, drtToken := manager, registry, token;
      services, records := {}, map[];
    }

    ghost predicate Wired()
      reads eventManager
    {
      proofRegistry.eventManager == eventManager && eventManager.settlementContract == self
    }

    function Dep(): Deployment {
      Deployment(eventManager.operator, self, operator)
    }

    /** The whole machine, read off the four objects. */
    function State(): Chain
      reads this, eventManager, proofRegistry, drtToken
    {
      Chain(eventManager.events, proofRegistry.proofs, records, services, drtToken.State())
    }

    method SetAuthorizedService(sender: Address, service: Address, allowed: bool) returns (r: Result<(), Revert>)
      modifies this`services
      ensures r == match DoSetService(Dep(), old(State()), sender, service, allowed)
                   case Ok(_) => Ok(())
                   case Err(e) => Err(e)
      ensures r.Ok? ==> sender == operator && (service in services <==> allowed)
      ensures r.Err? ==> services == old(services)
      ensures forall a :: a != service ==> (a in services <==> a in old(services))
    {
      if sender != operator { return Err(NotOperator); }
      if service == ZERO_ADDRESS { return Err(ZeroService); }
      services := if allowed then services + {service} else services - {service};
      return Ok(());
    }

    /** The settlement loop, with the storage writes held back until nothing can revert any more. */
    method SettleSiteList(sender: Address, now: nat, id: Id, sites: seq<Id>) returns (r: Result<(), Revert>)
      requires Wired()
      modifies this`records, eventManager`events
      ensures match DoSettleEvent(Dep(), old(State()), sender, now, id, sites)
              case Ok(c) => r == Ok(()) && State() == c
              case Err(e) => r == Err(e) && State() == old(State())
    {
      if sender != operator && sender !in services { return Err(NotService); }
      if |sites| == 0 { return Err(EmptySites); }
      if id !in eventManager.events { return Err(EventNotFound); }
      var info := eventManager.events[id];
      if info.status == Settled { return Err(EventAlreadySettled); }
      if info.status != Closed { return Err(MustBeClosed); }

      var share := info.targetKw / |sites|;
      var proofs := proofRegistry.proofs;
      var written := records;
      var i := 0;
      while i < |sites|
        invariant 0 <= i <= |sites|
        invariant SettleSites(proofs, records, info, id, sites, share, now)
                    == SettleSites(proofs, written, info, id, sites[i..], share, now)
      {
        var site := sites[i];
        assert sites[i..][0] == site && sites[i..][1..] == sites[i + 1..];
        if (id, site) !in proofs { return Err(ProofMissing); }
        if (id, site) in written { return Err(SiteAlreadySettled); }
        var payout := Payout.ContractPayout(proofs[(id, site)].reductionKwh, share, info.rewardRate, info.penaltyRate);
        if payout.None? { return Err(ArithmeticPanic); }
        written := written[(id, site) := Record(payout.value, Due, Uint64(now), 0)];
        i := i + 1;
      }
      assert sites[i..] == [];
      records := written;
      r := eventManager.MarkEventSettled(self, id);
    }

    method Claim(sender: Address, now: nat, id: Id, site: Id) returns (r: Result<(), Revert>)
      modifies this`records, drtToken
      ensures match DoClaimReward(Dep(), old(State()), sender, now, id, site)
              case Ok(c) => r == Ok(()) && State() == c
              case Err(e) => r == Err(e) && State() == old(State())
      ensures r.Ok? ==>
                && (id, site) in old(proofRegistry.proofs) && old(proofRegistry.proofs)[(id, site)].submitter == sender
                && (id, site) in old(records)
      ensures r.Ok? && sender != self ==>
                drtToken.State().Balance(sender)
                  == old(drtToken.State()).Balance(sender) + Payout.Positive(old(records)[(id, site)].payout)
    {
      if (id, site) !in records || records[(id, site)].status != Due { return Err(NotClaimable); }
      if (id, site) !in proofRegistry.proofs { return Err(ProofMissing); }
      if proofRegistry.proofs[(id, site)].submitter != sender { return Err(NotSubmitter); }
      var before := records;
      var record := records[(id, site)];
      records := records[(id, site) := record.(status := Claimed, claimedAt := Uint64(now))];
      if record.payout > 0 {
        var paid := drtToken.TransferTokens(self, sender, record.payout);
        if paid.Err? {
          records := before;
          return Err(TokenRevert(paid.error));
        }
      }
      return Ok(());
    }
  }
}
