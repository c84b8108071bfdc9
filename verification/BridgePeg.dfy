/** Both chains of the bridge with the messages between them: the peg, over every run. */
module BridgePeg {
  import opened Common
  import opened Tokens
  import opened Bridge

  /**
   deposits counts tokens put into the home bridge without sendTokens; selfUnlocked counts unlocks whose recipient
   was the home bridge itself. Both are history, not contract storage.
   */
  datatype Net = Net(
    home: Token, remote: Token,
    homeBridge: BridgeState, remoteBridge: BridgeState,
    toRemote: map<nat, Message>, toHome: map<nat, Message>,
    deposits: nat, selfUnlocked: nat)

  datatype Op =
    | TokenTransfer(to: Address, amount: nat)
    | TokenApprove(spender: Address, amount: nat)
    | TokenTransferFrom(from: Address, to: Address, amount: nat)
    | SendTokens(amount: nat)
    | ReceiveTokens(nonce: nat, recipient: Address, amount: nat)
    | Manage(admin: Admin)

  datatype Action = OnHome(sender: Address, op: Op) | OnRemote(sender: Address, op: Op)

  function TokenOp(t: Token, sender: Address, op: Op): Result<Token, TokenError>
    requires op.TokenTransfer? || op.TokenApprove? || op.TokenTransferFrom?
  {
    match op
    case TokenTransfer(to, amount) => Transfer(t, sender, to, amount)
    case TokenApprove(spender, amount) => Approve(t, sender, spender, amount)
    case TokenTransferFrom(from, to, amount) => TransferFrom(t, sender, from, to, amount)
  }

  function OutsideDeposit(b: Address, op: Op): nat {
    match op
    case TokenTransfer(to, amount) => if to == b then amount else 0
    case TokenTransferFrom(from, to, amount) => if to == b && from != b then amount else 0
    case _ => 0
  }

  function StepHome(n: Net, sender: Address, op: Op): Net {
    match op
    case SendTokens(amount) =>
      (match Send(n.homeBridge, n.home, sender, amount)
       case Err(_) => n
       case Ok(s) => n.(homeBridge := s.bridge, home := s.token, toRemote := n.toRemote[s.message.nonce := s.message]))
    case ReceiveTokens(nonce, recipient, amount) =>
      (match Receive(n.homeBridge, n.home, sender, recipient, amount)
       case Err(_) => n
       case Ok(token) => n.(home := token, toHome := n.toHome - {nonce},
                            selfUnlocked := n.selfUnlocked + if recipient == n.homeBridge.self then amount else 0))
    case Manage(admin) =>
      (match Administer(n.homeBridge, sender, admin)
       case Err(_) => n
       case Ok(b) => n.(homeBridge := b))
    case _ =>
      match TokenOp(n.home, sender, op)
      case Err(_) => n
      case Ok(token) => n.(home := token, deposits := n.deposits + OutsideDeposit(n.homeBridge.self, op))
  }

  function StepRemote(n: Net, sender: Address, op: Op): Net {
    match op
    case SendTokens(amount) =>
      (match Send(n.remoteBridge, n.remote, sender, amount)
       case Err(_) => n
       case Ok(s) => n.(remoteBridge := s.bridge, remote := s.token, toHome := n.toHome[s.message.nonce := s.message]))
    case ReceiveTokens(nonce, recipient, amount) =>
      (match Receive(n.remoteBridge, n.remote, sender, recipient, amount)
       case Err(_) => n
       case Ok(token) => n.(remote := token, toRemote := n.toRemote - {nonce}))
    case Manage(admin) =>
      (match Administer(n.remoteBridge, sender, admin)
       case Err(_) => n
       case Ok(b) => n.(remoteBridge := b))
    case _ =>
      match TokenOp(n.remote, sender, op)
      case Err(_) => n
      case Ok(token) => n.(remote := token)
  }

  function Step(n: Net, a: Action): Net {
    match a
    case OnHome(sender, op) => StepHome(n, sender, op)
    case OnRemote(sender, op) => StepRemote(n, sender, op)
  }

  function Run(n: Net, actions: seq<Action>): Net
    decreases |actions|
  {
    if actions == [] then n
    else Step(Run(n, actions[..|actions| - 1]), actions[|actions| - 1])
  }

  /** The relayer calls receiveTokens only for a message it verified and has not delivered, with its amount. */
  ghost predicate Permitted(n: Net, a: Action) {
    match a
    case OnHome(sender, op) =>
      && sender != n.homeBridge.self
      && (op.ReceiveTokens? && sender == n.homeBridge.relayer ==>
          op.nonce in n.toHome && n.toHome[op.nonce].amount == op.amount)
    case OnRemote(sender, op) =>
      (op.ReceiveTokens? && sender == n.remoteBridge.relayer ==>
       op.nonce in n.toRemote && n.toRemote[op.nonce].amount == op.amount)
  }

  ghost predicate AllPermitted(n: Net, actions: seq<Action>)
    decreases |actions|
  {
    actions == []
    || (AllPermitted(n, actions[..|actions| - 1])
        && Permitted(Run(n, actions[..|actions| - 1]), actions[|actions| - 1]))
  }

  // ---- The peg ----

  ghost function Amounts(bag: map<nat, Message>): map<nat, int> {
    map k | k in bag :: bag[k].amount
  }

  ghost function InFlight(bag: map<nat, Message>): int {
    MapSum(Amounts(bag))
  }

  function Locked(n: Net): nat {
    n.home.Balance(n.homeBridge.self)
  }

  ghost predicate Peg(n: Net) {
    Locked(n) == n.deposits + n.selfUnlocked + n.remote.supply + InFlight(n.toRemote) + InFlight(n.toHome)
  }

  ghost predicate BagFresh(bag: map<nat, Message>, b: BridgeState) {
    forall k :: k in bag ==> k <= b.nonce && bag[k].amount > 0
  }

  ghost predicate NoAllowance(t: Token, owner: Address) {
    forall k :: k in t.allowances && k.0 == owner ==> t.allowances[k] == 0
  }

  ghost predicate Inv(n: Net) {
    && n.home.Valid() && n.remote.Valid()
    && n.homeBridge.mode == Home && n.remoteBridge.mode == Remote
    && BagFresh(n.toRemote, n.homeBridge) && BagFresh(n.toHome, n.remoteBridge)
    && NoAllowance(n.home, n.homeBridge.self)
    && Peg(n)
  }

  /** Deployment: DRT minted to its owner, DRT.r empty, nothing in flight. */
  ghost predicate Start(n: Net) {
    && (exists owner, supply :: owner != n.homeBridge.self && DeployDrt(owner, supply) == Ok(n.home))
    && n.remote == EMPTY_TOKEN
    && n.homeBridge.mode == Home && n.remoteBridge.mode == Remote
    && n.toRemote == map[] && n.toHome == map[]
    && n.deposits == 0 && n.selfUnlocked == 0
  }

  lemma StartSatisfiesInv(n: Net)
    requires Start(n)
    ensures Inv(n)
  {
    var owner, supply :| owner != n.homeBridge.self && DeployDrt(owner, supply) == Ok(n.home);
    MintConserves(EMPTY_TOKEN, owner, supply);
    assert Amounts(n.toRemote) == map[];
    assert Amounts(n.toHome) == map[];
  }

  lemma BagGrows(bag: map<nat, Message>, b: BridgeState, m: Message)
    requires BagFresh(bag, b) && m.nonce == b.nonce + 1 && m.amount > 0
    ensures BagFresh(bag[m.nonce := m], b.(nonce := b.nonce + 1))
    ensures InFlight(bag[m.nonce := m]) == InFlight(bag) + m.amount
  {
    assert Amounts(bag[m.nonce := m]) == Amounts(bag)[m.nonce := m.amount];
    MapSumUpdate(Amounts(bag), m.nonce, m.amount);
  }

  lemma BagShrinks(bag: map<nat, Message>, nonce: nat)
    requires nonce in bag
    ensures InFlight(bag - {nonce}) == InFlight(bag) - bag[nonce].amount
  {
    assert Amounts(bag - {nonce}) == Amounts(bag) - {nonce};
    MapSumRemove(Amounts(bag), nonce);
  }

  lemma BagNonNegative(bag: map<nat, Message>)
    ensures InFlight(bag) >= 0
    ensures forall k :: k in bag ==> bag[k].amount <= InFlight(bag)
  {
    MapSumNonNegative(Amounts(bag));
    forall k | k in bag ensures bag[k].amount <= InFlight(bag) {
      MapSumMember(Amounts(bag), k);
    }
  }

  lemma HomeSendKeepsPeg(n: Net, sender: Address, amount: nat)
    requires Inv(n) && sender != n.homeBridge.self
    ensures Inv(StepHome(n, sender, SendTokens(amount)))
  {
    var r := Send(n.homeBridge, n.home, sender, amount);
    if r.Ok? {
      TransferFromConserves(n.home, n.homeBridge.self, sender, n.homeBridge.self, amount);
      TransferConserves(n.home, sender, n.homeBridge.self, amount);
      BagGrows(n.toRemote, n.homeBridge, r.value.message);
    }
  }

  lemma RemoteSendKeepsPeg(n: Net, sender: Address, amount: nat)
    requires Inv(n)
    ensures Inv(StepRemote(n, sender, SendTokens(amount)))
  {
    var r := Send(n.remoteBridge, n.remote, sender, amount);
    if r.Ok? {
      BurnConserves(n.remote, sender, amount);
      BagGrows(n.toHome, n.remoteBridge, r.value.message);
    }
  }

  lemma HomeReceiveKeepsPeg(n: Net, sender: Address, nonce: nat, recipient: Address, amount: nat)
    requires Inv(n) && Permitted(n, OnHome(sender, ReceiveTokens(nonce, recipient, amount)))
    ensures Inv(StepHome(n, sender, ReceiveTokens(nonce, recipient, amount)))
  {
    if Receive(n.homeBridge, n.home, sender, recipient, amount).Ok? {
      TransferConserves(n.home, n.homeBridge.self, recipient, amount);
      BagShrinks(n.toHome, nonce);
    }
  }

  lemma RemoteReceiveKeepsPeg(n: Net, sender: Address, nonce: nat, recipient: Address, amount: nat)
    requires Inv(n) && Permitted(n, OnRemote(sender, ReceiveTokens(nonce, recipient, amount)))
    ensures Inv(StepRemote(n, sender, ReceiveTokens(nonce, recipient, amount)))
  {
    if Receive(n.remoteBridge, n.remote, sender, recipient, amount).Ok? {
      MintConserves(n.remote, recipient, amount);
      BagShrinks(n.toRemote, nonce);
    }
  }

  lemma TokenOpKeepsPeg(n: Net, a: Action)
    requires Inv(n) && Permitted(n, a)
    requires a.op.TokenTransfer? || a.op.TokenApprove? || a.op.TokenTransferFrom?
    ensures Inv(Step(n, a))
  {
    var t := if a.OnHome? then n.home else n.remote;
    if TokenOp(t, a.sender, a.op).Ok? {
      match a.op
      case TokenTransfer(to, amount) => TransferConserves(t, a.sender, to, amount);
      case TokenApprove(spender, amount) => ApprovalMovesNothing(t, a.sender, spender, amount);
      case TokenTransferFrom(from, to, amount) =>
        TransferFromConserves(t, a.sender, from, to, amount);
        TransferConserves(t, from, to, amount);
    }
  }

  lemma StepKeepsPeg(n: Net, a: Action)
    requires Inv(n) && Permitted(n, a)
    ensures Inv(Step(n, a))
  {
    match a.op
    case SendTokens(amount) =>
      if a.OnHome? { HomeSendKeepsPeg(n, a.sender, amount); } else { RemoteSendKeepsPeg(n, a.sender, amount); }
    case ReceiveTokens(nonce, recipient, amount) =>
      if a.OnHome? { HomeReceiveKeepsPeg(n, a.sender, nonce, recipient, amount); }
      else { RemoteReceiveKeepsPeg(n, a.sender, nonce, recipient, amount); }
    case Manage(admin) =>
    case _ => TokenOpKeepsPeg(n, a);
  }

  /** In every reachable two-chain state the locked DRT is exactly what is owed for it. */
  lemma {:induction false} RunKeepsPeg(n: Net, actions: seq<Action>)
    requires Inv(n) && AllPermitted(n, actions)
    ensures Inv(Run(n, actions))
    decreases |actions|
  {
    if actions != [] {
      RunKeepsPeg(n, actions[..|actions| - 1]);
      StepKeepsPeg(Run(n, actions[..|actions| - 1]), actions[|actions| - 1]);
    }
  }

  // ---- What the peg is for ----

  /** An unlock for a burn that is still in flight never lacks balance. */
  lemma UnlockAlwaysFunded(n: Net, nonce: nat, recipient: Address)
    requires Inv(n) && nonce in n.toHome
    requires !n.homeBridge.paused && recipient != ZERO_ADDRESS && n.homeBridge.self != ZERO_ADDRESS
    ensures Receive(n.homeBridge, n.home, n.homeBridge.relayer, recipient, n.toHome[nonce].amount).Ok?
  {
    BagNonNegative(n.toHome);
    BagNonNegative(n.toRemote);
  }

  /** A mint for a lock that is still in flight never overflows: DRT.r never exceeds the DRT supply. */
  lemma MintAlwaysFits(n: Net, nonce: nat, recipient: Address)
    requires Inv(n) && nonce in n.toRemote
    requires !n.remoteBridge.paused && recipient != ZERO_ADDRESS
    ensures Receive(n.remoteBridge, n.remote, n.remoteBridge.relayer, recipient, n.toRemote[nonce].amount).Ok?
    ensures n.remote.supply + n.toRemote[nonce].amount <= n.home.supply
  {
    BagNonNegative(n.toHome);
    BagNonNegative(n.toRemote);
    BalanceBelowSupply(n.home, n.homeBridge.self);
  }

  /** Delivery of a message: its own amount, to the account that it names. */
  function Delivery(bag: map<nat, Message>, nonce: nat): Op {
    if nonce in bag then ReceiveTokens(nonce, bag[nonce].sender, bag[nonce].amount)
    else ReceiveTokens(nonce, ZERO_ADDRESS, 0)
  }

  /** One user's lock, the delivery of its message, the burn of the same amount and the delivery of that message. */
  function RoundTrip(n: Net, user: Address, amount: nat): seq<Action> {
    var lock := OnHome(user, SendTokens(amount));
    var n1 := Step(n, lock);
    var mint := OnRemote(n.remoteBridge.relayer, Delivery(n1.toRemote, n.homeBridge.nonce + 1));
    var burn := OnRemote(user, SendTokens(amount));
    var n3 := Step(Step(n1, mint), burn);
    [lock, mint, burn, OnHome(n.homeBridge.relayer, Delivery(n3.toHome, n.remoteBridge.nonce + 1))]
  }

  ghost predicate CanRoundTrip(n: Net, user: Address, amount: nat) {
    && amount > 0 && user != ZERO_ADDRESS && user != n.homeBridge.self && n.homeBridge.self != ZERO_ADDRESS
    && n.homeBridge.relayer != n.homeBridge.self
    && !n.homeBridge.paused && !n.remoteBridge.paused
    && n.homeBridge.remoteBridge != ZERO_ADDRESS && n.remoteBridge.remoteBridge != ZERO_ADDRESS
    && amount <= n.home.Balance(user) && amount <= n.home.Allowance(user, n.homeBridge.self)
    && n.homeBridge.nonce + 1 < TWO_256 && n.homeBridge.totalBridged + amount < TWO_256
    && n.remoteBridge.nonce + 1 < TWO_256 && n.remoteBridge.totalBridged + amount < TWO_256
  }

  lemma RunFour(n: Net, a: Action, b: Action, c: Action, e: Action)
    ensures Run(n, [a, b, c, e]) == Step(Step(Step(Step(n, a), b), c), e)
  {
    assert [a, b, c, e][..3] == [a, b, c];
    assert [a, b, c][..2] == [a, b];
    assert [a, b][..1] == [a];
    assert [a][..0] == [];
    assert Run(n, [a]) == Step(n, a);
    assert Run(n, [a, b]) == Step(Step(n, a), b);
    assert Run(n, [a, b, c]) == Step(Step(Step(n, a), b), c);
  }

  // Each leg, as a relation between the states around it.

  ghost predicate LockedLeg(n: Net, m: Net, user: Address, amount: nat) {
    Inv(m) && LockMoves(n, m, user, amount)
  }

  ghost predicate LockMoves(n: Net, m: Net, user: Address, amount: nat) {
    && m.home.Balance(user) == n.home.Balance(user) - amount
    && (forall x :: x != user && x != n.homeBridge.self ==> m.home.Balance(x) == n.home.Balance(x))
    && n.homeBridge.nonce + 1 in m.toRemote
    && m.toRemote[n.homeBridge.nonce + 1].amount == amount && m.toRemote[n.homeBridge.nonce + 1].sender == user
    && m.toRemote - {n.homeBridge.nonce + 1} == n.toRemote
    && m == n.(home := m.home, toRemote := m.toRemote,
               homeBridge := n.homeBridge.(nonce := n.homeBridge.nonce + 1,
                                           totalBridged := n.homeBridge.totalBridged + amount))
  }

  ghost predicate MintedLeg(n: Net, m: Net, nonce: nat, user: Address, amount: nat) {
    && Inv(m)
    && m.remote.Balance(user) == n.remote.Balance(user) + amount && m.remote.supply == n.remote.supply + amount
    && (forall x :: x != user ==> m.remote.Balance(x) == n.remote.Balance(x))
    && m == n.(remote := m.remote, toRemote := n.toRemote - {nonce})
  }

  ghost predicate BurnedLeg(n: Net, m: Net, user: Address, amount: nat) {
    && Inv(m)
    && m.remote.Balance(user) == n.remote.Balance(user) - amount && m.remote.supply == n.remote.supply - amount
    && (forall x :: x != user ==> m.remote.Balance(x) == n.remote.Balance(x))
    && n.remoteBridge.nonce + 1 in m.toHome
    && m.toHome[n.remoteBridge.nonce + 1].amount == amount && m.toHome[n.remoteBridge.nonce + 1].sender == user
    && m.toHome - {n.remoteBridge.nonce + 1} == n.toHome
    && m == n.(remote := m.remote, toHome := m.toHome,
               remoteBridge := n.remoteBridge.(nonce := n.remoteBridge.nonce + 1,
                                               totalBridged := n.remoteBridge.totalBridged + amount))
  }

  ghost predicate UnlockedLeg(n: Net, m: Net, nonce: nat, user: Address, amount: nat) {
    && Inv(m)
    && m.home.Balance(user) == n.home.Balance(user) + amount
    && (forall x :: x != user && x != n.homeBridge.self ==> m.home.Balance(x) == n.home.Balance(x))
    && m == n.(home := m.home, toHome := n.toHome - {nonce})
  }

  lemma LockLeg(n: Net, user: Address, amount: nat)
    requires Inv(n) && CanRoundTrip(n, user, amount)
    ensures LockedLeg(n, Step(n, OnHome(user, SendTokens(amount))), user, amount)
  {
    HomeSendKeepsPeg(n, user, amount);
    LockMovesTokens(n, user, amount);
    hide Inv, LockMoves;
  }

  lemma LockMovesTokens(n: Net, user: Address, amount: nat)
    requires Inv(n) && CanRoundTrip(n, user, amount)
    ensures LockMoves(n, Step(n, OnHome(user, SendTokens(amount))), user, amount)
  {
    TransferFromConserves(n.home, n.homeBridge.self, user, n.homeBridge.self, amount);
    TransferConserves(n.home, user, n.homeBridge.self, amount);
  }

  lemma MintLeg(n: Net, nonce: nat, user: Address, amount: nat)
    requires Inv(n) && nonce in n.toRemote && n.toRemote[nonce].amount == amount
    requires !n.remoteBridge.paused && user != ZERO_ADDRESS
    ensures MintedLeg(n, Step(n, OnRemote(n.remoteBridge.relayer, ReceiveTokens(nonce, user, amount))), nonce, user,
                      amount)
  {
    MintAlwaysFits(n, nonce, user);
    MintConserves(n.remote, user, amount);
    RemoteReceiveKeepsPeg(n, n.remoteBridge.relayer, nonce, user, amount);
  }

  lemma BurnLeg(n: Net, user: Address, amount: nat)
    requires Inv(n) && amount > 0 && user != ZERO_ADDRESS && amount <= n.remote.Balance(user)
    requires !n.remoteBridge.paused && n.remoteBridge.remoteBridge != ZERO_ADDRESS
    requires n.remoteBridge.nonce + 1 < TWO_256 && n.remoteBridge.totalBridged + amount < TWO_256
    ensures BurnedLeg(n, Step(n, OnRemote(user, SendTokens(amount))), user, amount)
  {
    BurnConserves(n.remote, user, amount);
    RemoteSendKeepsPeg(n, user, amount);
  }

  lemma UnlockLeg(n: Net, nonce: nat, user: Address, amount: nat)
    requires Inv(n) && nonce in n.toHome && n.toHome[nonce].amount == amount
    requires !n.homeBridge.paused && user != ZERO_ADDRESS && n.homeBridge.self != ZERO_ADDRESS
             && user != n.homeBridge.self
    requires n.homeBridge.relayer != n.homeBridge.self
    ensures UnlockedLeg(n, Step(n, OnHome(n.homeBridge.relayer, ReceiveTokens(nonce, user, amount))), nonce, user,
                        amount)
  {
    UnlockAlwaysFunded(n, nonce, user);
    TransferConserves(n.home, n.homeBridge.self, user, amount);
    HomeReceiveKeepsPeg(n, n.homeBridge.relayer, nonce, user, amount);
  }

  ghost predicate CameBack(n: Net, m: Net) {
    && (forall x :: m.home.Balance(x) == n.home.Balance(x))
    && (forall x :: m.remote.Balance(x) == n.remote.Balance(x))
    && m.toRemote == n.toRemote && m.toHome == n.toHome
    && m.deposits == n.deposits && m.selfUnlocked == n.selfUnlocked
  }

  /** The legs' effect on DRT.r, the bags and the counters; then on the home ledger, by the peg. */
  lemma RemoteComesBack(n: Net, n1: Net, n2: Net, n3: Net, n4: Net, user: Address, amount: nat)
    requires LockedLeg(n, n1, user, amount) && MintedLeg(n1, n2, n.homeBridge.nonce + 1, user, amount)
    requires BurnedLeg(n2, n3, user, amount) && UnlockedLeg(n3, n4, n.remoteBridge.nonce + 1, user, amount)
    ensures n4.remote.supply == n.remote.supply && n4.toRemote == n.toRemote && n4.toHome == n.toHome
    ensures n4.deposits == n.deposits && n4.selfUnlocked == n.selfUnlocked && n4.homeBridge.self == n.homeBridge.self
    ensures forall x :: n4.remote.Balance(x) == n.remote.Balance(x)
  {
    hide Inv;
  }

  lemma OthersComeBack(n: Net, n1: Net, n2: Net, n3: Net, n4: Net, user: Address, amount: nat)
    requires LockedLeg(n, n1, user, amount) && MintedLeg(n1, n2, n.homeBridge.nonce + 1, user, amount)
    requires BurnedLeg(n2, n3, user, amount) && UnlockedLeg(n3, n4, n.remoteBridge.nonce + 1, user, amount)
    ensures forall x :: x != n.homeBridge.self ==> n4.home.Balance(x) == n.home.Balance(x)
  {
    hide Inv;
  }

  lemma LegsCompose(n: Net, n1: Net, n2: Net, n3: Net, n4: Net, user: Address, amount: nat)
    requires Inv(n)
    requires LockedLeg(n, n1, user, amount) && MintedLeg(n1, n2, n.homeBridge.nonce + 1, user, amount)
    requires BurnedLeg(n2, n3, user, amount) && UnlockedLeg(n3, n4, n.remoteBridge.nonce + 1, user, amount)
    ensures CameBack(n, n4)
  {
    assert Peg(n) && Peg(n4);
    hide Inv, LockedLeg, MintedLeg, BurnedLeg, UnlockedLeg;
    RemoteComesBack(n, n1, n2, n3, n4, user, amount);
    OthersComeBack(n, n1, n2, n3, n4, user, amount);
    assert Locked(n4) == Locked(n);
  }

  lemma OutwardLegs(n: Net, n1: Net, user: Address, amount: nat)
    requires Inv(n) && CanRoundTrip(n, user, amount)
    requires LockedLeg(n, n1, user, amount)
    ensures var n2 := Step(n1, OnRemote(n.remoteBridge.relayer, Delivery(n1.toRemote, n.homeBridge.nonce + 1)));
            MintedLeg(n1, n2, n.homeBridge.nonce + 1, user, amount)
  {
    MintLeg(n1, n.homeBridge.nonce + 1, user, amount);
    hide Inv, MintedLeg, Step;
  }

  lemma ReturnLegs(n: Net, n1: Net, n2: Net, user: Address, amount: nat)
    requires Inv(n) && CanRoundTrip(n, user, amount)
    requires LockedLeg(n, n1, user, amount) && MintedLeg(n1, n2, n.homeBridge.nonce + 1, user, amount)
    ensures BurnedLeg(n2, Step(n2, OnRemote(user, SendTokens(amount))), user, amount)
  {
    BurnLeg(n2, user, amount);
  }

  lemma LastLeg(n: Net, n1: Net, n2: Net, n3: Net, user: Address, amount: nat)
    requires Inv(n) && CanRoundTrip(n, user, amount)
    requires LockedLeg(n, n1, user, amount) && MintedLeg(n1, n2, n.homeBridge.nonce + 1, user, amount)
    requires BurnedLeg(n2, n3, user, amount)
    ensures var n4 := Step(n3, OnHome(n.homeBridge.relayer, Delivery(n3.toHome, n.remoteBridge.nonce + 1)));
            UnlockedLeg(n3, n4, n.remoteBridge.nonce + 1, user, amount)
  {
    UnlockLeg(n3, n.remoteBridge.nonce + 1, user, amount);
    hide Inv, UnlockedLeg, Step;
  }

  lemma TripSteps(n: Net, user: Address, amount: nat) returns (n1: Net, n2: Net, n3: Net, n4: Net)
    ensures n1 == Step(n, OnHome(user, SendTokens(amount)))
    ensures n2 == Step(n1, OnRemote(n.remoteBridge.relayer, Delivery(n1.toRemote, n.homeBridge.nonce + 1)))
    ensures n3 == Step(n2, OnRemote(user, SendTokens(amount)))
    ensures n4 == Step(n3, OnHome(n.homeBridge.relayer, Delivery(n3.toHome, n.remoteBridge.nonce + 1)))
    ensures n4 == Run(n, RoundTrip(n, user, amount))
  {
    hide Step, Run, Delivery;
    var trip := RoundTrip(n, user, amount);
    RunFour(n, trip[0], trip[1], trip[2], trip[3]);
    n1 := Step(n, trip[0]);
    n2 := Step(n1, trip[1]);
    n3 := Step(n2, trip[2]);
    n4 := Step(n3, trip[3]);
  }

  /**
   Lock, mint, burn, unlock, with each message delivered to the account that it names: every balance on both chains and
   both message bags are back where they were.
   */
  lemma RoundTripRestores(n: Net, user: Address, amount: nat)
    requires Inv(n) && CanRoundTrip(n, user, amount)
    ensures CameBack(n, Run(n, RoundTrip(n, user, amount)))
  {
    hide *;
    var n1, n2, n3, n4 := TripSteps(n, user, amount);
    LockLeg(n, user, amount);
    OutwardLegs(n, n1, user, amount);
    ReturnLegs(n, n1, n2, user, amount);
    LastLeg(n, n1, n2, n3, user, amount);
    LegsCompose(n, n1, n2, n3, n4, user, amount);
  }

  // ---- Who a message names ----

  function BridgeOn(n: Net, home: bool): BridgeState {
    if home then n.homeBridge else n.remoteBridge
  }

  function TokenOn(n: Net, home: bool): Token {
    if home then n.home else n.remote
  }

  /** The messages that left this side and have not been delivered. */
  function BagFrom(n: Net, home: bool): map<nat, Message> {
    if home then n.toRemote else n.toHome
  }

  /** The step took the message's amount from the account that it names, who sent it, and addressed it as configured. */
  ghost predicate Emits(before: Net, after: Net, a: Action, home: bool, m: Message) {
    && a.OnHome? == home && a.op == SendTokens(m.amount) && a.sender == m.sender
    && TokenOn(after, home).Balance(m.sender) == TokenOn(before, home).Balance(m.sender) - m.amount
    && m.chainId == BridgeOn(before, home).remoteChainId && m.bridge == BridgeOn(before, home).remoteBridge
    && m.nonce == BridgeOn(before, home).nonce + 1 == BridgeOn(after, home).nonce
  }

  ghost predicate EmittedIn(n: Net, actions: seq<Action>, home: bool, m: Message)
    decreases |actions|
  {
    && actions != []
    && var front, last := actions[..|actions| - 1], actions[|actions| - 1];
       EmittedIn(n, front, home, m) || Emits(Run(n, front), Run(n, actions), last, home, m)
  }

  lemma HomeSendEmits(n: Net, sender: Address, amount: nat)
    requires Inv(n) && sender != n.homeBridge.self && Send(n.homeBridge, n.home, sender, amount).Ok?
    ensures var m, after := Send(n.homeBridge, n.home, sender, amount).value.message,
              StepHome(n, sender, SendTokens(amount));
            Emits(n, after, OnHome(sender, SendTokens(amount)), true, m) && after.toRemote == n.toRemote[m.nonce := m]
  {
    SendNamesWhoPaid(n.homeBridge, n.home, sender, amount);
  }

  lemma RemoteSendEmits(n: Net, sender: Address, amount: nat)
    requires Inv(n) && Send(n.remoteBridge, n.remote, sender, amount).Ok?
    ensures var m, after := Send(n.remoteBridge, n.remote, sender, amount).value.message,
                            StepRemote(n, sender, SendTokens(amount));
            Emits(n, after, OnRemote(sender, SendTokens(amount)), false, m) && after.toHome == n.toHome[m.nonce := m]
  {
    SendNamesWhoPaid(n.remoteBridge, n.remote, sender, amount);
  }

  /** What a step adds to a bag it emitted, under its own nonce; nonces only grow. */
  lemma StepEmits(n: Net, a: Action, home: bool)
    requires Inv(n) && Permitted(n, a)
    ensures BridgeOn(n, home).nonce <= BridgeOn(Step(n, a), home).nonce
    ensures forall k :: k in BagFrom(Step(n, a), home) ==>
              || (k in BagFrom(n, home) && BagFrom(Step(n, a), home)[k] == BagFrom(n, home)[k])
              || (BagFrom(Step(n, a), home)[k].nonce == k
                  && Emits(n, Step(n, a), a, home, BagFrom(Step(n, a), home)[k]))
  {
    if a.op.SendTokens? {
      match a
      case OnHome(sender, op) =>
        if Send(n.homeBridge, n.home, sender, op.amount).Ok? { HomeSendEmits(n, sender, op.amount); }
      case OnRemote(sender, op) =>
        if Send(n.remoteBridge, n.remote, sender, op.amount).Ok? { RemoteSendEmits(n, sender, op.amount); }
      hide Inv, Emits;
    }
  }

  /** Over any run every message under way was there before, or names the account whose tokens its send took. */
  lemma {:induction false} MessagesNameTheirPayers(n: Net, actions: seq<Action>, home: bool)
    requires Inv(n) && AllPermitted(n, actions)
    ensures BridgeOn(n, home).nonce <= BridgeOn(Run(n, actions), home).nonce
    ensures var bag := BagFrom(Run(n, actions), home);
            forall k :: k in bag ==>
              || (k in BagFrom(n, home) && bag[k] == BagFrom(n, home)[k])
              || (bag[k].nonce == k && EmittedIn(n, actions, home, bag[k]))
    decreases |actions|
  {
    if actions != [] {
      var front, last := actions[..|actions| - 1], actions[|actions| - 1];
      MessagesNameTheirPayers(n, front, home);
      RunKeepsPeg(n, front);
      StepEmits(Run(n, front), last, home);
      hide Step, Inv, Emits, Permitted;
    }
  }

  lemma {:induction false} EmittedNonceRange(n: Net, actions: seq<Action>, home: bool, m: Message)
    requires Inv(n) && AllPermitted(n, actions) && EmittedIn(n, actions, home, m)
    ensures BridgeOn(n, home).nonce < m.nonce <= BridgeOn(Run(n, actions), home).nonce
    decreases |actions|
  {
    var front, last := actions[..|actions| - 1], actions[|actions| - 1];
    MessagesNameTheirPayers(n, front, home);
    RunKeepsPeg(n, front);
    StepEmits(Run(n, front), last, home);
    if EmittedIn(n, front, home, m) {
      EmittedNonceRange(n, front, home, m);
    }
    hide Step, Inv, Permitted;
  }

  /** A message's nonce is above those of all earlier messages of its bridge, delivered or not. */
  lemma NonceIsNew(n: Net, actions: seq<Action>, home: bool, m: Message, earlier: Message)
    requires Inv(n) && actions != [] && AllPermitted(n, actions)
    requires EmittedIn(n, actions[..|actions| - 1], home, earlier)
    requires Emits(Run(n, actions[..|actions| - 1]), Run(n, actions), actions[|actions| - 1], home, m)
    ensures earlier.nonce < m.nonce
  {
    EmittedNonceRange(n, actions[..|actions| - 1], home, earlier);
  }

  // ---- Pausing ----

  /** Nobody with the right to do so unpauses either bridge. */
  ghost predicate StaysPaused(n: Net, actions: seq<Action>) {
    forall i :: 0 <= i < |actions| && actions[i].op == Manage(SetPaused(false)) ==>
      actions[i].sender != if actions[i].OnHome? then n.homeBridge.operator else n.remoteBridge.operator
  }

  /** Paused on both sides by the same operators, with the same messages under way and as much DRT.r as before. */
  ghost predicate Frozen(n: Net, m: Net) {
    && m.homeBridge.paused && m.remoteBridge.paused
    && m.homeBridge.operator == n.homeBridge.operator && m.remoteBridge.operator == n.remoteBridge.operator
    && m.toRemote == n.toRemote && m.toHome == n.toHome && m.selfUnlocked == n.selfUnlocked
    && m.remote.supply == n.remote.supply
  }

  lemma TokenOpKeepsSupply(t: Token, sender: Address, op: Op)
    requires t.Valid() && (op.TokenTransfer? || op.TokenApprove? || op.TokenTransferFrom?) && TokenOp(t, sender, op).Ok?
    ensures TokenOp(t, sender, op).value.supply == t.supply
  {
    match op
    case TokenTransfer(to, amount) => TransferConserves(t, sender, to, amount);
    case TokenApprove(spender, amount) => ApprovalMovesNothing(t, sender, spender, amount);
    case TokenTransferFrom(from, to, amount) => TransferFromConserves(t, sender, from, to, amount);
  }

  lemma PausedStep(n: Net, a: Action)
    requires Inv(n) && n.homeBridge.paused && n.remoteBridge.paused
    requires a.op == Manage(SetPaused(false)) ==>
               a.sender != if a.OnHome? then n.homeBridge.operator else n.remoteBridge.operator
    ensures Frozen(n, Step(n, a))
  {
    var t := if a.OnHome? then n.home else n.remote;
    if (a.op.TokenTransfer? || a.op.TokenApprove? || a.op.TokenTransferFrom?) && TokenOp(t, a.sender, a.op).Ok? {
      TokenOpKeepsSupply(t, a.sender, a.op);
    }
  }

  /**
   While both bridges stay paused no run locks, mints, burns or unlocks anything: only outside deposits reach the home
   bridge.
   */
  lemma {:induction false} PausedNetIsFrozen(n: Net, actions: seq<Action>)
    requires Inv(n) && AllPermitted(n, actions) && n.homeBridge.paused && n.remoteBridge.paused
             && StaysPaused(n, actions)
    ensures Frozen(n, Run(n, actions))
    ensures Locked(Run(n, actions)) - Run(n, actions).deposits == Locked(n) - n.deposits
    decreases |actions|
  {
    RunKeepsPeg(n, actions);
    if actions != [] {
      var front := actions[..|actions| - 1];
      PausedNetIsFrozen(n, front);
      RunKeepsPeg(n, front);
      PausedStep(Run(n, front), actions[|actions| - 1]);
    }
    assert Peg(n) && Peg(Run(n, actions));
  }
}
