/** The DRT bridge contract: lock and unlock on the home chain, burn and mint on the remote chain. */
module Bridge {
  import opened Common
  import opened Tokens

  datatype BridgeMode = Home | Remote

  datatype BridgeError =
    | NotOperator | NotRelayer | Paused | ZeroAmount | RemoteBridgeUnset | ZeroRecipient | ZeroAddress
    | CounterOverflow | TokenFailed(error: TokenError)

  datatype BridgeState = BridgeState(
    self: Address, mode: BridgeMode, operator: Address, relayer: Address, paused: bool,
    remoteChainId: string, remoteBridge: Address, totalBridged: nat, nonce: nat)

  /** The BridgeSend event that the relayer carries to the other chain. */
  datatype Message = Message(nonce: nat, sender: Address, amount: nat, chainId: string, bridge: Address)

  datatype Sent = Sent(bridge: BridgeState, token: Token, message: Message)

  /** How sendTokens takes the tokens: lock at home, burn on the remote chain. */
  function TakeIn(b: BridgeState, t: Token, sender: Address, amount: nat): Result<Token, TokenError> {
    match b.mode
    case Home => TransferFrom(t, b.self, sender, b.self, amount)
    case Remote => Burn(t, sender, amount)
  }

  /** How receiveTokens hands them out: unlock at home, mint on the remote chain. */
  function HandOut(b: BridgeState, t: Token, recipient: Address, amount: nat): Result<Token, TokenError> {
    match b.mode
    case Home => Transfer(t, b.self, recipient, amount)
    case Remote => Mint(t, recipient, amount)
  }

  function Send(b: BridgeState, t: Token, sender: Address, amount: nat): Result<Sent, BridgeError> {
    if b.paused then Err(Paused)
    else if amount == 0 then Err(ZeroAmount)
    else if b.remoteBridge == ZERO_ADDRESS then Err(RemoteBridgeUnset)
    else
      match TakeIn(b, t, sender, amount)
      case Err(e) => Err(TokenFailed(e))
      case Ok(token) =>
        if b.nonce + 1 >= TWO_256 || b.totalBridged + amount >= TWO_256 then Err(CounterOverflow)
        else Ok(Sent(b.(nonce := b.nonce + 1, totalBridged := b.totalBridged + amount), token,
                     Message(b.nonce + 1, sender, amount, b.remoteChainId, b.remoteBridge)))
  }

  function Receive(b: BridgeState, t: Token, sender: Address, recipient: Address,
                   amount: nat): Result<Token, BridgeError> {
    if sender != b.relayer then Err(NotRelayer)
    else if b.paused then Err(Paused)
    else if amount == 0 then Err(ZeroAmount)
    else if recipient == ZERO_ADDRESS then Err(ZeroRecipient)
    else
      match HandOut(b, t, recipient, amount)
      case Err(e) => Err(TokenFailed(e))
      case Ok(token) => Ok(token)
  }

  /**
   An accepted send takes exactly the amount from the account that its message names, and that is its caller. The
   message goes to the configured chain and bridge under the next nonce. At home the bridge holds the amount then;
   remotely it is gone from the supply. Nobody else's balance moves.
   */
  lemma SendNamesWhoPaid(b: BridgeState, t: Token, sender: Address, amount: nat)
    requires t.Valid() && Send(b, t, sender, amount).Ok? && (b.mode == Home ==> sender != b.self)
    ensures var s := Send(b, t, sender, amount).value;
            && s.message.sender == sender && s.message.amount == amount && amount > 0 && !b.paused
            && s.token.Balance(s.message.sender) == t.Balance(s.message.sender) - s.message.amount
            && (forall a :: a != s.message.sender && a != b.self ==> s.token.Balance(a) == t.Balance(a))
            && (b.mode == Home ==> s.token.Balance(b.self) == t.Balance(b.self) + amount && s.token.supply == t.supply)
            && (b.mode == Remote ==> s.token.supply == t.supply - amount)
            && s.message.chainId == b.remoteChainId && s.message.bridge == b.remoteBridge
            && b.remoteBridge != ZERO_ADDRESS
            && s.message.nonce == b.nonce + 1
            && s.bridge == b.(nonce := s.message.nonce, totalBridged := b.totalBridged + amount)
  {
    match b.mode
    case Home =>
      TransferFromConserves(t, b.self, sender, b.self, amount);
      TransferConserves(t, sender, b.self, amount);
    case Remote => BurnConserves(t, sender, amount);
  }

  /** An accepted receive, by the relayer only, gives exactly the amount to the recipient it names. */
  lemma ReceivePaysRecipient(b: BridgeState, t: Token, sender: Address, recipient: Address, amount: nat)
    requires t.Valid() && Receive(b, t, sender, recipient, amount).Ok? && recipient != b.self
    ensures var u := Receive(b, t, sender, recipient, amount).value;
            && sender == b.relayer && !b.paused && amount > 0 && recipient != ZERO_ADDRESS
            && u.Balance(recipient) == t.Balance(recipient) + amount
            && (forall a :: a != recipient && a != b.self ==> u.Balance(a) == t.Balance(a))
            && (b.mode == Home ==> u.Balance(b.self) == t.Balance(b.self) - amount && u.supply == t.supply)
            && (b.mode == Remote ==> u.Balance(b.self) == t.Balance(b.self) && u.supply == t.supply + amount)
  {
    match b.mode
    case Home => TransferConserves(t, b.self, recipient, amount);
    case Remote => MintConserves(t, recipient, amount);
  }

  datatype Admin =
    | SetRelayer(relayer: Address)
    | SetPaused(paused: bool)
    | SetRemoteBridge(chainId: string, bridge: Address)

  function Administer(b: BridgeState, sender: Address, a: Admin): Result<BridgeState, BridgeError> {
    if sender != b.operator then Err(NotOperator)
    else
      match a
      case SetRelayer(relayer) => if relayer == ZERO_ADDRESS then Err(ZeroAddress) else Ok(b.(relayer := relayer))
      case SetPaused(paused) => Ok(b.(paused := paused))
      case SetRemoteBridge(chainId, bridge) =>
        if bridge == ZERO_ADDRESS then Err(ZeroAddress) else Ok(b.(remoteChainId := chainId, remoteBridge := bridge))
  }

  /** Only the operator administers, names no zero account, and changes nothing but what it names. */
  lemma AdministerIff(b: BridgeState, sender: Address, a: Admin)
    ensures Administer(b, sender, a) == Err(NotOperator) <==> sender != b.operator
    ensures Administer(b, sender, a).Ok? <==>
              && sender == b.operator
              && !(a.SetRelayer? && a.relayer == ZERO_ADDRESS) && !(a.SetRemoteBridge? && a.bridge == ZERO_ADDRESS)
    ensures Administer(b, sender, a).Ok? ==>
              var n := Administer(b, sender, a).value;
              && n.relayer == (if a.SetRelayer? then a.relayer else b.relayer)
              && n.paused == (if a.SetPaused? then a.paused else b.paused)
              && n.remoteChainId == (if a.SetRemoteBridge? then a.chainId else b.remoteChainId)
              && n.remoteBridge == (if a.SetRemoteBridge? then a.bridge else b.remoteBridge)
              && n.(relayer := b.relayer, paused := b.paused, remoteChainId := b.remoteChainId,
                    remoteBridge := b.remoteBridge) == b
  {
  }

  /** The contract as an object over its token's ledger. In remote mode the token must name this bridge. */
  class DRTBridge {
    const self: Address
    const mode: BridgeMode
    const operator: Address
    const token: Erc20
    const remoteToken: DRTokenRemote?
    var relayer: Address
    var paused: bool
    var remoteChainId: string
    var remoteBridge: Address
    var totalBridged: nat
    var nonce: nat

    constructor OnHome(selfAddress: Address, ledger: Erc20, operatorAddress: Address, relayerAddress: Address)
      requires operatorAddress != ZERO_ADDRESS && relayerAddress != ZERO_ADDRESS
      ensures token == ledger
      ensures State() == BridgeState(selfAddress, Home, operatorAddress, relayerAddress, false, "", ZERO_ADDRESS, 0, 0)
      ensures Wired()
    {
      self, mode, operator, token, remoteToken := selfAddress, Home, operatorAddress, ledger, null;
      relayer, paused := relayerAddress, false;
      remoteChainId, remoteBridge, totalBridged, nonce := "", ZERO_ADDRESS, 0, 0;
    }

    constructor OnRemote(selfAddress: Address, drtr: DRTokenRemote, operatorAddress: Address, relayerAddress: Address)
      requires operatorAddress != ZERO_ADDRESS && relayerAddress != ZERO_ADDRESS
      ensures token == drtr.ledger
      ensures var zero := ZERO_ADDRESS;
              State() == BridgeState(selfAddress, Remote, operatorAddress, relayerAddress, false, "", zero, 0, 0)
      ensures remoteToken == drtr && (drtr.bridge == selfAddress ==> Wired())
    {
      self, mode, operator, token, remoteToken := selfAddress, Remote, operatorAddress, drtr.ledger, drtr;
      relayer, paused := relayerAddress, false;
      remoteChainId, remoteBridge, totalBridged, nonce := "", ZERO_ADDRESS, 0, 0;
    }

    function State(): BridgeState
      reads this
    {
      BridgeState(self, mode, operator, relayer, paused, remoteChainId, remoteBridge, totalBridged, nonce)
    }

    ghost predicate Wired()
      reads remoteToken
    {
      mode == Remote ==> remoteToken != null && remoteToken.ledger == token && remoteToken.bridge == self
    }

    method Configure(sender: Address, a: Admin) returns (r: Result<(), BridgeError>)
      modifies this`relayer, this`paused, this`remoteChainId, this`remoteBridge
      ensures r == match Administer(old(State()), sender, a)
                   case Ok(_) => Ok(())
                   case Err(e) => Err(e)
      ensures relayer == (if r.Ok? && a.SetRelayer? then a.relayer else old(relayer))
      ensures paused == (if r.Ok? && a.SetPaused? then a.paused else old(paused))
      ensures remoteChainId == (if r.Ok? && a.SetRemoteBridge? then a.chainId else old(remoteChainId))
      ensures remoteBridge == (if r.Ok? && a.SetRemoteBridge? then a.bridge else old(remoteBridge))
    {
      if sender != operator { return Err(NotOperator); }
      match a {
        case SetRelayer(newRelayer) =>
          if newRelayer == ZERO_ADDRESS { return Err(ZeroAddress); }
          relayer := newRelayer;
        case SetPaused(newPaused) =>
          paused := newPaused;
        case SetRemoteBridge(chainId, bridge) =>
          if bridge == ZERO_ADDRESS { return Err(ZeroAddress); }
          remoteChainId, remoteBridge := chainId, bridge;
      }
      return Ok(());
    }

    method SendTokens(sender: Address, amount: nat) returns (r: Result<Message, BridgeError>)
      requires Wired()
      modifies this`totalBridged, this`nonce, token
      ensures match Send(old(State()), old(token.State()), sender, amount)
              case Ok(s) => r == Ok(s.message) && State() == s.bridge && token.State() == s.token
              case Err(e) => r == Err(e) && State() == old(State()) && token.State() == old(token.State())
      ensures r.Ok? ==>
                && r.value.sender == sender && r.value.amount == amount
                && r.value.chainId == remoteChainId && r.value.bridge == remoteBridge
                && r.value.nonce == nonce == old(nonce) + 1
    {
      if paused { return Err(Paused); }
      if amount == 0 { return Err(ZeroAmount); }
      if remoteBridge == ZERO_ADDRESS { return Err(RemoteBridgeUnset); }
      var balances, allowances, supply := token.balances, token.allowances, token.supply;
      var taken: Result<(), TokenError>;
      if mode == Home {
        taken := token.TransferTokensFrom(self, sender, self, amount);
      } else {
        taken := remoteToken.BurnRemote(self, sender, amount);
      }
      if taken.Err? { return Err(TokenFailed(taken.error)); }
      if nonce + 1 >= TWO_256 || totalBridged + amount >= TWO_256 {
        token.balances, token.allowances, token.supply := balances, allowances, supply;
        return Err(CounterOverflow);
      }
      nonce := nonce + 1;
      totalBridged := totalBridged + amount;
      return Ok(Message(nonce, sender, amount, remoteChainId, remoteBridge));
    }

    method ReceiveTokens(sender: Address, recipient: Address, amount: nat) returns (r: Result<(), BridgeError>)
      requires Wired()
      modifies token
      ensures match Receive(old(State()), old(token.State()), sender, recipient, amount)
              case Ok(t) => r == Ok(()) && token.State() == t
              case Err(e) => r == Err(e) && token.State() == old(token.State())
    {
      if sender != relayer { return Err(NotRelayer); }
      if paused { return Err(Paused); }
      if amount == 0 { return Err(ZeroAmount); }
      if recipient == ZERO_ADDRESS { return Err(ZeroRecipient); }
      var given: Result<(), TokenError>;
      if mode == Home {
        given := token.TransferTokens(self, recipient, amount);
      } else {
        given := remoteToken.MintRemote(self, recipient, amount);
      }
      if given.Err? { return Err(TokenFailed(given.error)); }
      return Ok(());
    }
  }
}
