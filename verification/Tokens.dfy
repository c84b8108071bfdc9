/** ERC-20 ledgers: the fixed-supply DRT token and the bridge-minted DRT.r token. */
module Tokens {
  import opened Common

  type Address = nat

  const ZERO_ADDRESS: Address := 0

  datatype TokenError =
    | InvalidSender | InvalidReceiver | InvalidSpender
    | InsufficientBalance | InsufficientAllowance | SupplyOverflow | NotBridge | NotOwner

  datatype Token = Token(balances: map<Address, nat>, allowances: map<(Address, Address), nat>, supply: nat) {

    function Balance(a: Address): nat {
      if a in balances then balances[a] else 0
    }

    function Allowance(owner: Address, spender: Address): nat {
      if (owner, spender) in allowances then allowances[(owner, spender)] else 0
    }

    /** Balances add up to the supply, and the supply is one EVM word. */
    ghost predicate Valid() {
      MapSum(balances) == supply && supply < TWO_256
    }
  }

  const EMPTY_TOKEN := Token(map[], map[], 0)

  // ---- The ledger operations, as functions on the ledger ----

  /** Debit first, then credit the debited ledger: a transfer to oneself changes nothing. */
  function Move(balances: map<Address, nat>, from: Address, to: Address, amount: nat): map<Address, nat>
    requires amount <= Token(balances, map[], 0).Balance(from)
  {
    var debited := balances[from := Token(balances, map[], 0).Balance(from) - amount];
    debited[to := Token(debited, map[], 0).Balance(to) + amount]
  }

  function Transfer(t: Token, from: Address, to: Address, amount: nat): Result<Token, TokenError> {
    if from == ZERO_ADDRESS then Err(InvalidSender)
    else if to == ZERO_ADDRESS then Err(InvalidReceiver)
    else if t.Balance(from) < amount then Err(InsufficientBalance)
    else Ok(t.(balances := Move(t.balances, from, to, amount)))
  }

  function Approve(t: Token, owner: Address, spender: Address, amount: nat): Result<Token, TokenError> {
    if owner == ZERO_ADDRESS then Err(InvalidSender)
    else if spender == ZERO_ADDRESS then Err(InvalidSpender)
    else Ok(t.(allowances := t.allowances[(owner, spender) := amount]))
  }

  /** An allowance of 2^256 - 1 is infinite and is not spent. */
  function SpendAllowance(t: Token, owner: Address, spender: Address, amount: nat): Result<Token, TokenError> {
    var current := t.Allowance(owner, spender);
    if current >= TWO_256 - 1 then Ok(t)
    else if current < amount then Err(InsufficientAllowance)
    else Approve(t, owner, spender, current - amount)
  }

  function TransferFrom(t: Token, spender: Address, from: Address, to: Address,
                        amount: nat): Result<Token, TokenError> {
    match SpendAllowance(t, from, spender, amount)
    case Err(e) => Err(e)
    case Ok(spent) => Transfer(spent, from, to, amount)
  }

  function Mint(t: Token, to: Address, amount: nat): Result<Token, TokenError> {
    if to == ZERO_ADDRESS then Err(InvalidReceiver)
    else if t.supply + amount >= TWO_256 then Err(SupplyOverflow)
    else Ok(t.(balances := t.balances[to := t.Balance(to) + amount], supply := t.supply + amount))
  }

  function Burn(t: Token, from: Address, amount: nat): Result<Token, TokenError> {
    if from == ZERO_ADDRESS then Err(InvalidSender)
    else if t.Balance(from) < amount || t.supply < amount then Err(InsufficientBalance)
    else Ok(t.(balances := t.balances[from := t.Balance(from) - amount], supply := t.supply - amount))
  }

  // ---- What every operation keeps ----

  lemma BalanceBelowSupply(t: Token, a: Address)
    requires t.Valid()
    ensures t.Balance(a) <= t.supply
  {
    MapSumMember(t.balances, a);
  }

  /** What is refused, and why: zero accounts, a short balance, a short allowance, an overflow. */
  lemma RefusedIff(t: Token, spender: Address, from: Address, to: Address, amount: nat)
    requires t.Valid()
    ensures Transfer(t, from, to, amount) == Err(InvalidSender) <==> from == ZERO_ADDRESS
    ensures Transfer(t, from, to, amount) == Err(InvalidReceiver) <==> from != ZERO_ADDRESS && to == ZERO_ADDRESS
    ensures Transfer(t, from, to, amount) == Err(InsufficientBalance) <==>
              from != ZERO_ADDRESS && to != ZERO_ADDRESS && t.Balance(from) < amount
    ensures Transfer(t, from, to, amount).Ok? <==>
              from != ZERO_ADDRESS && to != ZERO_ADDRESS && amount <= t.Balance(from)
    ensures Approve(t, from, spender, amount).Ok? <==> from != ZERO_ADDRESS && spender != ZERO_ADDRESS
    ensures TransferFrom(t, spender, from, to, amount) == Err(InsufficientAllowance) <==>
              t.Allowance(from, spender) < amount && t.Allowance(from, spender) < TWO_256 - 1
    ensures TransferFrom(t, spender, from, to, amount).Ok? ==>
              from != ZERO_ADDRESS && to != ZERO_ADDRESS && amount <= t.Balance(from)
    ensures spender != ZERO_ADDRESS && from != ZERO_ADDRESS && to != ZERO_ADDRESS && amount <= t.Balance(from)
            && amount <= t.Allowance(from, spender) ==>
              TransferFrom(t, spender, from, to, amount).Ok?
    ensures Mint(t, to, amount).Ok? <==> to != ZERO_ADDRESS && t.supply + amount < TWO_256
  {
  }

  /** A transfer moves exactly the amount, touches nobody else, and keeps the supply. */
  lemma TransferConserves(t: Token, from: Address, to: Address, amount: nat)
    requires t.Valid() && Transfer(t, from, to, amount).Ok?
    ensures var u := Transfer(t, from, to, amount).value;
            && u.Valid() && u.supply == t.supply && u.allowances == t.allowances
            && (from != to ==> u.Balance(from) == t.Balance(from) - amount && u.Balance(to) == t.Balance(to) + amount)
            && (from == to ==> u.Balance(from) == t.Balance(from))
            && forall a :: a != from && a != to ==> u.Balance(a) == t.Balance(a)
  {
    var debited := t.balances[from := t.Balance(from) - amount];
    MapSumUpdate(t.balances, from, t.Balance(from) - amount);
    MapSumUpdate(debited, to, Token(debited, map[], 0).Balance(to) + amount);
  }

  lemma MintConserves(t: Token, to: Address, amount: nat)
    requires t.Valid() && Mint(t, to, amount).Ok?
    ensures var u := Mint(t, to, amount).value;
            && u.Valid() && u.supply == t.supply + amount && u.allowances == t.allowances
            && u.Balance(to) == t.Balance(to) + amount
            && forall a :: a != to ==> u.Balance(a) == t.Balance(a)
  {
    MapSumUpdate(t.balances, to, t.Balance(to) + amount);
  }

  /** On a valid ledger a burn fails only for the zero address or a short balance: the supply never runs short. */
  lemma BurnConserves(t: Token, from: Address, amount: nat)
    requires t.Valid()
    ensures Burn(t, from, amount).Ok? <==> from != ZERO_ADDRESS && amount <= t.Balance(from)
    ensures Burn(t, from, amount).Ok? ==>
              var u := Burn(t, from, amount).value;
              && u.Valid() && u.supply == t.supply - amount && u.allowances == t.allowances
              && u.Balance(from) == t.Balance(from) - amount
              && forall a :: a != from ==> u.Balance(a) == t.Balance(a)
  {
    BalanceBelowSupply(t, from);
    if Burn(t, from, amount).Ok? {
      MapSumUpdate(t.balances, from, t.Balance(from) - amount);
    }
  }

  lemma ApprovalMovesNothing(t: Token, owner: Address, spender: Address, amount: nat)
    requires Approve(t, owner, spender, amount).Ok?
    ensures var u := Approve(t, owner, spender, amount).value;
            && u.balances == t.balances && u.supply == t.supply && (t.Valid() ==> u.Valid())
            && u.Allowance(owner, spender) == amount
            && forall a: Address, b: Address :: (a, b) != (owner, spender) ==> u.Allowance(a, b) == t.Allowance(a, b)
  {
  }

  lemma TransferFromConserves(t: Token, spender: Address, from: Address, to: Address, amount: nat)
    requires t.Valid() && TransferFrom(t, spender, from, to, amount).Ok?
    ensures Transfer(t, from, to, amount).Ok?
    ensures var u := TransferFrom(t, spender, from, to, amount).value;
            && u.Valid() && u.supply == t.supply
            && u.balances == Transfer(t, from, to, amount).value.balances
            && amount <= t.Allowance(from, spender)
            && u.Allowance(from, spender)
                 == t.Allowance(from, spender) - (if t.Allowance(from, spender) >= TWO_256 - 1 then 0 else amount)
            && (forall a: Address, b: Address :: (a, b) != (from, spender) ==> u.Allowance(a, b) == t.Allowance(a, b))
            && forall k :: k in u.allowances && k !in t.allowances ==> k == (from, spender) && u.allowances[k] == 0
  {
    var spent := SpendAllowance(t, from, spender, amount).value;
    assert spent.balances == t.balances;
    BalanceBelowSupply(t, from);
    TransferConserves(t, from, to, amount);
  }

  /** Deployment of the DRT token: the whole supply goes to the owner and is never minted again. */
  function DeployDrt(owner: Address, initialSupply: nat): Result<Token, TokenError> {
    Mint(EMPTY_TOKEN, owner, initialSupply)
  }

  // ---- The contracts as objects ----

  /** Storage shared by both token contracts, updated in place. */
  class Erc20 {
    var balances: map<Address, nat>
    var allowances: map<(Address, Address), nat>
    var supply: nat

    function State(): Token
      reads this
    {
      Token(balances, allowances, supply)
    }

    constructor ()
      ensures State() == EMPTY_TOKEN
    {
      balances, allowances, supply := map[], map[], 0;
    }

    function BalanceOf(a: Address): (b: nat)
      reads this
      ensures b == State().Balance(a)
    {
      if a in balances then balances[a] else 0
    }

    method MintTo(to: Address, amount: nat) returns (r: Result<(), TokenError>)
      modifies this
      ensures match Mint(old(State()), to, amount)
              case Ok(t) => r == Ok(()) && State() == t
              case Err(e) => r == Err(e) && State() == old(State())
    {
      if to == ZERO_ADDRESS { return Err(InvalidReceiver); }
      if supply + amount >= TWO_256 { return Err(SupplyOverflow); }
      balances := balances[to := BalanceOf(to) + amount];
      supply := supply + amount;
      return Ok(());
    }

    method BurnFrom(from: Address, amount: nat) returns (r: Result<(), TokenError>)
      modifies this
      ensures match Burn(old(State()), from, amount)
              case Ok(t) => r == Ok(()) && State() == t
              case Err(e) => r == Err(e) && State() == old(State())
    {
      if from == ZERO_ADDRESS { return Err(InvalidSender); }
      if BalanceOf(from) < amount || supply < amount { return Err(InsufficientBalance); }
      balances := balances[from := BalanceOf(from) - amount];
      supply := supply - amount;
      return Ok(());
    }

    method TransferTokens(from: Address, to: Address, amount: nat) returns (r: Result<(), TokenError>)
      modifies this
      ensures match Transfer(old(State()), from, to, amount)
              case Ok(t) => r == Ok(()) && State() == t
              case Err(e) => r == Err(e) && State() == old(State())
    {
      if from == ZERO_ADDRESS { return Err(InvalidSender); }
      if to == ZERO_ADDRESS { return Err(InvalidReceiver); }
      if BalanceOf(from) < amount { return Err(InsufficientBalance); }
      balances := balances[from := BalanceOf(from) - amount];
      balances := balances[to := BalanceOf(to) + amount];
      return Ok(());
    }

    method TransferTokensFrom(spender: Address, from: Address, to: Address, amount: nat)
      returns (r: Result<(), TokenError>)
      modifies this
      ensures match TransferFrom(old(State()), spender, from, to, amount)
              case Ok(t) => r == Ok(()) && State() == t
              case Err(e) => r == Err(e) && State() == old(State())
    {
      ghost var before := State();
      var oldAllowances := allowances;
      var current := if (from, spender) in allowances then allowances[(from, spender)] else 0;
      if current < TWO_256 - 1 {
        if current < amount { return Err(InsufficientAllowance); }
        if from == ZERO_ADDRESS { return Err(InvalidSender); }
        if spender == ZERO_ADDRESS { return Err(InvalidSpender); }
        allowances := allowances[(from, spender) := current - amount];
      }
      assert SpendAllowance(before, from, spender, amount) == Ok(State());
      r := TransferTokens(from, to, amount);
      if r.Err? {
        allowances := oldAllowances;
      }
    }
  }

  /** The home token: minted once, in the constructor. */
  class DRToken {
    const owner: Address
    const ledger: Erc20

    constructor (ownerAddress: Address, initialSupply: nat)
      requires ownerAddress != ZERO_ADDRESS && initialSupply < TWO_256
      ensures fresh(ledger) && owner == ownerAddress
      ensures DeployDrt(ownerAddress, initialSupply) == Ok(ledger.State())
    {
      var erc20 := new Erc20();
      var _ := erc20.MintTo(ownerAddress, initialSupply);
      owner := ownerAddress;
      ledger := erc20;
    }
  }

  /** The remote token: only the bridge mints and burns. */
  class DRTokenRemote {
    var bridge: Address
    const owner: Address
    const ledger: Erc20

    constructor (ownerAddress: Address)
      requires ownerAddress != ZERO_ADDRESS
      ensures fresh(ledger) && owner == ownerAddress && bridge == ZERO_ADDRESS && ledger.State() == EMPTY_TOKEN
    {
      owner := ownerAddress;
      bridge := ZERO_ADDRESS;
      ledger := new Erc20();
    }

    method SetBridge(sender: Address, newBridge: Address) returns (r: Result<(), TokenError>)
      modifies this`bridge
      ensures r.Ok? <==> sender == owner && newBridge != ZERO_ADDRESS
      ensures bridge == if r.Ok? then newBridge else old(bridge)
    {
      if sender != owner { return Err(NotOwner); }
      if newBridge == ZERO_ADDRESS { return Err(InvalidReceiver); }
      bridge := newBridge;
      return Ok(());
    }

    method MintRemote(sender: Address, to: Address, amount: nat) returns (r: Result<(), TokenError>)
      modifies ledger
      ensures sender != bridge ==> r == Err(NotBridge) && ledger.State() == old(ledger.State())
      ensures sender == bridge ==>
                match Mint(old(ledger.State()), to, amount)
                case Ok(t) => r == Ok(()) && ledger.State() == t
                case Err(e) => r == Err(e) && ledger.State() == old(ledger.State())
    {
      if sender != bridge { return Err(NotBridge); }
      r := ledger.MintTo(to, amount);
    }

    method BurnRemote(sender: Address, from: Address, amount: nat) returns (r: Result<(), TokenError>)
      modifies ledger
      ensures sender != bridge ==> r == Err(NotBridge) && ledger.State() == old(ledger.State())
      ensures sender == bridge ==>
                match Burn(old(ledger.State()), from, amount)
                case Ok(t) => r == Ok(()) && ledger.State() == t
                case Err(e) => r == Err(e) && ledger.State() == old(ledger.State())
    {
      if sender != bridge { return Err(NotBridge); }
      r := ledger.BurnFrom(from, amount);
    }
  }
}
