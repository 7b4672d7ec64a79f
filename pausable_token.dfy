/**
 * The fungible token of contracts/fungible-token-interface/src/contract.rs:
 * a SEP-41 token whose public `mint` is capped per call and rate limited per
 * account by a 24-hour cooldown, whose owner can mint without limits, and
 * whose owner can pause every operation that moves or creates tokens.
 * The token library underneath (`Base`, `pausable`) is modelled by its
 * observable checks on a balance map, an allowance map and a flag.
 */
module PausableToken {
  import opened Numeric
  import opened Outcomes

  type Address = string

  const MINT_COOLDOWN: u64 := 86400
  /** 10^19 base units: 10 tokens at 18 decimals. */
  const MAX_MINT_AMOUNT: i128 := 10_000_000_000_000_000_000

  datatype TokenError =
    // the contract's own errors, codes 1 to 3
    | Unauthorized
    | ExceedsMaxMint
    | MintCooldownActive
    // the pause library
    | EnforcedPause
    | ExpectedPause
    // the token library
    | LessThanZero
    | InsufficientBalance
    | InsufficientAllowance
    | MathOverflow
    // a checked `u64` subtraction that underflows and traps
    | ArithmeticOverflow

  /** The `u32` a contract error is reported as; the library's errors and the host trap have none here. */
  function ErrorCode(e: TokenError): (code: Option<u32>)
    ensures code.Some? <==> e in {Unauthorized, ExceedsMaxMint, MintCooldownActive}
    ensures code.Some? ==> 1 <= code.value <= 3
    ensures code == Some(1) <==> e == Unauthorized
    ensures code == Some(2) <==> e == ExceedsMaxMint
  {
    match e
    case Unauthorized => Some(1)
    case ExceedsMaxMint => Some(2)
    case MintCooldownActive => Some(3)
    case _ => None
  }

  // ---------------------------------------------------------------------
  // Rate limiting
  // ---------------------------------------------------------------------

  /**
   * `get_mint_cooldown`: how many seconds the account must still wait, 0 if
   * it may mint now. A clock behind the recorded mint underflows and traps.
   */
  function Cooldown(last: Option<u64>, now: u64): (r: Result<u64, TokenError>)
    ensures r.Err? <==> last.Some? && now < last.value
    ensures r.Err? ==> r.error == ArithmeticOverflow
    ensures r.Ok? ==> (r.value == 0 <==> last.None? || last.value + MINT_COOLDOWN <= now)
    ensures r.Ok? && r.value > 0 ==> 1 <= r.value <= MINT_COOLDOWN && now + r.value == last.value + MINT_COOLDOWN
  {
    match last
    case None => Ok(0)
    case Some(t) =>
      if now < t then Err(ArithmeticOverflow)
      else
        var elapsed := now - t;
        if elapsed < MINT_COOLDOWN then Ok(MINT_COOLDOWN - elapsed) else Ok(0)
  }

  /** The checks public `mint` makes before minting, in order; `None` when all pass. */
  function MintRejection(paused: bool, amount: i128, last: Option<u64>, now: u64): (r: Option<TokenError>)
    ensures r.None? <==> !paused && amount <= MAX_MINT_AMOUNT && (last.None? || last.value + MINT_COOLDOWN <= now)
    ensures paused ==> r == Some(EnforcedPause)
    ensures !paused && amount > MAX_MINT_AMOUNT ==> r == Some(ExceedsMaxMint)
    ensures !paused && amount <= MAX_MINT_AMOUNT && last.Some? && last.value <= now < last.value + MINT_COOLDOWN
            ==> r == Some(MintCooldownActive)
  {
    if paused then Some(EnforcedPause)
    else if amount > MAX_MINT_AMOUNT then Some(ExceedsMaxMint)
    else if last.Some? && now < last.value then Some(ArithmeticOverflow)
    else if last.Some? && now - last.value < MINT_COOLDOWN then Some(MintCooldownActive)
    else None
  }

  /** The cooldown getter reports 0 exactly when the cooldown check of `mint` would pass. */
  lemma CooldownZeroIffMintAllowed(amount: i128, last: Option<u64>, now: u64)
    requires amount <= MAX_MINT_AMOUNT
    ensures Cooldown(last, now) == Ok(0) <==> MintRejection(false, amount, last, now).None?
  {
  }

  /** Successive public mints of one account: each passed its checks against the time of the previous one. */
  predicate MintSchedule(times: seq<u64>, amounts: seq<i128>, before: Option<u64>) {
    && |times| == |amounts|
    && forall i :: 0 <= i < |times| ==> MintRejection(false, amounts[i], Previous(times, i, before), times[i]).None?
  }

  /** The mint time recorded before the `i`-th mint of a schedule. */
  function Previous(times: seq<u64>, i: nat, before: Option<u64>): Option<u64>
    requires i <= |times|
  {
    if i == 0 then before else Some(times[i - 1])
  }

  function Total(amounts: seq<i128>): int {
    if amounts == [] then 0 else Total(amounts[..|amounts| - 1]) + amounts[|amounts| - 1]
  }

  /**
   * `n` successful public mints by one account span at least `n - 1`
   * cooldown periods and create at most `n` times the cap.
   */
  lemma {:induction false} ScheduleSpacing(times: seq<u64>, amounts: seq<i128>, before: Option<u64>)
    requires MintSchedule(times, amounts, before) && |times| >= 1
    ensures times[|times| - 1] >= times[0] + (|times| - 1) * MINT_COOLDOWN
    ensures Total(amounts) <= |times| * MAX_MINT_AMOUNT
  {
    if |times| > 1 {
      var n := |times| - 1;
      SchedulePrefix(times, amounts, before, n);
      ScheduleSpacing(times[..n], amounts[..n], before);
      assert MintRejection(false, amounts[n], Previous(times, n, before), times[n]).None?;
      assert amounts[..n] == amounts[..|amounts| - 1];
    }
  }

  /** A schedule's first `n` mints are a schedule too. */
  lemma SchedulePrefix(times: seq<u64>, amounts: seq<i128>, before: Option<u64>, n: nat)
    requires MintSchedule(times, amounts, before) && n <= |times|
    ensures MintSchedule(times[..n], amounts[..n], before)
  {
    forall i | 0 <= i < n
      ensures MintRejection(false, amounts[..n][i], Previous(times[..n], i, before), times[..n][i]).None?
    {
      assert Previous(times[..n], i, before) == Previous(times, i, before);
      assert MintRejection(false, amounts[i], Previous(times, i, before), times[i]).None?;
    }
  }

  /**
   * The rate limit: over any stretch of public mints by one account, the
   * amount minted is at most the cap per cooldown period elapsed, plus one
   * cap for the first mint.
   */
  lemma MintRateLimit(times: seq<u64>, amounts: seq<i128>, before: Option<u64>)
    requires MintSchedule(times, amounts, before) && |times| >= 1
    ensures Total(amounts) * MINT_COOLDOWN <= MAX_MINT_AMOUNT * (times[|times| - 1] - times[0] + MINT_COOLDOWN)
  {
    ScheduleSpacing(times, amounts, before);
    var n := |times|;
    var span := times[n - 1] - times[0];
    assert n * MINT_COOLDOWN <= span + MINT_COOLDOWN;
    MulMonotone(Total(amounts), n * MAX_MINT_AMOUNT, MINT_COOLDOWN);
    MulMonotone(n * MINT_COOLDOWN, span + MINT_COOLDOWN, MAX_MINT_AMOUNT);
  }

  lemma MulMonotone(a: int, b: int, k: nat)
    requires a <= b
    ensures a * k <= b * k
  {
  }

  // ---------------------------------------------------------------------
  // The token library's ledger
  // ---------------------------------------------------------------------

  datatype Approval = Approval(owner: Address, spender: Address)

  function Bal(balances: map<Address, i128>, a: Address): i128 {
    if a in balances then balances[a] else 0
  }

  function Allowed(allowances: map<Approval, i128>, owner: Address, spender: Address): i128 {
    var k := Approval(owner, spender);
    if k in allowances then allowances[k] else 0
  }

  /** A ledger after a mint or burn: the balances and the total supply. */
  datatype Supply = Supply(balances: map<Address, i128>, total: i128)

  /** `Base::mint`: a non-negative amount credited to the account and added to the supply, both checked. */
  function BaseMint(balances: map<Address, i128>, supply: i128, account: Address, amount: i128): (r: Result<Supply, TokenError>)
    ensures r.Ok? <==> amount >= 0 && InI128(supply + amount) && InI128(Bal(balances, account) + amount)
    ensures r.Err? && amount < 0 ==> r.error == LessThanZero
    ensures r.Err? && amount >= 0 ==> r.error == MathOverflow
    ensures r.Ok? ==>
      && r.value.total == supply + amount
      && Bal(r.value.balances, account) == Bal(balances, account) + amount
      && forall a :: a != account ==> Bal(r.value.balances, a) == Bal(balances, a)
  {
    if amount < 0 then Err(LessThanZero)
    else if !InI128(supply + amount) then Err(MathOverflow)
    else if !InI128(Bal(balances, account) + amount) then Err(MathOverflow)
    else Ok(Supply(balances[account := Bal(balances, account) + amount], supply + amount))
  }

  /** `Base::burn`: a non-negative amount, no more than the balance, removed from account and supply. */
  function BaseBurn(balances: map<Address, i128>, supply: i128, account: Address, amount: i128): (r: Result<Supply, TokenError>)
    ensures r.Ok? <==> 0 <= amount <= Bal(balances, account) && InI128(supply - amount)
    ensures r.Ok? ==>
      && r.value.total == supply - amount
      && Bal(r.value.balances, account) == Bal(balances, account) - amount
      && forall a :: a != account ==> Bal(r.value.balances, a) == Bal(balances, a)
  {
    if amount < 0 then Err(LessThanZero)
    else if Bal(balances, account) < amount then Err(InsufficientBalance)
    else if !InI128(supply - amount) then Err(MathOverflow)
    else Ok(Supply(balances[account := Bal(balances, account) - amount], supply - amount))
  }

  /** `Base::transfer`: a non-negative amount, no more than the sender holds, moved to the receiver. */
  function BaseTransfer(balances: map<Address, i128>, from: Address, to: Address, amount: i128): (r: Result<map<Address, i128>, TokenError>)
    ensures r.Ok? <==> 0 <= amount <= Bal(balances, from) && (from == to || InI128(Bal(balances, to) + amount))
    ensures r.Ok? && from != to ==>
      && Bal(r.value, from) == Bal(balances, from) - amount
      && Bal(r.value, to) == Bal(balances, to) + amount
    ensures r.Ok? ==> Bal(r.value, from) + Bal(r.value, to) == Bal(balances, from) + Bal(balances, to)
    ensures r.Ok? ==> forall a :: a != from && a != to ==> Bal(r.value, a) == Bal(balances, a)
  {
    if amount < 0 then Err(LessThanZero)
    else if Bal(balances, from) < amount then Err(InsufficientBalance)
    else
      var debited := balances[from := Bal(balances, from) - amount];
      if !InI128(Bal(debited, to) + amount) then Err(MathOverflow)
      else Ok(debited[to := Bal(debited, to) + amount])
  }

  /** Spending part of an allowance: a non-negative amount, no more than allowed. */
  function SpendAllowance(allowances: map<Approval, i128>, owner: Address, spender: Address, amount: i128)
    : (r: Result<map<Approval, i128>, TokenError>)
    ensures r.Ok? <==> 0 <= amount <= Allowed(allowances, owner, spender)
    ensures r.Ok? ==> Allowed(r.value, owner, spender) == Allowed(allowances, owner, spender) - amount
    ensures r.Err? ==> r.error == (if amount < 0 then LessThanZero else InsufficientAllowance)
    ensures r.Ok? ==> forall k :: k != Approval(owner, spender) ==> (k in r.value <==> k in allowances)
    ensures r.Ok? ==> forall o, s :: Approval(o, s) != Approval(owner, spender) ==> Allowed(r.value, o, s) == Allowed(allowances, o, s)
  {
    if amount < 0 then Err(LessThanZero)
    else if Allowed(allowances, owner, spender) < amount then Err(InsufficientAllowance)
    else Ok(allowances[Approval(owner, spender) := Allowed(allowances, owner, spender) - amount])
  }

  // ---------------------------------------------------------------------
  // The owner's pause switch
  // ---------------------------------------------------------------------

  /** `pause`: only the owner, and only while not paused; the result is the new flag. */
  function Paused(owner: Address, caller: Address, paused: bool): (r: Result<bool, TokenError>)
    ensures r.Ok? <==> caller == owner && !paused
    ensures r.Ok? ==> r.value
    ensures caller != owner ==> r == Err(Unauthorized)
  {
    if owner != caller then Err(Unauthorized)
    else if paused then Err(EnforcedPause)
    else Ok(true)
  }

  /** `unpause`: only the owner, and only while paused; the result is the new flag. */
  function Unpaused(owner: Address, caller: Address, paused: bool): (r: Result<bool, TokenError>)
    ensures r.Ok? <==> caller == owner && paused
    ensures r.Ok? ==> !r.value
    ensures caller != owner ==> r == Err(Unauthorized)
  {
    if owner != caller then Err(Unauthorized)
    else if !paused then Err(ExpectedPause)
    else Ok(false)
  }

  /** Pausing and then unpausing, both by the owner, restores the running state. */
  lemma PauseThenUnpause(owner: Address, paused: bool)
    requires !paused
    ensures Paused(owner, owner, paused).Ok? && Unpaused(owner, owner, Paused(owner, owner, paused).value) == Ok(paused)
  {
  }

  // ---------------------------------------------------------------------
  // The contract
  // ---------------------------------------------------------------------

  class Token {
    const owner: Address
    var paused: bool
    var balances: map<Address, i128>
    var allowances: map<Approval, i128>
    var totalSupply: i128
    /** When each account last used the public mint, in ledger seconds. */
    var lastMint: map<Address, u64>

    /** No balance and no allowance is ever negative. */
    ghost predicate Valid()
      reads this
    {
      && (forall a :: a in balances ==> balances[a] >= 0)
      && (forall k :: k in allowances ==> allowances[k] >= 0)
    }

    function LastMint(account: Address): Option<u64>
      reads this
    {
      if account in lastMint then Some(lastMint[account]) else None
    }

    /** The constructor: the owner holds the whole initial supply; the token starts unpaused. */
    constructor(owner: Address, initialSupply: i128)
      requires initialSupply >= 0
      ensures Valid() && this.owner == owner && !paused
      ensures balances == map[owner := initialSupply] && totalSupply == initialSupply
      ensures allowances == map[] && lastMint == map[]
    {
      this.owner := owner;
      paused := false;
      balances := map[owner := initialSupply];
      allowances := map[];
      totalSupply := initialSupply;
      lastMint := map[];
    }

    /**
     * Public `mint`: capped, rate limited, only while unpaused. A mint the
     * library rejects rolls back the recorded mint time too.
     */
    method Mint(account: Address, amount: i128, now: u64) returns (r: Result<(), TokenError>)
      requires Valid()
      modifies this`balances, this`totalSupply, this`lastMint
      ensures Valid()
      ensures var rejected := MintRejection(old(paused), amount, old(LastMint(account)), now);
        rejected.Some? ==> r == Err(rejected.value) && unchanged(this)
      ensures MintRejection(old(paused), amount, old(LastMint(account)), now).None? ==>
        var out := BaseMint(old(balances), old(totalSupply), account, amount);
        && (out.Err? ==> r == Err(out.error) && unchanged(this))
        && (out.Ok? ==> r.Ok? && balances == out.value.balances && totalSupply == out.value.total
                        && lastMint == old(lastMint)[account := now])
    {
      if paused {
        return Err(EnforcedPause);
      }
      if amount > MAX_MINT_AMOUNT {
        return Err(ExceedsMaxMint);
      }
      if account in lastMint {
        var last := lastMint[account];
        if now < last {
          return Err(ArithmeticOverflow);
        }
        if now - last < MINT_COOLDOWN {
          return Err(MintCooldownActive);
        }
      }
      var out := BaseMint(balances, totalSupply, account, amount);
      if out.Err? {
        return Err(out.error);
      }
      lastMint := lastMint[account := now];
      balances, totalSupply := out.value.balances, out.value.total;
      r := Ok(());
    }

    /** `admin_mint`: the owner mints any amount to anyone, while unpaused; the cooldown map is not touched. */
    method AdminMint(account: Address, amount: i128) returns (r: Result<(), TokenError>)
      requires Valid()
      modifies this`balances, this`totalSupply
      ensures Valid()
      ensures old(paused) ==> r == Err(EnforcedPause) && unchanged(this)
      ensures !old(paused) ==>
        var out := BaseMint(old(balances), old(totalSupply), account, amount);
        && (out.Err? ==> r == Err(out.error) && unchanged(this))
        && (out.Ok? ==> r.Ok? && balances == out.value.balances && totalSupply == out.value.total)
    {
      if paused {
        return Err(EnforcedPause);
      }
      var out := BaseMint(balances, totalSupply, account, amount);
      if out.Err? {
        return Err(out.error);
      }
      balances, totalSupply := out.value.balances, out.value.total;
      r := Ok(());
    }

    /** `get_mint_cooldown` at ledger time `now`. */
    function MintCooldown(account: Address, now: u64): (r: Result<u64, TokenError>)
      reads this
      ensures r == Cooldown(LastMint(account), now)
    {
      Cooldown(LastMint(account), now)
    }

    method Pause(caller: Address) returns (r: Result<(), TokenError>)
      modifies this`paused
      ensures var out := Paused(owner, caller, old(paused));
        && (out.Ok? ==> r.Ok? && paused == out.value)
        && (out.Err? ==> r == Err(out.error) && paused == old(paused))
    {
      var out := Paused(owner, caller, paused);
      if out.Err? {
        return Err(out.error);
      }
      paused := out.value;
      r := Ok(());
    }

    method Unpause(caller: Address) returns (r: Result<(), TokenError>)
      modifies this`paused
      ensures var out := Unpaused(owner, caller, old(paused));
        && (out.Ok? ==> r.Ok? && paused == out.value)
        && (out.Err? ==> r == Err(out.error) && paused == old(paused))
    {
      var out := Unpaused(owner, caller, paused);
      if out.Err? {
        return Err(out.error);
      }
      paused := out.value;
      r := Ok(());
    }

    method Transfer(from: Address, to: Address, amount: i128) returns (r: Result<(), TokenError>)
      requires Valid()
      modifies this`balances
      ensures Valid()
      ensures old(paused) ==> r == Err(EnforcedPause) && unchanged(this)
      ensures !old(paused) ==>
        var out := BaseTransfer(old(balances), from, to, amount);
        && (out.Err? ==> r == Err(out.error) && unchanged(this))
        && (out.Ok? ==> r.Ok? && balances == out.value)
    {
      if paused {
        return Err(EnforcedPause);
      }
      var out := BaseTransfer(balances, from, to, amount);
      if out.Err? {
        return Err(out.error);
      }
      assert forall a :: a in out.value ==> out.value[a] >= 0 by {
        forall a | a in out.value
          ensures out.value[a] >= 0
        {
          assert out.value[a] == Bal(out.value, a);
        }
      }
      balances := out.value;
      r := Ok(());
    }

    method TransferFrom(spender: Address, from: Address, to: Address, amount: i128) returns (r: Result<(), TokenError>)
      requires Valid()
      modifies this`balances, this`allowances
      ensures Valid()
      ensures old(paused) ==> r == Err(EnforcedPause) && unchanged(this)
      ensures !old(paused) ==>
        var spent := SpendAllowance(old(allowances), from, spender, amount);
        var out := BaseTransfer(old(balances), from, to, amount);
        && (spent.Err? ==> r == Err(spent.error) && unchanged(this))
        && (spent.Ok? && out.Err? ==> r == Err(out.error) && unchanged(this))
        && (spent.Ok? && out.Ok? ==> r.Ok? && allowances == spent.value && balances == out.value)
    {
      if paused {
        return Err(EnforcedPause);
      }
      var spent := SpendAllowance(allowances, from, spender, amount);
      if spent.Err? {
        return Err(spent.error);
      }
      var out := BaseTransfer(balances, from, to, amount);
      if out.Err? {
        return Err(out.error);
      }
      assert forall a :: a in out.value ==> out.value[a] >= 0 by {
        forall a | a in out.value
          ensures out.value[a] >= 0
        {
          assert out.value[a] == Bal(out.value, a);
        }
      }
      assert forall k :: k in spent.value ==> spent.value[k] >= 0 by {
        forall k | k in spent.value
          ensures spent.value[k] >= 0
        {
          assert spent.value[k] == Allowed(spent.value, k.owner, k.spender);
        }
      }
      allowances, balances := spent.value, out.value;
      r := Ok(());
    }

    /** `approve`: not gated by the pause; a negative amount is refused. */
    method Approve(owner: Address, spender: Address, amount: i128) returns (r: Result<(), TokenError>)
      requires Valid()
      modifies this`allowances
      ensures Valid()
      ensures amount < 0 ==> r == Err(LessThanZero) && allowances == old(allowances)
      ensures amount >= 0 ==> r.Ok? && allowances == old(allowances)[Approval(owner, spender) := amount]
    {
      if amount < 0 {
        return Err(LessThanZero);
      }
      allowances := allowances[Approval(owner, spender) := amount];
      r := Ok(());
    }

    method Burn(from: Address, amount: i128) returns (r: Result<(), TokenError>)
      requires Valid()
      modifies this`balances, this`totalSupply
      ensures Valid()
      ensures old(paused) ==> r == Err(EnforcedPause) && unchanged(this)
      ensures !old(paused) ==>
        var out := BaseBurn(old(balances), old(totalSupply), from, amount);
        && (out.Err? ==> r == Err(out.error) && unchanged(this))
        && (out.Ok? ==> r.Ok? && balances == out.value.balances && totalSupply == out.value.total)
    {
      if paused {
        return Err(EnforcedPause);
      }
      var out := BaseBurn(balances, totalSupply, from, amount);
      if out.Err? {
        return Err(out.error);
      }
      balances, totalSupply := out.value.balances, out.value.total;
      r := Ok(());
    }

    method BurnFrom(spender: Address, from: Address, amount: i128) returns (r: Result<(), TokenError>)
      requires Valid()
      modifies this`balances, this`totalSupply, this`allowances
      ensures Valid()
      ensures old(paused) ==> r == Err(EnforcedPause) && unchanged(this)
      ensures !old(paused) ==>
        var spent := SpendAllowance(old(allowances), from, spender, amount);
        var out := BaseBurn(old(balances), old(totalSupply), from, amount);
        && (spent.Err? ==> r == Err(spent.error) && unchanged(this))
        && (spent.Ok? && out.Err? ==> r == Err(out.error) && unchanged(this))
        && (spent.Ok? && out.Ok? ==> r.Ok? && allowances == spent.value
                                     && balances == out.value.balances && totalSupply == out.value.total)
    {
      if paused {
        return Err(EnforcedPause);
      }
      var spent := SpendAllowance(allowances, from, spender, amount);
      if spent.Err? {
        return Err(spent.error);
      }
      var out := BaseBurn(balances, totalSupply, from, amount);
      if out.Err? {
        return Err(out.error);
      }
      assert forall k :: k in spent.value ==> spent.value[k] >= 0 by {
        forall k | k in spent.value
          ensures spent.value[k] >= 0
        {
          assert spent.value[k] == Allowed(spent.value, k.owner, k.spender);
        }
      }
      allowances, balances, totalSupply := spent.value, out.value.balances, out.value.total;
      r := Ok(());
    }
  }
}
