/**
 * The money side of the quiz-room contract: the basis-point fee split of a
 * room's pool (`get_room_financials`, contract.rs:893-916) and the payout
 * made when a room ends (`distribute_prizes_internal`, contract.rs:792-856).
 */
module QuizFinance {
  import opened Numeric
  import opened Outcomes
  import opened QuizTypes
  import opened TokenLedger

  const PLATFORM_FEE_BPS: u32 := 2000
  const BPS_DENOMINATOR: int := 10000

  /** The two hardcoded payout wallets; the contract uses the same address for both. */
  const PlatformWallet: Address := "GCBZQUCR63FVZY7PLWCIV5S4FOOK2KR2YRAHIFAY34MWLF5VYR7CJABV"
  const CharityWallet: Address := "GCBZQUCR63FVZY7PLWCIV5S4FOOK2KR2YRAHIFAY34MWLF5VYR7CJABV"

  function Min(a: int, b: int): int { if a <= b then a else b }

  /** The sum of the percentages `d[i..n]`. */
  function SumRange(d: seq<u32>, i: nat, n: nat): nat
    requires i <= n <= |d|
    decreases n - i
  {
    if i == n then 0 else d[i] + SumRange(d, i + 1, n)
  }

  /** The sum of a list of whole percentages. */
  function SumPct(d: seq<u32>): nat {
    SumRange(d, 0, |d|)
  }

  // ---------------------------------------------------------------------
  // Fee split
  // ---------------------------------------------------------------------

  datatype Split = Split(platform: i128, charity: i128, host: i128, prize: i128)

  /** `part` is `pool * bps / 10000` rounded down: what a basis-point share of a non-negative pool pays. */
  ghost predicate IsShare(part: int, pool: int, bps: int) {
    part * BPS_DENOMINATOR <= pool * bps < part * BPS_DENOMINATOR + BPS_DENOMINATOR
  }

  /**
   * The split of a pool into platform (20%), charity and host shares, each
   * rounded toward zero, and the prize: what is left. Any of the three
   * multiplications may overflow `i128`, which traps.
   */
  function FeeSplit(pool: i128, charityBps: u32, hostFeeBps: u32): (r: Result<Split, QuizError>)
    ensures charityBps + hostFeeBps <= 8000 ==>
      (r.Ok? <==> InI128(pool * PLATFORM_FEE_BPS) && InI128(pool * charityBps) && InI128(pool * hostFeeBps))
    ensures r.Err? ==> r.error == ArithmeticOverflow
    ensures r.Ok? ==> r.value.platform + r.value.charity + r.value.host + r.value.prize == pool
  {
    var platformGross :- OrOverflow(MulI128(pool, PLATFORM_FEE_BPS));
    var charityGross :- OrOverflow(MulI128(pool, charityBps));
    var hostGross :- OrOverflow(MulI128(pool, hostFeeBps));
    var platform := Quot(platformGross, BPS_DENOMINATOR);
    var charity := Quot(charityGross, BPS_DENOMINATOR);
    var host := Quot(hostGross, BPS_DENOMINATOR);
    ShareBounds(pool, PLATFORM_FEE_BPS);
    ShareBounds(pool, charityBps);
    ShareBounds(pool, hostFeeBps);
    // The three shares have the pool's sign, so `pool - platform - charity - host`
    // passes only through values between the pool and the result: one range
    // check decides whether any of the three subtractions traps.
    var prize := pool - platform - charity - host;
    if InI128(prize) then Ok(Split(platform, charity, host, prize)) else Err(ArithmeticOverflow)
  }

  /** A basis-point share of `pool`, rounded toward zero, lies between 0 and the exact share. */
  lemma ShareBounds(pool: int, bps: int)
    requires 0 <= bps
    ensures bps <= BPS_DENOMINATOR ==> var part := Quot(pool * bps, BPS_DENOMINATOR);
      && (pool >= 0 ==> IsShare(part, pool, bps) && 0 <= part <= pool)
      && (pool < 0 ==> pool * bps <= part * BPS_DENOMINATOR <= 0 && pool <= part <= 0)
  {
    if bps > BPS_DENOMINATOR {
      return;
    }
    var gross := pool * bps;
    MulBetween(pool, bps, BPS_DENOMINATOR);
    var part := Quot(gross, BPS_DENOMINATOR);
    if pool >= 0 {
      assert 0 <= gross <= pool * BPS_DENOMINATOR;
      assert part * BPS_DENOMINATOR <= gross;
    } else {
      assert pool * BPS_DENOMINATOR <= gross <= 0;
    }
  }

  /** Scaling by a factor between 0 and `c` stays between 0 and the scaling by `c`. */
  lemma MulBetween(a: int, b: int, c: int)
    requires 0 <= b <= c
    ensures a >= 0 ==> 0 <= a * b <= a * c
    ensures a < 0 ==> a * c <= a * b <= 0
  {
    assert a * c - a * b == a * (c - b);
    if a >= 0 {
      MulNonneg(a, b);
      MulNonneg(a, c - b);
    } else {
      MulNonneg(-a, b);
      MulNonneg(-a, c - b);
    }
  }

  lemma MulNonneg(a: int, b: int)
    requires a >= 0 && b >= 0
    ensures a * b >= 0
  {
  }

  /**
   * The split reconciles exactly and every share has the sign of the pool:
   * for a non-negative pool each fee is its basis-point share rounded down,
   * and the prize lies between the unallocated share and the whole pool.
   */
  lemma FeeSplitBounds(pool: i128, charityBps: u32, hostFeeBps: u32)
    requires charityBps + hostFeeBps <= 8000
    requires FeeSplit(pool, charityBps, hostFeeBps).Ok?
    ensures var s := FeeSplit(pool, charityBps, hostFeeBps).value;
      && s.platform + s.charity + s.host + s.prize == pool
      && (pool >= 0 ==>
        && IsShare(s.platform, pool, PLATFORM_FEE_BPS)
        && IsShare(s.charity, pool, charityBps)
        && IsShare(s.host, pool, hostFeeBps)
        && 0 <= s.platform && 0 <= s.charity && 0 <= s.host
        && 0 <= s.prize <= pool
        && s.prize * BPS_DENOMINATOR >= pool * (BPS_DENOMINATOR - PLATFORM_FEE_BPS - charityBps - hostFeeBps))
      && (pool < 0 ==> s.platform <= 0 && s.charity <= 0 && s.host <= 0 && pool <= s.prize <= 0)
  {
    var s := FeeSplit(pool, charityBps, hostFeeBps).value;
    ShareBounds(pool, PLATFORM_FEE_BPS);
    ShareBounds(pool, charityBps);
    ShareBounds(pool, hostFeeBps);
    var allocatedBps := PLATFORM_FEE_BPS + charityBps + hostFeeBps;
    Distribute(pool, PLATFORM_FEE_BPS, charityBps, hostFeeBps);
    MulBetween(pool, allocatedBps, BPS_DENOMINATOR);
  }

  lemma Distribute(a: int, x: int, y: int, z: int)
    ensures a * x + a * y + a * z == a * (x + y + z)
    ensures a * (BPS_DENOMINATOR - (x + y + z)) == a * BPS_DENOMINATOR - a * (x + y + z)
  {
  }

  /** `(total_collected, entry_fees, extras_fees, total_should_pay_out, remaining_balance)`. */
  datatype Financials = Financials(
    totalCollected: i128,
    entryFees: i128,
    extrasFees: i128,
    shouldPayOut: i128,
    remaining: i128)

  /**
   * The financial summary of a room. The four shares always add back up to
   * the pool, so what should be paid out is the whole pool and nothing
   * remains; the summary traps only where the fee split itself overflows.
   */
  function RoomFinancials(c: RoomConfig): (r: Result<Financials, QuizError>)
    ensures r.Ok? <==> FeeSplit(c.totalPool, c.charityBps, c.hostFeeBps).Ok?
    ensures r.Err? ==> r.error == ArithmeticOverflow
    ensures r.Ok? ==>
      && r.value.totalCollected == c.totalPool
      && r.value.entryFees == c.totalEntryFees
      && r.value.extrasFees == c.totalExtrasFees
      && r.value.shouldPayOut == c.totalPool
      && r.value.remaining == 0
  {
    var s :- FeeSplit(c.totalPool, c.charityBps, c.hostFeeBps);
    // Each partial sum lies between 0 and the pool, so none of these additions traps.
    var shouldPay := s.platform + s.charity + s.host + s.prize;
    Ok(Financials(c.totalPool, c.totalEntryFees, c.totalExtrasFees, shouldPay, c.totalPool - shouldPay))
  }

  // ---------------------------------------------------------------------
  // Payout
  // ---------------------------------------------------------------------

  /** The balances after a payout and the fee-token total it paid (`total_distributed`). */
  datatype Payment = Payment(balances: Balances, distributed: int)

  /** A transfer out of escrow; a rejected transfer aborts the call. */
  function Pay(b: Balances, token: Address, from: Address, to: Address, amount: int): (r: Result<Balances, QuizError>)
    ensures r.Ok? <==> TokenTransfer(b, token, from, to, amount).Some?
    ensures r.Ok? ==> r.value == TokenTransfer(b, token, from, to, amount).value
    ensures r.Err? ==> r.error == TransferRejected
  {
    match TokenTransfer(b, token, from, to, amount)
    case Some(b') => Ok(b')
    case None => Err(TransferRejected)
  }

  /** How many winners a room pays: no more than there are winners or prize slots. */
  function PoolRounds(c: RoomConfig): nat {
    Min(|c.winners|, |c.prizeDistribution|)
  }

  function AssetRounds(c: RoomConfig): nat {
    Min(|c.winners|, 3)
  }

  /** A winner's cut of the prize: `prize * pct / 100`, trapping if the product overflows. */
  function WinnerShare(prize: i128, pct: u32): Result<int, QuizError> {
    var gross :- OrOverflow(MulI128(prize, pct));
    Ok(Quot(gross, 100))
  }

  /** Winners `i` onwards of a prize-pool room each receive their percentage of `prize`. */
  function PayShares(b: Balances, c: RoomConfig, contract: Address, prize: i128, i: nat, acc: int): (r: Result<Payment, QuizError>)
    ensures r.Err? ==> r.error == ArithmeticOverflow || r.error == TransferRejected
    ensures r.Ok? ==> forall t, h :: (t != c.feeToken || (h != contract && h !in c.winners)) ==>
      BalanceOf(r.value.balances, t, h) == BalanceOf(b, t, h)
    decreases PoolRounds(c) - i
  {
    if i >= PoolRounds(c) then Ok(Payment(b, acc))
    else
      var amount :- WinnerShare(prize, c.prizeDistribution[i]);
      var b' :- Pay(b, c.feeToken, contract, c.winners[i], amount);
      PayShares(b', c, contract, prize, i + 1, acc + amount)
  }

  /** Winners `i` onwards of an asset room each receive the escrowed asset of their place. */
  function PayAssets(b: Balances, c: RoomConfig, contract: Address, i: nat, acc: int): (r: Result<Payment, QuizError>)
    ensures r.Err? ==> r.error == TransferRejected
    ensures r.Ok? ==> forall t, h :: h != contract && h !in c.winners ==>
      BalanceOf(r.value.balances, t, h) == BalanceOf(b, t, h)
    decreases AssetRounds(c) - i
  {
    if i >= AssetRounds(c) then Ok(Payment(b, acc))
    else if i < |c.prizeAssets| && c.prizeAssets[i].Some? then
      var asset := c.prizeAssets[i].value;
      var b' :- Pay(b, asset.contractId, contract, c.winners[i], asset.amount);
      PayAssets(b', c, contract, i + 1, acc)
    else
      PayAssets(b, c, contract, i + 1, acc)
  }

  /** `h` is the room's host wallet. */
  predicate IsHostWallet(c: RoomConfig, h: Address) {
    c.hostWallet == Some(h)
  }

  /** The host's share is paid only when it is positive and a host wallet is set. */
  function HostPaid(c: RoomConfig, s: Split): int {
    if s.host > 0 && c.hostWallet.Some? then s.host else 0
  }

  /**
   * The whole payout of an ended room, in the contract's order: platform,
   * charity, host, then the winners. Any rejected transfer or overflow
   * aborts it.
   */
  function Payout(b: Balances, c: RoomConfig, contract: Address): (r: Result<Payment, QuizError>)
    ensures r.Err? ==> r.error == ArithmeticOverflow || r.error == TransferRejected
    ensures r.Ok? ==> FeeSplit(c.totalPool, c.charityBps, c.hostFeeBps).Ok?
    ensures r.Ok? ==> forall t, h ::
      (h != contract && h != PlatformWallet && h != CharityWallet && !IsHostWallet(c, h) && h !in c.winners) ==>
      BalanceOf(r.value.balances, t, h) == BalanceOf(b, t, h)
    ensures r.Ok? && c.prizeMode == PrizePoolSplit ==> forall t, h :: t != c.feeToken ==>
      BalanceOf(r.value.balances, t, h) == BalanceOf(b, t, h)
  {
    var s :- FeeSplit(c.totalPool, c.charityBps, c.hostFeeBps);
    var fees :- PayFees(b, c, contract, s);
    match c.prizeMode
    case PrizePoolSplit => PayShares(fees.balances, c, contract, s.prize, 0, fees.distributed)
    case AssetBased => PayAssets(fees.balances, c, contract, 0, fees.distributed)
  }

  /** The fee transfers that open a payout: platform, charity, then the host when paid. */
  function PayFees(b: Balances, c: RoomConfig, contract: Address, s: Split): (r: Result<Payment, QuizError>)
    ensures r.Err? ==> r.error == TransferRejected
    ensures r.Ok? ==> forall t, h ::
      (t != c.feeToken || (h != contract && h != PlatformWallet && h != CharityWallet && !IsHostWallet(c, h))) ==>
      BalanceOf(r.value.balances, t, h) == BalanceOf(b, t, h)
  {
    var b1 :- Pay(b, c.feeToken, contract, PlatformWallet, s.platform);
    var b2 :- Pay(b1, c.feeToken, contract, CharityWallet, s.charity);
    var b3 :- if HostPaid(c, s) > 0 then Pay(b2, c.feeToken, contract, c.hostWallet.value, s.host) else Ok(b2);
    Ok(Payment(b3, s.platform + s.charity + HostPaid(c, s)))
  }

  /**
   * The fee transfers pay the platform, charity and (when paid) host shares,
   * all out of the contract's fee-token balance when the contract is none of
   * those payees.
   */
  lemma PayFeesDebits(b: Balances, c: RoomConfig, contract: Address, s: Split)
    requires PayFees(b, c, contract, s).Ok?
    requires contract != PlatformWallet && contract != CharityWallet
    requires c.hostWallet.Some? ==> c.hostWallet.value != contract
    ensures var f := PayFees(b, c, contract, s).value;
      && f.distributed == s.platform + s.charity + HostPaid(c, s)
      && BalanceOf(f.balances, c.feeToken, contract) == BalanceOf(b, c.feeToken, contract) - f.distributed
    ensures var f := PayFees(b, c, contract, s).value;
      BalanceOf(f.balances, c.feeToken, PlatformWallet)
      == BalanceOf(b, c.feeToken, PlatformWallet) + s.platform + s.charity
         + (if IsHostWallet(c, PlatformWallet) then HostPaid(c, s) else 0)
    ensures var f := PayFees(b, c, contract, s).value;
      c.hostWallet.Some? && c.hostWallet.value != PlatformWallet ==>
        BalanceOf(f.balances, c.feeToken, c.hostWallet.value) == BalanceOf(b, c.feeToken, c.hostWallet.value) + HostPaid(c, s)
  {
    var b1 := Pay(b, c.feeToken, contract, PlatformWallet, s.platform).value;
    var b2 := Pay(b1, c.feeToken, contract, CharityWallet, s.charity).value;
    assert BalanceOf(b1, c.feeToken, contract) == BalanceOf(b, c.feeToken, contract) - s.platform;
    assert BalanceOf(b2, c.feeToken, contract) == BalanceOf(b1, c.feeToken, contract) - s.charity;
  }

  /** `distribute_prizes_internal`: the payout computed step by step, as the contract does. */
  method DistributePrizes(b: Balances, c: RoomConfig, contract: Address) returns (r: Result<Payment, QuizError>)
    ensures r == Payout(b, c, contract)
  {
    var split := FeeSplit(c.totalPool, c.charityBps, c.hostFeeBps);
    if split.Err? {
      return Err(split.error);
    }
    var s := split.value;
    var paid := Pay(b, c.feeToken, contract, PlatformWallet, s.platform);
    if paid.Err? {
      return Err(paid.error);
    }
    var balances := paid.value;
    var distributed := s.platform;
    paid := Pay(balances, c.feeToken, contract, CharityWallet, s.charity);
    if paid.Err? {
      return Err(paid.error);
    }
    balances, distributed := paid.value, distributed + s.charity;
    if s.host > 0 && c.hostWallet.Some? {
      paid := Pay(balances, c.feeToken, contract, c.hostWallet.value, s.host);
      if paid.Err? {
        return Err(paid.error);
      }
      balances, distributed := paid.value, distributed + s.host;
    }
    assert PayFees(b, c, contract, s) == Ok(Payment(balances, distributed));
    match c.prizeMode {
      case PrizePoolSplit =>
        r := PayPoolWinners(balances, c, contract, s.prize, distributed);
      case AssetBased =>
        r := PayAssetWinners(balances, c, contract, distributed);
    }
  }

  /** The winners' loop of a prize-pool room: each is paid its percentage of the prize. */
  method PayPoolWinners(b: Balances, c: RoomConfig, contract: Address, prize: i128, paidSoFar: int)
    returns (r: Result<Payment, QuizError>)
    ensures r == PayShares(b, c, contract, prize, 0, paidSoFar)
    ensures r.Ok? && DistinctWinners(c) && contract !in c.winners ==>
      forall k :: 0 <= k < PoolRounds(c) ==>
        BalanceOf(r.value.balances, c.feeToken, c.winners[k])
        == BalanceOf(b, c.feeToken, c.winners[k]) + Quot(prize * c.prizeDistribution[k], 100)
  {
    var balances, distributed := b, paidSoFar;
    var i := 0;
    while i < PoolRounds(c)
      invariant 0 <= i <= PoolRounds(c)
      invariant PayShares(b, c, contract, prize, 0, paidSoFar) == PayShares(balances, c, contract, prize, i, distributed)
    {
      var gross := MulI128(prize, c.prizeDistribution[i]);
      if gross.None? {
        return Err(ArithmeticOverflow);
      }
      var amount := Quot(gross.value, 100);
      var paid := Pay(balances, c.feeToken, contract, c.winners[i], amount);
      if paid.Err? {
        return Err(paid.error);
      }
      balances, distributed := paid.value, distributed + amount;
      i := i + 1;
    }
    r := Ok(Payment(balances, distributed));
    if DistinctWinners(c) && contract !in c.winners {
      PoolWinnersCredited(b, c, contract, prize, paidSoFar);
    }
  }

  /** The winners' loop of an asset room: each receives the escrowed asset of their place. */
  method PayAssetWinners(b: Balances, c: RoomConfig, contract: Address, paidSoFar: int)
    returns (r: Result<Payment, QuizError>)
    ensures r == PayAssets(b, c, contract, 0, paidSoFar)
    ensures r.Ok? && DistinctWinners(c) && contract !in c.winners ==>
      forall k :: 0 <= k < AssetRounds(c) && k < |c.prizeAssets| && c.prizeAssets[k].Some? ==>
        var asset := c.prizeAssets[k].value;
        BalanceOf(r.value.balances, asset.contractId, c.winners[k])
        == BalanceOf(b, asset.contractId, c.winners[k]) + asset.amount
  {
    var balances := b;
    var i := 0;
    while i < AssetRounds(c)
      invariant 0 <= i <= AssetRounds(c)
      invariant PayAssets(b, c, contract, 0, paidSoFar) == PayAssets(balances, c, contract, i, paidSoFar)
    {
      if i < |c.prizeAssets| && c.prizeAssets[i].Some? {
        var asset := c.prizeAssets[i].value;
        var paid := Pay(balances, asset.contractId, contract, c.winners[i], asset.amount);
        if paid.Err? {
          return Err(paid.error);
        }
        balances := paid.value;
      }
      i := i + 1;
    }
    r := Ok(Payment(balances, paidSoFar));
    if DistinctWinners(c) && contract !in c.winners {
      AssetWinnersCredited(b, c, contract, paidSoFar);
    }
  }

  // ---------------------------------------------------------------------
  // What a payout pays
  // ---------------------------------------------------------------------

  /** What winners `i..n` of a prize-pool room receive: each their percentage of `prize`, rounded toward zero. */
  function SharesFrom(prize: int, d: seq<u32>, i: nat, n: nat): int
    requires i <= n <= |d|
    decreases n - i
  {
    if i == n then 0 else Quot(prize * d[i], 100) + SharesFrom(prize, d, i + 1, n)
  }

  lemma {:induction false} SumRangeMonotone(d: seq<u32>, i: nat, n: nat, m: nat)
    requires i <= n <= m <= |d|
    ensures SumRange(d, i, n) <= SumRange(d, i, m)
    decreases n - i
  {
    if i < n {
      SumRangeMonotone(d, i + 1, n, m);
    }
  }

  /** Rounded-down percentage shares of a non-negative prize never add up to more than their exact total. */
  lemma {:induction false} SharesWithinPercentages(prize: int, d: seq<u32>, i: nat, n: nat)
    requires prize >= 0 && i <= n <= |d|
    ensures 0 <= SharesFrom(prize, d, i, n) * 100 <= prize * SumRange(d, i, n)
    decreases n - i
  {
    if i < n {
      SharesWithinPercentages(prize, d, i + 1, n);
      MulNonneg(prize, d[i]);
      Distribute2(prize, d[i], SumRange(d, i + 1, n));
    }
  }

  lemma Distribute2(a: int, x: int, y: int)
    ensures a * x + a * y == a * (x + y)
  {
  }

  /** Winners of a distribution summing to 100 share at most the whole prize. */
  lemma SharesWithinPrize(prize: int, d: seq<u32>, n: nat)
    requires prize >= 0 && n <= |d| && SumPct(d) == 100
    ensures 0 <= SharesFrom(prize, d, 0, n) <= prize
  {
    SharesWithinPercentages(prize, d, 0, n);
    SumRangeMonotone(d, 0, n, |d|);
    MulBetween(prize, SumRange(d, 0, n), 100);
  }

  lemma {:induction false} PaySharesTotal(b: Balances, c: RoomConfig, contract: Address, prize: i128, i: nat, acc: int)
    requires i <= PoolRounds(c)
    requires PayShares(b, c, contract, prize, i, acc).Ok?
    ensures PayShares(b, c, contract, prize, i, acc).value.distributed
         == acc + SharesFrom(prize, c.prizeDistribution, i, PoolRounds(c))
    decreases PoolRounds(c) - i
  {
    if i < PoolRounds(c) {
      var amount := WinnerShare(prize, c.prizeDistribution[i]).value;
      var b' := Pay(b, c.feeToken, contract, c.winners[i], amount).value;
      PaySharesTotal(b', c, contract, prize, i + 1, acc + amount);
    }
  }

  lemma {:induction false} PayAssetsTotal(b: Balances, c: RoomConfig, contract: Address, i: nat, acc: int)
    requires i <= AssetRounds(c)
    requires PayAssets(b, c, contract, i, acc).Ok?
    ensures PayAssets(b, c, contract, i, acc).value.distributed == acc
    decreases AssetRounds(c) - i
  {
    if i < AssetRounds(c) {
      if i < |c.prizeAssets| && c.prizeAssets[i].Some? {
        var asset := c.prizeAssets[i].value;
        PayAssetsTotal(Pay(b, asset.contractId, contract, c.winners[i], asset.amount).value, c, contract, i + 1, acc);
      } else {
        PayAssetsTotal(b, c, contract, i + 1, acc);
      }
    }
  }

  /**
   * What a successful payout pays in the fee token: the platform and
   * charity shares, the host share when paid, and (prize-pool rooms) each
   * paid winner's cut.
   */
  lemma PayoutDistributed(b: Balances, c: RoomConfig, contract: Address)
    requires Payout(b, c, contract).Ok?
    ensures var s := FeeSplit(c.totalPool, c.charityBps, c.hostFeeBps).value;
      Payout(b, c, contract).value.distributed
      == s.platform + s.charity + HostPaid(c, s)
         + (if c.prizeMode.PrizePoolSplit? then SharesFrom(s.prize, c.prizeDistribution, 0, PoolRounds(c)) else 0)
  {
    var s := FeeSplit(c.totalPool, c.charityBps, c.hostFeeBps).value;
    var fees := PayFees(b, c, contract, s).value;
    assert fees.distributed == s.platform + s.charity + HostPaid(c, s);
    match c.prizeMode
    case PrizePoolSplit =>
      PaySharesTotal(fees.balances, c, contract, s.prize, 0, fees.distributed);
    case AssetBased =>
      PayAssetsTotal(fees.balances, c, contract, 0, fees.distributed);
  }


  /**
   * For a non-negative pool and a distribution summing to 100, what a
   * payout distributes lies between 0 and the pool, so the running
   * `total_distributed` never overflows and whatever is not paid out stays
   * with the contract.
   */
  lemma PayoutWithinPool(b: Balances, c: RoomConfig, contract: Address)
    requires c.charityBps + c.hostFeeBps <= 8000
    requires c.totalPool >= 0
    requires c.prizeMode.PrizePoolSplit? ==> SumPct(c.prizeDistribution) == 100
    requires Payout(b, c, contract).Ok?
    ensures 0 <= Payout(b, c, contract).value.distributed <= c.totalPool
  {
    var s := FeeSplit(c.totalPool, c.charityBps, c.hostFeeBps).value;
    FeeSplitBounds(c.totalPool, c.charityBps, c.hostFeeBps);
    PayoutDistributed(b, c, contract);
    var shares := if c.prizeMode.PrizePoolSplit? then SharesFrom(s.prize, c.prizeDistribution, 0, PoolRounds(c)) else 0;
    if c.prizeMode.PrizePoolSplit? {
      SharesWithinPrize(s.prize, c.prizeDistribution, PoolRounds(c));
    }
    assert 0 <= shares <= s.prize;
    assert 0 <= HostPaid(c, s) <= s.host;
  }

  lemma {:induction false} PaySharesDebits(b: Balances, c: RoomConfig, contract: Address, prize: i128, i: nat, acc: int)
    requires i <= PoolRounds(c)
    requires PayShares(b, c, contract, prize, i, acc).Ok?
    requires forall k :: i <= k < PoolRounds(c) ==> c.winners[k] != contract
    ensures var p := PayShares(b, c, contract, prize, i, acc).value;
      BalanceOf(p.balances, c.feeToken, contract) == BalanceOf(b, c.feeToken, contract) - (p.distributed - acc)
    decreases PoolRounds(c) - i
  {
    if i < PoolRounds(c) {
      var amount := WinnerShare(prize, c.prizeDistribution[i]).value;
      var b' := Pay(b, c.feeToken, contract, c.winners[i], amount).value;
      assert PayShares(b, c, contract, prize, i, acc) == PayShares(b', c, contract, prize, i + 1, acc + amount);
      PaySharesDebits(b', c, contract, prize, i + 1, acc + amount);
    }
  }

  lemma {:induction false} PayAssetsSparesToken(b: Balances, c: RoomConfig, contract: Address, i: nat, acc: int, token: Address)
    requires i <= AssetRounds(c)
    requires PayAssets(b, c, contract, i, acc).Ok?
    requires forall k :: 0 <= k < |c.prizeAssets| && c.prizeAssets[k].Some? ==> c.prizeAssets[k].value.contractId != token
    ensures BalanceOf(PayAssets(b, c, contract, i, acc).value.balances, token, contract) == BalanceOf(b, token, contract)
    decreases AssetRounds(c) - i
  {
    if i < AssetRounds(c) {
      if i < |c.prizeAssets| && c.prizeAssets[i].Some? {
        var asset := c.prizeAssets[i].value;
        PayAssetsSparesToken(Pay(b, asset.contractId, contract, c.winners[i], asset.amount).value, c, contract, i + 1, acc, token);
      } else {
        PayAssetsSparesToken(b, c, contract, i + 1, acc, token);
      }
    }
  }

  /**
   * A successful payout takes from the contract's fee-token balance exactly
   * the total it reports as distributed, when the contract is not itself a
   * recipient and (asset rooms) no prize is in the fee token: the rest of the
   * pool is left in escrow.
   */
  lemma PayoutDebitsContract(b: Balances, c: RoomConfig, contract: Address)
    requires Payout(b, c, contract).Ok?
    requires contract != PlatformWallet && contract != CharityWallet
    requires c.hostWallet.Some? ==> c.hostWallet.value != contract
    requires contract !in c.winners
    requires forall k :: 0 <= k < |c.prizeAssets| && c.prizeAssets[k].Some? ==> c.prizeAssets[k].value.contractId != c.feeToken
    ensures var p := Payout(b, c, contract).value;
      BalanceOf(p.balances, c.feeToken, contract) == BalanceOf(b, c.feeToken, contract) - p.distributed
  {
    var s := FeeSplit(c.totalPool, c.charityBps, c.hostFeeBps).value;
    var fees := PayFees(b, c, contract, s).value;
    PayFeesDebits(b, c, contract, s);
    match c.prizeMode
    case PrizePoolSplit =>
      PaySharesDebits(fees.balances, c, contract, s.prize, 0, fees.distributed);
    case AssetBased =>
      PayAssetsSparesToken(fees.balances, c, contract, 0, fees.distributed, c.feeToken);
      PayAssetsTotal(fees.balances, c, contract, 0, fees.distributed);
  }

  // ---------------------------------------------------------------------
  // What each payee receives
  // ---------------------------------------------------------------------

  /** No address is named as a winner for two places. */
  predicate DistinctWinners(c: RoomConfig) {
    forall j, k :: 0 <= j < |c.winners| && 0 <= k < |c.winners| && j != k ==> c.winners[j] != c.winners[k]
  }

  /** What `h` is owed in the fee token by the places `i..` of a prize-pool room: the shares of the places it holds. */
  function ShareGain(c: RoomConfig, prize: int, h: Address, i: nat): int
    requires i <= PoolRounds(c)
    decreases PoolRounds(c) - i
  {
    if i == PoolRounds(c) then 0
    else (if c.winners[i] == h then Quot(prize * c.prizeDistribution[i], 100) else 0) + ShareGain(c, prize, h, i + 1)
  }

  /** Each holder other than the contract gains, in the fee token, exactly the shares of the places it holds. */
  lemma {:induction false} PaySharesCredits(b: Balances, c: RoomConfig, contract: Address, prize: i128, i: nat, acc: int, h: Address)
    requires i <= PoolRounds(c)
    requires PayShares(b, c, contract, prize, i, acc).Ok?
    requires h != contract
    ensures BalanceOf(PayShares(b, c, contract, prize, i, acc).value.balances, c.feeToken, h)
            == BalanceOf(b, c.feeToken, h) + ShareGain(c, prize, h, i)
    decreases PoolRounds(c) - i
  {
    if i < PoolRounds(c) {
      var amount := WinnerShare(prize, c.prizeDistribution[i]).value;
      var b' := Pay(b, c.feeToken, contract, c.winners[i], amount).value;
      assert PayShares(b, c, contract, prize, i, acc) == PayShares(b', c, contract, prize, i + 1, acc + amount);
      PaySharesCredits(b', c, contract, prize, i + 1, acc + amount, h);
    }
  }

  lemma {:induction false} ShareGainAbsent(c: RoomConfig, prize: int, h: Address, i: nat)
    requires i <= PoolRounds(c)
    requires forall j :: i <= j < PoolRounds(c) ==> c.winners[j] != h
    ensures ShareGain(c, prize, h, i) == 0
    decreases PoolRounds(c) - i
  {
    if i < PoolRounds(c) {
      ShareGainAbsent(c, prize, h, i + 1);
    }
  }

  /** With distinct winners, the winner of place `k` is owed exactly that place's share. */
  lemma {:induction false} ShareGainOfPlace(c: RoomConfig, prize: int, i: nat, k: nat)
    requires i <= k < PoolRounds(c)
    requires DistinctWinners(c)
    ensures ShareGain(c, prize, c.winners[k], i) == Quot(prize * c.prizeDistribution[k], 100)
    decreases PoolRounds(c) - i
  {
    if i < k {
      ShareGainOfPlace(c, prize, i + 1, k);
    } else {
      ShareGainAbsent(c, prize, c.winners[k], k + 1);
    }
  }

  /** What `h` is owed in `token` by the places `i..` of an asset room: the prizes in that token of the places it holds. */
  function AssetGain(c: RoomConfig, token: Address, h: Address, i: nat): int
    requires i <= AssetRounds(c)
    decreases AssetRounds(c) - i
  {
    if i == AssetRounds(c) then 0
    else
      var owed := if i < |c.prizeAssets| && c.prizeAssets[i].Some? && c.prizeAssets[i].value.contractId == token && c.winners[i] == h
                  then c.prizeAssets[i].value.amount else 0;
      owed + AssetGain(c, token, h, i + 1)
  }

  /** Each holder other than the contract gains, in each token, exactly the prizes in it of the places it holds. */
  lemma {:induction false} PayAssetsCredits(b: Balances, c: RoomConfig, contract: Address, i: nat, acc: int, token: Address, h: Address)
    requires i <= AssetRounds(c)
    requires PayAssets(b, c, contract, i, acc).Ok?
    requires h != contract
    ensures BalanceOf(PayAssets(b, c, contract, i, acc).value.balances, token, h)
            == BalanceOf(b, token, h) + AssetGain(c, token, h, i)
    decreases AssetRounds(c) - i
  {
    if i < AssetRounds(c) {
      if i < |c.prizeAssets| && c.prizeAssets[i].Some? {
        var asset := c.prizeAssets[i].value;
        var b' := Pay(b, asset.contractId, contract, c.winners[i], asset.amount).value;
        PayAssetsCredits(b', c, contract, i + 1, acc, token, h);
      } else {
        PayAssetsCredits(b, c, contract, i + 1, acc, token, h);
      }
    }
  }

  lemma {:induction false} AssetGainAbsent(c: RoomConfig, token: Address, h: Address, i: nat)
    requires i <= AssetRounds(c)
    requires forall j :: i <= j < AssetRounds(c) ==> c.winners[j] != h
    ensures AssetGain(c, token, h, i) == 0
    decreases AssetRounds(c) - i
  {
    if i < AssetRounds(c) {
      AssetGainAbsent(c, token, h, i + 1);
    }
  }

  /** With distinct winners, the winner of place `k` is owed exactly that place's prize, in its token. */
  lemma {:induction false} AssetGainOfPlace(c: RoomConfig, i: nat, k: nat)
    requires i <= k < AssetRounds(c) && k < |c.prizeAssets| && c.prizeAssets[k].Some?
    requires DistinctWinners(c)
    ensures AssetGain(c, c.prizeAssets[k].value.contractId, c.winners[k], i) == c.prizeAssets[k].value.amount
    decreases AssetRounds(c) - i
  {
    if i < k {
      AssetGainOfPlace(c, i + 1, k);
    } else {
      AssetGainAbsent(c, c.prizeAssets[k].value.contractId, c.winners[k], k + 1);
    }
  }

  /** With distinct winners other than the contract, the winner of place k gains exactly place k's share. */
  lemma PoolWinnersCredited(b: Balances, c: RoomConfig, contract: Address, prize: i128, acc: int)
    requires PayShares(b, c, contract, prize, 0, acc).Ok?
    requires DistinctWinners(c) && contract !in c.winners
    ensures forall k :: 0 <= k < PoolRounds(c) ==>
      BalanceOf(PayShares(b, c, contract, prize, 0, acc).value.balances, c.feeToken, c.winners[k])
      == BalanceOf(b, c.feeToken, c.winners[k]) + Quot(prize * c.prizeDistribution[k], 100)
  {
    forall k | 0 <= k < PoolRounds(c)
      ensures BalanceOf(PayShares(b, c, contract, prize, 0, acc).value.balances, c.feeToken, c.winners[k])
              == BalanceOf(b, c.feeToken, c.winners[k]) + Quot(prize * c.prizeDistribution[k], 100)
    {
      PaySharesCredits(b, c, contract, prize, 0, acc, c.winners[k]);
      ShareGainOfPlace(c, prize, 0, k);
    }
  }

  /** With distinct winners other than the contract, the winner of a set slot k gains exactly that slot's asset. */
  lemma AssetWinnersCredited(b: Balances, c: RoomConfig, contract: Address, acc: int)
    requires PayAssets(b, c, contract, 0, acc).Ok?
    requires DistinctWinners(c) && contract !in c.winners
    ensures forall k :: 0 <= k < AssetRounds(c) && k < |c.prizeAssets| && c.prizeAssets[k].Some? ==>
      BalanceOf(PayAssets(b, c, contract, 0, acc).value.balances, c.prizeAssets[k].value.contractId, c.winners[k])
      == BalanceOf(b, c.prizeAssets[k].value.contractId, c.winners[k]) + c.prizeAssets[k].value.amount
  {
    forall k | 0 <= k < AssetRounds(c) && k < |c.prizeAssets| && c.prizeAssets[k].Some?
      ensures BalanceOf(PayAssets(b, c, contract, 0, acc).value.balances, c.prizeAssets[k].value.contractId, c.winners[k])
              == BalanceOf(b, c.prizeAssets[k].value.contractId, c.winners[k]) + c.prizeAssets[k].value.amount
    {
      PayAssetsCredits(b, c, contract, 0, acc, c.prizeAssets[k].value.contractId, c.winners[k]);
      AssetGainOfPlace(c, 0, k);
    }
  }
}
