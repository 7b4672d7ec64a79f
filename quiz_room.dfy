/**
 * One quiz room's configuration and the transitions the contract's entry
 * points apply to it (contracts/quiz/src/contract.rs), as functions from the
 * stored `RoomConfig` to the new one or to the error that aborts the call.
 * `RoomWellFormed` is the invariant every stored room keeps.
 */
module QuizRoom {
  import opened Numeric
  import opened Outcomes
  import opened QuizTypes
  import opened TokenLedger
  import opened QuizFinance

  const MAX_HOST_FEE_BPS: u32 := 500
  const MAX_PRIZE_POOL_BPS: u32 := 2500
  /** What is left of 10000 bps once the platform's 20% is taken. */
  const MAX_ALLOCATION_BPS: u32 := 8000
  const MIN_CHARITY_BPS: u32 := 5000
  const MAX_SCREEN_NAME_LEN: nat := 20

  // ---------------------------------------------------------------------
  // The invariant of a stored room
  // ---------------------------------------------------------------------

  /** An accepted prize split: one to three places, later places non-zero, summing to 100. */
  predicate DistributionWellFormed(d: seq<u32>) {
    && 1 <= |d| <= 3
    && SumPct(d) == 100
    && forall i :: 1 <= i < |d| ==> d[i] > 0
  }

  predicate FeesWellFormed(c: RoomConfig) {
    && c.hostFeeBps <= MAX_HOST_FEE_BPS
    && |c.prizeAssets| == 3
    && match c.prizeMode
       case PrizePoolSplit =>
         && c.prizePoolBps <= MAX_PRIZE_POOL_BPS
         && c.charityBps == MAX_ALLOCATION_BPS - c.hostFeeBps - c.prizePoolBps
         && DistributionWellFormed(c.prizeDistribution)
         && c.prizeAssets == [None, None, None]
       case AssetBased =>
         && c.prizePoolBps == 0
         && c.charityBps == MAX_ALLOCATION_BPS - c.hostFeeBps
         && c.prizeDistribution == []
         && c.prizeAssets[0].Some?
  }

  predicate ScreenNameValid(name: Bytes) {
    1 <= |name| <= MAX_SCREEN_NAME_LEN
  }

  /** A player's entry as `join_room` records it: the room's fee plus extras, a payment the token accepted. */
  predicate EntryWellFormed(p: PlayerEntry, entryFee: int) {
    && ScreenNameValid(p.screenName)
    && p.entryPaid == entryFee
    && p.totalPaid == p.entryPaid + p.extrasPaid
    && p.totalPaid >= 0
  }

  predicate NameTaken(ps: seq<PlayerEntry>, name: Bytes) {
    exists i :: 0 <= i < |ps| && ps[i].screenName == name
  }

  /** The two player lists agree entry by entry; addresses and screen names are each pairwise distinct. */
  predicate RegistryWellFormed(c: RoomConfig) {
    && |c.players| == |c.playerAddresses|
    && (forall i :: 0 <= i < |c.players| ==> c.players[i].player == c.playerAddresses[i])
    && (forall i, j :: 0 <= i < j < |c.playerAddresses| ==> c.playerAddresses[i] != c.playerAddresses[j])
    && (forall i, j :: 0 <= i < j < |c.players| ==> c.players[i].screenName != c.players[j].screenName)
    && (forall i :: 0 <= i < |c.players| ==> EntryWellFormed(c.players[i], c.entryFee))
  }

  datatype Column = EntryColumn | ExtrasColumn | TotalColumn

  function Amount(p: PlayerEntry, col: Column): int {
    match col
    case EntryColumn => p.entryPaid
    case ExtrasColumn => p.extrasPaid
    case TotalColumn => p.totalPaid
  }

  /** The sum of one payment column over the registered players. */
  function Sum(ps: seq<PlayerEntry>, col: Column): int {
    if ps == [] then 0 else Sum(ps[..|ps| - 1], col) + Amount(ps[|ps| - 1], col)
  }

  /** The running totals are the sums of what the registered players paid. */
  predicate TotalsWellFormed(c: RoomConfig) {
    && c.totalPool == Sum(c.players, TotalColumn)
    && c.totalEntryFees == Sum(c.players, EntryColumn)
    && c.totalExtrasFees == Sum(c.players, ExtrasColumn)
    && c.totalPool == c.totalEntryFees + c.totalExtrasFees
    && c.totalPaidOut == 0
  }

  /** The three flags are set in order, players join only between the first two, winners only at the end. */
  predicate LifecycleWellFormed(c: RoomConfig) {
    && (c.gameStarted ==> c.started)
    && (c.ended ==> c.gameStarted)
    && (!c.started ==> c.players == [])
    && (c.gameStarted ==> |c.players| >= 1)
    && (!c.ended ==> c.winners == [])
  }

  predicate RoomWellFormed(c: RoomConfig) {
    && |c.roomId| == 32
    && FeesWellFormed(c)
    && RegistryWellFormed(c)
    && TotalsWellFormed(c)
    && LifecycleWellFormed(c)
    && c.hostWallet == Some(c.host)
  }

  /** A just-created room: nothing started, nobody joined, nothing collected, the host as host wallet. */
  predicate IsNewRoom(c: RoomConfig, key: RoomKey, host: Address, feeToken: Address, entryFee: i128, ledgerSeq: u32) {
    && c.roomId == key && c.host == host && c.feeToken == feeToken && c.entryFee == entryFee
    && c.creationLedger == ledgerSeq
    && !c.started && !c.gameStarted && !c.ended
    && c.players == [] && c.playerAddresses == []
    && c.totalPool == 0 && c.totalEntryFees == 0 && c.totalExtrasFees == 0 && c.totalPaidOut == 0
    && c.winners == []
    && c.hostWallet == Some(host)
  }

  /** A later configuration of the same room: fixed fields kept, lifecycle flags never cleared. */
  predicate Advances(c: RoomConfig, c': RoomConfig) {
    && c'.roomId == c.roomId && c'.host == c.host && c'.feeToken == c.feeToken
    && c'.entryFee == c.entryFee && c'.hostFeeBps == c.hostFeeBps
    && c'.prizePoolBps == c.prizePoolBps && c'.charityBps == c.charityBps
    && c'.prizeMode == c.prizeMode && c'.prizeDistribution == c.prizeDistribution
    && c'.creationLedger == c.creationLedger && c'.hostWallet == c.hostWallet
    && (c.started ==> c'.started)
    && (c.gameStarted ==> c'.gameStarted)
    && (c.ended ==> c'.ended)
  }

  // ---------------------------------------------------------------------
  // Creating a room
  // ---------------------------------------------------------------------

  /**
   * The fee checks of `init_pool_room`. The total-allocation and
   * charity-minimum checks can never fail once the host fee and prize-pool
   * caps have passed: charity always gets between 50% and 80%.
   */
  function PoolRoomFees(hostFeeBps: u32, prizePoolBps: u32): (r: Result<u32, QuizError>)
    ensures r.Ok? <==> hostFeeBps <= MAX_HOST_FEE_BPS && prizePoolBps <= MAX_PRIZE_POOL_BPS
    ensures r.Err? ==> r.error == (if hostFeeBps > MAX_HOST_FEE_BPS then InvalidHostFee else InvalidPrizePoolBps)
    ensures r.Ok? ==> r.value + hostFeeBps + prizePoolBps == MAX_ALLOCATION_BPS
    ensures r.Ok? ==> MIN_CHARITY_BPS <= r.value <= MAX_ALLOCATION_BPS
  {
    if hostFeeBps > MAX_HOST_FEE_BPS then Err(InvalidHostFee)
    else if prizePoolBps > MAX_PRIZE_POOL_BPS then Err(InvalidPrizePoolBps)
    else
      var totalAllocated: u32 := hostFeeBps + prizePoolBps;
      if totalAllocated > MAX_ALLOCATION_BPS then Err(InvalidTotalAllocation)
      else
        var charityBps: u32 := MAX_ALLOCATION_BPS - totalAllocated;
        if charityBps < MIN_CHARITY_BPS then Err(CharityBelowMinimum)
        else Ok(charityBps)
  }

  /** `[pct]` when a place is given with a non-zero percentage, `[]` otherwise. */
  function NonZeroPlace(pct: Option<u32>): seq<u32> {
    if pct.Some? && pct.value > 0 then [pct.value] else []
  }

  /** The percentage a place adds to the running total: its value when given and non-zero. */
  function PlaceValue(pct: Option<u32>): nat {
    if pct.Some? && pct.value > 0 then pct.value else 0
  }

  /**
   * The prize split of `init_pool_room`: first place always, second and
   * third only when given and non-zero, the `u32` running total checked
   * against 100 (an overflowing total traps).
   */
  function PrizeDistribution(first: u32, second: Option<u32>, third: Option<u32>): (r: Result<seq<u32>, QuizError>)
    ensures r.Ok? <==> SumPct([first] + NonZeroPlace(second) + NonZeroPlace(third)) == 100
    ensures r.Ok? ==> r.value == [first] + NonZeroPlace(second) + NonZeroPlace(third)
    ensures r.Ok? ==> DistributionWellFormed(r.value) && r.value[0] == first
    ensures r.Err? ==> r.error == InvalidPrizeSplit || r.error == ArithmeticOverflow
    ensures r.Err? && r.error == ArithmeticOverflow ==> SumPct([first] + NonZeroPlace(second) + NonZeroPlace(third)) >= U32_LIMIT
  {
    SumOfPlaces(first, second, third);
    var withSecond :- if second.Some? && second.value > 0 then OrOverflow(AddU32(first, second.value)) else Ok(first);
    var total :- if third.Some? && third.value > 0 then OrOverflow(AddU32(withSecond, third.value)) else Ok(withSecond);
    var distribution := [first] + NonZeroPlace(second) + NonZeroPlace(third);
    if total != 100 then Err(InvalidPrizeSplit) else Ok(distribution)
  }

  lemma SumOfPlaces(first: u32, second: Option<u32>, third: Option<u32>)
    ensures var d := [first] + NonZeroPlace(second) + NonZeroPlace(third);
      && SumPct(d) == first + PlaceValue(second) + PlaceValue(third)
      && 1 <= |d| <= 3 && d[0] == first
      && forall i :: 1 <= i < |d| ==> d[i] > 0
  {
    var d := [first] + NonZeroPlace(second) + NonZeroPlace(third);
    assert SumRange(d, |d|, |d|) == 0;
    if |d| == 3 {
      assert SumRange(d, 2, 3) == d[2];
    } else if |d| == 2 {
      assert SumRange(d, 1, 2) == d[1];
    }
  }

  /** `init_pool_room` once the room key is known to be free. */
  function PoolRoom(key: RoomKey, host: Address, feeToken: Address, entryFee: i128, hostFeeBps: Option<u32>,
                    prizePoolBps: u32, first: u32, second: Option<u32>, third: Option<u32>, ledgerSeq: u32)
    : (r: Result<RoomConfig, QuizError>)
    requires |key| == 32
    ensures r.Ok? <==>
      && hostFeeBps.GetOr(0) <= MAX_HOST_FEE_BPS && prizePoolBps <= MAX_PRIZE_POOL_BPS
      && SumPct([first] + NonZeroPlace(second) + NonZeroPlace(third)) == 100
    ensures r.Err? && hostFeeBps.GetOr(0) > MAX_HOST_FEE_BPS ==> r.error == InvalidHostFee
    ensures r.Err? && hostFeeBps.GetOr(0) <= MAX_HOST_FEE_BPS && prizePoolBps > MAX_PRIZE_POOL_BPS ==> r.error == InvalidPrizePoolBps
    ensures r.Err? ==> r.error in {InvalidHostFee, InvalidPrizePoolBps, InvalidPrizeSplit, ArithmeticOverflow}
    ensures r.Ok? ==>
      && IsNewRoom(r.value, key, host, feeToken, entryFee, ledgerSeq)
      && RoomWellFormed(r.value)
      && r.value.prizeMode == PrizePoolSplit
      && r.value.hostFeeBps == hostFeeBps.GetOr(0) && r.value.prizePoolBps == prizePoolBps
      && MIN_CHARITY_BPS <= r.value.charityBps <= MAX_ALLOCATION_BPS
      && r.value.prizeDistribution[0] == first
  {
    var hostFee := hostFeeBps.GetOr(0);
    var charityBps :- PoolRoomFees(hostFee, prizePoolBps);
    var distribution :- PrizeDistribution(first, second, third);
    Ok(RoomConfig(
      roomId := key, host := host, feeToken := feeToken, entryFee := entryFee,
      hostFeeBps := hostFee, prizePoolBps := prizePoolBps, charityBps := charityBps,
      prizeMode := PrizePoolSplit, prizeDistribution := distribution, prizeAssets := [None, None, None],
      started := false, gameStarted := false, ended := false, creationLedger := ledgerSeq,
      hostWallet := Some(host), players := [], playerAddresses := [],
      totalPool := 0, totalEntryFees := 0, totalExtrasFees := 0, totalPaidOut := 0, winners := []))
  }

  /** The second prize of an asset room: present only when both its token and its amount are given. */
  function SecondPrize(token: Option<Address>, amount: Option<i128>): Option<PrizeAsset> {
    if token.Some? && amount.Some? then Some(PrizeAsset(token.value, amount.value)) else None
  }

  /** `init_asset_room` once the room key is known to be free: charity gets 80% less the host fee. */
  function AssetRoom(key: RoomKey, host: Address, feeToken: Address, entryFee: i128, hostFeeBps: Option<u32>,
                     firstToken: Address, firstAmount: i128, secondToken: Option<Address>, secondAmount: Option<i128>,
                     ledgerSeq: u32)
    : (r: Result<RoomConfig, QuizError>)
    requires |key| == 32
    ensures r.Ok? <==> hostFeeBps.GetOr(0) <= MAX_HOST_FEE_BPS
    ensures r.Err? ==> r.error == InvalidHostFee
    ensures r.Ok? ==>
      && IsNewRoom(r.value, key, host, feeToken, entryFee, ledgerSeq)
      && RoomWellFormed(r.value)
      && r.value.prizeMode == AssetBased
      && r.value.hostFeeBps == hostFeeBps.GetOr(0)
      && r.value.charityBps + r.value.hostFeeBps == MAX_ALLOCATION_BPS
      && 7500 <= r.value.charityBps <= MAX_ALLOCATION_BPS
      && r.value.prizeAssets == [Some(PrizeAsset(firstToken, firstAmount)), SecondPrize(secondToken, secondAmount), None]
  {
    var hostFee := hostFeeBps.GetOr(0);
    if hostFee > MAX_HOST_FEE_BPS then Err(InvalidHostFee)
    else
      var charityBps := MAX_ALLOCATION_BPS - hostFee;
      if charityBps < MIN_CHARITY_BPS then Err(CharityBelowMinimum)
      else
        var assets := [Some(PrizeAsset(firstToken, firstAmount)), SecondPrize(secondToken, secondAmount), None];
        Ok(RoomConfig(
          roomId := key, host := host, feeToken := feeToken, entryFee := entryFee,
          hostFeeBps := hostFee, prizePoolBps := 0, charityBps := charityBps,
          prizeMode := AssetBased, prizeDistribution := [], prizeAssets := assets,
          started := false, gameStarted := false, ended := false, creationLedger := ledgerSeq,
          hostWallet := Some(host), players := [], playerAddresses := [],
          totalPool := 0, totalEntryFees := 0, totalExtrasFees := 0, totalPaidOut := 0, winners := []))
  }

  // ---------------------------------------------------------------------
  // Prize assets of an asset room
  // ---------------------------------------------------------------------

  /** `add_third_prize`: before the room starts, an asset room's third prize is set (or replaced). */
  function WithThirdPrize(c: RoomConfig, token: Address, amount: i128): (r: Result<RoomConfig, QuizError>)
    requires |c.prizeAssets| == 3
    ensures r.Ok? <==> !c.started && c.prizeMode == AssetBased
    ensures r.Err? ==> r.error == (if c.started then RoomAlreadyStarted else InvalidPrizeAssets)
    ensures r.Ok? ==>
      && |r.value.prizeAssets| == 3
      && r.value.prizeAssets[..2] == c.prizeAssets[..2]
      && r.value.prizeAssets[2] == Some(PrizeAsset(token, amount))
      && r.value == c.(prizeAssets := r.value.prizeAssets)
    ensures r.Ok? ==> Advances(c, r.value)
    ensures r.Ok? && RoomWellFormed(c) ==> RoomWellFormed(r.value)
  {
    if c.started then Err(RoomAlreadyStarted)
    else if c.prizeMode != AssetBased then Err(InvalidPrizeAssets)
    else
      var assets := [c.prizeAssets[0], c.prizeAssets[1], Some(PrizeAsset(token, amount))];
      assert assets[..2] == c.prizeAssets[..2];
      Ok(c.(prizeAssets := assets))
  }

  /** Storage key of the running total a room has received in one token. */
  datatype DepositKey = DepositKey(room: RoomKey, token: Address)

  type Deposits = map<DepositKey, i128>

  /** What a room has received in a token so far; nothing recorded means 0. */
  function Deposited(deposits: Deposits, room: RoomKey, token: Address): i128 {
    var k := DepositKey(room, token);
    if k in deposits then deposits[k] else 0
  }

  /** A sponsor's deposit: the tokens paid into the contract and the room's new running total in that token. */
  datatype Deposit = Deposit(balances: Balances, total: i128)

  /**
   * `deposit_prize_assets`: before an asset room starts, anyone may pay a
   * prize token into the contract; the room's running total in that token
   * grows by the amount.
   */
  function DepositedPrize(c: RoomConfig, b: Balances, deposits: Deposits, contract: Address,
                          depositor: Address, token: Address, amount: i128): (r: Result<Deposit, QuizError>)
    ensures r.Ok? <==>
      && !c.started && c.prizeMode == AssetBased
      && 0 <= amount <= BalanceOf(b, token, depositor)
      && InI128(Deposited(deposits, c.roomId, token) + amount)
    ensures r.Err? && c.started ==> r.error == RoomAlreadyStarted
    ensures r.Err? && !c.started && c.prizeMode != AssetBased ==> r.error == InvalidPrizeAssets
    ensures r.Ok? ==>
      && r.value.total == Deposited(deposits, c.roomId, token) + amount
      && r.value.balances == TokenTransfer(b, token, depositor, contract, amount).value
  {
    if c.started then Err(RoomAlreadyStarted)
    else if c.prizeMode != AssetBased then Err(InvalidPrizeAssets)
    else
      var b' :- Pay(b, token, depositor, contract, amount);
      var total :- OrOverflow(AddI128(Deposited(deposits, c.roomId, token), amount));
      Ok(Deposit(b', total))
  }

  // ---------------------------------------------------------------------
  // Starting a room and its quiz
  // ---------------------------------------------------------------------

  /**
   * The deposit check of `start_room` as the contract writes it: each
   * prize, on its own, is no larger than the room's running total in its
   * token. Two prizes in the same token are both measured against the same
   * total.
   */
  predicate EachPrizeCovered(c: RoomConfig, deposits: Deposits) {
    forall i :: 0 <= i < |c.prizeAssets| && c.prizeAssets[i].Some? ==>
      Deposited(deposits, c.roomId, c.prizeAssets[i].value.contractId) >= c.prizeAssets[i].value.amount
  }

  /** What the prizes `i..` in `token` add up to, counting only positive amounts. */
  function Required(assets: seq<Option<PrizeAsset>>, token: Address, i: nat): int
    requires i <= |assets|
    decreases |assets| - i
  {
    if i == |assets| then 0
    else
      var owed := if assets[i].Some? && assets[i].value.contractId == token && assets[i].value.amount > 0
                  then assets[i].value.amount else 0;
      owed + Required(assets, token, i + 1)
  }

  /** The deposit check `start_room` needs: every prize token's running total covers all the prizes in it. */
  predicate PrizesCovered(c: RoomConfig, deposits: Deposits) {
    forall i :: 0 <= i < |c.prizeAssets| && c.prizeAssets[i].Some? ==>
      Deposited(deposits, c.roomId, c.prizeAssets[i].value.contractId) >= Required(c.prizeAssets, c.prizeAssets[i].value.contractId, 0)
  }

  /** `start_room` as written: not started yet, and (asset rooms) each prize covered on its own. */
  function StartedRoomAsWritten(c: RoomConfig, deposits: Deposits): (r: Result<RoomConfig, QuizError>)
    ensures r.Ok? <==> !c.started && (c.prizeMode == AssetBased ==> EachPrizeCovered(c, deposits))
    ensures r.Ok? ==> r.value == c.(started := true)
  {
    if c.started then Err(RoomAlreadyStarted)
    else if c.prizeMode == AssetBased && !EachPrizeCovered(c, deposits) then Err(InsufficientAssets)
    else Ok(c.(started := true))
  }

  /**
   * `start_room` with the deposit check it needs: an asset room opens for
   * players only once every prize token's running total covers all the
   * prizes in that token.
   */
  function StartedRoom(c: RoomConfig, deposits: Deposits): (r: Result<RoomConfig, QuizError>)
    ensures r.Ok? <==> !c.started && (c.prizeMode == AssetBased ==> PrizesCovered(c, deposits))
    ensures r.Err? ==> r.error == (if c.started then RoomAlreadyStarted else InsufficientAssets)
    ensures r.Ok? ==> r.value == c.(started := true) && Advances(c, r.value)
    ensures r.Ok? && RoomWellFormed(c) ==> RoomWellFormed(r.value)
  {
    if c.started then Err(RoomAlreadyStarted)
    else if c.prizeMode == AssetBased && !PrizesCovered(c, deposits) then Err(InsufficientAssets)
    else Ok(c.(started := true))
  }

  /** `start_quiz`: a started, not yet running room with at least one player closes registration. */
  function QuizStartedRoom(c: RoomConfig): (r: Result<RoomConfig, QuizError>)
    ensures r.Ok? <==> c.started && !c.gameStarted && !c.ended && |c.players| > 0
    ensures r.Err? ==>
              r.error == (if !c.started then RoomNotStarted
                          else if c.gameStarted then GameAlreadyStarted
                          else if c.ended then RoomAlreadyEnded
                          else InsufficientPlayers)
    ensures r.Ok? ==> r.value == c.(gameStarted := true) && Advances(c, r.value)
    ensures r.Ok? && RoomWellFormed(c) ==> RoomWellFormed(r.value)
  {
    if !c.started then Err(RoomNotStarted)
    else if c.gameStarted then Err(GameAlreadyStarted)
    else if c.ended then Err(RoomAlreadyEnded)
    else if |c.players| == 0 then Err(InsufficientPlayers)
    else Ok(c.(gameStarted := true))
  }

  // ---------------------------------------------------------------------
  // Joining
  // ---------------------------------------------------------------------

  /** A room's new configuration together with the token balances after the call's transfers. */
  datatype Committed = Committed(room: RoomConfig, balances: Balances)

  /** The checks `join_room` makes before taking any payment, in its order. */
  function JoinCheck(c: RoomConfig, player: Address, name: Bytes): (r: Result<(), QuizError>)
    ensures r.Ok? <==>
      && c.started && !c.gameStarted && !c.ended
      && ScreenNameValid(name) && player !in c.playerAddresses && !NameTaken(c.players, name)
    ensures r.Err? ==>
              r.error == (if !c.started then RoomNotStarted
                          else if c.gameStarted then GameAlreadyStarted
                          else if c.ended then RoomAlreadyEnded
                          else if !ScreenNameValid(name) then InvalidScreenName
                          else if player in c.playerAddresses then PlayerAlreadyJoined
                          else ScreenNameTaken)
  {
    if !c.started then Err(RoomNotStarted)
    else if c.gameStarted then Err(GameAlreadyStarted)
    else if c.ended then Err(RoomAlreadyEnded)
    else if !ScreenNameValid(name) then Err(InvalidScreenName)
    else if player in c.playerAddresses then Err(PlayerAlreadyJoined)
    else if NameTaken(c.players, name) then Err(ScreenNameTaken)
    else Ok(())
  }

  /**
   * `join_room`: after the checks, the player pays the entry fee plus
   * extras into the contract and is appended to both player lists; the
   * three running totals grow by what was paid.
   */
  function JoinedRoom(c: RoomConfig, b: Balances, contract: Address, player: Address, name: Bytes,
                      extras: i128, ledgerSeq: u32): (r: Result<Committed, QuizError>)
    ensures r.Ok? <==>
      && JoinCheck(c, player, name).Ok?
      && InI128(c.entryFee + extras)
      && 0 <= c.entryFee + extras <= BalanceOf(b, c.feeToken, player)
      && InI128(c.totalPool + c.entryFee + extras)
      && InI128(c.totalEntryFees + c.entryFee)
      && InI128(c.totalExtrasFees + extras)
    ensures r.Err? && JoinCheck(c, player, name).Err? ==> r.error == JoinCheck(c, player, name).error
    ensures r.Ok? ==> var paid := c.entryFee + extras;
      && r.value.room == c.(players := c.players + [PlayerEntry(player, name, c.entryFee, extras, paid, ledgerSeq)],
                            playerAddresses := c.playerAddresses + [player],
                            totalPool := c.totalPool + paid,
                            totalEntryFees := c.totalEntryFees + c.entryFee,
                            totalExtrasFees := c.totalExtrasFees + extras)
      && r.value.balances == TokenTransfer(b, c.feeToken, player, contract, paid).value
  {
    var _ :- JoinCheck(c, player, name);
    var payment :- OrOverflow(AddI128(c.entryFee, extras));
    var b' :- Pay(b, c.feeToken, player, contract, payment);
    var pool :- OrOverflow(AddI128(c.totalPool, payment));
    var entries :- OrOverflow(AddI128(c.totalEntryFees, c.entryFee));
    var extrasTotal :- OrOverflow(AddI128(c.totalExtrasFees, extras));
    var entry := PlayerEntry(player, name, c.entryFee, extras, payment, ledgerSeq);
    Ok(Committed(
      c.(players := c.players + [entry], playerAddresses := c.playerAddresses + [player],
         totalPool := pool, totalEntryFees := entries, totalExtrasFees := extrasTotal),
      b'))
  }

  // ---------------------------------------------------------------------
  // Ending
  // ---------------------------------------------------------------------

  /** The checks `end_room` and `end_room_by_screen_names` make: the quiz is running and not over. */
  function EndCheck(c: RoomConfig): (r: Result<(), QuizError>)
    ensures r.Ok? <==> c.started && c.gameStarted && !c.ended
    ensures r.Err? ==> r.error == if c.started && c.gameStarted then RoomAlreadyEnded else RoomNotStarted
  {
    if !c.started then Err(RoomNotStarted)
    else if !c.gameStarted then Err(RoomNotStarted)
    else if c.ended then Err(RoomAlreadyEnded)
    else Ok(())
  }

  /**
   * Ending a room with the given winners: it is marked ended with those
   * winners and paid out; a payout that fails undoes the whole call.
   */
  function EndedRoom(c: RoomConfig, b: Balances, contract: Address, winners: seq<Address>): (r: Result<Committed, QuizError>)
    ensures r.Ok? <==> EndCheck(c).Ok? && Payout(b, c.(winners := winners, ended := true), contract).Ok?
    ensures r.Ok? ==>
      && r.value.room == c.(winners := winners, ended := true)
      && r.value.balances == Payout(b, r.value.room, contract).value.balances
      && Advances(c, r.value.room)
  {
    var _ :- EndCheck(c);
    var ended := c.(winners := winners, ended := true);
    var payment :- Payout(b, ended, contract);
    Ok(Committed(ended, payment.balances))
  }

  function Placed(a: Option<Address>): seq<Address> {
    if a.Some? then [a.value] else []
  }

  /** `end_room`'s winners: the given places in order, absent ones skipped. */
  function PlacedWinners(first: Option<Address>, second: Option<Address>, third: Option<Address>): (w: seq<Address>)
    ensures |w| == |Placed(first)| + |Placed(second)| + |Placed(third)| <= 3
    ensures forall a :: a in w <==> Some(a) in [first, second, third]
    ensures first.Some? ==> w[0] == first.value
    ensures second.Some? ==> w[|Placed(first)|] == second.value
    ensures third.Some? ==> w[|w| - 1] == third.value
  {
    Placed(first) + Placed(second) + Placed(third)
  }

  /** `get_player_by_screen_name`: the address of the first registered player with that screen name. */
  function PlayerByScreenName(ps: seq<PlayerEntry>, name: Bytes): (r: Option<Address>)
    ensures r.Some? <==> NameTaken(ps, name)
    ensures r.Some? ==> exists i :: 0 <= i < |ps| && ps[i].screenName == name && ps[i].player == r.value
  {
    if ps == [] then None
    else if ps[0].screenName == name then Some(ps[0].player)
    else
      var rest := PlayerByScreenName(ps[1..], name);
      assert NameTaken(ps, name) ==> NameTaken(ps[1..], name) by {
        if NameTaken(ps, name) {
          var i :| 0 <= i < |ps| && ps[i].screenName == name;
          assert ps[1..][i - 1].screenName == name;
        }
      }
      assert rest.Some? ==> exists i :: 0 <= i < |ps| && ps[i].screenName == name && ps[i].player == rest.value by {
        if rest.Some? {
          var i :| 0 <= i < |ps[1..]| && ps[1..][i].screenName == name && ps[1..][i].player == rest.value;
          assert ps[i + 1] == ps[1..][i];
        }
      }
      rest
  }

  /** 1 when a place is given by a screen name some player holds, 0 otherwise. */
  function Held(ps: seq<PlayerEntry>, name: Option<Bytes>): nat {
    if name.Some? && NameTaken(ps, name.value) then 1 else 0
  }

  function Resolved(ps: seq<PlayerEntry>, name: Option<Bytes>): (r: seq<Address>)
    ensures |r| == Held(ps, name)
    ensures |r| == 1 ==> r[0] == PlayerByScreenName(ps, name.value).value
  {
    if name.Some? then Placed(PlayerByScreenName(ps, name.value)) else []
  }

  /**
   * `end_room_by_screen_names`' winners: each given screen name that a
   * player holds contributes that player, in place order; a name nobody
   * holds is dropped.
   */
  function ResolveWinners(ps: seq<PlayerEntry>, first: Option<Bytes>, second: Option<Bytes>, third: Option<Bytes>): (w: seq<Address>)
    ensures |w| == Held(ps, first) + Held(ps, second) + Held(ps, third) <= 3
    ensures forall a :: a in w <==>
      exists n :: Some(n) in [first, second, third] && PlayerByScreenName(ps, n) == Some(a)
    ensures Held(ps, first) == 1 ==> w[0] == PlayerByScreenName(ps, first.value).value
    ensures Held(ps, second) == 1 ==> w[Held(ps, first)] == PlayerByScreenName(ps, second.value).value
    ensures Held(ps, third) == 1 ==> w[|w| - 1] == PlayerByScreenName(ps, third.value).value
  {
    ResolvedMembers(ps, first, second, third);
    ResolvedPlaces(ps, first, second, third);
    Resolved(ps, first) + Resolved(ps, second) + Resolved(ps, third)
  }

  lemma ResolvedPlaces(ps: seq<PlayerEntry>, first: Option<Bytes>, second: Option<Bytes>, third: Option<Bytes>)
    ensures var w := Resolved(ps, first) + Resolved(ps, second) + Resolved(ps, third);
      && |w| == Held(ps, first) + Held(ps, second) + Held(ps, third)
      && (Held(ps, first) == 1 ==> w[0] == PlayerByScreenName(ps, first.value).value)
      && (Held(ps, second) == 1 ==> w[Held(ps, first)] == PlayerByScreenName(ps, second.value).value)
      && (Held(ps, third) == 1 ==> w[|w| - 1] == PlayerByScreenName(ps, third.value).value)
  {
  }

  lemma ResolvedMembers(ps: seq<PlayerEntry>, first: Option<Bytes>, second: Option<Bytes>, third: Option<Bytes>)
    ensures forall a :: a in Resolved(ps, first) + Resolved(ps, second) + Resolved(ps, third) <==>
      exists n :: Some(n) in [first, second, third] && PlayerByScreenName(ps, n) == Some(a)
  {
    var r1, r2, r3 := Resolved(ps, first), Resolved(ps, second), Resolved(ps, third);
    assert forall a :: a in r1 + r2 + r3 <==> a in r1 || a in r2 || a in r3;
    assert forall n :: Some(n) in [first, second, third] <==> Some(n) == first || Some(n) == second || Some(n) == third;
  }
}
