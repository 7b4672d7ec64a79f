/**
 * The quiz contract's storage and entry points
 * (contracts/quiz/src/contract.rs): room configurations, sponsor deposits
 * and sponsor lists keyed by the 32-byte room key, plus the token balances
 * the contract's transfers move. Each entry point either commits all its
 * writes and transfers or fails with an error and changes nothing.
 */
module QuizContract {
  import opened Numeric
  import opened Outcomes
  import opened QuizTypes
  import opened TokenLedger
  import opened QuizFinance
  import opened QuizRoom
  import opened QuizInvariants

  /** The `()`-or-error an entry point returns for an outcome. */
  function Done<T>(out: Result<T, QuizError>): (r: Result<(), QuizError>)
    ensures r.Ok? <==> out.Ok?
    ensures r.Err? ==> r.error == out.error
  {
    if out.Ok? then Ok(()) else Err(out.error)
  }

  /** One row of `get_asset_deposit_status`: a prize's token, its amount, and what the room holds in that token. */
  datatype DepositLine = DepositLine(token: Address, required: i128, deposited: i128)

  /** The rows for the first `n` prize slots, one per prize that is set. */
  function StatusLines(c: RoomConfig, deposits: Deposits, n: nat): seq<DepositLine>
    requires n <= |c.prizeAssets|
  {
    if n == 0 then []
    else
      var slot := c.prizeAssets[n - 1];
      StatusLines(c, deposits, n - 1)
      + (if slot.Some? then [DepositLine(slot.value.contractId, slot.value.amount, Deposited(deposits, c.roomId, slot.value.contractId))] else [])
  }

  /**
   * Every row of the status report shows the deposit covering the prize
   * exactly when `start_room` (as written) finds each prize covered.
   */
  lemma {:induction false} StatusShowsEachPrizeCovered(c: RoomConfig, deposits: Deposits, n: nat)
    requires n <= |c.prizeAssets|
    ensures (forall l :: l in StatusLines(c, deposits, n) ==> l.deposited >= l.required)
        <==> (forall k :: 0 <= k < n && c.prizeAssets[k].Some? ==>
                Deposited(deposits, c.roomId, c.prizeAssets[k].value.contractId) >= c.prizeAssets[k].value.amount)
  {
    if n > 0 {
      StatusShowsEachPrizeCovered(c, deposits, n - 1);
    }
  }

  /** How many of the first `n` prize slots hold a prize. */
  function SetSlots(assets: seq<Option<PrizeAsset>>, n: nat): nat
    requires n <= |assets|
  {
    if n == 0 then 0 else SetSlots(assets, n - 1) + (if assets[n - 1].Some? then 1 else 0)
  }

  /**
   * The prizes the status report lists are exactly the slots that hold a
   * prize: one line per set slot, each with the room's total in its token.
   */
  lemma {:induction false} StatusListsPrizes(c: RoomConfig, deposits: Deposits, n: nat)
    requires n <= |c.prizeAssets|
    ensures |StatusLines(c, deposits, n)| == SetSlots(c.prizeAssets, n)
    ensures forall l :: l in StatusLines(c, deposits, n) ==>
      exists k :: 0 <= k < n && c.prizeAssets[k] == Some(PrizeAsset(l.token, l.required))
                  && l.deposited == Deposited(deposits, c.roomId, l.token)
    ensures forall k :: 0 <= k < n && c.prizeAssets[k].Some? ==>
      var asset := c.prizeAssets[k].value;
      DepositLine(asset.contractId, asset.amount, Deposited(deposits, c.roomId, asset.contractId)) in StatusLines(c, deposits, n)
  {
    if n > 0 {
      StatusListsPrizes(c, deposits, n - 1);
    }
  }

  /** The sum `start_room` needs a token's deposits to cover, computed slot by slot from the last. */
  method RequiredFor(assets: seq<Option<PrizeAsset>>, token: Address) returns (total: int)
    ensures total == Required(assets, token, 0)
  {
    total := 0;
    var j := |assets|;
    while j > 0
      invariant 0 <= j <= |assets|
      invariant total == Required(assets, token, j)
    {
      j := j - 1;
      if assets[j].Some? && assets[j].value.contractId == token && assets[j].value.amount > 0 {
        total := total + assets[j].value.amount;
      }
    }
  }

  /** The checks of `join_room`, with its two linear searches for a duplicate player and a duplicate screen name. */
  method JoinChecks(c: RoomConfig, player: Address, name: Bytes) returns (r: Result<(), QuizError>)
    ensures r == JoinCheck(c, player, name)
  {
    if !c.started {
      return Err(RoomNotStarted);
    }
    if c.gameStarted {
      return Err(GameAlreadyStarted);
    }
    if c.ended {
      return Err(RoomAlreadyEnded);
    }
    if |name| == 0 || |name| > MAX_SCREEN_NAME_LEN {
      return Err(InvalidScreenName);
    }
    var i := 0;
    while i < |c.playerAddresses|
      invariant 0 <= i <= |c.playerAddresses|
      invariant forall j :: 0 <= j < i ==> c.playerAddresses[j] != player
    {
      if c.playerAddresses[i] == player {
        return Err(PlayerAlreadyJoined);
      }
      i := i + 1;
    }
    i := 0;
    while i < |c.players|
      invariant 0 <= i <= |c.players|
      invariant forall j :: 0 <= j < i ==> c.players[j].screenName != name
    {
      if c.players[i].screenName == name {
        return Err(ScreenNameTaken);
      }
      i := i + 1;
    }
    r := Ok(());
  }

  /**
   * `join_room` on a room already loaded: its checks, the payment into the
   * contract, then the entry appended and the totals grown with checked
   * additions.
   */
  method Admit(c: RoomConfig, b: Balances, contract: Address, player: Address, name: Bytes, extras: i128, ledgerSeq: u32)
    returns (out: Result<Committed, QuizError>)
    ensures out == JoinedRoom(c, b, contract, player, name, extras, ledgerSeq)
  {
    var checked := JoinChecks(c, player, name);
    if checked.Err? {
      return Err(checked.error);
    }
    var payment := AddI128(c.entryFee, extras);
    if payment.None? {
      return Err(ArithmeticOverflow);
    }
    var paid := Pay(b, c.feeToken, player, contract, payment.value);
    if paid.Err? {
      return Err(paid.error);
    }
    var pool := AddI128(c.totalPool, payment.value);
    if pool.None? {
      return Err(ArithmeticOverflow);
    }
    var entries := AddI128(c.totalEntryFees, c.entryFee);
    if entries.None? {
      return Err(ArithmeticOverflow);
    }
    var extrasTotal := AddI128(c.totalExtrasFees, extras);
    if extrasTotal.None? {
      return Err(ArithmeticOverflow);
    }
    var entry := PlayerEntry(player, name, c.entryFee, extras, payment.value, ledgerSeq);
    var room := c.(players := c.players + [entry], playerAddresses := c.playerAddresses + [player],
                   totalPool := pool.value, totalEntryFees := entries.value, totalExtrasFees := extrasTotal.value);
    out := Ok(Committed(room, paid.value));
  }

  /** Ending a loaded room: the end checks, the room marked ended with its winners, then the payout. */
  method Close(c: RoomConfig, b: Balances, contract: Address, winners: seq<Address>) returns (out: Result<Committed, QuizError>)
    ensures out == EndedRoom(c, b, contract, winners)
  {
    if !c.started {
      return Err(RoomNotStarted);
    }
    if !c.gameStarted {
      return Err(RoomNotStarted);
    }
    if c.ended {
      return Err(RoomAlreadyEnded);
    }
    var ended := c.(winners := winners, ended := true);
    var payout := DistributePrizes(b, ended, contract);
    if payout.Err? {
      return Err(payout.error);
    }
    out := Ok(Committed(ended, payout.value.balances));
  }

  /** `end_room`'s winners list, built by pushing each given place in order. */
  method PlaceWinners(first: Option<Address>, second: Option<Address>, third: Option<Address>) returns (winners: seq<Address>)
    ensures winners == PlacedWinners(first, second, third)
  {
    winners := [];
    if first.Some? {
      winners := winners + [first.value];
    }
    if second.Some? {
      winners := winners + [second.value];
    }
    if third.Some? {
      winners := winners + [third.value];
    }
  }

  /** `end_room_by_screen_names`' lookups: each given name, in place order, resolved to its holder if any. */
  method ResolveNames(ps: seq<PlayerEntry>, first: Option<Bytes>, second: Option<Bytes>, third: Option<Bytes>)
    returns (winners: seq<Address>)
    ensures winners == ResolveWinners(ps, first, second, third)
  {
    winners := [];
    if first.Some? {
      var found := FindPlayer(ps, first.value);
      if found.Some? {
        winners := winners + [found.value];
      }
    }
    assert winners == Resolved(ps, first);
    if second.Some? {
      var found := FindPlayer(ps, second.value);
      if found.Some? {
        winners := winners + [found.value];
      }
    }
    assert winners == Resolved(ps, first) + Resolved(ps, second);
    if third.Some? {
      var found := FindPlayer(ps, third.value);
      if found.Some? {
        winners := winners + [found.value];
      }
    }
    assert winners == Resolved(ps, first) + Resolved(ps, second) + Resolved(ps, third);
  }

  /** The deposit check of `start_room`, corrected: prize by prize, the deposits in its token against all prizes in that token. */
  method CheckDeposits(c: RoomConfig, deposits: Deposits) returns (covered: bool)
    ensures covered == PrizesCovered(c, deposits)
  {
    var i := 0;
    while i < |c.prizeAssets|
      invariant 0 <= i <= |c.prizeAssets|
      invariant forall k :: 0 <= k < i && c.prizeAssets[k].Some? ==>
        Deposited(deposits, c.roomId, c.prizeAssets[k].value.contractId) >= Required(c.prizeAssets, c.prizeAssets[k].value.contractId, 0)
    {
      if c.prizeAssets[i].Some? {
        var asset := c.prizeAssets[i].value;
        var required := RequiredFor(c.prizeAssets, asset.contractId);
        if Deposited(deposits, c.roomId, asset.contractId) < required {
          return false;
        }
      }
      i := i + 1;
    }
    covered := true;
  }

  /** `get_player_by_screen_name`'s search: the first player holding the name. */
  method FindPlayer(ps: seq<PlayerEntry>, name: Bytes) returns (r: Option<Address>)
    ensures r == PlayerByScreenName(ps, name)
  {
    var i := 0;
    assert ps[i..] == ps;
    while i < |ps|
      invariant 0 <= i <= |ps|
      invariant PlayerByScreenName(ps[i..], name) == PlayerByScreenName(ps, name)
    {
      if ps[i].screenName == name {
        return Some(ps[i].player);
      }
      assert ps[i..][1..] == ps[i + 1..];
      i := i + 1;
    }
    r := None;
  }

  /** Every stored room is filed under its own key and is well formed. */
  predicate RoomsValid(rooms: map<RoomKey, RoomConfig>) {
    forall k :: k in rooms ==> rooms[k].roomId == k && RoomWellFormed(rooms[k])
  }

  /** Running deposit totals belong to stored rooms and are never negative. */
  predicate DepositsValid(deposits: Deposits, rooms: map<RoomKey, RoomConfig>) {
    forall d :: d in deposits ==> d.room in rooms && deposits[d] >= 0
  }

  /** Storing a well-formed room under its own key keeps the store valid. */
  lemma StoreRoom(rooms: map<RoomKey, RoomConfig>, deposits: Deposits, key: RoomKey, c: RoomConfig)
    requires RoomsValid(rooms) && DepositsValid(deposits, rooms)
    requires c.roomId == key && RoomWellFormed(c)
    ensures RoomsValid(rooms[key := c]) && DepositsValid(deposits, rooms[key := c])
  {
  }

  class QuizRoomContract {
    /** The contract's own address, which receives entry fees and prize deposits. */
    const contract: Address
    var rooms: map<RoomKey, RoomConfig>
    var deposits: Deposits
    var sponsors: map<RoomKey, seq<Address>>
    /** Balances of every token the contract moves. */
    var balances: Balances

    /** Every stored room is filed under its own key and well formed; running deposit totals are never negative. */
    ghost predicate Valid()
      reads this
    {
      RoomsValid(rooms) && DepositsValid(deposits, rooms)
    }

    constructor(contract: Address, balances: Balances)
      ensures Valid()
      ensures this.contract == contract && this.balances == balances
      ensures rooms == map[] && deposits == map[] && sponsors == map[]
    {
      this.contract := contract;
      this.balances := balances;
      rooms := map[];
      deposits := map[];
      sponsors := map[];
    }

    /** `init_pool_room`: a new prize-pool room under a free key. */
    method InitPoolRoom(roomId: u32, host: Address, feeToken: Address, entryFee: i128, hostFeeBps: Option<u32>,
                        prizePoolBps: u32, first: u32, second: Option<u32>, third: Option<u32>, ledgerSeq: u32)
      returns (r: Result<(), QuizError>)
      requires Valid()
      modifies this`rooms
      ensures Valid()
      ensures U32ToBytes(roomId) in old(rooms) ==> r == Err(RoomAlreadyExists) && rooms == old(rooms)
      ensures U32ToBytes(roomId) !in old(rooms) ==>
        var out := PoolRoom(U32ToBytes(roomId), host, feeToken, entryFee, hostFeeBps, prizePoolBps, first, second, third, ledgerSeq);
        && r == Done(out)
        && rooms == if out.Ok? then old(rooms)[U32ToBytes(roomId) := out.value] else old(rooms)
    {
      var key := U32ToBytes(roomId);
      if key in rooms {
        return Err(RoomAlreadyExists);
      }
      var out := PoolRoom(key, host, feeToken, entryFee, hostFeeBps, prizePoolBps, first, second, third, ledgerSeq);
      if out.Err? {
        return Err(out.error);
      }
      StoreRoom(rooms, deposits, key, out.value);
      rooms := rooms[key := out.value];
      r := Ok(());
    }

    /** `init_asset_room`: a new asset room under a free key. */
    method InitAssetRoom(roomId: u32, host: Address, feeToken: Address, entryFee: i128, hostFeeBps: Option<u32>,
                         firstToken: Address, firstAmount: i128, secondToken: Option<Address>, secondAmount: Option<i128>,
                         ledgerSeq: u32)
      returns (r: Result<(), QuizError>)
      requires Valid()
      modifies this`rooms
      ensures Valid()
      ensures U32ToBytes(roomId) in old(rooms) ==> r == Err(RoomAlreadyExists) && rooms == old(rooms)
      ensures U32ToBytes(roomId) !in old(rooms) ==>
        var out := AssetRoom(U32ToBytes(roomId), host, feeToken, entryFee, hostFeeBps, firstToken, firstAmount,
                             secondToken, secondAmount, ledgerSeq);
        && r == Done(out)
        && rooms == if out.Ok? then old(rooms)[U32ToBytes(roomId) := out.value] else old(rooms)
    {
      var key := U32ToBytes(roomId);
      if key in rooms {
        return Err(RoomAlreadyExists);
      }
      var out := AssetRoom(key, host, feeToken, entryFee, hostFeeBps, firstToken, firstAmount, secondToken, secondAmount, ledgerSeq);
      if out.Err? {
        return Err(out.error);
      }
      StoreRoom(rooms, deposits, key, out.value);
      rooms := rooms[key := out.value];
      r := Ok(());
    }

    /** `add_third_prize`. The `host` argument is only the signer; it is not compared with the room's host. */
    method AddThirdPrize(roomId: u32, host: Address, token: Address, amount: i128) returns (r: Result<(), QuizError>)
      requires Valid()
      modifies this`rooms
      ensures Valid()
      ensures U32ToBytes(roomId) !in old(rooms) ==> r == Err(RoomNotFound) && rooms == old(rooms)
      ensures U32ToBytes(roomId) in old(rooms) ==>
        var out := WithThirdPrize(old(rooms)[U32ToBytes(roomId)], token, amount);
        && r == Done(out)
        && rooms == if out.Ok? then old(rooms)[U32ToBytes(roomId) := out.value] else old(rooms)
    {
      var key := U32ToBytes(roomId);
      if key !in rooms {
        return Err(RoomNotFound);
      }
      var out := WithThirdPrize(rooms[key], token, amount);
      if out.Err? {
        return Err(out.error);
      }
      StoreRoom(rooms, deposits, key, out.value);
      rooms := rooms[key := out.value];
      r := Ok(());
    }

    /** `deposit_prize_assets`: a sponsor pays a prize token in; the room's running total in it grows. */
    method DepositPrizeAssets(roomId: u32, depositor: Address, token: Address, amount: i128) returns (r: Result<(), QuizError>)
      requires Valid()
      modifies this`deposits, this`balances
      ensures Valid()
      ensures U32ToBytes(roomId) !in rooms ==> r == Err(RoomNotFound) && unchanged(this)
      ensures U32ToBytes(roomId) in rooms ==>
        var out := DepositedPrize(rooms[U32ToBytes(roomId)], old(balances), old(deposits), contract, depositor, token, amount);
        && r == Done(out)
        && deposits == (if out.Ok? then old(deposits)[DepositKey(U32ToBytes(roomId), token) := out.value.total] else old(deposits))
        && balances == (if out.Ok? then out.value.balances else old(balances))
    {
      var key := U32ToBytes(roomId);
      if key !in rooms {
        return Err(RoomNotFound);
      }
      var out := DepositedPrize(rooms[key], balances, deposits, contract, depositor, token, amount);
      if out.Err? {
        return Err(out.error);
      }
      deposits := deposits[DepositKey(key, token) := out.value.total];
      balances := out.value.balances;
      r := Ok(());
    }

    /**
     * `start_room`, with the deposit check corrected: every prize token's
     * running total must cover all the prizes in that token.
     */
    method StartRoom(roomId: u32) returns (r: Result<(), QuizError>)
      requires Valid()
      modifies this`rooms
      ensures Valid()
      ensures U32ToBytes(roomId) !in old(rooms) ==> r == Err(RoomNotFound) && rooms == old(rooms)
      ensures U32ToBytes(roomId) in old(rooms) ==>
        var out := StartedRoom(old(rooms)[U32ToBytes(roomId)], deposits);
        && r == Done(out)
        && rooms == if out.Ok? then old(rooms)[U32ToBytes(roomId) := out.value] else old(rooms)
    {
      var key := U32ToBytes(roomId);
      if key !in rooms {
        return Err(RoomNotFound);
      }
      var c := rooms[key];
      if c.started {
        return Err(RoomAlreadyStarted);
      }
      if c.prizeMode == AssetBased {
        var covered := CheckDeposits(c, deposits);
        if !covered {
          return Err(InsufficientAssets);
        }
      }
      assert StartedRoom(c, deposits) == Ok(c.(started := true));
      StoreRoom(rooms, deposits, key, c.(started := true));
      rooms := rooms[key := c.(started := true)];
      r := Ok(());
    }

    /** `start_quiz`: registration closes. */
    method StartQuiz(roomId: u32) returns (r: Result<(), QuizError>)
      requires Valid()
      modifies this`rooms
      ensures Valid()
      ensures U32ToBytes(roomId) !in old(rooms) ==> r == Err(RoomNotFound) && rooms == old(rooms)
      ensures U32ToBytes(roomId) in old(rooms) ==>
        var out := QuizStartedRoom(old(rooms)[U32ToBytes(roomId)]);
        && r == Done(out)
        && rooms == if out.Ok? then old(rooms)[U32ToBytes(roomId) := out.value] else old(rooms)
    {
      var key := U32ToBytes(roomId);
      if key !in rooms {
        return Err(RoomNotFound);
      }
      var out := QuizStartedRoom(rooms[key]);
      if out.Err? {
        return Err(out.error);
      }
      StoreRoom(rooms, deposits, key, out.value);
      rooms := rooms[key := out.value];
      r := Ok(());
    }

    /** `join_room`, with its two duplicate searches done as the contract does them. */
    method JoinRoom(roomId: u32, player: Address, name: Bytes, extras: i128, ledgerSeq: u32) returns (r: Result<(), QuizError>)
      requires Valid()
      modifies this`rooms, this`balances
      ensures Valid()
      ensures U32ToBytes(roomId) !in old(rooms) ==> r == Err(RoomNotFound) && unchanged(this)
      ensures U32ToBytes(roomId) in old(rooms) ==>
        var out := JoinedRoom(old(rooms)[U32ToBytes(roomId)], old(balances), contract, player, name, extras, ledgerSeq);
        && r == Done(out)
        && rooms == (if out.Ok? then old(rooms)[U32ToBytes(roomId) := out.value.room] else old(rooms))
        && balances == (if out.Ok? then out.value.balances else old(balances))
    {
      var key := U32ToBytes(roomId);
      if key !in rooms {
        return Err(RoomNotFound);
      }
      var c := rooms[key];
      var out := Admit(c, balances, contract, player, name, extras, ledgerSeq);
      if out.Err? {
        return Err(out.error);
      }
      JoinPreservesRoom(c, balances, contract, player, name, extras, ledgerSeq);
      StoreRoom(rooms, deposits, key, out.value.room);
      rooms := rooms[key := out.value.room];
      balances := out.value.balances;
      r := Ok(());
    }

    /** The shared tail of both end entry points: mark the room ended with its winners, then pay out. */
    method Finish(key: RoomKey, winners: seq<Address>) returns (r: Result<(), QuizError>)
      requires Valid() && key in rooms
      modifies this`rooms, this`balances
      ensures Valid()
      ensures var out := EndedRoom(old(rooms)[key], old(balances), contract, winners);
        && r == Done(out)
        && rooms == (if out.Ok? then old(rooms)[key := out.value.room] else old(rooms))
        && balances == (if out.Ok? then out.value.balances else old(balances))
    {
      var c := rooms[key];
      var out := Close(c, balances, contract, winners);
      if out.Err? {
        return Err(out.error);
      }
      EndPreservesRoom(c, balances, contract, winners);
      StoreRoom(rooms, deposits, key, out.value.room);
      rooms := rooms[key := out.value.room];
      balances := out.value.balances;
      r := Ok(());
    }

    /** `end_room`: the host names up to three winners by address; they are not checked against the players. */
    method EndRoom(roomId: u32, first: Option<Address>, second: Option<Address>, third: Option<Address>)
      returns (r: Result<(), QuizError>)
      requires Valid()
      modifies this`rooms, this`balances
      ensures Valid()
      ensures U32ToBytes(roomId) !in old(rooms) ==> r == Err(RoomNotFound) && unchanged(this)
      ensures U32ToBytes(roomId) in old(rooms) ==>
        var out := EndedRoom(old(rooms)[U32ToBytes(roomId)], old(balances), contract, PlacedWinners(first, second, third));
        && r == Done(out)
        && rooms == (if out.Ok? then old(rooms)[U32ToBytes(roomId) := out.value.room] else old(rooms))
        && balances == (if out.Ok? then out.value.balances else old(balances))
    {
      var key := U32ToBytes(roomId);
      if key !in rooms {
        return Err(RoomNotFound);
      }
      var winners := PlaceWinners(first, second, third);
      r := Finish(key, winners);
    }

    /** `end_room_by_screen_names`: names no player holds are skipped. */
    method EndRoomByScreenNames(roomId: u32, first: Option<Bytes>, second: Option<Bytes>, third: Option<Bytes>)
      returns (r: Result<(), QuizError>)
      requires Valid()
      modifies this`rooms, this`balances
      ensures Valid()
      ensures U32ToBytes(roomId) !in old(rooms) ==> r == Err(RoomNotFound) && unchanged(this)
      ensures U32ToBytes(roomId) in old(rooms) ==>
        var c := old(rooms)[U32ToBytes(roomId)];
        var out := EndedRoom(c, old(balances), contract, ResolveWinners(c.players, first, second, third));
        && r == Done(out)
        && rooms == (if out.Ok? then old(rooms)[U32ToBytes(roomId) := out.value.room] else old(rooms))
        && balances == (if out.Ok? then out.value.balances else old(balances))
    {
      var key := U32ToBytes(roomId);
      if key !in rooms {
        return Err(RoomNotFound);
      }
      var winners := ResolveNames(rooms[key].players, first, second, third);
      r := Finish(key, winners);
    }

    /** `add_sponsor`: appends to the room's sponsor list, whether or not the room exists. */
    method AddSponsor(roomId: u32, host: Address, sponsor: Address) returns (r: Result<(), QuizError>)
      modifies this`sponsors
      ensures r.Ok?
      ensures sponsors == old(sponsors)[U32ToBytes(roomId) := old(Sponsors(roomId)) + [sponsor]]
      ensures Sponsors(roomId) == old(Sponsors(roomId)) + [sponsor]
      ensures forall other: u32 :: other != roomId ==> Sponsors(other) == old(Sponsors(other))
    {
      var key := U32ToBytes(roomId);
      sponsors := sponsors[key := Sponsors(roomId) + [sponsor]];
      r := Ok(());
      forall other: u32 | other != roomId
        ensures Sponsors(other) == old(Sponsors(other))
      {
        RoomKeyInjective(other, roomId);
      }
    }

    /** `get_sponsors`: the listed sponsors in order of addition; none for an unknown key. */
    function Sponsors(roomId: u32): (s: seq<Address>)
      reads this
      ensures U32ToBytes(roomId) in sponsors ==> s == sponsors[U32ToBytes(roomId)]
      ensures U32ToBytes(roomId) !in sponsors ==> s == []
    {
      var key := U32ToBytes(roomId);
      if key in sponsors then sponsors[key] else []
    }

    /** `get_player_by_screen_name`. */
    method GetPlayerByScreenName(roomId: u32, name: Bytes) returns (r: Option<Address>)
      requires Valid()
      ensures U32ToBytes(roomId) !in rooms ==> r == None
      ensures U32ToBytes(roomId) in rooms ==> r == PlayerByScreenName(rooms[U32ToBytes(roomId)].players, name)
      ensures r.Some? ==> r.value in rooms[U32ToBytes(roomId)].playerAddresses
    {
      var key := U32ToBytes(roomId);
      if key !in rooms {
        return None;
      }
      r := FindPlayer(rooms[key].players, name);
      if r.Some? {
        ResolvedPlayerHoldsName(rooms[key], name);
      }
    }

    /** `get_asset_deposit_status`: one row per prize of an asset room; nothing otherwise. */
    method GetAssetDepositStatus(roomId: u32) returns (status: seq<DepositLine>)
      ensures U32ToBytes(roomId) !in rooms || rooms[U32ToBytes(roomId)].prizeMode != AssetBased ==> status == []
      ensures U32ToBytes(roomId) in rooms && rooms[U32ToBytes(roomId)].prizeMode == AssetBased ==>
        var c := rooms[U32ToBytes(roomId)];
        status == StatusLines(c.(roomId := U32ToBytes(roomId)), deposits, |c.prizeAssets|)
    {
      var key := U32ToBytes(roomId);
      status := [];
      if key !in rooms || rooms[key].prizeMode != AssetBased {
        return;
      }
      var c := rooms[key];
      var i := 0;
      while i < |c.prizeAssets|
        invariant 0 <= i <= |c.prizeAssets|
        invariant status == StatusLines(c.(roomId := key), deposits, i)
      {
        if c.prizeAssets[i].Some? {
          var asset := c.prizeAssets[i].value;
          status := status + [DepositLine(asset.contractId, asset.amount, Deposited(deposits, key, asset.contractId))];
        }
        i := i + 1;
      }
    }

    /** `get_room_financials`: nothing for an unknown room; a fee split that overflows traps. */
    function RoomFinancialsOf(roomId: u32): (r: Result<Option<Financials>, QuizError>)
      reads this
      ensures U32ToBytes(roomId) !in rooms ==> r == Ok(None)
      ensures U32ToBytes(roomId) in rooms ==>
        var c := rooms[U32ToBytes(roomId)];
        && (r.Ok? <==> FeeSplit(c.totalPool, c.charityBps, c.hostFeeBps).Ok?)
        && (r.Err? ==> r.error == ArithmeticOverflow)
        && (r.Ok? ==> r.value == Some(Financials(c.totalPool, c.totalEntryFees, c.totalExtrasFees, c.totalPool, 0)))
    {
      var key := U32ToBytes(roomId);
      if key !in rooms then Ok(None)
      else
        var f :- RoomFinancials(rooms[key]);
        Ok(Some(f))
    }
  }
}
