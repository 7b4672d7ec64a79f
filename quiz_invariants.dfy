/**
 * What the room transitions of contracts/quiz/src/contract.rs keep true:
 * every stored room stays well formed, a room's pool is what its players
 * paid into the contract, a payout stays within the pool and leaves the
 * rest in escrow, and winners chosen by screen name are registered players.
 */
module QuizInvariants {
  import opened Numeric
  import opened Outcomes
  import opened QuizTypes
  import opened TokenLedger
  import opened QuizFinance
  import opened QuizRoom

  lemma SumAppend(ps: seq<PlayerEntry>, p: PlayerEntry, col: Column)
    ensures Sum(ps + [p], col) == Sum(ps, col) + Amount(p, col)
  {
    assert (ps + [p])[..|ps|] == ps;
  }

  /** Players whose payments were all accepted paid a non-negative total. */
  lemma {:induction false} SumNonNegative(ps: seq<PlayerEntry>, entryFee: int)
    requires forall i :: 0 <= i < |ps| ==> EntryWellFormed(ps[i], entryFee)
    ensures Sum(ps, TotalColumn) >= 0
  {
    if ps != [] {
      SumNonNegative(ps[..|ps| - 1], entryFee);
      assert EntryWellFormed(ps[|ps| - 1], entryFee);
    }
  }

  /** A well-formed room's pool is never negative, so its fee split is never negative either. */
  lemma PoolNonNegative(c: RoomConfig)
    requires RoomWellFormed(c)
    ensures c.totalPool >= 0
  {
    SumNonNegative(c.players, c.entryFee);
  }

  /** Every well-formed room allots at most 80% to charity and host together, leaving the platform its 20%. */
  lemma AllocationWithinBudget(c: RoomConfig)
    requires RoomWellFormed(c)
    ensures c.charityBps + c.hostFeeBps <= MAX_ALLOCATION_BPS
    ensures MIN_CHARITY_BPS <= c.charityBps
    ensures c.prizeMode == PrizePoolSplit ==> c.charityBps + c.hostFeeBps + c.prizePoolBps == MAX_ALLOCATION_BPS
  {
  }

  /** A successful join keeps the room well formed and advances it. */
  lemma JoinPreservesRoom(c: RoomConfig, b: Balances, contract: Address, player: Address, name: Bytes,
                          extras: i128, ledgerSeq: u32)
    requires RoomWellFormed(c)
    requires JoinedRoom(c, b, contract, player, name, extras, ledgerSeq).Ok?
    ensures var c' := JoinedRoom(c, b, contract, player, name, extras, ledgerSeq).value.room;
      RoomWellFormed(c') && Advances(c, c') && |c'.players| == |c.players| + 1
  {
    var c' := JoinedRoom(c, b, contract, player, name, extras, ledgerSeq).value.room;
    var p := c'.players[|c.players|];
    assert c'.players == c.players + [p];
    SumAppend(c.players, p, TotalColumn);
    SumAppend(c.players, p, EntryColumn);
    SumAppend(c.players, p, ExtrasColumn);
    AppendKeepsRegistry(c, c', p);
  }

  /** Appending a player whose address and screen name are new keeps the two player lists consistent. */
  lemma AppendKeepsRegistry(c: RoomConfig, c': RoomConfig, p: PlayerEntry)
    requires RegistryWellFormed(c)
    requires c'.entryFee == c.entryFee && EntryWellFormed(p, c.entryFee)
    requires c'.players == c.players + [p] && c'.playerAddresses == c.playerAddresses + [p.player]
    requires p.player !in c.playerAddresses && !NameTaken(c.players, p.screenName)
    ensures RegistryWellFormed(c')
  {
    forall i, j | 0 <= i < j < |c'.players|
      ensures c'.players[i].screenName != c'.players[j].screenName
    {
      if j == |c.players| {
        assert c'.players[i] == c.players[i];
      }
    }
    forall i, j | 0 <= i < j < |c'.playerAddresses|
      ensures c'.playerAddresses[i] != c'.playerAddresses[j]
    {
      if j == |c.playerAddresses| {
        assert c'.playerAddresses[i] == c.playerAddresses[i];
      }
    }
  }

  /**
   * What a join adds to the pool is exactly what moves from the player to
   * the contract in the fee token.
   */
  lemma JoinEscrowsPayment(c: RoomConfig, b: Balances, contract: Address, player: Address, name: Bytes,
                           extras: i128, ledgerSeq: u32)
    requires player != contract
    requires JoinedRoom(c, b, contract, player, name, extras, ledgerSeq).Ok?
    ensures var j := JoinedRoom(c, b, contract, player, name, extras, ledgerSeq).value;
      var paid := j.room.totalPool - c.totalPool;
      && paid >= 0
      && BalanceOf(j.balances, c.feeToken, contract) == BalanceOf(b, c.feeToken, contract) + paid
      && BalanceOf(j.balances, c.feeToken, player) == BalanceOf(b, c.feeToken, player) - paid
  {
  }

  /** Ending keeps the room well formed: it is over, with the given winners. */
  lemma EndPreservesRoom(c: RoomConfig, b: Balances, contract: Address, winners: seq<Address>)
    requires RoomWellFormed(c)
    requires EndedRoom(c, b, contract, winners).Ok?
    ensures var c' := EndedRoom(c, b, contract, winners).value.room;
      RoomWellFormed(c') && c'.ended && c'.winners == winners
  {
  }

  /**
   * A successful end pays out between nothing and the whole pool in the
   * fee token, and the contract's fee-token balance goes down by exactly
   * that much when the contract is not itself a payee: the rest of the pool
   * stays with the contract.
   */
  lemma EndPayoutWithinPool(c: RoomConfig, b: Balances, contract: Address, winners: seq<Address>)
    requires RoomWellFormed(c)
    requires EndedRoom(c, b, contract, winners).Ok?
    requires contract != PlatformWallet && contract != c.host && contract !in winners
    requires forall k :: 0 <= k < |c.prizeAssets| && c.prizeAssets[k].Some? ==> c.prizeAssets[k].value.contractId != c.feeToken
    ensures var c' := EndedRoom(c, b, contract, winners).value.room;
      var p := Payout(b, c', contract).value;
      && 0 <= p.distributed <= c.totalPool
      && BalanceOf(p.balances, c.feeToken, contract) == BalanceOf(b, c.feeToken, contract) - p.distributed
  {
    var c' := EndedRoom(c, b, contract, winners).value.room;
    PoolNonNegative(c);
    AllocationWithinBudget(c);
    PayoutWithinPool(b, c', contract);
    PayoutDebitsContract(b, c', contract);
  }

  /** A winner resolved from a screen name is the registered player holding that name. */
  lemma ResolvedPlayerHoldsName(c: RoomConfig, name: Bytes)
    requires RegistryWellFormed(c)
    requires PlayerByScreenName(c.players, name).Some?
    ensures exists i :: 0 <= i < |c.players| && c.players[i].screenName == name
                        && c.playerAddresses[i] == PlayerByScreenName(c.players, name).value
  {
  }

  /** Every winner `end_room_by_screen_names` picks is a registered player of the room. */
  lemma ResolvedWinnersRegistered(c: RoomConfig, first: Option<Bytes>, second: Option<Bytes>, third: Option<Bytes>)
    requires RegistryWellFormed(c)
    ensures forall w :: w in ResolveWinners(c.players, first, second, third) ==> w in c.playerAddresses
  {
    forall name: Option<Bytes>, w | w in Resolved(c.players, name)
      ensures w in c.playerAddresses
    {
      ResolvedPlayerHoldsName(c, name.value);
      var i :| 0 <= i < |c.players| && c.players[i].screenName == name.value
               && c.playerAddresses[i] == PlayerByScreenName(c.players, name.value).value;
    }
  }

  // ---------------------------------------------------------------------
  // The deposit check of `start_room`
  // ---------------------------------------------------------------------

  lemma {:induction false} RequiredNonNegative(assets: seq<Option<PrizeAsset>>, token: Address, i: nat)
    requires i <= |assets|
    ensures Required(assets, token, i) >= 0
    decreases |assets| - i
  {
    if i < |assets| {
      RequiredNonNegative(assets, token, i + 1);
    }
  }

  /** The prizes from place `i` on take from the contract, in one token, no more than they add up to. */
  lemma {:induction false} PayAssetsWithinRequired(b: Balances, c: RoomConfig, contract: Address, i: nat, acc: int, token: Address)
    requires i <= AssetRounds(c) && AssetRounds(c) <= |c.prizeAssets|
    requires PayAssets(b, c, contract, i, acc).Ok?
    requires contract !in c.winners
    ensures BalanceOf(PayAssets(b, c, contract, i, acc).value.balances, token, contract)
            >= BalanceOf(b, token, contract) - Required(c.prizeAssets, token, i)
    decreases AssetRounds(c) - i
  {
    if i == AssetRounds(c) {
      RequiredNonNegative(c.prizeAssets, token, i);
    } else if c.prizeAssets[i].Some? {
      var asset := c.prizeAssets[i].value;
      var b' := Pay(b, asset.contractId, contract, c.winners[i], asset.amount).value;
      PayAssetsWithinRequired(b', c, contract, i + 1, acc, token);
    } else {
      PayAssetsWithinRequired(b, c, contract, i + 1, acc, token);
    }
  }

  /**
   * Once the corrected check has let an asset room start, its winners'
   * payout takes from the contract, in each prize token, no more than the
   * room's deposits in that token: the room never pays a prize out of
   * another room's escrow.
   */
  lemma CoveredPrizesWithinDeposits(b: Balances, c: RoomConfig, deposits: Deposits, contract: Address, acc: int, k: nat)
    requires |c.prizeAssets| == 3
    requires PrizesCovered(c, deposits)
    requires k < 3 && c.prizeAssets[k].Some?
    requires PayAssets(b, c, contract, 0, acc).Ok?
    requires contract !in c.winners
    ensures var token := c.prizeAssets[k].value.contractId;
      BalanceOf(PayAssets(b, c, contract, 0, acc).value.balances, token, contract)
      >= BalanceOf(b, token, contract) - Deposited(deposits, c.roomId, token)
  {
    PayAssetsWithinRequired(b, c, contract, 0, acc, c.prizeAssets[k].value.contractId);
  }

  /** The corrected check demands at least what the check as written demands of each prize. */
  lemma {:induction false} RequiredCoversPrize(assets: seq<Option<PrizeAsset>>, i: nat, k: nat)
    requires i <= k < |assets| && assets[k].Some?
    ensures Required(assets, assets[k].value.contractId, i) >= assets[k].value.amount
    decreases |assets| - i
  {
    RequiredNonNegative(assets, assets[k].value.contractId, i + 1);
    if i < k {
      RequiredCoversPrize(assets, i + 1, k);
    }
  }

  lemma CorrectedCheckImpliesWritten(c: RoomConfig, deposits: Deposits)
    requires PrizesCovered(c, deposits)
    ensures EachPrizeCovered(c, deposits)
  {
    forall k | 0 <= k < |c.prizeAssets| && c.prizeAssets[k].Some?
      ensures Deposited(deposits, c.roomId, c.prizeAssets[k].value.contractId) >= c.prizeAssets[k].value.amount
    {
      RequiredCoversPrize(c.prizeAssets, 0, k);
    }
  }

  /**
   * The check as written lets an asset room start whose first and second
   * prizes are 10 each in the same token when only 10 of it was deposited;
   * paying both winners then needs 20.
   */
  lemma SharedTokenUnderfunded(c: RoomConfig, token: Address)
    requires !c.started && c.prizeMode == AssetBased
    requires c.prizeAssets == [Some(PrizeAsset(token, 10)), Some(PrizeAsset(token, 10)), None]
    ensures var deposits := map[DepositKey(c.roomId, token) := 10];
      && StartedRoomAsWritten(c, deposits).Ok?
      && StartedRoom(c, deposits) == Err(InsufficientAssets)
      && Deposited(deposits, c.roomId, token) == 10
      && Required(c.prizeAssets, token, 0) == 20
  {
    var deposits := map[DepositKey(c.roomId, token) := 10];
    assert Required(c.prizeAssets, token, 2) == 0;
    assert Required(c.prizeAssets, token, 1) == 10;
    assert Required(c.prizeAssets, token, 0) == 20;
    assert Deposited(deposits, c.roomId, c.prizeAssets[0].value.contractId) < Required(c.prizeAssets, c.prizeAssets[0].value.contractId, 0);
  }

  /**
   * The payout of that room: paying both winners succeeds only when the
   * contract holds at least 20 of the token, and then takes 20 of it, twice
   * what the room deposited; the other 10 come out of other rooms' escrow.
   */
  lemma SharedTokenPayoutTakesTwenty(b: Balances, c: RoomConfig, contract: Address, token: Address, acc: int)
    requires c.prizeAssets == [Some(PrizeAsset(token, 10)), Some(PrizeAsset(token, 10)), None]
    requires |c.winners| >= 2 && contract !in c.winners
    ensures PayAssets(b, c, contract, 0, acc).Ok? <==> BalanceOf(b, token, contract) >= 20
    ensures PayAssets(b, c, contract, 0, acc).Ok? ==>
      BalanceOf(PayAssets(b, c, contract, 0, acc).value.balances, token, contract) == BalanceOf(b, token, contract) - 20
  {
    assert c.winners[0] != contract && c.winners[1] != contract;
    var first := Pay(b, token, contract, c.winners[0], 10);
    if first.Ok? {
      var second := Pay(first.value, token, contract, c.winners[1], 10);
      assert BalanceOf(first.value, token, contract) == BalanceOf(b, token, contract) - 10;
      if second.Ok? {
        assert PayAssets(second.value, c, contract, 2, acc) == Ok(Payment(second.value, acc));
      }
    }
  }
}
