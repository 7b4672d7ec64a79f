/**
 * The records of the quiz-room contract (contracts/quiz/src/contract.rs):
 * prize modes, prize assets, player entries, the per-room configuration,
 * the error codes, and the 32-byte storage key a room id is stored under.
 */
module QuizTypes {
  import opened Numeric
  import opened Outcomes

  /** A ledger address (an account or a contract), compared only for equality. */
  type Address = string

  /** A Soroban `String` is a sequence of bytes; screen names are compared bytewise. */
  type Bytes = seq<byte>

  /** The `BytesN<32>` a room is keyed by in instance storage. */
  type RoomKey = Bytes

  datatype PrizeMode = PrizePoolSplit | AssetBased

  datatype PrizeAsset = PrizeAsset(contractId: Address, amount: i128)

  datatype PlayerEntry = PlayerEntry(
    player: Address,
    screenName: Bytes,
    entryPaid: i128,
    extrasPaid: i128,
    totalPaid: i128,
    joinLedger: u32)

  datatype RoomConfig = RoomConfig(
    roomId: RoomKey,
    host: Address,
    feeToken: Address,
    entryFee: i128,
    hostFeeBps: u32,
    prizePoolBps: u32,
    charityBps: u32,
    prizeMode: PrizeMode,
    prizeDistribution: seq<u32>,
    prizeAssets: seq<Option<PrizeAsset>>,
    started: bool,
    gameStarted: bool,
    ended: bool,
    creationLedger: u32,
    hostWallet: Option<Address>,
    players: seq<PlayerEntry>,
    playerAddresses: seq<Address>,
    totalPool: i128,
    totalEntryFees: i128,
    totalExtrasFees: i128,
    totalPaidOut: i128,
    winners: seq<Address>)

  /**
   * The contract's `QuizError` codes, followed by the two ways the host
   * environment aborts a call that the contract does not report itself:
   * an arithmetic overflow trap, and a token transfer that the token
   * contract rejects. Every one of them leaves storage as it was.
   */
  datatype QuizError =
    | InvalidHostFee | MissingHostWallet | InvalidPrizeSplit | CharityBelowMinimum
    | InvalidPrizePoolBps | MissingPrizePoolConfig | MissingPrizeAssets | InvalidPrizeAssets
    | InvalidTotalAllocation | InvalidFeeToken | RoomAlreadyExists | RoomNotFound
    | RoomAlreadyStarted | RoomNotStarted | RoomAlreadyEnded | PlayerAlreadyJoined
    | InsufficientPayment | Unauthorized | InvalidWinners | AssetTransferFailed
    | InsufficientPlayers | InsufficientAssets | DepositFailed | ScreenNameTaken
    | InvalidScreenName | GameAlreadyStarted
    | ArithmeticOverflow
    | TransferRejected

  /** The `u32` a contract error is reported as (`None` for the two host traps). */
  function ErrorCode(e: QuizError): (code: Option<u32>)
    ensures code.Some? <==> !(e.ArithmeticOverflow? || e.TransferRejected?)
    ensures code.Some? ==> 1 <= code.value <= 26
  {
    match e
    case InvalidHostFee => Some(1)
    case MissingHostWallet => Some(2)
    case InvalidPrizeSplit => Some(3)
    case CharityBelowMinimum => Some(4)
    case InvalidPrizePoolBps => Some(5)
    case MissingPrizePoolConfig => Some(6)
    case MissingPrizeAssets => Some(7)
    case InvalidPrizeAssets => Some(8)
    case InvalidTotalAllocation => Some(9)
    case InvalidFeeToken => Some(10)
    case RoomAlreadyExists => Some(11)
    case RoomNotFound => Some(12)
    case RoomAlreadyStarted => Some(13)
    case RoomNotStarted => Some(14)
    case RoomAlreadyEnded => Some(15)
    case PlayerAlreadyJoined => Some(16)
    case InsufficientPayment => Some(17)
    case Unauthorized => Some(18)
    case InvalidWinners => Some(19)
    case AssetTransferFailed => Some(20)
    case InsufficientPlayers => Some(21)
    case InsufficientAssets => Some(22)
    case DepositFailed => Some(23)
    case ScreenNameTaken => Some(24)
    case InvalidScreenName => Some(25)
    case GameAlreadyStarted => Some(26)
    case ArithmeticOverflow => None
    case TransferRejected => None
  }

  /** The contract error a `u32` code stands for, if any. */
  function FromCode(code: u32): (r: Option<QuizError>)
    ensures r.Some? <==> 1 <= code <= 26
    ensures r.Some? ==> !(r.value.ArithmeticOverflow? || r.value.TransferRejected?)
  {
    match code
    case 1 => Some(InvalidHostFee)
    case 2 => Some(MissingHostWallet)
    case 3 => Some(InvalidPrizeSplit)
    case 4 => Some(CharityBelowMinimum)
    case 5 => Some(InvalidPrizePoolBps)
    case 6 => Some(MissingPrizePoolConfig)
    case 7 => Some(MissingPrizeAssets)
    case 8 => Some(InvalidPrizeAssets)
    case 9 => Some(InvalidTotalAllocation)
    case 10 => Some(InvalidFeeToken)
    case 11 => Some(RoomAlreadyExists)
    case 12 => Some(RoomNotFound)
    case 13 => Some(RoomAlreadyStarted)
    case 14 => Some(RoomNotStarted)
    case 15 => Some(RoomAlreadyEnded)
    case 16 => Some(PlayerAlreadyJoined)
    case 17 => Some(InsufficientPayment)
    case 18 => Some(Unauthorized)
    case 19 => Some(InvalidWinners)
    case 20 => Some(AssetTransferFailed)
    case 21 => Some(InsufficientPlayers)
    case 22 => Some(InsufficientAssets)
    case 23 => Some(DepositFailed)
    case 24 => Some(ScreenNameTaken)
    case 25 => Some(InvalidScreenName)
    case 26 => Some(GameAlreadyStarted)
    case _ => None
  }

  /** Decoding the code of a contract error gives that error back. */
  lemma ErrorCodeRoundTrip(e: QuizError)
    ensures ErrorCode(e).Some? ==> FromCode(ErrorCode(e).value) == Some(e)
  {
  }

  /** Encoding a decoded code gives that code back. */
  lemma FromCodeRoundTrip(code: u32)
    ensures FromCode(code).Some? ==> ErrorCode(FromCode(code).value) == Some(code)
  {
  }

  /** No two contract errors share a code. */
  lemma ErrorCodesDistinct(e1: QuizError, e2: QuizError)
    ensures ErrorCode(e1).Some? && ErrorCode(e1) == ErrorCode(e2) ==> e1 == e2
  {
    ErrorCodeRoundTrip(e1);
    ErrorCodeRoundTrip(e2);
  }

  /** A checked operation that traps on overflow, as a contract result. */
  function OrOverflow<T>(o: Option<T>): (r: Result<T, QuizError>)
    ensures r.Ok? <==> o.Some?
    ensures r.Ok? ==> r.value == o.value
    ensures r.Err? ==> r.error == ArithmeticOverflow
  {
    match o
    case Some(v) => Ok(v)
    case None => Err(ArithmeticOverflow)
  }

  // ---------------------------------------------------------------------
  // Storage key of a room id
  // ---------------------------------------------------------------------

  /** The last `n` bytes of `v` in big-endian order (most significant first). */
  function BigEndian(v: nat, n: nat): (r: Bytes)
    ensures |r| == n
  {
    if n == 0 then [] else BigEndian(v / 0x100, n - 1) + [v % 0x100]
  }

  /** The number a big-endian byte string denotes. */
  function FromBigEndian(s: Bytes): nat {
    if s == [] then 0 else FromBigEndian(s[..|s| - 1]) * 0x100 + s[|s| - 1]
  }

  function Pow256(n: nat): (p: nat)
    ensures p >= 1
  {
    if n == 0 then 1 else 0x100 * Pow256(n - 1)
  }

  /** The room key: 28 zero bytes followed by the room id's four big-endian bytes. */
  function U32ToBytes(v: u32): (key: RoomKey)
    ensures |key| == 32
    ensures forall i :: 0 <= i < 28 ==> key[i] == 0
  {
    seq(28, _ => 0) + BigEndian(v, 4)
  }

  /** Decoding the `n` big-endian bytes of a `v` below 256^n gives back `v`. */
  lemma {:induction false} BigEndianRoundTrip(v: nat, n: nat)
    requires v < Pow256(n)
    ensures FromBigEndian(BigEndian(v, n)) == v
  {
    if n > 0 {
      var s := BigEndian(v, n);
      assert s[..|s| - 1] == BigEndian(v / 0x100, n - 1);
      assert v / 0x100 < Pow256(n - 1);
      BigEndianRoundTrip(v / 0x100, n - 1);
      assert v == (v / 0x100) * 0x100 + v % 0x100;
    }
  }

  /** The room id is recovered from the last four bytes of its key, so distinct ids never share a key. */
  lemma RoomKeyRoundTrip(v: u32)
    ensures FromBigEndian(U32ToBytes(v)[28..]) == v
  {
    var key := U32ToBytes(v);
    assert key[28..] == BigEndian(v, 4);
    BigEndianRoundTrip(v, 4);
    assert Pow256(4) == 0x1_0000_0000;
  }

  lemma RoomKeyInjective(v: u32, w: u32)
    ensures U32ToBytes(v) == U32ToBytes(w) <==> v == w
  {
    RoomKeyRoundTrip(v);
    RoomKeyRoundTrip(w);
  }
}
