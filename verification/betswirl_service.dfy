/** The betting service: filling in defaults for a bet, reading the VRF
    cost, and shaping the transaction that places the bet. The betting SDK
    and the wallet client are not part of this model; they enter as values
    (`Sdk`, `Wallet`) whose function fields stand for the calls made on
    them. */
module BetSwirlService {
  import opened Wrappers
  import opened HexFormat
  import opened BetParameters

  /** The casino games the service places bets on. */
  datatype Game = CoinToss | Dice

  /** One encoded game argument: the SDK encodes a coin face as a boolean
      and a dice cap as a number. */
  datatype GameParam = Flag(b: bool) | Number(n: int)

  /** The bet after defaults are filled in. */
  datatype CasinoGameParams = CasinoGameParams(
    betAmount: int,
    betToken: string,
    betCount: int,
    receiver: string)

  /** The contract read that prices the VRF request. */
  datatype VrfQuery = VrfQuery(address: string, functionName: string, betToken: string, betCount: int)

  /** What the SDK is asked to encode. Token, bet count, stop-gain,
      stop-loss and affiliate are not part of it. */
  datatype PlayGameRequest = PlayGameRequest(
    betAmount: int,
    game: Game,
    gameEncodedExtraParams: seq<GameParam>,
    receiver: string)

  /** The SDK's encoding of a play-game call; the ABI and the arguments are
      opaque payloads here. */
  datatype FunctionData = FunctionData(
    functionName: string,
    args: seq<string>,
    abi: string,
    encodedData: string,
    totalBetAmount: nat)

  /** The transaction handed to the wallet. */
  datatype TxRequest = TxRequest(
    to: string,
    functionName: string,
    args: seq<string>,
    value: nat,
    abi: string,
    data: string)

  datatype Error =
    | ChainNotSupported(chainId: int)
    | GameNotAvailable(game: Game, chainId: int)
    | VrfCostReadFailed(reason: string)
    | SendFailed(reason: string)

  /** The betting SDK: the per-chain game contract addresses and the
      encoders. */
  datatype Sdk = Sdk(
    casinoChainById: map<int, map<Game, string>>,
    generatePlayGameFunctionData: (PlayGameRequest, int) -> FunctionData,
    encodeCoinToss: CoinFace -> GameParam,
    encodeDice: int -> GameParam)

  /** The wallet client: its account, its chain, a contract read that
      yields the value read (`None` for `undefined`) or the reason it threw,
      and a send that yields the transaction hash or the reason it threw. */
  datatype Wallet = Wallet(
    address: string,
    chainId: int,
    read: VrfQuery -> Result<Option<nat>, string>,
    sendTransaction: TxRequest -> Result<string, string>)

  /** The name of the contract function that prices a VRF request. */
  const VrfCostFunction: string := "getChainlinkVRFCost"

  /** JavaScript `a || b` for an optional string: the empty string is falsy. */
  function StringOr(a: Option<string>, b: string): string {
    match a
    case Some(s) => if s != "" then s else b
    case None => b
  }

  /** JavaScript `a || b` for an optional number: zero is falsy. */
  function NumberOr(a: Option<int>, b: int): int {
    match a
    case Some(n) => if n != 0 then n else b
    case None => b
  }

  /** Fills in the defaults of a bet: the gas token when no token is given,
      one bet when no count is given, the caller's account when no receiver
      is given. Absent and falsy (empty, zero) values both take the default. */
  function GetCasinoGameParameters(accountAddress: string, p: CasinoBetParams): (r: CasinoGameParams)
    ensures r.betAmount == p.betAmount
    ensures p.token.Some? && p.token.value != "" ==> r.betToken == p.token.value
    ensures p.token.None? || p.token.value == "" ==> r.betToken == GasTokenAddress
    ensures p.betCount.Some? && p.betCount.value != 0 ==> r.betCount == p.betCount.value
    ensures p.betCount.None? || p.betCount.value == 0 ==> r.betCount == 1
    ensures r.betCount != 0
    ensures p.receiver.Some? && p.receiver.value != "" ==> r.receiver == p.receiver.value
    ensures p.receiver.None? || p.receiver.value == "" ==> r.receiver == accountAddress
  {
    CasinoGameParams(
      p.betAmount,
      StringOr(p.token, GasTokenAddress),
      NumberOr(p.betCount, 1),
      StringOr(p.receiver, accountAddress))
  }

  /** The fields the bet was given with, written back as explicit values. */
  function AsExplicit(r: CasinoGameParams): CasinoBetParams {
    CasinoBetParams(r.betAmount, Some(r.betCount), Some(r.betToken), None, None, Some(r.receiver), None)
  }

  /** Filling in defaults a second time changes nothing. */
  lemma GetCasinoGameParametersIdempotent(accountAddress: string, p: CasinoBetParams)
    ensures var r := GetCasinoGameParameters(accountAddress, p);
            GetCasinoGameParameters(accountAddress, AsExplicit(r)) == r
  {
    GasTokenIsAddress();
  }

  /** Stop-gain, stop-loss and affiliate are dropped: they never influence
      the filled-in bet. */
  lemma GetCasinoGameParametersIgnoresLimits(accountAddress: string, p: CasinoBetParams, q: CasinoBetParams)
    requires p.betAmount == q.betAmount && p.betCount == q.betCount
    requires p.token == q.token && p.receiver == q.receiver
    ensures GetCasinoGameParameters(accountAddress, p) == GetCasinoGameParameters(accountAddress, q)
  {
  }

  /** For parameters the schema accepted, the filled-in bet has a positive
      amount, a positive count and an accepted token address, and its
      receiver is an accepted address whenever the account's is. */
  lemma AcceptedParametersResolveWellFormed(accountAddress: string, p: CasinoBetParams)
    requires ValidCasinoBet(p)
    ensures var r := GetCasinoGameParameters(accountAddress, p);
            && r.betAmount > 0
            && r.betCount >= 1
            && IsHexAddress(r.betToken)
            && (IsHexAddress(accountAddress) ==> IsHexAddress(r.receiver))
  {
    GasTokenIsAddress();
  }

  /** A JavaScript-truthy VRF cost: present and non-zero. */
  predicate TruthyCost(v: Option<nat>) {
    v.Some? && v.value != 0
  }

  /** The VRF cost as used: a falsy read (absent or zero) becomes 0, any
      other read is the number read. */
  function NormaliseVrfCost(v: Option<nat>): (cost: nat)
    ensures cost == v.GetOr(0)
    ensures cost == 0 <==> !TruthyCost(v)
  {
    if !TruthyCost(v) then 0 else v.value
  }

  /** The query that prices the VRF request for a bet on `gameAddress`. */
  function VrfQueryFor(gameAddress: string, betToken: string, betCount: int): VrfQuery {
    VrfQuery(gameAddress, VrfCostFunction, betToken, betCount)
  }

  /** Reads the VRF cost for the given token and bet count from the game
      contract; a read that throws becomes an error. */
  function GetChainlinkVrfCost(
    read: VrfQuery -> Result<Option<nat>, string>,
    gameAddress: string, betToken: string, betCount: int): (r: Result<nat, Error>)
    ensures var outcome := read(VrfQueryFor(gameAddress, betToken, betCount));
            && (r.Failure? <==> outcome.Failure?)
            && (r.Failure? ==> r.error == VrfCostReadFailed(outcome.error))
            && (r.Success? ==> r.value == outcome.value.GetOr(0))
  {
    match read(VrfQueryFor(gameAddress, betToken, betCount))
    case Failure(e) => Failure(VrfCostReadFailed(e))
    case Success(v) => Success(NormaliseVrfCost(v))
  }

  /** The contract address of `game` on `chainId`. An unknown chain fails
      (the chain record is undefined), and so does a game the chain does not
      list or lists with an empty address. */
  function GameAddress(chains: map<int, map<Game, string>>, chainId: int, game: Game): (r: Result<string, Error>)
    ensures chainId !in chains ==> r == Failure(ChainNotSupported(chainId))
    ensures chainId in chains && (game !in chains[chainId] || chains[chainId][game] == "") ==>
              r == Failure(GameNotAvailable(game, chainId))
    ensures r.Success? <==> chainId in chains && game in chains[chainId] && chains[chainId][game] != ""
    ensures r.Success? ==> r.value == chains[chainId][game]
  {
    if chainId !in chains then Failure(ChainNotSupported(chainId))
    else
      var games := chains[chainId];
      if game in games && games[game] != "" then Success(games[game])
      else Failure(GameNotAvailable(game, chainId))
  }

  /** The native value attached to the bet: the total stake plus the VRF
      cost when betting the gas token, the VRF cost alone otherwise. */
  function TxValue(betToken: string, totalBetAmount: nat, vrfCost: nat): (value: nat)
    ensures value >= vrfCost
    ensures betToken == GasTokenAddress ==> value == totalBetAmount + vrfCost
    ensures betToken != GasTokenAddress ==> value == vrfCost
  {
    if betToken == GasTokenAddress then totalBetAmount + vrfCost else vrfCost
  }

  /** The request the SDK encodes for a bet. */
  function PlayGameRequestFor(game: Game, gameParams: seq<GameParam>, p: CasinoGameParams): PlayGameRequest {
    PlayGameRequest(p.betAmount, game, gameParams, p.receiver)
  }

  /** Everything placing a bet decides before the wallet sends: find the game
      contract, price the VRF request with the bet's token and count, encode
      the call, and attach the native value. */
  function BuildBetTransaction(
    wallet: Wallet, sdk: Sdk, game: Game, gameParams: seq<GameParam>, p: CasinoGameParams): (r: Result<TxRequest, Error>)
    ensures var address := GameAddress(sdk.casinoChainById, wallet.chainId, game);
            address.Failure? ==> r == Failure(address.error)
    ensures var address := GameAddress(sdk.casinoChainById, wallet.chainId, game);
            address.Success? ==>
              var outcome := wallet.read(VrfQueryFor(address.value, p.betToken, p.betCount));
              (r.Success? <==> outcome.Success?)
              && (outcome.Failure? ==> r == Failure(VrfCostReadFailed(outcome.error)))
    ensures r.Success? ==>
              var address := GameAddress(sdk.casinoChainById, wallet.chainId, game).value;
              var vrfCost := wallet.read(VrfQueryFor(address, p.betToken, p.betCount)).value.GetOr(0);
              var fd := sdk.generatePlayGameFunctionData(PlayGameRequestFor(game, gameParams, p), wallet.chainId);
              && r.value.to == address
              && r.value.to != ""
              && r.value.functionName == fd.functionName
              && r.value.args == fd.args
              && r.value.abi == fd.abi
              && r.value.data == fd.encodedData
              && r.value.value >= vrfCost
              && (p.betToken == GasTokenAddress ==> r.value.value == fd.totalBetAmount + vrfCost)
              && (p.betToken != GasTokenAddress ==> r.value.value == vrfCost)
  {
    var gameAddress :- GameAddress(sdk.casinoChainById, wallet.chainId, game);
    var vrfCost :- GetChainlinkVrfCost(wallet.read, gameAddress, p.betToken, p.betCount);
    var functionData := sdk.generatePlayGameFunctionData(PlayGameRequestFor(game, gameParams, p), wallet.chainId);
    Success(TxRequest(
      gameAddress,
      functionData.functionName,
      functionData.args,
      TxValue(p.betToken, functionData.totalBetAmount, vrfCost),
      functionData.abi,
      functionData.encodedData))
  }

  /** Places a bet: builds the transaction and sends it, returning its hash. */
  function PlaceBet(
    wallet: Wallet, sdk: Sdk, game: Game, gameParams: seq<GameParam>, p: CasinoGameParams): (r: Result<string, Error>)
    ensures var built := BuildBetTransaction(wallet, sdk, game, gameParams, p);
            built.Failure? ==> r == Failure(built.error)
    ensures var built := BuildBetTransaction(wallet, sdk, game, gameParams, p);
            built.Success? ==>
              var sent := wallet.sendTransaction(built.value);
              && (sent.Success? ==> r == Success(sent.value))
              && (sent.Failure? ==> r == Failure(SendFailed(sent.error)))
  {
    var tx :- BuildBetTransaction(wallet, sdk, game, gameParams, p);
    match wallet.sendTransaction(tx)
    case Success(hash) => Success(hash)
    case Failure(e) => Failure(SendFailed(e))
  }

  /** Without a game contract on the wallet's chain, placing a bet fails and
      nothing is sent: the result is the same whatever the send would do. */
  lemma NoGameAddressNoTransaction(
    wallet: Wallet, send: TxRequest -> Result<string, string>,
    sdk: Sdk, game: Game, gameParams: seq<GameParam>, p: CasinoGameParams)
    requires GameAddress(sdk.casinoChainById, wallet.chainId, game).Failure?
    ensures PlaceBet(wallet, sdk, game, gameParams, p).Failure?
    ensures PlaceBet(wallet, sdk, game, gameParams, p)
            == PlaceBet(wallet.(sendTransaction := send), sdk, game, gameParams, p)
  {
  }

  /** A hash is returned only for the transaction built for the bet, and
      that transaction targets the game contract and carries at least the
      VRF cost. */
  lemma PlacedBetWasBuilt(wallet: Wallet, sdk: Sdk, game: Game, gameParams: seq<GameParam>, p: CasinoGameParams)
    requires PlaceBet(wallet, sdk, game, gameParams, p).Success?
    ensures var built := BuildBetTransaction(wallet, sdk, game, gameParams, p);
            && built.Success?
            && wallet.sendTransaction(built.value) == Success(PlaceBet(wallet, sdk, game, gameParams, p).value)
            && GameAddress(sdk.casinoChainById, wallet.chainId, game) == Success(built.value.to)
            && built.value.value >= NormaliseVrfCost(wallet.read(VrfQueryFor(built.value.to, p.betToken, p.betCount)).value)
  {
  }

  /** The coin-toss tool: encodes the face and places the bet with the
      defaults filled in from the wallet's account. */
  function CoinTossBet(wallet: Wallet, sdk: Sdk, params: CoinTossBetParams): (r: Result<string, Error>)
    ensures var address := GameAddress(sdk.casinoChainById, wallet.chainId, CoinToss);
            address.Failure? ==> r == Failure(address.error)
    ensures var built := BuildBetTransaction(wallet, sdk, CoinToss, [sdk.encodeCoinToss(params.face)],
                                             GetCasinoGameParameters(wallet.address, params.bet));
            && (built.Failure? ==> r == Failure(built.error))
            && (built.Success? && wallet.sendTransaction(built.value).Failure? ==>
                  r == Failure(SendFailed(wallet.sendTransaction(built.value).error)))
            && (built.Success? && wallet.sendTransaction(built.value).Success? ==>
                  r == Success(wallet.sendTransaction(built.value).value))
            && (r.Success? ==> built.Success? && wallet.sendTransaction(built.value) == Success(r.value))
    ensures r.Success? ==>
              var address := GameAddress(sdk.casinoChainById, wallet.chainId, CoinToss);
              var p := GetCasinoGameParameters(wallet.address, params.bet);
              && address.Success?
              && wallet.read(VrfQueryFor(address.value, p.betToken, p.betCount)).Success?
  {
    PlaceBet(wallet, sdk, CoinToss, [sdk.encodeCoinToss(params.face)],
             GetCasinoGameParameters(wallet.address, params.bet))
  }

  /** The dice tool: encodes the cap and places the bet with the defaults
      filled in from the wallet's account. */
  function DiceBet(wallet: Wallet, sdk: Sdk, params: DiceBetParams): (r: Result<string, Error>)
    ensures var address := GameAddress(sdk.casinoChainById, wallet.chainId, Dice);
            address.Failure? ==> r == Failure(address.error)
    ensures var built := BuildBetTransaction(wallet, sdk, Dice, [sdk.encodeDice(params.cap)],
                                             GetCasinoGameParameters(wallet.address, params.bet));
            && (built.Failure? ==> r == Failure(built.error))
            && (built.Success? && wallet.sendTransaction(built.value).Failure? ==>
                  r == Failure(SendFailed(wallet.sendTransaction(built.value).error)))
            && (built.Success? && wallet.sendTransaction(built.value).Success? ==>
                  r == Success(wallet.sendTransaction(built.value).value))
            && (r.Success? ==> built.Success? && wallet.sendTransaction(built.value) == Success(r.value))
    ensures r.Success? ==>
              var address := GameAddress(sdk.casinoChainById, wallet.chainId, Dice);
              var p := GetCasinoGameParameters(wallet.address, params.bet);
              && address.Success?
              && wallet.read(VrfQueryFor(address.value, p.betToken, p.betCount)).Success?
  {
    PlaceBet(wallet, sdk, Dice, [sdk.encodeDice(params.cap)],
             GetCasinoGameParameters(wallet.address, params.bet))
  }

  /** From a raw dice request to the transaction: once the schema accepts
      the input, the bet that is priced and sent uses an accepted token
      address (the gas token when none was given), a positive count (one
      when none was given) and the amount given. */
  lemma AcceptedDiceBetIsPricedWithDefaults(wallet: Wallet, raw: RawDiceBet)
    requires ParseDiceBet(raw).Success?
    ensures var p := GetCasinoGameParameters(wallet.address, ParseDiceBet(raw).value.bet);
            && Some(p.betAmount) == raw.bet.betAmount
            && p.betAmount > 0
            && IsHexAddress(p.betToken)
            && (raw.bet.token.None? ==> p.betToken == GasTokenAddress)
            && (raw.bet.token.Some? ==> p.betToken == raw.bet.token.value)
            && p.betCount >= 1
            && (raw.bet.betCount.None? ==> p.betCount == 1)
            && (raw.bet.betCount.Some? ==> p.betCount == raw.bet.betCount.value)
  {
    var params := ParseDiceBet(raw).value;
    AcceptedParametersResolveWellFormed(wallet.address, params.bet);
  }
}
