# BetSwirl betting plugin — a Dafny model of its own logic

The BetSwirl plugin exposes casino bets (coin toss, dice) on the BetSwirl
protocol as agent tools. Almost everything it does is a call into the BetSwirl
SDK or the EVM wallet client. This project models the part the plugin decides
for itself:

- **Parameter schemas** (`BetParameters`, `HexFormat`). The zod schemas are
  written as parse functions from a raw tool input (each field present or
  absent) to either the accepted parameters or the list of failing fields. The
  list is in declaration order, because a zod object reports every failing
  field, not just the first. Covered:
  - the EVM address pattern `^0x[a-fA-F0-9]{40}$` and the transaction-hash
    pattern `^0x[a-fA-F0-9]{64}$`, each as a character-by-character matcher
    proved equal to a reference definition;
  - the gas-token (zero) address;
  - positive amounts and counts;
  - the dice cap `0 < cap <= 99`.
- **Default filling** (`GetCasinoGameParameters`). JavaScript `||` semantics:
  an empty token or receiver string and a zero bet count count as missing.
  The defaults are the gas-token address, one bet, and the caller's account.
- **VRF cost** (`GetChainlinkVrfCost`). A missing or zero read becomes 0. A
  read that throws becomes an error.
- **Bet transaction** (`BuildBetTransaction`, `PlaceBet`). The steps:
  1. look up the game contract for the wallet's chain;
  2. price the VRF request with the bet's token and count;
  3. have the SDK encode the play-game call;
  4. attach the native value. This is the total stake plus the VRF cost when
     betting the gas token, and the VRF cost alone otherwise.

The SDK and the wallet are values passed in. `Sdk` holds the per-chain game
addresses and the encoders as function fields. `Wallet` holds the account, the
chain id, the contract read and the transaction send as function fields.
Every async call becomes a call of one of these functions. A throw from the
wallet's read or send, and the throw of the lookup on an unknown chain, each
become a `Failure`. Throws inside the SDK and from `BigInt` are not modelled
(see "## Left out").

The source's rules map to these predicates:

- the `hexAddress` regex (`parameters.ts` line 7) is `HexFormat.IsHexAddress`;
- the hash regex (`parameters.ts` lines 41-43) is `HexFormat.IsTxHash`;
- the shared field rules (`parameters.ts` lines 12-22) are
  `BetParameters.CasinoFieldAccepted`;
- the face rule (`parameters.ts` line 27) is `BetParameters.FaceAccepted`;
- the dice cap rule (`parameters.ts` line 34) is `BetParameters.DiceCapAccepted`;
- the `||` defaults (`betswirl.service.ts` lines 79-81) are
  `BetSwirlService.StringOr` and `BetSwirlService.NumberOr`.

Rows below name the functions and lemmas whose contracts state what these
rules accept.

Modelling decisions taken from the code:

- Each schema default (`token` → gas token, `betCount` → 1) sits under an
  outer `.optional()`. zod 3's optional wrapper, whose semantics this model
  assumes, returns `undefined` for an absent value before the inner default
  runs. zod 4 would apply the inner default; the defaults after
  `getCasinoGameParameters` are the same either way. So the parse functions leave
  absent fields absent, and the defaults come from `getCasinoGameParameters`.
  `BetSwirlService.AcceptedDiceBetIsPricedWithDefaults` shows the end-to-end
  effect: an absent token or count still ends up as the gas token or 1.
- An unknown chain id fails on its own (`ChainNotSupported`), because
  reading `.contracts` of an undefined chain record throws. A game the chain
  does not list, or lists with an empty address, fails as `GameNotAvailable`.
- The play-game request given to the SDK carries the amount, game, encoded
  game arguments and receiver only. The token, bet count, stop-gain, stop-loss
  and affiliate fields are commented out in the source. The VRF query and the
  native value still use the token and count.

## Model

| member | source | states |
|---|---|---|
| `HexFormat.HexRun` | typescript/packages/plugins/betswirl/src/parameters.ts:7 | a run of `n` hex digits up to the end of input can only match a string of length `n` |
| `HexFormat.HexRunExactly` | typescript/packages/plugins/betswirl/src/parameters.ts:7 | the digit-run matcher accepts a string iff it has length `n` and every character is in `[a-fA-F0-9]` |
| `HexFormat.PatternMatchesExactly` | typescript/packages/plugins/betswirl/src/parameters.ts:7 | the anchored pattern `^0x[a-fA-F0-9]{n}$` accepts exactly lower-case `0x` followed by `n` hex digits |
| `HexFormat.AddressPattern` | typescript/packages/plugins/betswirl/src/parameters.ts:7 | the address pattern accepts exactly the address rule's strings; accepted addresses have length 42 and start with `0x` |
| `HexFormat.TxHashPattern` | typescript/packages/plugins/betswirl/src/parameters.ts:41-43 | the hash pattern accepts exactly the hash rule's strings; accepted hashes have length 66 and start with `0x` |
| `HexFormat.GasTokenIsAddress` | typescript/packages/plugins/betswirl/src/parameters.ts:9 | the gas-token address is `0x` followed by forty `'0'` and passes the address rule |
| `HexFormat.GasTokenIffZeroDigits` | typescript/packages/plugins/betswirl/src/betswirl.service.ts:145 | for an accepted address, equality with the gas token holds iff all forty digits are `'0'`, so letter case cannot hide the gas token |
| `BetParameters.FailingFields` | typescript/packages/plugins/betswirl/src/parameters.ts:11-23 | the issues reported are exactly the listed fields whose rule fails, in the order given |
| `BetParameters.CasinoBetIssues` | typescript/packages/plugins/betswirl/src/parameters.ts:11-23 | a field is reported iff it fails its rule; reports follow declaration order; no report iff every shared field is accepted |
| `BetParameters.ParseCasinoBet` | typescript/packages/plugins/betswirl/src/parameters.ts:11-23 | accepted iff amount present and > 0, count/stop-gain/stop-loss absent or > 0, token/receiver/affiliate absent or valid addresses; accepted values are carried unchanged (absent stays absent); otherwise the non-empty, ordered list of exactly the failing fields |
| `BetParameters.ParseCasinoBetRoundTrip` | typescript/packages/plugins/betswirl/src/parameters.ts:11-23 | accepted parameters written back as input parse to themselves |
| `BetParameters.ParseWithLead` | typescript/packages/plugins/betswirl/src/parameters.ts:25-37 | a leading field plus the shared fields is accepted iff both are; the leading field is reported iff its rule failed, ahead of the shared fields' reports |
| `BetParameters.ParseCoinTossBet` | typescript/packages/plugins/betswirl/src/parameters.ts:25-30 | accepted iff the face is present and one of the enum's values and the shared fields are accepted; on failure the face is reported iff it is missing or outside the enum, and exactly the failing shared fields are reported, after it |
| `BetParameters.ParseDiceBet` | typescript/packages/plugins/betswirl/src/parameters.ts:32-37 | accepted iff `0 < cap <= 99` and the shared fields are accepted; on failure the cap is reported iff it is missing or out of that range, and exactly the failing shared fields are reported, after it |
| `BetParameters.ParseGetBet` | typescript/packages/plugins/betswirl/src/parameters.ts:39-46 | accepted iff the hash is present and passes the hash rule; an accepted hash has length 66 and is returned unchanged |
| `BetSwirlService.GetCasinoGameParameters` | typescript/packages/plugins/betswirl/src/betswirl.service.ts:68-83 | amount unchanged; token is the given one when non-empty, else the gas token; count is the given one when non-zero, else 1, so never 0; receiver is the given one when non-empty, else the account |
| `BetSwirlService.GetCasinoGameParametersIdempotent` | typescript/packages/plugins/betswirl/src/betswirl.service.ts:77-82 | filling in defaults again on an already filled-in bet changes nothing |
| `BetSwirlService.GetCasinoGameParametersIgnoresLimits` | typescript/packages/plugins/betswirl/src/betswirl.service.ts:68-83 | stop-gain, stop-loss and affiliate never influence the filled-in bet |
| `BetSwirlService.AcceptedParametersResolveWellFormed` | typescript/packages/plugins/betswirl/src/betswirl.service.ts:77-82 | for schema-accepted input, the filled-in bet has amount > 0, count >= 1, a valid token address, and a valid receiver whenever the account is one |
| `BetSwirlService.NormaliseVrfCost` | typescript/packages/plugins/betswirl/src/betswirl.service.ts:93-96 | the cost is the value read, or 0 when nothing was read; it is 0 exactly when the read is falsy |
| `BetSwirlService.GetChainlinkVrfCost` | typescript/packages/plugins/betswirl/src/betswirl.service.ts:85-100 | the contract is asked `getChainlinkVRFCost` with the given token and count; fails iff the read throws; otherwise the value read defaulted to 0 |
| `BetSwirlService.GameAddress` | typescript/packages/plugins/betswirl/src/betswirl.service.ts:113-117 | an unknown chain fails; a game that is not listed or has an empty address fails; otherwise the listed non-empty address |
| `BetSwirlService.TxValue` | typescript/packages/plugins/betswirl/src/betswirl.service.ts:145 | the value is stake + VRF cost for the gas token and the VRF cost otherwise, so never below the VRF cost |
| `BetSwirlService.BuildBetTransaction` | typescript/packages/plugins/betswirl/src/betswirl.service.ts:102-148 | no game address gives that error and no transaction; the VRF read uses the game address and the filled-in token and count, and its failure is the result; a built transaction targets the game address and carries the SDK's call data and the gas-token value rule |
| `BetSwirlService.PlaceBet` | typescript/packages/plugins/betswirl/src/betswirl.service.ts:140-153 | a failed build is returned as is; otherwise the built transaction is sent and its hash returned, or the send failure |
| `BetSwirlService.NoGameAddressNoTransaction` | typescript/packages/plugins/betswirl/src/betswirl.service.ts:113-117 | without a game address placing a bet fails, and the result does not depend on the wallet's send at all |
| `BetSwirlService.PlacedBetWasBuilt` | typescript/packages/plugins/betswirl/src/betswirl.service.ts:140-150 | a returned hash is the send result of the built transaction, which targets the game contract and carries at least the VRF cost |
| `BetSwirlService.CoinTossBet` | typescript/packages/plugins/betswirl/src/betswirl.service.ts:25-34 | the bet is built from the encoded face and the filled-in parameters; a missing coin-toss contract or a failed build is the error returned; a failed send gives `SendFailed`; a successful send returns its hash; a returned hash is the send result of that built transaction, after a successful VRF read for the filled-in token and count |
| `BetSwirlService.DiceBet` | typescript/packages/plugins/betswirl/src/betswirl.service.ts:48-57 | the bet is built from the encoded cap and the filled-in parameters; a missing dice contract or a failed build is the error returned; a failed send gives `SendFailed`; a successful send returns its hash; a returned hash is the send result of that built transaction, after a successful VRF read for the filled-in token and count |
| `BetSwirlService.AcceptedDiceBetIsPricedWithDefaults` | typescript/packages/plugins/betswirl/src/betswirl.service.ts:48-57 | for accepted dice input, the bet priced and sent has the given amount (> 0), the given token or the gas token when absent (a valid address either way), and the given count or 1 when absent (>= 1) |

## Left out

- Wallet and network I/O: the async flow, `walletClient.read`, `sendTransaction`, `getChain` and `getAddress`. They are the `Wallet` function fields and values. The text of the wrapping error messages is not modelled; only the underlying reason is kept.
- SDK internals: `CoinToss.encodeInput`, `Dice.encodeInput`, `generatePlayGameFunctionData`, `casinoChainById` and `casinoGameAbi`. They are the `Sdk` fields and are not visible. So are the real values of the `COINTOSS_FACE` enum: the model has two faces, and any other input value is `NotAFace`.
- The SDK calls are modelled as total functions: a throw from `generatePlayGameFunctionData` or the encoders is not represented. The `chainId` cast to the SDK's chain-id type is a type annotation only.
- The VRF value is modelled as the number read. The source types it as a string and passes it through `BigInt`; parsing a string into a `bigint` is not modelled.
- JavaScript numbers: the bet count and the dice cap are integers here. Fractions, `NaN`, `-0`, `Infinity` and integers above 2^53 (which `z.number().positive()` accepts for the count and which reach the VRF query) are not represented.
- BetParameters.ParseDiceBet: the cap is an integer here, so the fractional caps that `z.number().positive().max(99)` also accepts are not covered.
- BetParameters.ParseCasinoBet: inputs of the wrong JavaScript type (for example a string where a `bigint` is expected) are not representable. Only presence and the value rules are modelled.
- The tool files `tools/roulette.ts`, `tools/dice.ts` and `tools/coinToss.ts` are glue over `utils/betswirl`, which is not part of this model.
- `betswirl.plugin.ts`: plugin registration and `supportsChain`, a membership test over an SDK-owned chain list.
- `getCoinTossBet` and `getDiceBet` have empty bodies. Only their `GetBetParameters` hash schema is modelled.
- The crossmint `types.py` holds type declarations with no behaviour.
- The `@Tool` decorator and zod's schema-building machinery. Only the predicates the schemas express are modelled.
