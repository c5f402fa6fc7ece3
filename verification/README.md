# DefiDollar client amount arithmetic, in Dafny

This project models the amount arithmetic and argument routing in the
DefiDollar BSC client library. The library has two clients. `DefiDollarClient`
mints and redeems DUSD through the NerveZap router of the peak.
`SavingsClient` deposits into and withdraws from the ibDUSD savings vault.
Both clients share the helpers of `ClientBase` and `utils`:

- fixed-point rescaling of an 18-decimal wei value to a token's decimals;
- the slippage bound on a minimum-out amount, in basis points;
- the dense, coin-ordered amount vector built from a sparse `{ BUSD: '6.1' }` map;
- the sanitizer that drops blank or non-numeric entries from such a map.

Every contract call the clients make is returned as a value of `Calls.Call`.
That value is a descriptor of the zap, vault or ERC-20 method chosen and of
its arguments. All amounts are unbounded naturals. The big numbers (bn.js)
of the source are unbounded too, but signed; the model covers non-negative
amounts only.

Modules:

- `Results` (results.dfy): the `Result` and `Option` types.
- `Utils` (utils.dfy): powers of ten, the constants `_1e18` and `TEN_THOUSAND`, and `scale` with its inverse `Unscale`.
- `ClientBase` (client_base.dfy): the value types, `adjustForSlippage`, `_processAmounts` and `_sanitizeTokens`.
- `Calls` (calls.dfy): the call descriptors.
- `DefiDollarClient` (defi_dollar_client.dfy): mint, redeem, quotes, ceiling, token-id resolution, approve, balance and allowance.
- `SavingsClient` (savings_client.dfy): deposit, mintAndDeposit, withdraw, balanceOf and approve.

Representation choices:

- A human decimal amount is represented by its wei value, the result of `toWei`.
- An amount argument is `Amount(wei, integer)`. It holds the two readings the source can take of one value: `toWei(v)` and `toBN(v)`. Which reading is used depends on whether `decimals` is truthy, as in the source. `OfInteger(n)` gives both readings of an integer.
- A map value is `TokenValue(truthy, parsesAsNumber, amount)`. JavaScript truthiness and `parseFloat`-NaN are given facts about the value, not computed.
- Slippage is `NotANumber` or `Bps(n)`: the parsed percentage in integer basis points.
- A `decimals` argument is `Option<nat>`. `None` (null) and `Some(0)` are both falsy.
- The configuration is `Config(coins, tokens)`. `WellFormed` asks for exactly three coins, each registered. The source allocates a three-slot array, and it reads a coin's decimals when that coin has a truthy amount.

## Notes on the code's behaviour

- The slippage is not rounded. `slippage * 100` goes straight to `toBN`, so the model takes integer basis points.
- The sanitizer drops only falsy or NaN values. The string "0" is truthy and is kept.
- The vector always has the three slots of the configured coin list.
- A key outside the coin list fails the "bad coins" assertion, modelled as `BadCoins`.

## Model

| member | source | states |
|---|---|---|
| Utils.E18IsPow10 | clients/utils.js:5 | `_1e18` is 10^18 |
| Utils.Scale | clients/utils.js:9-17 | below 18 decimals the result is the floor of wei / 10^(18-d), bounded on both sides; at 18 it is the wei value; above 18 it is an exact multiple of 10^(d-18) that divides back to the wei value |
| Utils.ScaleRoundTrip | clients/utils.js:9-17 | scaling and then converting back loses less than one unit at the target precision when going down, and nothing when going up |
| Utils.UnscaleRoundTrip | clients/utils.js:11-12 | an amount already at d <= 18 decimals survives the trip to wei and back unchanged |
| Utils.ScaleIdentityAt18 | clients/utils.js:9-16 | with 18 decimals the wei value is returned unchanged |
| Utils.ScaleDownBounded | clients/utils.js:11-12 | for d <= 18 the result never exceeds the wei value |
| Utils.ScaleMonotone | clients/utils.js:9-17 | for fixed decimals, scale is monotone non-decreasing in the amount |
| Utils.ScaleExample | clients/utils.js:11-12 | 6.1 tokens at 6 decimals give 6100000 |
| ClientBase.AdjustForSlippage | clients/ClientBase.js:13-24 | fails with InvalidSlippage exactly when slippage is NaN, negative or above 100%, whatever the amount; otherwise the result is floor(operand * (10000 - bps) / 10000), stated by its bounds; the operand is the scaled amount for truthy decimals and the raw integer otherwise |
| ClientBase.AdjustBounded | clients/ClientBase.js:20-23 | the bound never exceeds the unslipped operand |
| ClientBase.AdjustZeroSlippage | clients/ClientBase.js:19 | zero slippage returns the operand unchanged |
| ClientBase.AdjustZeroAmount | clients/ClientBase.js:19 | a zero operand stays zero under any valid slippage |
| ClientBase.AdjustFullSlippage | clients/ClientBase.js:20-23 | 100% slippage gives 0 |
| ClientBase.AdjustFalsyDecimals | clients/ClientBase.js:18 | null or 0 decimals take the amount as an integer, the same as passing no decimals |
| ClientBase.AdjustMonotone | clients/ClientBase.js:20-23 | for a fixed amount the bound is non-increasing in the basis points |
| ClientBase.DenseAmounts | clients/ClientBase.js:30-41 | one slot per coin, in coin-list order; each slot is the coin's scaled amount when present and truthy, else 0 |
| ClientBase.ProcessAmounts | clients/ClientBase.js:26-42 | fails with BadCoins exactly when some key is not a listed coin; otherwise three slots in coin order, 0 for a missing or falsy coin and the amount scaled to that coin's decimals for a present one |
| ClientBase.Sanitize | clients/ClientBase.js:44-48 | keeps exactly the entries that are truthy and numeric; never adds keys; leaves kept values unchanged |
| ClientBase.SanitizeIdempotent | clients/ClientBase.js:44-48 | a second sanitization changes nothing |
| ClientBase.ProcessAmountsAfterSanitize | clients/ClientBase.js:26-48 | when every truthy entry is numeric, sanitizing first does not change the dense vector |
| ClientBase.ProcessAmountsExample | clients/ClientBase.js:26-42 | { BUSD: 1.5 } over BUSD/USDT/USDC with 18/6/6 decimals gives [1.5e18, 0, 0] |
| ClientBase.ProcessAmountsRejectsFake | clients/ClientBase.js:27-29 | a key that is not a listed coin fails with BadCoins |
| DefiDollarClient.FirstIndex | clients/DefiDollarClient.js:85 | the first position of the coin in the list, or -1 exactly when it is absent |
| DefiDollarClient.OnlyKey | clients/DefiDollarClient.js:84 | the one key of a one-entry map |
| DefiDollarClient.Mint | clients/DefiDollarClient.js:34-55 | invalid slippage fails first; otherwise it succeeds exactly when every sanitized key is a listed coin; it calls the zap's mint with the vector of the sanitized map and a minimum DUSD that is the 18-decimal amount cut by the slippage, never above the DUSD amount |
| DefiDollarClient.MintIgnoresDroppedEntries | clients/DefiDollarClient.js:35 | entries the sanitizer drops never change what mint sends |
| DefiDollarClient.CalcExpectedMintAmount | clients/DefiDollarClient.js:64-70 | quotes calcMint on a three-slot vector; succeeds exactly when every sanitized key is listed, and otherwise fails with BadCoins |
| DefiDollarClient.CalcMintQuotesMint | clients/DefiDollarClient.js:64-70 | the quote asks about exactly the vector a mint with valid slippage sends, and succeeds exactly when that mint does |
| DefiDollarClient.AdjustEach | clients/DefiDollarClient.js:98-100 | every slot is `adjustForSlippage(slot, null, slippage)`, bounded by its floor formula and never above the slot; fails only on invalid slippage |
| DefiDollarClient.AdjustEachKeepsZeros | clients/DefiDollarClient.js:98-100 | a zero slot stays zero |
| DefiDollarClient.Redeem | clients/DefiDollarClient.js:79-104 | burns the wei value of the DUSD amount; uses the single-coin redeem exactly when one sanitized entry remains, and then succeeds exactly when that coin is registered (UnknownToken otherwise) and the slippage is valid (InvalidSlippage otherwise); with any other number of entries it succeeds exactly when the keys are listed and the slippage is valid, and an unlisted key fails with BadCoins before the slippage is checked |
| DefiDollarClient.RedeemSingleCoin | clients/DefiDollarClient.js:83-94 | a single listed coin is redeemed at its first position in the coin list, with its slippage-bounded amount at its own decimals as minimum out |
| DefiDollarClient.RedeemMultiCoin | clients/DefiDollarClient.js:95-101 | otherwise each minimum is `adjustForSlippage(slot, null, slippage)` of the dense vector's slot, i.e. floor(slot * (10000 - bps) / 10000): at most the slot, and zero where the slot is zero |
| DefiDollarClient.CalcExpectedRedeemAmount | clients/DefiDollarClient.js:106-121 | no token quotes the all-coin redeem; a listed coin quotes the single-coin redeem at its first position; any other token fails with InvalidToken, and only then |
| DefiDollarClient.CalcRedeemQuotesRedeem | clients/DefiDollarClient.js:106-121 | for one listed, non-empty coin the quote asks about the same DUSD amount and coin index as redeeming into that coin alone |
| DefiDollarClient.Ceiling | clients/DefiDollarClient.js:123-134 | the ceiling is reported unchanged; the headroom is 0 exactly when the amount has reached the ceiling, and otherwise fills the gap to the ceiling |
| DefiDollarClient.CeilingIsMaximalHeadroom | clients/DefiDollarClient.js:130-132 | any amount that still fits under the ceiling is at most the headroom |
| DefiDollarClient.ProcessTokenId | clients/DefiDollarClient.js:178-182 | an id starting with "0x" is returned unchanged; any other id resolves to its registered address, or fails when it is unregistered |
| DefiDollarClient.ProcessTokenIdIdempotent | clients/DefiDollarClient.js:178-182 | when all registered addresses start with "0x", resolving twice equals resolving once |
| DefiDollarClient.Approve | clients/DefiDollarClient.js:160-170 | approves the resolved token for the amount scaled to truthy decimals, or for the integer amount otherwise; an empty address fails |
| DefiDollarClient.ApproveScalesDown | clients/DefiDollarClient.js:167 | with 1 to 18 decimals the approved amount, converted back to wei, falls short of the wei value by less than 10^(18-d) wei, one unit at d decimals |
| DefiDollarClient.BalanceOf | clients/DefiDollarClient.js:144-151 | queries balanceOf on the resolved token; an unresolvable or empty address fails |
| DefiDollarClient.Allowance | clients/DefiDollarClient.js:172-176 | queries allowance on the resolved token, with no empty-address check |
| DefiDollarClient.BalanceOfImpliesAllowance | clients/DefiDollarClient.js:172-176 | wherever balanceOf resolves a token, allowance resolves it to the same address; an empty resolved address fails balanceOf but is passed on by allowance |
| SavingsClient.UntrustedApprovalCoversDeposit | clients/SavingsClient.js:36-39 | a deposit draws the wei value of the amount, exactly what an untrusted approval of the same amount allows the vault; n whole DUSD deposit n * 10^18 wei |
| SavingsClient.MintAndDeposit | clients/SavingsClient.js:48-60 | invalid slippage fails first; otherwise it succeeds exactly when every sanitized key is listed; the minimum DUSD never exceeds the DUSD amount |
| SavingsClient.MintAndDepositMatchesMint | clients/SavingsClient.js:48-60 | sends the zap the same vector and minimum DUSD as mint, and fails the same way |
| SavingsClient.SharesFor | clients/SavingsClient.js:72-74 | shares = floor(wei * 10^18 / price), so shares * price <= wei * 10^18 < (shares + 1) * price |
| SavingsClient.Withdraw | clients/SavingsClient.js:67-78 | a max withdraw takes the whole share balance and ignores the amount; otherwise the shares are the floor of the amount's value over the price; a zero price fails |
| SavingsClient.Withdrawable | clients/SavingsClient.js:95 | the result is floor(ibDusd * price / 10^18), stated by its bounds |
| SavingsClient.BalanceOf | clients/SavingsClient.js:87-98 | passes both balances through and adds the withdrawable DUSD of the shares |
| SavingsClient.WithdrawWithinRequest | clients/SavingsClient.js:72-74 | the shares computed for an amount are never worth more than that amount |
| SavingsClient.SharesAtPar | clients/SavingsClient.js:72-74 | at a price of one DUSD per share, shares and DUSD coincide both ways |
| SavingsClient.Approve | clients/SavingsClient.js:113-119 | approves the vault on DUSD for the integer amount when trusted, otherwise for its wei value |

## Left out

- Web3 contract construction, `.call()`/`.send()`, `Web3Client` and the ABI artifacts are network I/O and foreign libraries. Each outgoing call is returned as a `Calls.Call` descriptor, and the result of the call is not modelled.
- `toWei`, `toBN` and `parseFloat` are foreign string parsing. Their results, and JavaScript truthiness, are given fields of `Amount` and `TokenValue`. So an unparseable amount (which makes `toWei` throw) is not modelled.
- A non-integer `slippage * 100` is not modelled. It would reach `toBN` as a float, so slippage is restricted to integer basis points.
- The `Promise.all` fan-out in `SavingsClient.balanceOf` is concurrency plumbing. The share balance, price and DUSD balance are parameters, and only the arithmetic on them is modelled. Likewise `withdraw` takes the share balance and price as parameters.
- `_sanitizeTokens` deletes entries from the caller's map in place. The model returns a new map, so the side effect on the caller's object is not modelled.
- Error message texts are not modelled, and the errors are kinds only. This covers the undefined `tokenId` references at clients/DefiDollarClient.js:148 and :164, which still throw. The `!txObject` check at clients/DefiDollarClient.js:49 is dead code.
- A single-coin redeem of a registered coin that is not in the coin list passes `findIndex`'s -1 on as the index. What the zap does with it is not modelled.
- A missing registry entry, which the source hits as a TypeError on `undefined.address`, is modelled as `UnknownToken`. The same goes for `undefined.decimals`. A zero share price, which makes bn.js fail its division, is modelled as `DivisionByZero`.
- A `decimals` argument that is NaN or negative is not modelled.
- Negative amounts are not modelled. bn.js accepts them, and its `div` truncates toward zero where the model's floor division would not; every amount here is a natural number.
- `ClientBase.ProcessAmounts` and the operations built on it ask for a configuration in which every coin is registered. The source only needs the registry entry of a coin whose amount is truthy; a missing entry for such a coin would be a TypeError the model does not represent.
- `SavingsClient.allowance(account)` only forwards its argument to the DUSD token and is not modelled.
- `approve`, `balanceOf` and `allowance` of `DefiDollarClient` write the resolved address into the shared `IERC20` contract object and test the value read back. The model assumes web3's setter gives back what was written and that successive calls do not interact through that shared object.
