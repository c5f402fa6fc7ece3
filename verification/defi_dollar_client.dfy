/** `DefiDollarClient`: how mint, redeem, approve and the read-only queries
    choose a zap or token method and compute its arguments. */
module DefiDollarClient {
  import opened Results
  import opened Utils
  import opened ClientBase
  import opened Calls

  /** `Array.prototype.findIndex` for equality: the first position of `c`,
      or -1 when it is absent. */
  function FirstIndex(coins: seq<string>, c: string): (i: int)
    ensures i == -1 <==> c !in coins
    ensures i != -1 ==> 0 <= i < |coins| && coins[i] == c && c !in coins[..i]
  {
    if coins == [] then -1
    else if coins[0] == c then 0
    else
      var j := FirstIndex(coins[1..], c);
      if j == -1 then -1
      else
        assert coins[..j + 1] == [coins[0]] + coins[1..][..j];
        j + 1
  }

  lemma OneKeyOnly(keys: set<string>)
    requires |keys| == 1
    ensures forall a, b :: a in keys && b in keys ==> a == b
  {
    var x :| x in keys;
    assert |keys - {x}| == 0;
    assert keys == {x} by {
      forall a | a in keys ensures a == x {
      }
    }
  }

  /** The one key of a one-entry map, `Object.keys(tokens)[0]`. */
  function OnlyKey(keys: set<string>): (k: string)
    requires |keys| == 1
    ensures keys == {k}
  {
    OneKeyOnly(keys);
    var k :| k in keys;
    k
  }

  /** `mint(tokens, dusdAmount, slippage)`: sanitize the amounts, bound the
      DUSD expected by the slippage (DUSD has 18 decimals) and call the zap's
      `mint` with the dense amount vector. */
  function Mint(tokens: map<string, TokenValue>, dusdAmount: Amount, slippage: Slippage, cfg: Config)
    : (r: Result<Call, Error>)
    requires cfg.WellFormed()
    ensures !ValidSlippage(slippage) ==> r == Failure(InvalidSlippage)
    ensures ValidSlippage(slippage) ==>
      (r.Success? <==> CoinsListed(Sanitize(tokens), cfg))
    ensures r.Failure? && ValidSlippage(slippage) ==> r.error == BadCoins
    ensures r.Success? ==>
      && r.value.ZapMint?
      && r.value.inAmounts == ProcessAmounts(Sanitize(tokens), cfg).value
      && r.value.minDusd <= dusdAmount.wei
      && r.value.minDusd * TenThousand <= dusdAmount.wei * (TenThousand - slippage.bps)
         < (r.value.minDusd + 1) * TenThousand
  {
    var kept := Sanitize(tokens);
    var minDusd :- AdjustForSlippage(dusdAmount, Some(18), slippage);
    var inAmounts :- ProcessAmounts(kept, cfg);
    AdjustBounded(dusdAmount, Some(18), slippage);
    Success(ZapMint(inAmounts, minDusd))
  }

  /** Entries dropped by the sanitizer never matter to `mint`. */
  lemma MintIgnoresDroppedEntries(tokens: map<string, TokenValue>, dusdAmount: Amount,
                                  slippage: Slippage, cfg: Config)
    requires cfg.WellFormed()
    ensures Mint(Sanitize(tokens), dusdAmount, slippage, cfg) == Mint(tokens, dusdAmount, slippage, cfg)
  {
    SanitizeIdempotent(tokens);
  }

  /** `calcExpectedMintAmount(tokens)`: the zap's `calcMint` on the same
      dense vector `mint` would send. */
  function CalcExpectedMintAmount(tokens: map<string, TokenValue>, cfg: Config): (r: Result<Call, Error>)
    requires cfg.WellFormed()
    ensures r.Success? <==> CoinsListed(Sanitize(tokens), cfg)
    ensures r.Failure? ==> r.error == BadCoins
    ensures r.Success? ==> r.value.ZapCalcMint? && |r.value.inAmounts| == 3
  {
    var inAmounts :- ProcessAmounts(Sanitize(tokens), cfg);
    Success(ZapCalcMint(inAmounts))
  }

  /** The quote asks about exactly the vector a mint with valid slippage sends. */
  lemma CalcMintQuotesMint(tokens: map<string, TokenValue>, dusdAmount: Amount,
                           slippage: Slippage, cfg: Config)
    requires cfg.WellFormed()
    requires ValidSlippage(slippage)
    ensures CalcExpectedMintAmount(tokens, cfg).Success?
        <==> Mint(tokens, dusdAmount, slippage, cfg).Success?
    ensures CalcExpectedMintAmount(tokens, cfg).Success? ==>
      CalcExpectedMintAmount(tokens, cfg).value.inAmounts
        == Mint(tokens, dusdAmount, slippage, cfg).value.inAmounts
  {
  }

  /** Each slot of a dense vector cut by the slippage, as `redeem` does with
      `adjustForSlippage(a, null, slippage)`. */
  function AdjustEach(amounts: seq<nat>, slippage: Slippage): (r: Result<seq<nat>, Error>)
    ensures r.Success? <==> amounts == [] || ValidSlippage(slippage)
    ensures r.Failure? ==> r.error == InvalidSlippage
    ensures r.Success? ==> |r.value| == |amounts|
    ensures r.Success? ==> forall i :: 0 <= i < |amounts| ==>
      && r.value[i] == AdjustForSlippage(OfInteger(amounts[i]), None, slippage).value
      && r.value[i] <= amounts[i]
      && r.value[i] * TenThousand <= amounts[i] * (TenThousand - slippage.bps)
         < (r.value[i] + 1) * TenThousand
  {
    if amounts == [] then Success([])
    else if !ValidSlippage(slippage) then Failure(InvalidSlippage)
    else
      var head := AdjustForSlippage(OfInteger(amounts[0]), None, slippage).value;
      var tail := AdjustEach(amounts[1..], slippage).value;
      AdjustBounded(OfInteger(amounts[0]), None, slippage);
      Success([head] + tail)
  }

  /** A zero slot stays zero after the slippage cut. */
  lemma AdjustEachKeepsZeros(amounts: seq<nat>, slippage: Slippage, i: nat)
    requires ValidSlippage(slippage)
    requires i < |amounts| && amounts[i] == 0
    ensures AdjustEach(amounts, slippage).value[i] == 0
  {
  }

  /** `redeem(dusdAmount, tokens, slippage)`: with exactly one coin left after
      sanitizing, the zap's `redeemInSingleCoin` at that coin's index with
      its slippage-bounded amount; otherwise the zap's `redeem` with every
      slot of the dense vector slippage-bounded. The DUSD burnt is the wei
      value of `dusdAmount`. */
  function Redeem(dusdAmount: Amount, tokens: map<string, TokenValue>, slippage: Slippage, cfg: Config)
    : (r: Result<Call, Error>)
    requires cfg.WellFormed()
    ensures r.Success? ==> (r.value.ZapRedeem? || r.value.ZapRedeemInSingleCoin?)
    ensures r.Success? ==> r.value.dusd == dusdAmount.wei
    ensures r.Success? ==> (r.value.ZapRedeemInSingleCoin? <==> |Sanitize(tokens)| == 1)
    ensures |Sanitize(tokens)| != 1 ==>
      (r.Success? <==> CoinsListed(Sanitize(tokens), cfg) && ValidSlippage(slippage))
    ensures |Sanitize(tokens)| != 1 && r.Failure? ==>
      r.error == (if CoinsListed(Sanitize(tokens), cfg) then InvalidSlippage else BadCoins)
    ensures |Sanitize(tokens)| == 1 ==>
      (r.Success? <==> OnlyKey(Sanitize(tokens).Keys) in cfg.tokens && ValidSlippage(slippage))
    ensures |Sanitize(tokens)| == 1 && r.Failure? ==>
      r.error == (if OnlyKey(Sanitize(tokens).Keys) in cfg.tokens then InvalidSlippage else UnknownToken)
  {
    var kept := Sanitize(tokens);
    var dusd := dusdAmount.wei;
    if |kept| == 1 then
      var c := OnlyKey(kept.Keys);
      var index := FirstIndex(cfg.coins, c);
      if c !in cfg.tokens then
        Failure(UnknownToken)
      else
        var minAmount :- AdjustForSlippage(kept[c].amount, Some(cfg.tokens[c].decimals), slippage);
        Success(ZapRedeemInSingleCoin(dusd, index, minAmount))
    else
      var amounts :- ProcessAmounts(kept, cfg);
      var minAmounts :- AdjustEach(amounts, slippage);
      Success(ZapRedeem(dusd, minAmounts))
  }

  /** Redeeming into one listed coin names that coin's first position in the
      coin list and asks for at least its slippage-bounded amount. */
  lemma RedeemSingleCoin(dusdAmount: Amount, tokens: map<string, TokenValue>, slippage: Slippage,
                         cfg: Config, c: string)
    requires cfg.WellFormed()
    requires Sanitize(tokens).Keys == {c}
    requires c in cfg.coins
    requires ValidSlippage(slippage)
    ensures var r := Redeem(dusdAmount, tokens, slippage, cfg);
      && r.Success? && r.value.ZapRedeemInSingleCoin?
      && 0 <= r.value.index < 3 && cfg.coins[r.value.index] == c
      && c !in cfg.coins[..r.value.index]
      && r.value.minAmount
         == AdjustForSlippage(tokens[c].amount, Some(cfg.tokens[c].decimals), slippage).value
      && r.value.minAmount <= Operand(tokens[c].amount, Some(cfg.tokens[c].decimals))
  {
    var kept := Sanitize(tokens);
    assert |kept.Keys| == 1;
    assert OnlyKey(kept.Keys) == c;
    AdjustBounded(tokens[c].amount, Some(cfg.tokens[c].decimals), slippage);
  }

  /** Redeeming into several coins (or none) asks, slot by slot, for the
      slot cut by the slippage: never more than the dense vector, and nothing
      where the vector is zero. */
  lemma RedeemMultiCoin(dusdAmount: Amount, tokens: map<string, TokenValue>, slippage: Slippage,
                        cfg: Config)
    requires cfg.WellFormed()
    requires |Sanitize(tokens)| != 1
    requires CoinsListed(Sanitize(tokens), cfg)
    requires ValidSlippage(slippage)
    ensures var r := Redeem(dusdAmount, tokens, slippage, cfg);
      var v := ProcessAmounts(Sanitize(tokens), cfg).value;
      && r.Success? && r.value.ZapRedeem?
      && |r.value.minAmounts| == |v| == 3
      && (forall i :: 0 <= i < 3 ==>
           r.value.minAmounts[i] == AdjustForSlippage(OfInteger(v[i]), None, slippage).value)
      && (forall i :: 0 <= i < 3 ==>
           r.value.minAmounts[i] * TenThousand <= v[i] * (TenThousand - slippage.bps)
           < (r.value.minAmounts[i] + 1) * TenThousand)
      && (forall i :: 0 <= i < 3 ==>
           r.value.minAmounts[i] <= v[i] && (v[i] == 0 ==> r.value.minAmounts[i] == 0))
  {
    var v := ProcessAmounts(Sanitize(tokens), cfg).value;
    var m := AdjustEach(v, slippage).value;
    forall i | 0 <= i < 3 ensures v[i] == 0 ==> m[i] == 0 {
      if v[i] == 0 {
        AdjustEachKeepsZeros(v, slippage, i);
      }
    }
  }

  /** A falsy token id: `null`, `undefined` or the empty string. */
  predicate TruthyToken(token: Option<string>) {
    token.Some? && token.value != ""
  }

  /** `calcExpectedRedeemAmount(dusdAmount, token)`: with no token, the
      all-coin `calcRedeem`; with a listed coin, `calcRedeemInSingleCoin` at
      its first position in the coin list; any other token fails. */
  function CalcExpectedRedeemAmount(dusdAmount: Amount, token: Option<string>, cfg: Config)
    : (r: Result<Call, Error>)
    ensures r.Failure? <==> TruthyToken(token) && token.value !in cfg.coins
    ensures r.Failure? ==> r.error == InvalidToken
    ensures r.Success? && !TruthyToken(token) ==> r.value == ZapCalcRedeem(dusdAmount.wei)
    ensures r.Success? && TruthyToken(token) ==>
      && r.value.ZapCalcRedeemInSingleCoin?
      && r.value.dusd == dusdAmount.wei
      && 0 <= r.value.index < |cfg.coins|
      && cfg.coins[r.value.index] == token.value
      && token.value !in cfg.coins[..r.value.index]
  {
    var dusd := dusdAmount.wei;
    if !TruthyToken(token) then
      Success(ZapCalcRedeem(dusd))
    else if token.value in cfg.coins then
      Success(ZapCalcRedeemInSingleCoin(dusd, FirstIndex(cfg.coins, token.value)))
    else
      Failure(InvalidToken)
  }

  /** The quote for one listed coin asks about the same DUSD amount and the
      same coin index that redeeming into that coin alone sends. */
  lemma CalcRedeemQuotesRedeem(dusdAmount: Amount, tokens: map<string, TokenValue>,
                               slippage: Slippage, cfg: Config, c: string)
    requires cfg.WellFormed()
    requires Sanitize(tokens).Keys == {c}
    requires c in cfg.coins && c != ""
    requires ValidSlippage(slippage)
    ensures var q := CalcExpectedRedeemAmount(dusdAmount, Some(c), cfg);
      var r := Redeem(dusdAmount, tokens, slippage, cfg);
      && q.Success? && r.Success?
      && q.value == ZapCalcRedeemInSingleCoin(r.value.dusd, r.value.index)
  {
    var kept := Sanitize(tokens);
    assert |kept.Keys| == 1;
    assert OnlyKey(kept.Keys) == c;
    var m :| AdjustForSlippage(kept[c].amount, Some(cfg.tokens[c].decimals), slippage) == Success(m);
    assert Redeem(dusdAmount, tokens, slippage, cfg)
        == Success(ZapRedeemInSingleCoin(dusdAmount.wei, FirstIndex(cfg.coins, c), m));
  }

  /** What the core contract reports about the peak, and what `ceiling()`
      returns: the ceiling and the headroom left under it. */
  datatype CeilingInfo = CeilingInfo(ceiling: nat, available: nat)

  /** `ceiling()`: the DUSD the peak may still mint, `ceiling - amount`, or
      0 once the amount has reached the ceiling. */
  function Ceiling(ceiling: nat, amount: nat): (r: CeilingInfo)
    ensures r.ceiling == ceiling
    ensures r.available == 0 <==> ceiling <= amount
    ensures r.available > 0 ==> amount + r.available == ceiling
  {
    CeilingInfo(ceiling, if ceiling > amount then ceiling - amount else 0)
  }

  /** The headroom is the most that can still be added under the ceiling. */
  lemma CeilingIsMaximalHeadroom(ceiling: nat, amount: nat, x: nat)
    requires amount + x <= ceiling
    ensures x <= Ceiling(ceiling, amount).available
  {
  }

  /** A token id already shaped like an address. */
  predicate HexPrefixed(token: string) {
    |token| >= 2 && token[..2] == "0x"
  }

  /** `_processTokenId(token)`: an id starting with "0x" is an address and
      passes unchanged; any other id is looked up in the registry, and an
      unregistered one fails. */
  function ProcessTokenId(token: string, cfg: Config): (r: Result<string, Error>)
    ensures HexPrefixed(token) ==> r == Success(token)
    ensures !HexPrefixed(token) ==> (r.Success? <==> token in cfg.tokens)
    ensures !HexPrefixed(token) && r.Success? ==> r.value == cfg.tokens[token].address
    ensures r.Failure? ==> r.error == UnknownToken
  {
    if |token| >= 2 && token[..2] == "0x" then Success(token)
    else if token in cfg.tokens then Success(cfg.tokens[token].address)
    else Failure(UnknownToken)
  }

  /** When every registered address starts with "0x", resolving a resolved
      id again changes nothing. */
  lemma ProcessTokenIdIdempotent(token: string, cfg: Config)
    requires forall t :: t in cfg.tokens ==> HexPrefixed(cfg.tokens[t].address)
    requires ProcessTokenId(token, cfg).Success?
    ensures ProcessTokenId(ProcessTokenId(token, cfg).value, cfg) == ProcessTokenId(token, cfg)
  {
  }

  /** `approve(token, spender, amount, decimals)`: approve `spender` on the
      resolved token for the amount scaled to `decimals` when `decimals` is
      truthy, or for the amount as an integer otherwise. An empty resolved
      address fails. */
  function Approve(token: string, spender: string, amount: Amount, decimals: Option<nat>, cfg: Config)
    : (r: Result<Call, Error>)
    ensures r.Success? <==> ProcessTokenId(token, cfg).Success? && ProcessTokenId(token, cfg).value != ""
    ensures r.Success? ==>
      && r.value.Erc20Approve?
      && r.value.token == ProcessTokenId(token, cfg).value
      && r.value.spender == spender
      && (Truthy(decimals) ==> r.value.amount == Scale(amount.wei, decimals.value))
      && (!Truthy(decimals) ==> r.value.amount == amount.integer)
  {
    var address :- ProcessTokenId(token, cfg);
    if address == "" then Failure(UnknownToken)
    else Success(Erc20Approve(address, spender, Operand(amount, decimals)))
  }

  /** An approval with decimals at most 18 never exceeds the wei value and
      falls short of it by less than one unit at that precision. */
  lemma ApproveScalesDown(token: string, spender: string, amount: Amount, d: nat, cfg: Config)
    requires 0 < d <= 18
    requires Approve(token, spender, amount, Some(d), cfg).Success?
    ensures var a := Approve(token, spender, amount, Some(d), cfg).value.amount;
      Unscale(a, d) <= amount.wei < Unscale(a, d) + Pow10(18 - d)
  {
    ScaleRoundTrip(amount.wei, d);
  }

  /** `balanceOf(token, account)`: the token's `balanceOf`, after the same
      resolution and empty-address check as `approve`. */
  function BalanceOf(token: string, account: string, cfg: Config): (r: Result<Call, Error>)
    ensures r.Success? <==> ProcessTokenId(token, cfg).Success? && ProcessTokenId(token, cfg).value != ""
    ensures r.Success? ==> r.value == Erc20BalanceOf(ProcessTokenId(token, cfg).value, account)
  {
    var address :- ProcessTokenId(token, cfg);
    if address == "" then Failure(UnknownToken)
    else Success(Erc20BalanceOf(address, account))
  }

  /** `allowance(token, account, spender)`: the token's `allowance`, after
      resolution only (no empty-address check). */
  function Allowance(token: string, owner: string, spender: string, cfg: Config): (r: Result<Call, Error>)
    ensures r.Success? <==> ProcessTokenId(token, cfg).Success?
    ensures r.Success? ==> r.value == Erc20Allowance(ProcessTokenId(token, cfg).value, owner, spender)
  {
    var address :- ProcessTokenId(token, cfg);
    Success(Erc20Allowance(address, owner, spender))
  }

  /** `allowance` resolves a token wherever `balanceOf` does, and on the same
      address; only `balanceOf` refuses an empty address. */
  lemma BalanceOfImpliesAllowance(token: string, account: string, spender: string, cfg: Config)
    ensures BalanceOf(token, account, cfg).Success? ==>
      Allowance(token, account, spender, cfg).Success? &&
      Allowance(token, account, spender, cfg).value.token == BalanceOf(token, account, cfg).value.token
    ensures ProcessTokenId(token, cfg) == Success("") ==>
      BalanceOf(token, account, cfg).Failure? &&
      Allowance(token, account, spender, cfg) == Success(Erc20Allowance("", account, spender))
  {
  }
}
