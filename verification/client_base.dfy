/** `ClientBase`: the slippage bound, the dense amount vector and the token
    sanitizer shared by both clients, together with the values they work on. */
module ClientBase {
  import opened Results
  import opened Utils

  /** Why a client operation fails (the message texts are not modelled). */
  datatype Error =
    | InvalidSlippage    // slippage is NaN, below 0 or above 100
    | BadCoins           // an amount names a coin outside the peak's coin list
    | UnknownToken       // a token id with no usable configured address
    | InvalidToken       // calcExpectedRedeemAmount got an unlisted coin
    | DivisionByZero     // big-number division by a zero share price

  /** The two integer readings the client can take of one amount argument:
      `toWei(amount)`, the 18-decimal value of a human decimal, and
      `toBN(amount)`, the argument taken as an integer as it stands. Both
      conversions are foreign library code, so the readings are given. */
  datatype Amount = Amount(wei: nat, integer: nat)

  /** An integer `n` (a big number or its decimal string) read both ways. */
  function OfInteger(n: nat): (a: Amount)
    ensures a.integer == n && a.wei / E18 == n && a.wei % E18 == 0
  {
    MulDivExact(n, E18);
    Amount(n * E18, n)
  }

  /** One value of a `{ BUSD: '6.1', ... }` map: whether JavaScript finds it
      truthy, whether `parseFloat` gives a number rather than NaN, and the
      amount it denotes. */
  datatype TokenValue = TokenValue(truthy: bool, parsesAsNumber: bool, amount: Amount)

  /** `parseFloat(slippage)`: either NaN or a percentage, held here in
      integer basis points (hundredths of a percent). */
  datatype Slippage = NotANumber | Bps(bps: int)

  /** A configured token: its contract address and its decimals. */
  datatype TokenInfo = TokenInfo(address: string, decimals: nat)

  /** The configuration both clients read: the peak's ordered coin list and
      the token registry keyed by symbol. */
  datatype Config = Config(coins: seq<string>, tokens: map<string, TokenInfo>) {

    /** The peak takes exactly three coins, each of them registered. */
    predicate WellFormed() {
      |coins| == 3 && forall i :: 0 <= i < |coins| ==> coins[i] in tokens
    }
  }

  /** JavaScript truthiness of a `decimals` argument: `null` and `0` are falsy. */
  predicate Truthy(decimals: Option<nat>) {
    decimals.Some? && decimals.value != 0
  }

  /** A slippage that passes the validation of `adjustForSlippage`. */
  predicate ValidSlippage(s: Slippage) {
    s.Bps? && 0 <= s.bps <= TenThousand
  }

  /** The integer `adjustForSlippage` works on: the amount scaled to
      `decimals` when `decimals` is truthy, the amount as an integer otherwise. */
  function Operand(amount: Amount, decimals: Option<nat>): nat {
    if Truthy(decimals) then Scale(amount.wei, decimals.value) else amount.integer
  }

  /** `adjustForSlippage(amount, decimals, slippage)`: the minimum acceptable
      amount, the operand cut by the slippage in basis points and rounded
      down. The validation comes first, so an invalid slippage fails
      whatever the amount. */
  function AdjustForSlippage(amount: Amount, decimals: Option<nat>, slippage: Slippage): (r: Result<nat, Error>)
    ensures r.Failure? <==> !ValidSlippage(slippage)
    ensures r.Failure? ==> r.error == InvalidSlippage
    ensures r.Success? ==>
      r.value * TenThousand <= Operand(amount, decimals) * (TenThousand - slippage.bps)
      < (r.value + 1) * TenThousand
  {
    if slippage.NotANumber? || slippage.bps < 0 || slippage.bps > 100 * 100 then
      Failure(InvalidSlippage)
    else
      var operand := Operand(amount, decimals);
      if operand == 0 || slippage.bps == 0 then
        Success(operand)
      else
        var r := operand * (TenThousand - slippage.bps) / TenThousand;
        DivBounds(operand * (TenThousand - slippage.bps), TenThousand);
        Success(r)
  }

  /** The slippage bound never exceeds the unslipped operand. */
  lemma AdjustBounded(amount: Amount, decimals: Option<nat>, slippage: Slippage)
    requires ValidSlippage(slippage)
    ensures AdjustForSlippage(amount, decimals, slippage).value <= Operand(amount, decimals)
  {
    var x := Operand(amount, decimals);
    var r := AdjustForSlippage(amount, decimals, slippage).value;
    MulMonotone(TenThousand - slippage.bps, TenThousand, x);
  }

  /** Zero slippage asks for the exact operand. */
  lemma AdjustZeroSlippage(amount: Amount, decimals: Option<nat>)
    ensures AdjustForSlippage(amount, decimals, Bps(0)) == Success(Operand(amount, decimals))
  {
  }

  /** A zero operand stays zero under any valid slippage. */
  lemma AdjustZeroAmount(amount: Amount, decimals: Option<nat>, slippage: Slippage)
    requires ValidSlippage(slippage)
    requires Operand(amount, decimals) == 0
    ensures AdjustForSlippage(amount, decimals, slippage) == Success(0)
  {
  }

  /** At 100% slippage any amount is acceptable. */
  lemma AdjustFullSlippage(amount: Amount, decimals: Option<nat>)
    ensures AdjustForSlippage(amount, decimals, Bps(10_000)) == Success(0)
  {
  }

  /** A falsy `decimals` (null or 0) takes the amount as an integer, exactly
      as if no decimals were given. */
  lemma AdjustFalsyDecimals(amount: Amount, decimals: Option<nat>, slippage: Slippage)
    requires !Truthy(decimals)
    ensures AdjustForSlippage(amount, decimals, slippage)
         == AdjustForSlippage(Amount(0, amount.integer), None, slippage)
  {
  }

  /** For a fixed amount, more slippage never raises the minimum. */
  lemma AdjustMonotone(amount: Amount, decimals: Option<nat>, s1: Slippage, s2: Slippage)
    requires ValidSlippage(s1) && ValidSlippage(s2)
    requires s1.bps <= s2.bps
    ensures AdjustForSlippage(amount, decimals, s2).value
         <= AdjustForSlippage(amount, decimals, s1).value
  {
    var x := Operand(amount, decimals);
    var r1 := AdjustForSlippage(amount, decimals, s1).value;
    var r2 := AdjustForSlippage(amount, decimals, s2).value;
    MulMonotone(TenThousand - s2.bps, TenThousand - s1.bps, x);
    DivUnique(x * (TenThousand - s1.bps), TenThousand, r1);
    DivUnique(x * (TenThousand - s2.bps), TenThousand, r2);
    DivMonotone(x * (TenThousand - s2.bps), x * (TenThousand - s1.bps), TenThousand);
  }

  /** The amount an entry of the map contributes to its coin's slot. */
  function Slot(tokens: map<string, TokenValue>, cfg: Config, coin: string): nat
    requires coin in cfg.tokens
  {
    if coin in tokens && tokens[coin].truthy then
      Scale(tokens[coin].amount.wei, cfg.tokens[coin].decimals)
    else
      0
  }

  /** The slots of `coins`, in order. */
  function DenseAmounts(tokens: map<string, TokenValue>, cfg: Config, coins: seq<string>): (r: seq<nat>)
    requires forall i :: 0 <= i < |coins| ==> coins[i] in cfg.tokens
    ensures |r| == |coins|
    ensures forall i :: 0 <= i < |coins| ==> r[i] == Slot(tokens, cfg, coins[i])
  {
    if coins == [] then []
    else [Slot(tokens, cfg, coins[0])] + DenseAmounts(tokens, cfg, coins[1..])
  }

  /** Every key of the map is one of the peak's coins. */
  predicate CoinsListed(tokens: map<string, TokenValue>, cfg: Config) {
    forall t :: t in tokens ==> t in cfg.coins
  }

  /** `_processAmounts(tokens)`: the sparse symbol-to-amount map as a dense
      vector in coin-list order, each present truthy entry scaled to its
      coin's decimals and 0 elsewhere; any key that is not a listed coin
      fails the whole call. */
  function ProcessAmounts(tokens: map<string, TokenValue>, cfg: Config): (r: Result<seq<nat>, Error>)
    requires cfg.WellFormed()
    ensures r.Failure? <==> exists t :: t in tokens && t !in cfg.coins
    ensures r.Failure? ==> r.error == BadCoins
    ensures r.Success? ==> |r.value| == |cfg.coins| == 3
    ensures r.Success? ==> forall i :: 0 <= i < |cfg.coins| ==>
      (cfg.coins[i] !in tokens || !tokens[cfg.coins[i]].truthy ==> r.value[i] == 0)
    ensures r.Success? ==> forall i :: 0 <= i < |cfg.coins| ==>
      var c := cfg.coins[i];
      (c in tokens && tokens[c].truthy ==>
         r.value[i] == Scale(tokens[c].amount.wei, cfg.tokens[c].decimals))
  {
    if !CoinsListed(tokens, cfg) then Failure(BadCoins)
    else Success(DenseAmounts(tokens, cfg, cfg.coins))
  }

  /** The entries `_sanitizeTokens` keeps: truthy and numeric. */
  predicate Keeps(v: TokenValue) {
    v.truthy && v.parsesAsNumber
  }

  /** `_sanitizeTokens(tokens)`: the map without its falsy entries and those
      `parseFloat` reads as NaN. The JavaScript deletes them in place; here
      the cleaned map is returned. */
  function Sanitize(tokens: map<string, TokenValue>): (r: map<string, TokenValue>)
    ensures r.Keys <= tokens.Keys
    ensures forall t :: t in r ==> r[t] == tokens[t]
    ensures forall t :: t in tokens ==> (t in r <==> Keeps(tokens[t]))
  {
    map t | t in tokens && Keeps(tokens[t]) :: tokens[t]
  }

  /** Sanitizing twice changes nothing more. */
  lemma SanitizeIdempotent(tokens: map<string, TokenValue>)
    ensures Sanitize(Sanitize(tokens)) == Sanitize(tokens)
  {
  }

  /** Dropping falsy entries does not change the vector: a falsy entry
      fills its slot with 0 just as a missing one does. */
  lemma ProcessAmountsAfterSanitize(tokens: map<string, TokenValue>, cfg: Config)
    requires cfg.WellFormed()
    requires forall t :: t in tokens && tokens[t].truthy ==> tokens[t].parsesAsNumber
    requires CoinsListed(tokens, cfg)
    ensures ProcessAmounts(Sanitize(tokens), cfg) == ProcessAmounts(tokens, cfg)
  {
    assert CoinsListed(Sanitize(tokens), cfg);
    var a := ProcessAmounts(Sanitize(tokens), cfg).value;
    var b := ProcessAmounts(tokens, cfg).value;
    assert forall i :: 0 <= i < 3 ==> a[i] == b[i];
    assert a == b;
  }

  /** `{ BUSD: "1.5" }` over coins BUSD (18 decimals), USDT and USDC (6
      decimals each) gives 1.5e18 in the first slot and zeros elsewhere.
      `_processAmounts` reads only the wei value of an entry, so the integer
      reading is left at 0 here. */
  lemma ProcessAmountsExample()
    ensures
      var cfg := Config(["BUSD", "USDT", "USDC"],
                        map["BUSD" := TokenInfo("0xb", 18), "USDT" := TokenInfo("0xt", 6),
                            "USDC" := TokenInfo("0xc", 6)]);
      var tokens := map["BUSD" := TokenValue(true, true, Amount(1_500_000_000_000_000_000, 0))];
      ProcessAmounts(tokens, cfg) == Success([1_500_000_000_000_000_000, 0, 0])
  {
    var cfg := Config(["BUSD", "USDT", "USDC"],
                      map["BUSD" := TokenInfo("0xb", 18), "USDT" := TokenInfo("0xt", 6),
                          "USDC" := TokenInfo("0xc", 6)]);
    var tokens := map["BUSD" := TokenValue(true, true, Amount(1_500_000_000_000_000_000, 0))];
    assert CoinsListed(tokens, cfg);
    var v := ProcessAmounts(tokens, cfg).value;
    assert v[0] == 1_500_000_000_000_000_000;
    assert v == [1_500_000_000_000_000_000, 0, 0];
  }

  /** A key outside the coin list makes `_processAmounts` fail. */
  lemma ProcessAmountsRejectsFake(cfg: Config, v: TokenValue)
    requires cfg.WellFormed()
    requires "FAKE" !in cfg.coins
    ensures ProcessAmounts(map["FAKE" := v], cfg) == Failure(BadCoins)
  {
  }
}
