/** `SavingsClient`: deposits into and withdrawals from the ibDUSD savings
    vault, and the share arithmetic on the vault's price per full share (a
    share's worth in DUSD wei, scaled by 10^18). */
module SavingsClient {
  import opened Results
  import opened Utils
  import opened ClientBase
  import opened Calls
  import DefiDollarClient

  /** The vault and DUSD token addresses the client is built with. */
  predicate SavingsConfigured(cfg: Config) {
    "DUSD" in cfg.tokens && "ibDUSD" in cfg.tokens
  }

  /** `deposit(amount)`: the vault's `deposit` of the wei value of `amount`. */
  function Deposit(amount: Amount): Call
  {
    VaultDeposit(amount.wei)
  }

  /** `mintAndDeposit(tokens, dusdAmount, slippage)`: mint DUSD through the
      zap and deposit it in one call, with the same amounts and the same
      minimum as `mint`. */
  function MintAndDeposit(tokens: map<string, TokenValue>, dusdAmount: Amount, slippage: Slippage,
                          cfg: Config): (r: Result<Call, Error>)
    requires cfg.WellFormed()
    ensures !ValidSlippage(slippage) ==> r == Failure(InvalidSlippage)
    ensures ValidSlippage(slippage) ==> (r.Success? <==> CoinsListed(Sanitize(tokens), cfg))
    ensures r.Success? ==> r.value.ZapDeposit? && r.value.minDusd <= dusdAmount.wei
  {
    var kept := Sanitize(tokens);
    var minDusd :- AdjustForSlippage(dusdAmount, Some(18), slippage);
    var inAmounts :- ProcessAmounts(kept, cfg);
    AdjustBounded(dusdAmount, Some(18), slippage);
    Success(ZapDeposit(inAmounts, minDusd))
  }

  /** `mintAndDeposit` sends the zap exactly the arguments `mint` would. */
  lemma MintAndDepositMatchesMint(tokens: map<string, TokenValue>, dusdAmount: Amount,
                                  slippage: Slippage, cfg: Config)
    requires cfg.WellFormed()
    ensures var d := MintAndDeposit(tokens, dusdAmount, slippage, cfg);
      var m := DefiDollarClient.Mint(tokens, dusdAmount, slippage, cfg);
      && (d.Success? <==> m.Success?)
      && (d.Failure? ==> d.error == m.error)
      && (d.Success? ==> d.value.inAmounts == m.value.inAmounts && d.value.minDusd == m.value.minDusd)
  {
  }

  /** The shares worth `wei` of DUSD at `pricePerFullShare`: the amount
      scaled to 36 decimals, divided by the price and rounded down. */
  function SharesFor(wei: nat, pricePerFullShare: nat): (shares: nat)
    requires pricePerFullShare > 0
    ensures shares * pricePerFullShare <= wei * E18 < (shares + 1) * pricePerFullShare
  {
    E18IsPow10();
    MulDivExact(wei, E18);
    assert Scale(wei, 36) == wei * E18;
    DivBounds(Scale(wei, 36), pricePerFullShare);
    Scale(wei, 36) / pricePerFullShare
  }

  /** `withdraw(amount, isMax)`: the vault's `withdraw` of the whole share
      balance when `isMax` (ignoring `amount`), otherwise of the shares worth
      `amount`; the share balance and price are the vault's answers to
      `balanceOf` and `getPricePerFullShare`. A zero price fails the division. */
  function Withdraw(amount: Amount, isMax: bool, shareBalance: nat, pricePerFullShare: nat)
    : (r: Result<Call, Error>)
    ensures isMax ==> r == Success(VaultWithdraw(shareBalance))
    ensures !isMax ==> (r.Failure? <==> pricePerFullShare == 0)
    ensures r.Failure? ==> r.error == DivisionByZero
    ensures !isMax && r.Success? ==>
      && r.value.VaultWithdraw?
      && r.value.shares * pricePerFullShare <= amount.wei * E18
      && amount.wei * E18 < (r.value.shares + 1) * pricePerFullShare
  {
    if isMax then Success(VaultWithdraw(shareBalance))
    else if pricePerFullShare == 0 then Failure(DivisionByZero)
    else Success(VaultWithdraw(SharesFor(amount.wei, pricePerFullShare)))
  }

  /** The DUSD wei `ibDusd` shares are worth at `pricePerFullShare`,
      rounded down. */
  function Withdrawable(ibDusd: nat, pricePerFullShare: nat): (w: nat)
    ensures w * E18 <= ibDusd * pricePerFullShare < (w + 1) * E18
  {
    DivBounds(ibDusd * pricePerFullShare, E18);
    ibDusd * pricePerFullShare / E18
  }

  /** What `balanceOf(account)` returns, all in wei. */
  datatype Balances = Balances(ibDusd: nat, withdrawable: nat, dusd: nat)

  /** `balanceOf(account)`: the share balance and wallet DUSD as read, and
      the DUSD the shares can be withdrawn for at the current price. */
  function BalanceOf(ibDusd: nat, pricePerFullShare: nat, dusd: nat): (b: Balances)
    ensures b.ibDusd == ibDusd && b.dusd == dusd
    ensures b.withdrawable * E18 <= ibDusd * pricePerFullShare < (b.withdrawable + 1) * E18
  {
    Balances(ibDusd, Withdrawable(ibDusd, pricePerFullShare), dusd)
  }

  /** Withdrawing the shares computed for an amount never pays out more
      than the amount asked for. */
  lemma WithdrawWithinRequest(wei: nat, pricePerFullShare: nat)
    requires pricePerFullShare > 0
    ensures Withdrawable(SharesFor(wei, pricePerFullShare), pricePerFullShare) <= wei
  {
  }

  /** At a price of exactly one DUSD per share, shares and DUSD coincide. */
  lemma SharesAtPar(wei: nat)
    ensures SharesFor(wei, E18) == wei
    ensures Withdrawable(wei, E18) == wei
  {
    DivUnique(wei * E18, E18, wei);
    DivUnique(SharesFor(wei, E18) * E18, E18, SharesFor(wei, E18));
  }

  /** `approve(amount, trust)`: approve the vault to spend DUSD, for the
      amount as an integer when `trust` is set and for its wei value
      otherwise. */
  function Approve(amount: Amount, trust: bool, cfg: Config): (r: Call)
    requires SavingsConfigured(cfg)
    ensures r.Erc20Approve?
    ensures r.token == cfg.tokens["DUSD"].address && r.spender == cfg.tokens["ibDUSD"].address
    ensures trust ==> r.amount == amount.integer
    ensures !trust ==> r.amount == amount.wei
  {
    Erc20Approve(cfg.tokens["DUSD"].address, cfg.tokens["ibDUSD"].address,
                 if trust then amount.integer else amount.wei)
  }

  /** An untrusted approval of an amount allows the vault exactly what a
      deposit of that amount draws, and a deposit of `n` whole DUSD draws
      `n * 10^18` wei. */
  lemma UntrustedApprovalCoversDeposit(amount: Amount, n: nat, cfg: Config)
    requires SavingsConfigured(cfg)
    ensures Approve(amount, false, cfg).amount == Deposit(amount).amount
    ensures Approve(amount, false, cfg).spender == cfg.tokens["ibDUSD"].address
    ensures Deposit(OfInteger(n)).amount == n * E18
  {
  }
}
