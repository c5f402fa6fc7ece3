/** The outgoing contract calls, as plain descriptors. The clients hand
    these to a web3 transaction sender or caller, which is not modelled: a
    descriptor records which contract method is chosen and with which
    arguments. */
module Calls {

  datatype Call =
    // NerveZap, on behalf of the DUSD peak
    | ZapMint(inAmounts: seq<nat>, minDusd: nat)
    | ZapCalcMint(inAmounts: seq<nat>)
    | ZapRedeem(dusd: nat, minAmounts: seq<nat>)
    | ZapRedeemInSingleCoin(dusd: nat, index: int, minAmount: nat)
    | ZapCalcRedeem(dusd: nat)
    | ZapCalcRedeemInSingleCoin(dusd: nat, index: int)
    | ZapDeposit(inAmounts: seq<nat>, minDusd: nat)
    // ibDUSD savings vault
    | VaultDeposit(amount: nat)
    | VaultWithdraw(shares: nat)
    // an ERC-20 token contract at `token`
    | Erc20BalanceOf(token: string, account: string)
    | Erc20Allowance(token: string, owner: string, spender: string)
    | Erc20Approve(token: string, spender: string, amount: nat)
}
