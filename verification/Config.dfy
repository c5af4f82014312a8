/** The wallet's configuration of balances. */
module Config {
  import opened Amounts

  datatype Tunables = Tunables(
    custodialBalanceLimit: Amount,
    rebalanceMin: Amount,
    onChainReceiveThreshold: Amount,
    enableAmountlessReceiveOnChain: bool)

  /** The wallet's default configuration. */
  const DEFAULT_TUNABLES := Tunables(FromSats(100_000), FromSats(5_000), FromSats(10_000), true)
}
