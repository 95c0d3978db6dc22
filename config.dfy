/** The tunable thresholds of the popup's `CONFIG` block, and the other constants it declares. */
module Config {
  /** How long a fetched pair record stays cached, in milliseconds. */
  const CacheTtlMs: int := 10000
  /** Minimum SOL-equivalent liquidity before "thin liquidity" is flagged. */
  const MinLiquiditySol: real := 2.0
  /** FDV / USD liquidity above this is "FDV/liquidity skewed". */
  const MaxFdvToLiquidity: real := 50.0
  /** Minimum number of transactions in the last 5 minutes. */
  const MinTransactions5m: real := 10.0
  /** Minimum USD volume in the last 5 minutes (also the 1h volume floor of the imbalance test). */
  const MinVolume5mUsd: real := 500.0
  /** Length cap of the recent-scans list. */
  const RecentLimit: nat := 8
  /** SOL price used when the pair carries no usable one. */
  const DefaultSolPriceUsd: real := 150.0
  /** Pairs younger than this many hours are "fresh launch". */
  const MinPairAgeHours: real := 12.0
  /** 1h volume / USD liquidity above this is a "volume/liquidity imbalance". */
  const VolumeLiquidityAlert: real := 1.5
  /** sells / (buys + sells) above this is "sell pressure". */
  const SellPressureRatio: real := 0.7
  /** Minimum 5-minute trade count before sell pressure is judged. */
  const MinTradesForPressure: real := 20.0

  /** Milliseconds in an hour: the divisor of a pair age in hours, and the length of a `timeAgo` hour. */
  const MsPerHour: int := 3600000

  /** The wrapped-SOL mint address, exactly as the popup spells it. */
  const SolMint: string := "So11111111111111111111111111111111111111112"
  /** Prefix of every durable cache key. */
  const CacheKeyPrefix: string := "dex-cache:"
}
