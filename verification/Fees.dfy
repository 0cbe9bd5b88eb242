/** The Token-2022 transfer fee: a share of the amount rounded up, at most a cap. */
module Fees {
  datatype FeeConfig = FeeConfig(bps: nat, cap: nat)

  const ONE_IN_BPS := 10_000

  ghost predicate ValidFee(config: FeeConfig) {
    config.bps <= ONE_IN_BPS
  }

  function Fee(config: FeeConfig, amount: nat): (fee: nat)
  {
    var share := (amount * config.bps + ONE_IN_BPS - 1) / ONE_IN_BPS;
    if share < config.cap then share else config.cap
  }

  lemma {:induction false} FeeAtMostAmount(config: FeeConfig, amount: nat)
    requires ValidFee(config)
    ensures Fee(config, amount) <= amount
  {
    ShareMonotone(amount, config.bps, ONE_IN_BPS);
  }

  lemma {:induction false} ShareMonotone(amount: nat, lo: nat, hi: nat)
    requires lo <= hi
    ensures amount * lo <= amount * hi
  {
  }
}
