/** `grossForNet` of keeper/distributor/client.ts: how much to send so that `net` arrives. */
module GrossUp {
  import opened Fees

  const ROUNDS := 8

  /** Eight rounds of adding what still fails to arrive, stopping early once enough does. Each round reads the fee
      again: `configs[i]` is what round `i` finds. */
  method GrossForNet(configs: seq<FeeConfig>, net: nat) returns (gross: nat, ghost rounds: nat)
    requires |configs| == ROUNDS && forall i :: 0 <= i < ROUNDS ==> ValidFee(configs[i])
    ensures rounds <= ROUNDS && gross == Guess(configs, net, rounds)
    ensures forall i :: 0 <= i < rounds ==> !Delivers(configs[i], Guess(configs, net, i), net)
    ensures rounds < ROUNDS ==> Delivers(configs[rounds], gross, net)
    ensures forall enough: nat :: DeliversUnderAll(configs, enough, net) ==> gross <= enough
    ensures configs == Unchanged(configs[0]) ==> gross == Iterate(configs[0], net, ROUNDS)
    ensures configs == Unchanged(configs[0]) ==> (Delivers(configs[0], gross, net) <==> Reaches(configs[0], net))
    ensures configs == Unchanged(configs[0]) && Reaches(configs[0], net) ==> IsLeastGross(configs[0], net, gross)
  {
    hide Reaches, IsLeastGross, Fee;
    gross := net;
    var i := 0;
    while i < ROUNDS
      invariant 0 <= i <= ROUNDS && gross == Guess(configs, net, i)
      invariant forall j :: 0 <= j < i ==> !Delivers(configs[j], Guess(configs, net, j), net)
    {
      var arrives := Arrives(configs[i], gross);
      if arrives >= net {
        break;
      }
      gross := gross + (net - arrives);
      i := i + 1;
    }
    rounds := i;
    forall enough: nat | DeliversUnderAll(configs, enough, net)
      ensures gross <= enough
    {
      GuessStaysBelow(configs, net, rounds, enough);
    }
    if configs == Unchanged(configs[0]) {
      StoppedAt(configs[0], net, rounds);
    }
  }

  lemma {:induction false} StoppedAt(config: FeeConfig, net: nat, rounds: nat)
    requires ValidFee(config) && rounds <= ROUNDS
    requires rounds < ROUNDS ==> Delivers(config, Guess(Unchanged(config), net, rounds), net)
    ensures Guess(Unchanged(config), net, rounds) == Iterate(config, net, ROUNDS)
    ensures Delivers(config, Iterate(config, net, ROUNDS), net) <==> Reaches(config, net)
    ensures Reaches(config, net) ==> IsLeastGross(config, net, Iterate(config, net, ROUNDS))
  {
    hide Guess, Iterate, Reaches, Delivers, IsLeastGross;
    GuessIsIterate(config, net, rounds);
    if rounds < ROUNDS {
      StaysThere(config, net, rounds, ROUNDS - rounds);
    }
    ReachesIff(config, net);
  }

  /** The gross after `k` rounds, each under its own fee. */
  function Guess(configs: seq<FeeConfig>, net: nat, k: nat): nat
    requires k <= |configs|
  {
    if k == 0 then net else net + Fee(configs[k - 1], Guess(configs, net, k - 1))
  }

  ghost predicate DeliversUnderAll(configs: seq<FeeConfig>, gross: nat, net: nat) {
    forall i :: 0 <= i < |configs| ==> Delivers(configs[i], gross, net)
  }

  function Unchanged(config: FeeConfig): seq<FeeConfig> {
    seq(ROUNDS, _ => config)
  }

  lemma {:induction false} GuessStaysBelow(configs: seq<FeeConfig>, net: nat, k: nat, enough: nat)
    requires k <= |configs| && (forall i :: 0 <= i < |configs| ==> ValidFee(configs[i]))
    requires DeliversUnderAll(configs, enough, net) && (|configs| == 0 ==> net <= enough)
    ensures Guess(configs, net, k) <= enough
    decreases k
  {
    hide Fee;
    if k > 0 {
      var guess := Guess(configs, net, k - 1);
      GuessStaysBelow(configs, net, k - 1, enough);
      FeeGrows(configs[k - 1], guess, enough - guess);
      assert Delivers(configs[k - 1], enough, net);
    } else if |configs| > 0 {
      assert Delivers(configs[0], enough, net);
    }
  }

  lemma {:induction false} GuessIsIterate(config: FeeConfig, net: nat, k: nat)
    requires k <= ROUNDS
    ensures Guess(Unchanged(config), net, k) == Iterate(config, net, k)
    decreases k
  {
    hide Fee;
    if k > 0 {
      GuessIsIterate(config, net, k - 1);
    }
  }

  function Arrives(config: FeeConfig, gross: nat): int {
    gross - Fee(config, gross)
  }

  predicate Delivers(config: FeeConfig, gross: nat, net: nat) {
    Arrives(config, gross) >= net
  }

  ghost predicate IsLeastGross(config: FeeConfig, net: nat, gross: nat) {
    Delivers(config, gross, net) && forall other: nat :: other < gross ==> !Delivers(config, other, net)
  }

  /** The gross after `k` rounds of one and the same fee: the net plus the fee on the last guess. */
  function Iterate(config: FeeConfig, net: nat, k: nat): nat {
    if k == 0 then net else net + Fee(config, Iterate(config, net, k - 1))
  }

  // ---- the fee -------------------------------------------------------------------------------

  function Share(bps: nat, amount: nat): nat {
    (amount * bps + ONE_IN_BPS - 1) / ONE_IN_BPS
  }

  lemma {:induction false} ShareSplits(bps: nat, a: nat, b: nat)
    ensures Share(bps, a) <= Share(bps, a + b) <= Share(bps, a) + Share(bps, b)
  {
    assert (a + b) * bps == a * bps + b * bps;
    assert b * bps >= 0;
  }

  /** More sent, more withheld, by at most the share of what was added. */
  lemma {:induction false} FeeGrows(config: FeeConfig, a: nat, b: nat)
    ensures Fee(config, a) <= Fee(config, a + b) <= Fee(config, a) + Share(config.bps, b)
  {
    hide Share;
    FeeIsCapped(config, a);
    FeeIsCapped(config, a + b);
    ShareSplits(config.bps, a, b);
  }

  lemma {:induction false} FeeIsCapped(config: FeeConfig, amount: nat)
    ensures Fee(config, amount)
         == if Share(config.bps, amount) < config.cap then Share(config.bps, amount) else config.cap
  {
  }

  // ---- never too much --------------------------------------------------------------------------

  /** No round goes past any gross that delivers the net. */
  lemma {:induction false} NeverOvershoots(config: FeeConfig, net: nat, k: nat, enough: nat)
    requires ValidFee(config) && Delivers(config, enough, net)
    ensures Iterate(config, net, k) <= enough
    decreases k
  {
    hide Fee;
    if k > 0 {
      NeverOvershoots(config, net, k - 1, enough);
      FeeGrows(config, Iterate(config, net, k - 1), enough - Iterate(config, net, k - 1));
    }
  }

  lemma {:induction false} StaysThere(config: FeeConfig, net: nat, k: nat, more: nat)
    requires ValidFee(config) && Delivers(config, Iterate(config, net, k), net)
    ensures Iterate(config, net, k + more) == Iterate(config, net, k)
    decreases more
  {
    hide Fee;
    if more > 0 {
      StaysThere(config, net, k, more - 1);
      NeverOvershoots(config, net, k + 1, Iterate(config, net, k));
      StepsUp(config, net, k);
    }
  }

  lemma {:induction false} StepsUp(config: FeeConfig, net: nat, k: nat)
    ensures Iterate(config, net, k) <= Iterate(config, net, k + 1)
    decreases k
  {
    hide Fee;
    if k > 0 {
      StepsUp(config, net, k - 1);
      FeeGrows(config, Iterate(config, net, k - 1), Iterate(config, net, k) - Iterate(config, net, k - 1));
    }
  }

  /** Asking for more sends more: what a vault's measured funding grosses up to is at least what was sent to it. */
  lemma {:induction false} GrossIsMonotone(config: FeeConfig, net: nat, more: nat, k: nat)
    ensures Iterate(config, net, k) <= Iterate(config, net + more, k)
    decreases k
  {
    hide Fee;
    if k > 0 {
      GrossIsMonotone(config, net, more, k - 1);
      FeeGrows(config, Iterate(config, net, k - 1), Iterate(config, net + more, k - 1) - Iterate(config, net, k - 1));
    }
  }

  lemma {:induction false} GrossGrowsWithFee(earlier: FeeConfig, later: FeeConfig, net: nat, k: nat)
    requires forall amount: nat :: Fee(earlier, amount) <= Fee(later, amount)
    ensures Iterate(earlier, net, k) <= Iterate(later, net, k)
    decreases k
  {
    hide Fee;
    if k > 0 {
      GrossGrowsWithFee(earlier, later, net, k - 1);
      FeeGrows(later, Iterate(earlier, net, k - 1), Iterate(later, net, k - 1) - Iterate(earlier, net, k - 1));
    }
  }

  /** Sending more never lets less arrive. */
  lemma {:induction false} MoreDelivers(config: FeeConfig, a: nat, b: nat, net: nat)
    requires ValidFee(config) && a <= b && Delivers(config, a, net)
    ensures Delivers(config, b, net)
  {
    hide Fee, Share;
    FeeGrows(config, a, b - a);
    FeeIsCapped(config, b - a);
    ShareAtMost(config.bps, b - a);
  }

  lemma {:induction false} ShareAtMost(bps: nat, amount: nat)
    requires bps <= ONE_IN_BPS
    ensures Share(bps, amount) <= amount
  {
    assert amount * bps <= amount * ONE_IN_BPS;
  }

  lemma {:induction false} LeastIs(config: FeeConfig, net: nat, gross: nat)
    requires ValidFee(config) && gross > 0 && IsLeastGross(config, net, Iterate(config, net, ROUNDS))
    requires Delivers(config, gross, net) && !Delivers(config, gross - 1, net)
    ensures Iterate(config, net, ROUNDS) == gross
  {
    hide Fee, Iterate;
    if Iterate(config, net, ROUNDS) < gross {
      MoreDelivers(config, Iterate(config, net, ROUNDS), gross - 1, net);
    }
  }

  // ---- exactly when eight rounds are enough ------------------------------------------------------

  /** What a fee without a cap withholds from the least gross that delivers `net`. */
  function Withheld(bps: nat, net: nat): nat
    requires bps < ONE_IN_BPS
  {
    (net * bps + ONE_IN_BPS - bps - 1) / (ONE_IN_BPS - bps)
  }

  /** How far rounding that fee up carried it, in ten-thousandths of a unit. */
  function Slack(bps: nat, net: nat): (slack: nat)
    requires bps < ONE_IN_BPS
    ensures slack == ONE_IN_BPS * Withheld(bps, net) - bps * (net + Withheld(bps, net)) && slack + bps < ONE_IN_BPS
  {
    RoundedUp(bps, net);
    ONE_IN_BPS * Withheld(bps, net) - bps * (net + Withheld(bps, net))
  }

  lemma {:induction false} RoundedUp(bps: nat, net: nat)
    requires bps < ONE_IN_BPS
    ensures 0 <= ONE_IN_BPS * Withheld(bps, net) - bps * (net + Withheld(bps, net)) < ONE_IN_BPS - bps
  {
    var keeps := ONE_IN_BPS - bps;
    CeilingBounds(net * bps, keeps);
    var fee := Withheld(bps, net);
    assert keeps * fee == ONE_IN_BPS * fee - bps * fee;
    assert bps * (net + fee) == net * bps + bps * fee;
  }

  lemma {:induction false} CeilingBounds(a: nat, d: nat)
    requires d > 0
    ensures a <= d * ((a + d - 1) / d) < a + d
  {
  }

  /** What `rounds` rounds still leave of a missing `fee`: each keeps a share of it, the slack carried and the rest cut
      off. */
  function StillMissing(bps: nat, slack: nat, fee: nat, rounds: nat): nat {
    if rounds == 0 then fee else (StillMissing(bps, slack, fee, rounds - 1) * bps + slack) / ONE_IN_BPS
  }

  /** What a caller can work out first: eight rounds leave nothing of the fee missing, or no more than the cap
      forgives. */
  predicate Reaches(config: FeeConfig, net: nat)
    requires ValidFee(config)
  {
    if config.bps == ONE_IN_BPS then net == 0 || config.cap <= ROUNDS * net
    else
      var fee := Withheld(config.bps, net);
      var missing := StillMissing(config.bps, Slack(config.bps, net), fee, ROUNDS);
      missing == 0 || config.cap + missing <= fee
  }

  /** What eight rounds return, without running them. */
  function Returned(config: FeeConfig, net: nat): nat
    requires ValidFee(config)
  {
    if config.bps == ONE_IN_BPS then net + Least(ROUNDS * net, config.cap)
    else
      var fee := Withheld(config.bps, net);
      var missing := StillMissing(config.bps, Slack(config.bps, net), fee, ROUNDS);
      net + Least(if missing <= fee then fee - missing else 0, config.cap)
  }

  function Uncapped(bps: nat, net: nat, k: nat): nat {
    if k == 0 then net else net + Share(bps, Uncapped(bps, net, k - 1))
  }

  lemma {:induction false} ShareMonotone(bps: nat, a: nat, b: nat)
    requires a <= b
    ensures Share(bps, a) <= Share(bps, b)
  {
    ShareSplits(bps, a, b - a);
  }

  lemma {:induction false} UncappedStepsUp(bps: nat, net: nat, k: nat)
    ensures Uncapped(bps, net, k) <= Uncapped(bps, net, k + 1)
    decreases k
  {
    hide Share;
    if k > 0 {
      UncappedStepsUp(bps, net, k - 1);
      ShareMonotone(bps, Uncapped(bps, net, k - 1), Uncapped(bps, net, k));
    }
  }

  /** The cap only cuts the guesses off. */
  lemma {:induction false} CapCutsOff(config: FeeConfig, net: nat, k: nat)
    ensures Iterate(config, net, k) == Least(Uncapped(config.bps, net, k), net + config.cap)
    decreases k
  {
    hide Fee, Share;
    if k > 0 {
      CapCutsOff(config, net, k - 1);
      var last := Uncapped(config.bps, net, k - 1);
      FeeIsCapped(config, Iterate(config, net, k - 1));
      if last > net + config.cap {
        UncappedStepsUp(config.bps, net, k - 1);
        StepsUp(config, net, k - 1);
      }
    }
  }

  function Least(a: nat, b: nat): nat {
    if a <= b then a else b
  }

  /** Without a cap the guesses miss the fee by exactly what is still missing. */
  lemma {:induction false} UncappedMisses(bps: nat, net: nat, k: nat)
    requires bps < ONE_IN_BPS
    ensures StillMissing(bps, Slack(bps, net), Withheld(bps, net), k) <= Withheld(bps, net)
    ensures Uncapped(bps, net, k)
         == net + Withheld(bps, net) - StillMissing(bps, Slack(bps, net), Withheld(bps, net), k)
    decreases k
  {
    hide Withheld, Share;
    if k > 0 {
      UncappedMisses(bps, net, k - 1);
      var fee, slack := Withheld(bps, net), Slack(bps, net);
      ShareOfShort(bps, net, fee, slack, StillMissing(bps, slack, fee, k - 1));
    }
  }

  lemma {:induction false} ShareOfShort(bps: nat, net: nat, fee: nat, slack: nat, missing: nat)
    requires missing <= fee && slack == ONE_IN_BPS * fee - bps * (net + fee)
    ensures var rest := (missing * bps + slack) / ONE_IN_BPS;
      rest <= fee && Share(bps, net + fee - missing) == fee - rest
  {
    var rest := (missing * bps + slack) / ONE_IN_BPS;
    assert (net + fee - missing) * bps == bps * (net + fee) - missing * bps;
    assert missing * bps <= fee * bps;
    assert bps * (net + fee) == bps * net + fee * bps;
    assert bps * net >= 0;
    assert missing * bps + slack <= ONE_IN_BPS * fee;
    assert (net + fee - missing) * bps + ONE_IN_BPS - 1 == ONE_IN_BPS * fee - (missing * bps + slack) + ONE_IN_BPS - 1;
  }

  /** A round that helps no more has nothing left to help with. */
  lemma {:induction false} MissingShrinks(bps: nat, slack: nat, fee: nat, k: nat)
    requires bps + slack < ONE_IN_BPS
    ensures var missing := StillMissing(bps, slack, fee, k); var next := StillMissing(bps, slack, fee, k + 1);
      next <= missing && (next == missing <==> missing == 0)
  {
    var missing := StillMissing(bps, slack, fee, k);
    assert StillMissing(bps, slack, fee, k + 1) == (missing * bps + slack) / ONE_IN_BPS;
    hide StillMissing;
    RestIsLess(bps, slack, missing);
  }

  lemma {:induction false} RestIsLess(bps: nat, slack: nat, missing: nat)
    requires bps + slack < ONE_IN_BPS
    ensures (missing * bps + slack) / ONE_IN_BPS <= missing
    ensures (missing * bps + slack) / ONE_IN_BPS == missing <==> missing == 0
  {
    if missing > 0 {
      var left := ONE_IN_BPS - bps;
      assert missing * bps == missing * ONE_IN_BPS - missing * left;
      assert missing * left >= left;
    }
  }

  /** A fee of everything sent: each uncapped round adds the net once more. */
  lemma {:induction false} FullFee(net: nat, k: nat)
    ensures Uncapped(ONE_IN_BPS, net, k) == (k + 1) * net
    decreases k
  {
    if k > 0 {
      FullFee(net, k - 1);
      assert (k + 1) * net == net + k * net;
    }
  }

  /** A guess delivers exactly when another round would not change it. */
  lemma {:induction false} DeliversIff(config: FeeConfig, net: nat, k: nat)
    requires ValidFee(config)
    ensures Delivers(config, Iterate(config, net, k), net) <==> Iterate(config, net, k + 1) == Iterate(config, net, k)
  {
    hide Fee;
    StepsUp(config, net, k);
  }

  /** For every fee and every net: what is returned delivers, and then is the least gross that does, if and only if
      eight rounds reach the fee; and this is what is returned. */
  lemma {:induction false} ReachesIff(config: FeeConfig, net: nat)
    requires ValidFee(config)
    ensures Delivers(config, Iterate(config, net, ROUNDS), net) <==> Reaches(config, net)
    ensures IsLeastGross(config, net, Iterate(config, net, ROUNDS)) <==> Reaches(config, net)
    ensures Iterate(config, net, ROUNDS) == Returned(config, net)
  {
    hide Iterate, StillMissing, Withheld, Uncapped;
    DeliversIff(config, net, ROUNDS);
    CapCutsOff(config, net, ROUNDS);
    CapCutsOff(config, net, ROUNDS + 1);
    if config.bps < ONE_IN_BPS {
      UncappedMisses(config.bps, net, ROUNDS);
      UncappedMisses(config.bps, net, ROUNDS + 1);
      MissingShrinks(config.bps, Slack(config.bps, net), Withheld(config.bps, net), ROUNDS);
    } else {
      FullFee(net, ROUNDS);
      FullFee(net, ROUNDS + 1);
    }
    DeliveringIsLeast(config, net);
  }

  lemma {:induction false} DeliveringIsLeast(config: FeeConfig, net: nat)
    requires ValidFee(config)
    ensures IsLeastGross(config, net, Iterate(config, net, ROUNDS))
        <==> Delivers(config, Iterate(config, net, ROUNDS), net)
  {
    forall other: nat | Delivers(config, other, net)
      ensures Iterate(config, net, ROUNDS) <= other
    {
      NeverOvershoots(config, net, ROUNDS, other);
    }
  }

  /** The largest fee of which `rounds` rounds leave at most `left` missing. */
  function LargestFee(bps: nat, slack: nat, rounds: nat, left: nat): nat
    requires 0 < bps && bps + slack < ONE_IN_BPS
    decreases rounds
  {
    if rounds == 0 then left
    else LargestFee(bps, slack, rounds - 1, (left * ONE_IN_BPS + ONE_IN_BPS - 1 - slack) / bps)
  }

  lemma {:induction false} FeeFits(bps: nat, slack: nat, fee: nat, rounds: nat, left: nat)
    requires 0 < bps && bps + slack < ONE_IN_BPS
    ensures StillMissing(bps, slack, fee, rounds) <= left <==> fee <= LargestFee(bps, slack, rounds, left)
    decreases rounds
  {
    if rounds > 0 {
      var missing := StillMissing(bps, slack, fee, rounds - 1);
      assert StillMissing(bps, slack, fee, rounds) == (missing * bps + slack) / ONE_IN_BPS;
      hide StillMissing;
      QuotientAtMost(missing, left * ONE_IN_BPS + ONE_IN_BPS - 1 - slack, bps);
      FeeFits(bps, slack, fee, rounds - 1, (left * ONE_IN_BPS + ONE_IN_BPS - 1 - slack) / bps);
    }
  }

  lemma {:induction false} QuotientAtMost(x: nat, a: nat, d: nat)
    requires d > 0
    ensures x <= a / d <==> x * d <= a
  {
    var q := a / d;
    assert q * d <= a < q * d + d;
    if x <= q {
      TimesMonotone(d, x, q);
    } else {
      TimesMonotone(d, q + 1, x);
    }
  }

  /** The same as a limit on the fee, known from the rate and the rounding alone. */
  lemma {:induction false} ReachesUpTo(config: FeeConfig, net: nat)
    requires 0 < config.bps < ONE_IN_BPS
    ensures var fee, slack := Withheld(config.bps, net), Slack(config.bps, net);
      Reaches(config, net) <==>
        fee <= LargestFee(config.bps, slack, ROUNDS, if config.cap < fee then fee - config.cap else 0)
  {
    hide StillMissing, Withheld, LargestFee;
    var fee, slack := Withheld(config.bps, net), Slack(config.bps, net);
    FeeFits(config.bps, slack, fee, ROUNDS, if config.cap < fee then fee - config.cap else 0);
  }

  /** A fee already at its cap for the net itself is reached in one round, whatever the net. */
  lemma {:induction false} CapReached(config: FeeConfig, net: nat)
    requires ValidFee(config) && Share(config.bps, net) >= config.cap
    ensures Reaches(config, net) && Iterate(config, net, ROUNDS) == net + config.cap
  {
    hide Reaches, Share;
    assert Iterate(config, net, 0) == net;
    FeeIsCapped(config, net);
    assert Iterate(config, net, 1) == net + config.cap;
    FeeGrows(config, net, config.cap);
    FeeIsCapped(config, net + config.cap);
    StaysThere(config, net, 1, ROUNDS - 1);
    ReachesIff(config, net);
  }

  /** For the fees the program lets a basket mint carry and nets up to 1.5 * 10^12, whatever the rounding. */
  lemma {:induction false} EightRoundsReach(config: FeeConfig, net: nat)
    requires config.bps <= 300 && net <= 1_500_000_000_000
    ensures Reaches(config, net) && IsLeastGross(config, net, Iterate(config, net, ROUNDS))
  {
    var bps, fee, slack := config.bps, Withheld(config.bps, net), Slack(config.bps, net);
    SmallFee(bps, net);
    hide Withheld, Slack, IsLeastGross, Iterate;
    MissesAtMost(bps, slack, fee, 0, 46_391_752_578);
    MissesAtMost(bps, slack, fee, 1, 1_391_752_578);
    MissesAtMost(bps, slack, fee, 2, 41_752_578);
    MissesAtMost(bps, slack, fee, 3, 1_252_578);
    MissesAtMost(bps, slack, fee, 4, 37_578);
    MissesAtMost(bps, slack, fee, 5, 1_128);
    MissesAtMost(bps, slack, fee, 6, 34);
    MissesAtMost(bps, slack, fee, 7, 1);
    hide StillMissing;
    ReachesIff(config, net);
  }

  lemma {:induction false} SmallFee(bps: nat, net: nat)
    requires bps <= 300 && net <= 1_500_000_000_000
    ensures Withheld(bps, net) <= 46_391_752_578
  {
    RoundedUp(bps, net);
    var fee := Withheld(bps, net);
    assert ONE_IN_BPS * fee - bps * (net + fee) == (ONE_IN_BPS - bps) * fee - net * bps;
    assert net * bps <= 1_500_000_000_000 * bps;
    assert fee >= 46_391_752_579 ==> (ONE_IN_BPS - bps) * fee >= (ONE_IN_BPS - bps) * 46_391_752_579;
  }

  lemma {:induction false} MissesAtMost(bps: nat, slack: nat, fee: nat, k: nat, left: nat)
    requires bps <= 300 && bps + slack < ONE_IN_BPS && left > 0 && StillMissing(bps, slack, fee, k) <= left
    ensures StillMissing(bps, slack, fee, k + 1) <= (left * 300 + 9_699) / ONE_IN_BPS
  {
    var missing := StillMissing(bps, slack, fee, k);
    assert StillMissing(bps, slack, fee, k + 1) == (missing * bps + slack) / ONE_IN_BPS;
    hide StillMissing;
    RestAtMost(bps, slack, missing, left);
  }

  lemma {:induction false} RestAtMost(bps: nat, slack: nat, missing: nat, left: nat)
    requires bps <= 300 && bps + slack < ONE_IN_BPS && 0 < left && missing <= left
    ensures missing * bps + slack <= left * 300 + 9_699
  {
    TimesMonotone(bps, missing, left);
    TimesMonotone(left - 1, bps, 300);
  }

  lemma {:induction false} TimesMonotone(a: nat, b: nat, c: nat)
    requires b <= c
    ensures a * b <= a * c && b * a <= c * a
  {
  }

  /** At the largest fee the program admits nothing from 51 * 10^12 up is reached unless the cap helps. */
  lemma {:induction false} LargeNetsFallShort(config: FeeConfig, net: nat)
    requires config.bps == 300 && net >= 51_000_000_000_000 && config.cap >= Withheld(300, net)
    ensures !Reaches(config, net) && Iterate(config, net, ROUNDS) < net + Withheld(300, net)
  {
    var fee, slack := Withheld(300, net), Slack(300, net);
    assert fee >= 1_555_555_555_567;
    hide Withheld, Slack;
    MissesAtLeast(slack, fee, 0, 46_666_666_667);
    MissesAtLeast(slack, fee, 1, 1_400_000_000);
    MissesAtLeast(slack, fee, 2, 42_000_000);
    MissesAtLeast(slack, fee, 3, 1_260_000);
    MissesAtLeast(slack, fee, 4, 37_800);
    MissesAtLeast(slack, fee, 5, 1_134);
    MissesAtLeast(slack, fee, 6, 34);
    MissesAtLeast(slack, fee, 7, 1);
    hide StillMissing, Iterate;
    ReachesIff(config, net);
  }

  lemma {:induction false} MissesAtLeast(slack: nat, fee: nat, k: nat, left: nat)
    requires StillMissing(300, slack, fee, k) * 300 >= left * ONE_IN_BPS
    ensures StillMissing(300, slack, fee, k + 1) >= left
  {
  }

  /** Such a fee and such a net: a billion tokens of six decimals at 300 bps. 19 units do not arrive. */
  lemma {:induction false} AdmittedFeeFallsShort()
    ensures var config := FeeConfig(300, 18_446_744_073_709_551_615);
      var net := 1_000_000_000_000_000;
      && Iterate(config, net, ROUNDS) == 1_030_927_835_051_527
      && Arrives(config, 1_030_927_835_051_527) == net - 19
      && !Reaches(config, net)
  {
    var config := FeeConfig(300, 18_446_744_073_709_551_615);
    var net := 1_000_000_000_000_000;
    assert Withheld(300, net) == 30_927_835_051_547 && Slack(300, net) == 5_900;
    hide Withheld, Slack;
    assert StillMissing(300, 5_900, 30_927_835_051_547, 4) == 25_051_547;
    assert StillMissing(300, 5_900, 30_927_835_051_547, 8) == 20;
    hide StillMissing, Iterate, Reaches;
    ReachesIff(config, net);
  }
}
