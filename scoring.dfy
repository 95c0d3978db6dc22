/**
 * The risk scorer: `scorePair` and `getLabelMeta`. Seven independent
 * threshold tests each add a fixed weight to an integer score and record a
 * trigger; the score is then mapped to a label.
 */
module Scoring {
  import opened Wrappers
  import opened Config
  import opened PairRecord
  import opened Normalizer

  /** A ratio or an age that may be `Number.POSITIVE_INFINITY`. */
  datatype Extended = Finite(value: real) | PosInf

  /** `x > bound`, where infinity exceeds every bound. */
  predicate Above(x: Extended, bound: real)
  {
    x.PosInf? || x.value > bound
  }

  /** `x < bound`, which infinity never is. */
  predicate Below(x: Extended, bound: real)
  {
    x.Finite? && x.value < bound
  }

  datatype Trigger =
    | ThinLiquidity
    | FdvSkewed
    | LowRecentActivity
    | WeakVolume5m
    | FreshLaunch
    | VolumeLiquidityImbalance
    | SellPressure

  /** The trigger's key, as pushed onto the `triggers` array. */
  function Name(t: Trigger): string
  {
    match t
    case ThinLiquidity => "thin liquidity"
    case FdvSkewed => "FDV/liquidity skewed"
    case LowRecentActivity => "low recent activity"
    case WeakVolume5m => "weak 5m volume"
    case FreshLaunch => "fresh launch"
    case VolumeLiquidityImbalance => "volume/liquidity imbalance"
    case SellPressure => "sell pressure"
  }

  /** What each trigger adds to the score. */
  function Weight(t: Trigger): nat
  {
    match t
    case ThinLiquidity => 3
    case FdvSkewed => 2
    case LowRecentActivity => 1
    case WeakVolume5m => 1
    case FreshLaunch => 2
    case VolumeLiquidityImbalance => 1
    case SellPressure => 1
  }

  /** The order in which the tests run, and so the order of the triggers. */
  const EvaluationOrder: seq<Trigger> :=
    [ThinLiquidity, FdvSkewed, LowRecentActivity, WeakVolume5m, FreshLaunch, VolumeLiquidityImbalance, SellPressure]

  /** Position of a trigger in the evaluation order. */
  function Rank(t: Trigger): (k: nat)
    ensures k < |EvaluationOrder| && EvaluationOrder[k] == t
  {
    match t
    case ThinLiquidity => 0
    case FdvSkewed => 1
    case LowRecentActivity => 2
    case WeakVolume5m => 3
    case FreshLaunch => 4
    case VolumeLiquidityImbalance => 5
    case SellPressure => 6
  }

  datatype Label = Safe | Risky | RugVibes

  /** Severity rank of a label, for comparing them. */
  function Severity(l: Label): nat
  {
    match l
    case Safe => 0
    case Risky => 1
    case RugVibes => 2
  }

  datatype LabelMeta = LabelMeta(verdict: Label, emoji: string, badgeClass: string)

  /** `getLabelMeta(score)`: a threshold ladder on the score alone. */
  function GetLabelMeta(score: int): (meta: LabelMeta)
    ensures meta.verdict == RugVibes <==> score >= 5
    ensures meta.verdict == Risky <==> 3 <= score < 5
    ensures meta.verdict == Safe <==> score < 3
  {
    if score >= 5 then LabelMeta(RugVibes, "\U{1F534}", "badge-rug")
    else if score >= 3 then LabelMeta(Risky, "\U{1F7E0}", "badge-risky")
    else LabelMeta(Safe, "\U{1F7E2}", "badge-safe")
  }

  /** A higher score never gives a milder label. */
  lemma LabelMonotone(a: int, b: int)
    requires a <= b
    ensures Severity(GetLabelMeta(a).verdict) <= Severity(GetLabelMeta(b).verdict)
  {
  }

  /** Emoji and badge class stand one-to-one for the label. */
  lemma LabelMetaOneToOne(a: int, b: int)
    ensures GetLabelMeta(a).verdict == GetLabelMeta(b).verdict <==> GetLabelMeta(a).badgeClass == GetLabelMeta(b).badgeClass
    ensures GetLabelMeta(a).verdict == GetLabelMeta(b).verdict <==> GetLabelMeta(a).emoji == GetLabelMeta(b).emoji
  {
    var ma, mb := GetLabelMeta(a), GetLabelMeta(b);
    if ma.verdict != mb.verdict {
      assert ma.badgeClass[7] != mb.badgeClass[7];
      assert ma.emoji[0] != mb.emoji[0];
    }
  }

  /**
   * The figures the tests look at. The popup returns them partly at the top
   * level of its result and partly under `analysis`; here they sit together.
   */
  datatype Measures = Measures(
    liqUsd: real,
    liqSol: real,
    fdv: real,
    vol5m: real,
    volume1h: real,
    buys5m: real,
    sells5m: real,
    tx5m: real,
    fdvToLiq: Extended,
    volumeToLiquidity: real,
    sellRatio5m: real,
    pairAgeHours: Extended)

  datatype ScoreResult = ScoreResult(
    score: int,
    measures: Measures,
    liquidity: LiquidityInfo,
    triggers: seq<Trigger>,
    meta: LabelMeta)

  /**
   * Age of the pair in hours: infinite when the creation time is missing,
   * or when it is not in the past.
   */
  function PairAgeHours(createdAt: Option<real>, now: int): (age: Extended)
    ensures age.Finite? <==> createdAt.Some? && now as real > createdAt.value
    ensures age.Finite? ==> age.value > 0.0 && age.value * (MsPerHour as real) == now as real - createdAt.value
  {
    var ageMs := if createdAt.Some? then Finite(now as real - createdAt.value) else PosInf;
    if ageMs.Finite? && ageMs.value > 0.0 then Finite(ageMs.value / (MsPerHour as real)) else PosInf
  }

  /** The measures of a pair at time `now`, every ratio guarded against a zero divisor. */
  function MeasuresOf(p: Pair, now: int): (m: Measures)
    ensures m.fdvToLiq == PosInf <==> p.liquidityUsd <= 0.0
    ensures p.liquidityUsd <= 0.0 ==> m.volumeToLiquidity == 0.0
    ensures m.tx5m == 0.0 ==> m.sellRatio5m == 0.0
    ensures m.liqSol >= 0.0
  {
    var liqUsd := p.liquidityUsd;
    var tx5m := p.buys5m + p.sells5m;
    Measures(
      liqUsd,
      Liquidity(p, liqUsd).solForScore,
      p.fdv,
      p.volume5m,
      p.volume1h,
      p.buys5m,
      p.sells5m,
      tx5m,
      if liqUsd > 0.0 then Finite(p.fdv / liqUsd) else PosInf,
      if liqUsd > 0.0 then p.volume1h / liqUsd else 0.0,
      if tx5m > 0.0 then p.sells5m / tx5m else 0.0,
      PairAgeHours(p.pairCreatedAt, now))
  }

  /** The condition under which each trigger fires. */
  predicate Fires(t: Trigger, m: Measures)
  {
    match t
    case ThinLiquidity => m.liqSol < MinLiquiditySol
    case FdvSkewed => Above(m.fdvToLiq, MaxFdvToLiquidity)
    case LowRecentActivity => m.tx5m < MinTransactions5m
    case WeakVolume5m => m.vol5m < MinVolume5mUsd
    case FreshLaunch => Below(m.pairAgeHours, MinPairAgeHours)
    case VolumeLiquidityImbalance => m.volumeToLiquidity > VolumeLiquidityAlert && m.volume1h > MinVolume5mUsd
    case SellPressure => m.tx5m >= MinTradesForPressure && m.sellRatio5m > SellPressureRatio
  }

  /** The triggers of `ts` that fire, in the order of `ts`. */
  function Firing(ts: seq<Trigger>, m: Measures): seq<Trigger>
  {
    if ts == [] then []
    else (if Fires(ts[0], m) then [ts[0]] else []) + Firing(ts[1..], m)
  }

  function TotalWeight(ts: seq<Trigger>): nat
  {
    if ts == [] then 0 else Weight(ts[0]) + TotalWeight(ts[1..])
  }

  /** The scorer's result, stated declaratively: the firing triggers in evaluation order and the sum of their weights. */
  function Score(p: Pair, now: int): ScoreResult
  {
    var m := MeasuresOf(p, now);
    var triggers := Firing(EvaluationOrder, m);
    var score := TotalWeight(triggers);
    ScoreResult(score, m, Liquidity(p, p.liquidityUsd), triggers, GetLabelMeta(score))
  }

  /** Firing keeps exactly the members of `ts` whose condition holds. */
  lemma {:induction false} FiringMembers(ts: seq<Trigger>, m: Measures, t: Trigger)
    ensures t in Firing(ts, m) <==> t in ts && Fires(t, m)
  {
    if ts != [] {
      FiringMembers(ts[1..], m, t);
      assert ts == [ts[0]] + ts[1..];
    }
  }

  /** Triggers listed strictly in evaluation order. */
  predicate InEvaluationOrder(ts: seq<Trigger>)
  {
    forall i, j :: 0 <= i < j < |ts| ==> Rank(ts[i]) < Rank(ts[j])
  }

  /** The evaluation order itself is in evaluation order: each trigger sits at its rank. */
  lemma EvaluationOrderRanks()
    ensures forall i :: 0 <= i < |EvaluationOrder| ==> Rank(EvaluationOrder[i]) == i
    ensures InEvaluationOrder(EvaluationOrder)
  {
    forall i | 0 <= i < |EvaluationOrder|
      ensures Rank(EvaluationOrder[i]) == i
    {
      if i == 0 {} else if i == 1 {} else if i == 2 {} else if i == 3 {}
      else if i == 4 {} else if i == 5 {} else {}
    }
  }

  /** Firing keeps the order of its input. */
  lemma {:induction false} FiringKeepsOrder(ts: seq<Trigger>, m: Measures)
    requires InEvaluationOrder(ts)
    ensures InEvaluationOrder(Firing(ts, m))
  {
    if ts != [] {
      var rest := Firing(ts[1..], m);
      FiringKeepsOrder(ts[1..], m);
      forall t | t in rest
        ensures Rank(ts[0]) < Rank(t)
      {
        FiringMembers(ts[1..], m, t);
        var j :| 0 <= j < |ts[1..]| && ts[1..][j] == t;
        assert ts[j + 1] == t;
      }
    }
  }

  /** Firing distributes over concatenation, so the order of the input is kept. */
  lemma {:induction false} FiringConcat(a: seq<Trigger>, b: seq<Trigger>, m: Measures)
    ensures Firing(a + b, m) == Firing(a, m) + Firing(b, m)
  {
    if a == [] {
      assert a + b == b;
    } else {
      FiringConcat(a[1..], b, m);
      assert (a + b)[0] == a[0];
      assert (a + b)[1..] == a[1..] + b;
    }
  }

  /** `if (holds) triggers.push(t)`, as a value. */
  function PushIf(found: seq<Trigger>, holds: bool, t: Trigger): seq<Trigger>
  {
    if holds then found + [t] else found
  }

  /** `if (holds) score += w`, as a value. */
  function AddIf(score: int, holds: bool, w: nat): int
  {
    if holds then score + w else score
  }

  /** One test more: its trigger is filtered in after the earlier ones, and its weight added. */
  lemma {:induction false} PushIfStep(done: seq<Trigger>, found: seq<Trigger>, t: Trigger, m: Measures)
    requires found == Firing(done, m)
    ensures PushIf(found, Fires(t, m), t) == Firing(done + [t], m)
    ensures TotalWeight(PushIf(found, Fires(t, m), t)) == AddIf(TotalWeight(found), Fires(t, m), Weight(t))
  {
    FiringConcat(done, [t], m);
    assert [t][1..] == [];
    if Fires(t, m) {
      WeightOfConcat(found, [t]);
    } else {
      assert found + [] == found;
    }
  }

  /**
   * The seven tests run one after the other give the filtered evaluation
   * order, and the running score the weight of what they found.
   */
  lemma SevenTests(m: Measures)
    ensures Firing(EvaluationOrder, m) ==
      PushIf(PushIf(PushIf(PushIf(PushIf(PushIf(PushIf([], Fires(ThinLiquidity, m), ThinLiquidity), Fires(FdvSkewed, m), FdvSkewed), Fires(LowRecentActivity, m), LowRecentActivity), Fires(WeakVolume5m, m), WeakVolume5m), Fires(FreshLaunch, m), FreshLaunch), Fires(VolumeLiquidityImbalance, m), VolumeLiquidityImbalance), Fires(SellPressure, m), SellPressure)
    ensures TotalWeight(Firing(EvaluationOrder, m)) ==
      AddIf(AddIf(AddIf(AddIf(AddIf(AddIf(AddIf(0, Fires(ThinLiquidity, m), Weight(ThinLiquidity)), Fires(FdvSkewed, m), Weight(FdvSkewed)), Fires(LowRecentActivity, m), Weight(LowRecentActivity)), Fires(WeakVolume5m, m), Weight(WeakVolume5m)), Fires(FreshLaunch, m), Weight(FreshLaunch)), Fires(VolumeLiquidityImbalance, m), Weight(VolumeLiquidityImbalance)), Fires(SellPressure, m), Weight(SellPressure))
  {
    var done: seq<Trigger> := [];
    var found: seq<Trigger> := [];
    PushIfStep(done, found, ThinLiquidity, m);
    done, found := done + [ThinLiquidity], PushIf(found, Fires(ThinLiquidity, m), ThinLiquidity);
    PushIfStep(done, found, FdvSkewed, m);
    done, found := done + [FdvSkewed], PushIf(found, Fires(FdvSkewed, m), FdvSkewed);
    PushIfStep(done, found, LowRecentActivity, m);
    done, found := done + [LowRecentActivity], PushIf(found, Fires(LowRecentActivity, m), LowRecentActivity);
    PushIfStep(done, found, WeakVolume5m, m);
    done, found := done + [WeakVolume5m], PushIf(found, Fires(WeakVolume5m, m), WeakVolume5m);
    PushIfStep(done, found, FreshLaunch, m);
    done, found := done + [FreshLaunch], PushIf(found, Fires(FreshLaunch, m), FreshLaunch);
    PushIfStep(done, found, VolumeLiquidityImbalance, m);
    done, found := done + [VolumeLiquidityImbalance], PushIf(found, Fires(VolumeLiquidityImbalance, m), VolumeLiquidityImbalance);
    PushIfStep(done, found, SellPressure, m);
    done, found := done + [SellPressure], PushIf(found, Fires(SellPressure, m), SellPressure);
    assert done == EvaluationOrder;
  }

  /** Dropping triggers never adds weight. */
  lemma {:induction false} FiringWeightBound(ts: seq<Trigger>, m: Measures)
    ensures TotalWeight(Firing(ts, m)) <= TotalWeight(ts)
  {
    if ts != [] {
      FiringWeightBound(ts[1..], m);
      var head := if Fires(ts[0], m) then [ts[0]] else [];
      WeightOfConcat(head, Firing(ts[1..], m));
    }
  }

  lemma {:induction false} WeightOfConcat(a: seq<Trigger>, b: seq<Trigger>)
    ensures TotalWeight(a + b) == TotalWeight(a) + TotalWeight(b)
  {
    if a == [] {
      assert a + b == b;
    } else {
      WeightOfConcat(a[1..], b);
      assert (a + b)[0] == a[0];
      assert (a + b)[1..] == a[1..] + b;
    }
  }

  /**
   * The score is the sum of the weights of the triggers present, so it lies
   * between 0 and 3 + 2 + 1 + 1 + 2 + 1 + 1 = 11.
   */
  lemma ScoreIsWeightSum(p: Pair, now: int)
    ensures var r := Score(p, now);
      r.score == TotalWeight(r.triggers) && 0 <= r.score <= 11
  {
    FiringWeightBound(EvaluationOrder, MeasuresOf(p, now));
    assert TotalWeight(EvaluationOrder[6..]) == 1;
    assert TotalWeight(EvaluationOrder[3..]) == 5;
    assert TotalWeight(EvaluationOrder) == 11;
  }

  /** The triggers appear in evaluation order, hence each at most once. */
  lemma TriggersOrderedAndDistinct(p: Pair, now: int)
    ensures InEvaluationOrder(Score(p, now).triggers)
    ensures forall i, j :: 0 <= i < j < |Score(p, now).triggers| ==>
      Score(p, now).triggers[i] != Score(p, now).triggers[j]
  {
    var m := MeasuresOf(p, now);
    var ts := Firing(EvaluationOrder, m);
    assert Score(p, now).triggers == ts;
    EvaluationOrderRanks();
    FiringKeepsOrder(EvaluationOrder, m);
    forall i, j | 0 <= i < j < |ts|
      ensures ts[i] != ts[j]
    {
      assert Rank(ts[i]) < Rank(ts[j]);
    }
  }

  /** A trigger is present exactly when its condition holds. */
  lemma TriggerPresent(p: Pair, now: int, t: Trigger)
    ensures t in Score(p, now).triggers <==> Fires(t, MeasuresOf(p, now))
  {
    FiringMembers(EvaluationOrder, MeasuresOf(p, now), t);
    assert EvaluationOrder[Rank(t)] == t;
  }

  /** The label depends on the score alone: Rug Vibes from 5, Risky from 3, Safe below. */
  lemma LabelFromScore(p: Pair, now: int)
    ensures var r := Score(p, now);
      && (r.meta.verdict == RugVibes <==> r.score >= 5)
      && (r.meta.verdict == Risky <==> 3 <= r.score < 5)
      && (r.meta.verdict == Safe <==> r.score < 3)
  {
  }

  /**
   * With no positive USD liquidity reported, the FDV ratio is infinite and
   * always flagged (even with a zero FDV), and the 1h volume ratio is zero and
   * never flagged. This holds even when the normaliser derived a positive USD
   * liquidity from other figures: the ratios use the reported one.
   */
  lemma ZeroUsdLiquidity(p: Pair, now: int)
    requires p.liquidityUsd <= 0.0
    ensures Score(p, now).measures.fdvToLiq == PosInf
    ensures FdvSkewed in Score(p, now).triggers
    ensures Score(p, now).measures.volumeToLiquidity == 0.0
    ensures VolumeLiquidityImbalance !in Score(p, now).triggers
  {
    TriggerPresent(p, now, FdvSkewed);
    TriggerPresent(p, now, VolumeLiquidityImbalance);
  }

  /** Sell pressure needs at least 20 trades and more than 70% of them sells; with no trades the ratio is 0. */
  lemma SellPressureCondition(p: Pair, now: int)
    ensures var tx := p.buys5m + p.sells5m;
      SellPressure in Score(p, now).triggers <==> tx >= 20.0 && p.sells5m / tx > 0.7
    ensures p.buys5m + p.sells5m == 0.0 ==>
      Score(p, now).measures.sellRatio5m == 0.0 && SellPressure !in Score(p, now).triggers
  {
    TriggerPresent(p, now, SellPressure);
  }

  /**
   * "fresh launch" fires exactly when the creation time is present and lies
   * strictly between 12 hours before `now` and `now`.
   */
  lemma FreshLaunchCondition(p: Pair, now: int)
    ensures FreshLaunch in Score(p, now).triggers <==>
      p.pairCreatedAt.Some? && 0.0 < now as real - p.pairCreatedAt.value < 12.0 * (MsPerHour as real)
  {
    TriggerPresent(p, now, FreshLaunch);
  }

  /** A missing creation time, or one not in the past, gives an infinite age that is never fresh. */
  lemma MissingCreationNeverFresh(p: Pair, now: int)
    requires p.pairCreatedAt.None? || now as real <= p.pairCreatedAt.value
    ensures Score(p, now).measures.pairAgeHours == PosInf
    ensures FreshLaunch !in Score(p, now).triggers
  {
    FreshLaunchCondition(p, now);
  }

  /**
   * The seven tests of `scorePair`, run in a row on the measures: each adds
   * its weight to the running score and appends its trigger when it holds.
   */
  method EvaluateTriggers(m: Measures) returns (score: int, triggers: seq<Trigger>)
    ensures triggers == Firing(EvaluationOrder, m)
    ensures score == TotalWeight(triggers)
  {
    score := 0;
    triggers := [];

    if m.liqSol < MinLiquiditySol {
      score := score + 3;
      triggers := triggers + [ThinLiquidity];
    }
    assert triggers == PushIf([], Fires(ThinLiquidity, m), ThinLiquidity);
    assert score == AddIf(0, Fires(ThinLiquidity, m), Weight(ThinLiquidity));

    if Above(m.fdvToLiq, MaxFdvToLiquidity) {
      score := score + 2;
      triggers := triggers + [FdvSkewed];
    }
    assert triggers == PushIf(PushIf([], Fires(ThinLiquidity, m), ThinLiquidity), Fires(FdvSkewed, m), FdvSkewed);
    assert score == AddIf(AddIf(0, Fires(ThinLiquidity, m), Weight(ThinLiquidity)), Fires(FdvSkewed, m), Weight(FdvSkewed));

    if m.tx5m < MinTransactions5m {
      score := score + 1;
      triggers := triggers + [LowRecentActivity];
    }
    assert triggers == PushIf(PushIf(PushIf([], Fires(ThinLiquidity, m), ThinLiquidity), Fires(FdvSkewed, m), FdvSkewed), Fires(LowRecentActivity, m), LowRecentActivity);
    assert score == AddIf(AddIf(AddIf(0, Fires(ThinLiquidity, m), Weight(ThinLiquidity)), Fires(FdvSkewed, m), Weight(FdvSkewed)), Fires(LowRecentActivity, m), Weight(LowRecentActivity));

    if m.vol5m < MinVolume5mUsd {
      score := score + 1;
      triggers := triggers + [WeakVolume5m];
    }
    assert triggers == PushIf(PushIf(PushIf(PushIf([], Fires(ThinLiquidity, m), ThinLiquidity), Fires(FdvSkewed, m), FdvSkewed), Fires(LowRecentActivity, m), LowRecentActivity), Fires(WeakVolume5m, m), WeakVolume5m);
    assert score == AddIf(AddIf(AddIf(AddIf(0, Fires(ThinLiquidity, m), Weight(ThinLiquidity)), Fires(FdvSkewed, m), Weight(FdvSkewed)), Fires(LowRecentActivity, m), Weight(LowRecentActivity)), Fires(WeakVolume5m, m), Weight(WeakVolume5m));

    if Below(m.pairAgeHours, MinPairAgeHours) {
      score := score + 2;
      triggers := triggers + [FreshLaunch];
    }
    assert triggers == PushIf(PushIf(PushIf(PushIf(PushIf([], Fires(ThinLiquidity, m), ThinLiquidity), Fires(FdvSkewed, m), FdvSkewed), Fires(LowRecentActivity, m), LowRecentActivity), Fires(WeakVolume5m, m), WeakVolume5m), Fires(FreshLaunch, m), FreshLaunch);
    assert score == AddIf(AddIf(AddIf(AddIf(AddIf(0, Fires(ThinLiquidity, m), Weight(ThinLiquidity)), Fires(FdvSkewed, m), Weight(FdvSkewed)), Fires(LowRecentActivity, m), Weight(LowRecentActivity)), Fires(WeakVolume5m, m), Weight(WeakVolume5m)), Fires(FreshLaunch, m), Weight(FreshLaunch));

    if m.volumeToLiquidity > VolumeLiquidityAlert && m.volume1h > MinVolume5mUsd {
      score := score + 1;
      triggers := triggers + [VolumeLiquidityImbalance];
    }
    assert triggers == PushIf(PushIf(PushIf(PushIf(PushIf(PushIf([], Fires(ThinLiquidity, m), ThinLiquidity), Fires(FdvSkewed, m), FdvSkewed), Fires(LowRecentActivity, m), LowRecentActivity), Fires(WeakVolume5m, m), WeakVolume5m), Fires(FreshLaunch, m), FreshLaunch), Fires(VolumeLiquidityImbalance, m), VolumeLiquidityImbalance);
    assert score == AddIf(AddIf(AddIf(AddIf(AddIf(AddIf(0, Fires(ThinLiquidity, m), Weight(ThinLiquidity)), Fires(FdvSkewed, m), Weight(FdvSkewed)), Fires(LowRecentActivity, m), Weight(LowRecentActivity)), Fires(WeakVolume5m, m), Weight(WeakVolume5m)), Fires(FreshLaunch, m), Weight(FreshLaunch)), Fires(VolumeLiquidityImbalance, m), Weight(VolumeLiquidityImbalance));

    if m.tx5m >= MinTradesForPressure && m.sellRatio5m > SellPressureRatio {
      score := score + 1;
      triggers := triggers + [SellPressure];
    }
    assert triggers == PushIf(PushIf(PushIf(PushIf(PushIf(PushIf(PushIf([], Fires(ThinLiquidity, m), ThinLiquidity), Fires(FdvSkewed, m), FdvSkewed), Fires(LowRecentActivity, m), LowRecentActivity), Fires(WeakVolume5m, m), WeakVolume5m), Fires(FreshLaunch, m), FreshLaunch), Fires(VolumeLiquidityImbalance, m), VolumeLiquidityImbalance), Fires(SellPressure, m), SellPressure);
    assert score == AddIf(AddIf(AddIf(AddIf(AddIf(AddIf(AddIf(0, Fires(ThinLiquidity, m), Weight(ThinLiquidity)), Fires(FdvSkewed, m), Weight(FdvSkewed)), Fires(LowRecentActivity, m), Weight(LowRecentActivity)), Fires(WeakVolume5m, m), Weight(WeakVolume5m)), Fires(FreshLaunch, m), Weight(FreshLaunch)), Fires(VolumeLiquidityImbalance, m), Weight(VolumeLiquidityImbalance)), Fires(SellPressure, m), Weight(SellPressure));

    SevenTests(m);
  }

  /**
   * `scorePair` as the popup writes it: a running score and a trigger list
   * built by seven tests in a row. It computes exactly the declarative `Score`.
   */
  method ScorePair(p: Pair, now: int) returns (r: ScoreResult)
    ensures r == Score(p, now)
  {
    var liqUsd := p.liquidityUsd;
    var liquidityInfo := DeriveLiquidity(p, liqUsd);
    var liqSol := liquidityInfo.solForScore;
    var fdv := p.fdv;
    var vol5m := p.volume5m;
    var volume1h := p.volume1h;
    var buys5m := p.buys5m;
    var sells5m := p.sells5m;
    var tx5m := buys5m + sells5m;
    var fdvToLiq := if liqUsd > 0.0 then Finite(fdv / liqUsd) else PosInf;
    var volumeToLiquidity := if liqUsd > 0.0 then volume1h / liqUsd else 0.0;
    var sellRatio5m := if tx5m > 0.0 then sells5m / tx5m else 0.0;
    var pairAgeMs := if p.pairCreatedAt.Some? then Finite(now as real - p.pairCreatedAt.value) else PosInf;
    var pairAgeHours := if pairAgeMs.Finite? && pairAgeMs.value > 0.0 then Finite(pairAgeMs.value / (MsPerHour as real)) else PosInf;
    var m := Measures(liqUsd, liqSol, fdv, vol5m, volume1h, buys5m, sells5m, tx5m,
                      fdvToLiq, volumeToLiquidity, sellRatio5m, pairAgeHours);
    assert m == MeasuresOf(p, now);

    var score, triggers := EvaluateTriggers(m);
    r := ScoreResult(score, m, liquidityInfo, triggers, GetLabelMeta(score));
  }
}
