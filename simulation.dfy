/**
 * The Monte-Carlo distillation loop. Each round rotates every sample, pairs the samples
 * by even/odd index, applies BXOR to each pair with the next random draw, rotates the
 * survivors again and reports their fidelities; rounds repeat until the population is
 * at or below the threshold.
 *
 * `Trial` is the loop's specification over weight values; `Simulate` is the loop itself,
 * over state objects whose weight arrays it rotates in place, and is proved to follow `Trial`.
 */
module Simulation {
  import opened Results
  import opened RealSeq
  import opened EntangledState
  import opened Operations

  // ---------------------------------------------------------------------------
  // Specification over weight values
  // ---------------------------------------------------------------------------

  predicate StrictlyIncreasing(idx: seq<nat>)
  {
    forall j, l :: 0 <= j < l < |idx| ==> idx[j] < idx[l]
  }

  /** The elements of `xs` at the positions `idx`, in the order of `idx`. */
  function Gather<T>(xs: seq<T>, idx: seq<nat>): (ys: seq<T>)
    requires forall j :: 0 <= j < |idx| ==> idx[j] < |xs|
    ensures |ys| == |idx| && forall j :: 0 <= j < |idx| ==> ys[j] == xs[idx[j]]
  {
    seq(|idx|, j requires 0 <= j < |idx| => xs[idx[j]])
  }

  /** Every weight vector of a population after `uni_y_rot`. */
  function Rotated(ws: seq<Weights>): (rs: seq<Weights>)
    ensures |rs| == |ws| && forall i :: 0 <= i < |ws| ==> rs[i] == YRotated(ws[i])
  {
    seq(|ws|, i requires 0 <= i < |ws| => YRotated(ws[i]))
  }

  /** The fidelity of every member of a population, in population order. */
  function Fidelities(ws: seq<Weights>): (f: seq<real>)
    ensures |f| == |ws| && forall i :: 0 <= i < |ws| ==> f[i] == SingletWeight(ws[i])
  {
    seq(|ws|, i requires 0 <= i < |ws| => SingletWeight(ws[i]))
  }

  /**
   * The sources that BXOR keeps among the first k pairs (ws[2i], ws[2i+1]), as indices
   * into ws, in pair order; pair i uses draw i. A kept index is always the even one.
   */
  function PairSurvivors(ws: seq<Weights>, draws: seq<real>, k: nat): (idx: seq<nat>)
    requires 2 * k <= |ws| && k <= |draws|
    ensures |idx| <= k
    ensures forall j :: 0 <= j < |idx| ==> idx[j] % 2 == 0 && idx[j] < 2 * k
    ensures StrictlyIncreasing(idx)
    decreases k
  {
    if k == 0 then []
    else
      var earlier := PairSurvivors(ws, draws, k - 1);
      if Keeps(ws[2 * k - 2], ws[2 * k - 1], draws[k - 1]) then earlier + [2 * k - 2] else earlier
  }

  /** Source 2m is kept exactly when pair m is among the first k and BXOR keeps it. */
  lemma {:induction false} PairSurvivorsMembers(ws: seq<Weights>, draws: seq<real>, k: nat, m: nat)
    requires 2 * k <= |ws| && k <= |draws|
    ensures 2 * m in PairSurvivors(ws, draws, k) <==> m < k && Keeps(ws[2 * m], ws[2 * m + 1], draws[m])
    decreases k
  {
    if k > 0 {
      PairSurvivorsMembers(ws, draws, k - 1, m);
      var earlier := PairSurvivors(ws, draws, k - 1);
      assert 2 * k - 2 !in earlier;
    }
  }

  /**
   * One round's survivors, as indices into the population at the start of the round.
   * The pairs are (2m, 2m+1) for m < |ws| / 2, so an odd last sample is in no pair; the
   * BXOR decisions see the rotated weights.
   */
  function Survivors(ws: seq<Weights>, draws: seq<real>): (idx: seq<nat>)
    requires |ws| / 2 <= |draws|
    ensures |idx| <= |ws| / 2 && StrictlyIncreasing(idx)
    ensures forall j :: 0 <= j < |idx| ==> idx[j] % 2 == 0 && idx[j] + 1 < |ws|
  {
    PairSurvivors(Rotated(ws), draws, |ws| / 2)
  }

  /**
   * After the rotation, a pair's triplet2 weights are the two samples' singlet weights:
   * pair m survives exactly when its draw is below the product of the two fidelities.
   */
  lemma {:induction false} SurvivorsByFidelity(ws: seq<Weights>, draws: seq<real>, m: nat)
    requires |ws| / 2 <= |draws|
    ensures 2 * m in Survivors(ws, draws)
        <==> m < |ws| / 2 && draws[m] < SingletWeight(ws[2 * m]) * SingletWeight(ws[2 * m + 1])
  {
    PairSurvivorsMembers(Rotated(ws), draws, |ws| / 2, m);
  }

  /** The minimum, maximum and average fidelity of one round's survivors. */
  datatype Stats = Stats(min: real, max: real, avg: real)

  /** What one round reports: the survivor count and, when there are survivors, their stats. */
  datatype Report = Report(remaining: nat, stats: Option<Stats>)

  /** The report for a round whose survivors have the given fidelities. */
  function ReportOf(fidelities: seq<real>): (r: Report)
    ensures r.remaining == |fidelities|
    ensures r.stats.Some? <==> |fidelities| > 0
  {
    if |fidelities| == 0 then Report(0, None)
    else Report(|fidelities|, Some(Stats(Min(fidelities), Max(fidelities), Mean(fidelities))))
  }

  /**
   * A report's statistics are those of the fidelities: the minimum and the maximum are
   * among them and bound all of them, and the average lies between the two.
   */
  lemma {:induction false} ReportStats(fidelities: seq<real>)
    ensures var r := ReportOf(fidelities);
      r.stats.Some? ==>
        && r.stats.value.min in fidelities && r.stats.value.max in fidelities
        && (forall x :: x in fidelities ==> r.stats.value.min <= x <= r.stats.value.max)
        && r.stats.value.min <= r.stats.value.avg <= r.stats.value.max
  {
    if |fidelities| > 0 {
      MeanBetweenMinMax(fidelities);
    }
  }

  /** A population, and how many draws earlier rounds have used, when a round begins. */
  datatype Stage = Stage(ws: seq<Weights>, used: nat)

  /**
   * One round: the survivors, which end the round with the weights they started it with
   * (they are rotated twice), and the draws used so far (one per pair).
   */
  function NextStage(s: Stage, draws: seq<real>): (n: Stage)
    requires s.used + |s.ws| <= |draws|
    ensures |n.ws| <= |s.ws| / 2 && n.used == s.used + |s.ws| / 2 && n.used + |n.ws| <= |draws|
  {
    Stage(Gather(s.ws, Survivors(s.ws, draws[s.used..])), s.used + |s.ws| / 2)
  }

  /**
   * Every stage the loop passes through from `s`: rounds repeat while the population is
   * above the threshold.
   */
  function Stages(s: Stage, draws: seq<real>, threshold: nat): (st: seq<Stage>)
    requires s.used + |s.ws| <= |draws|
    ensures |st| >= 1 && st[0] == s
    decreases |s.ws|
  {
    if |s.ws| <= threshold then [s]
    else [s] + Stages(NextStage(s, draws), draws, threshold)
  }

  /**
   * Stage k: every stage but the last is above the threshold and is followed by a stage
   * at most half its size; the last stage is at or below the threshold.
   */
  lemma {:induction false} StagesChain(s: Stage, draws: seq<real>, threshold: nat, k: nat)
    requires s.used + |s.ws| <= |draws|
    requires k < |Stages(s, draws, threshold)|
    ensures var st := Stages(s, draws, threshold);
      && st[k].used + |st[k].ws| <= |draws|
      && (k + 1 < |st| <==> |st[k].ws| > threshold)
      && (k + 1 < |st| ==> |st[k + 1].ws| <= |st[k].ws| / 2)
    decreases k
  {
    if k > 0 {
      var n := NextStage(s, draws);
      StagesChain(n, draws, threshold, k - 1);
      var st, rest := Stages(s, draws, threshold), Stages(n, draws, threshold);
      assert st[k] == rest[k - 1];
      if k + 1 < |st| {
        assert st[k + 1] == rest[k];
      }
    }
  }

  /** Every stage but the last is followed by one round of it. */
  lemma {:induction false} StagesNext(s: Stage, draws: seq<real>, threshold: nat, k: nat)
    requires s.used + |s.ws| <= |draws|
    requires k + 1 < |Stages(s, draws, threshold)|
    ensures var st := Stages(s, draws, threshold);
      st[k].used + |st[k].ws| <= |draws| && st[k + 1] == NextStage(st[k], draws)
    decreases k
  {
    StagesChain(s, draws, threshold, k);
    if k > 0 {
      var n := NextStage(s, draws);
      StagesNext(n, draws, threshold, k - 1);
      var st, rest := Stages(s, draws, threshold), Stages(n, draws, threshold);
      assert st[k] == rest[k - 1] && st[k + 1] == rest[k];
    }
  }

  /** Populations never grow from one stage to a later one. */
  lemma {:induction false} StagesShrink(s: Stage, draws: seq<real>, threshold: nat, j: nat, l: nat)
    requires s.used + |s.ws| <= |draws|
    requires j <= l < |Stages(s, draws, threshold)|
    ensures |Stages(s, draws, threshold)[l].ws| <= |Stages(s, draws, threshold)[j].ws|
    decreases l - j
  {
    if j < l {
      StagesShrink(s, draws, threshold, j, l - 1);
      StagesChain(s, draws, threshold, l - 1);
    }
  }

  /** Survivors keep the weights they started with: every population is drawn from the first. */
  lemma {:induction false} StagesFromInitial(s: Stage, draws: seq<real>, threshold: nat, k: nat)
    requires s.used + |s.ws| <= |draws|
    requires k < |Stages(s, draws, threshold)|
    ensures forall w :: w in Stages(s, draws, threshold)[k].ws ==> w in s.ws
    decreases k
  {
    if k > 0 {
      var n := NextStage(s, draws);
      StagesFromInitial(n, draws, threshold, k - 1);
      assert Stages(s, draws, threshold)[k] == Stages(n, draws, threshold)[k - 1];
      forall w | w in n.ws ensures w in s.ws {
        var j :| 0 <= j < |n.ws| && n.ws[j] == w;
      }
    }
  }

  /** The outcome of one trial: the final population's weights and one report per round. */
  datatype TrialResult = TrialResult(final: seq<Weights>, reports: seq<Report>)

  /**
   * The whole loop over weight values, from the initial population with no draw used:
   * the last stage's population, and for each round the report on its survivors.
   */
  function Trial(ws: seq<Weights>, draws: seq<real>, threshold: nat): TrialResult
    requires |ws| <= |draws|
  {
    var st := Stages(Stage(ws, 0), draws, threshold);
    TrialResult(st[|st| - 1].ws, seq(|st| - 1, k requires 0 <= k < |st| - 1 => ReportOf(Fidelities(st[k + 1].ws))))
  }

  /** The trial read off its stages: the last stage's population, and report k on stage k + 1. */
  lemma {:induction false} TrialStages(ws: seq<Weights>, draws: seq<real>, threshold: nat)
    requires |ws| <= |draws|
    ensures var st, t := Stages(Stage(ws, 0), draws, threshold), Trial(ws, draws, threshold);
      && t.final == st[|st| - 1].ws && |t.reports| == |st| - 1
      && forall k :: 0 <= k < |t.reports| ==> t.reports[k] == ReportOf(Fidelities(st[k + 1].ws))
  {
  }

  /**
   * The loop ends at or below the threshold with no more samples than it started with,
   * and runs no round exactly when it starts at or below the threshold.
   */
  lemma {:induction false} TrialEnds(ws: seq<Weights>, draws: seq<real>, threshold: nat)
    requires |ws| <= |draws|
    ensures var t := Trial(ws, draws, threshold);
      && |t.final| <= threshold && |t.final| <= |ws|
      && (t.reports == [] <==> |ws| <= threshold)
  {
    var s := Stage(ws, 0);
    var last := |Stages(s, draws, threshold)| - 1;
    StagesChain(s, draws, threshold, last);
    StagesShrink(s, draws, threshold, 0, last);
    StagesChain(s, draws, threshold, 0);
  }

  /** The first round at least halves the population, and the last report counts the final one. */
  lemma {:induction false} TrialFirstAndLastReports(ws: seq<Weights>, draws: seq<real>, threshold: nat)
    requires |ws| <= |draws|
    ensures var t := Trial(ws, draws, threshold);
      && (|t.reports| > 0 ==> t.reports[0].remaining <= |ws| / 2)
      && (|t.reports| > 0 ==> t.reports[|t.reports| - 1].remaining == |t.final|)
  {
    TrialStages(ws, draws, threshold);
    StagesChain(Stage(ws, 0), draws, threshold, 0);
  }

  /** Every weight vector of the final population is one of the initial ones. */
  lemma {:induction false} TrialFinalFromInitial(ws: seq<Weights>, draws: seq<real>, threshold: nat)
    requires |ws| <= |draws|
    ensures forall w :: w in Trial(ws, draws, threshold).final ==> w in ws
  {
    StagesFromInitial(Stage(ws, 0), draws, threshold, |Stages(Stage(ws, 0), draws, threshold)| - 1);
  }

  /**
   * Report k counts the population of stage k + 1, which is at most half of stage k's,
   * and above the threshold unless it is the last stage.
   */
  lemma {:induction false} TrialReportCount(ws: seq<Weights>, draws: seq<real>, threshold: nat, k: nat)
    requires |ws| <= |draws| && k < |Trial(ws, draws, threshold).reports|
    ensures var st := Stages(Stage(ws, 0), draws, threshold);
      && Trial(ws, draws, threshold).reports[k].remaining == |st[k + 1].ws|
      && |st[k + 1].ws| <= |st[k].ws| / 2
      && (k + 2 < |st| ==> |st[k + 1].ws| > threshold)
  {
    TrialStages(ws, draws, threshold);
    StagesChain(Stage(ws, 0), draws, threshold, k);
    StagesChain(Stage(ws, 0), draws, threshold, k + 1);
  }

  /** Every report is at most half of any earlier one: each round at least halves the population. */
  lemma {:induction false} TrialReportsHalve(ws: seq<Weights>, draws: seq<real>, threshold: nat)
    requires |ws| <= |draws|
    ensures var t := Trial(ws, draws, threshold);
      forall j, l :: 0 <= j < l < |t.reports| ==> t.reports[l].remaining <= t.reports[j].remaining / 2
  {
    var s, t := Stage(ws, 0), Trial(ws, draws, threshold);
    var st := Stages(s, draws, threshold);
    forall k | 0 <= k < |t.reports|
      ensures t.reports[k].remaining == |st[k + 1].ws| <= |st[k].ws| / 2
    {
      TrialReportCount(ws, draws, threshold, k);
    }
    forall j, l | 1 <= j < l <= |t.reports|
      ensures |st[l].ws| <= |st[j].ws| / 2
    {
      StagesShrink(s, draws, threshold, j, l - 1);
    }
  }

  /** Every round but the last leaves more than `threshold` samples (otherwise the loop stops). */
  lemma {:induction false} TrialReportsAboveThreshold(ws: seq<Weights>, draws: seq<real>, threshold: nat)
    requires |ws| <= |draws|
    ensures var t := Trial(ws, draws, threshold);
      forall j :: 0 <= j < |t.reports| - 1 ==> t.reports[j].remaining > threshold
  {
    var t := Trial(ws, draws, threshold);
    forall j | 0 <= j < |t.reports| - 1
      ensures t.reports[j].remaining > threshold
    {
      TrialReportCount(ws, draws, threshold, j);
    }
  }

  /** A report on fidelities that are all F has minimum, maximum and average F. */
  lemma {:induction false} ConstantReport(fidelities: seq<real>, F: real)
    requires forall x :: x in fidelities ==> x == F
    ensures ReportOf(fidelities).stats.Some? ==> ReportOf(fidelities).stats.value == Stats(F, F, F)
  {
    ReportStats(fidelities);
  }

  /** When every initial sample has fidelity F, so does every sample of every stage. */
  lemma {:induction false} UniformStage(s: Stage, draws: seq<real>, threshold: nat, k: nat, F: real)
    requires s.used + |s.ws| <= |draws|
    requires k < |Stages(s, draws, threshold)|
    requires forall w :: w in s.ws ==> SingletWeight(w) == F
    ensures forall x :: x in Fidelities(Stages(s, draws, threshold)[k].ws) ==> x == F
  {
    var ws := Stages(s, draws, threshold)[k].ws;
    StagesFromInitial(s, draws, threshold, k);
    forall x | x in Fidelities(ws)
      ensures x == F
    {
      var i :| 0 <= i < |ws| && Fidelities(ws)[i] == x;
      assert ws[i] in s.ws;
    }
  }

  /**
   * Rounds only select pairs and never change a survivor's weights, so a population whose
   * samples all have fidelity F reports minimum, maximum and average F in every round.
   */
  lemma {:induction false} UniformFidelityPersists(ws: seq<Weights>, draws: seq<real>, threshold: nat, F: real)
    requires |ws| <= |draws|
    requires forall w :: w in ws ==> SingletWeight(w) == F
    ensures var t := Trial(ws, draws, threshold);
      forall k :: 0 <= k < |t.reports| && t.reports[k].stats.Some? ==> t.reports[k].stats.value == Stats(F, F, F)
  {
    var s, t := Stage(ws, 0), Trial(ws, draws, threshold);
    var st := Stages(s, draws, threshold);
    forall k | 0 <= k < |t.reports|
      ensures t.reports[k].stats.Some? ==> t.reports[k].stats.value == Stats(F, F, F)
    {
      TrialStages(ws, draws, threshold);
      UniformStage(s, draws, threshold, k + 1, F);
      ConstantReport(Fidelities(st[k + 1].ws), F);
    }
  }

  // ---------------------------------------------------------------------------
  // The loop over state objects
  // ---------------------------------------------------------------------------

  predicate AllValid(samples: seq<DiagonalState>)
  {
    forall i :: 0 <= i < |samples| ==> samples[i].Valid()
  }

  /** No two samples share a weight list (a shared list would be rotated twice per pass). */
  predicate DistinctArrays(samples: seq<DiagonalState>)
  {
    forall i, j :: 0 <= i < j < |samples| ==> samples[i].normalization != samples[j].normalization
  }

  /** The weight lists of a population: what rotating it may change. */
  ghost function Arrays(samples: seq<DiagonalState>): set<array<real>>
  {
    set i | 0 <= i < |samples| :: samples[i].normalization
  }

  /**
   * The weights a population holds once the samples outside `live` have been rotated once
   * and those in `live` are back where they started (`before` and `after` are the weights
   * of `all`, in order).
   */
  predicate Settled(all: seq<DiagonalState>, live: seq<DiagonalState>, before: seq<Weights>, after: seq<Weights>)
  {
    && |before| == |all| && |after| == |all|
    && forall i :: 0 <= i < |all| ==> after[i] == if all[i] in live then before[i] else YRotated(before[i])
  }

  /** A sample of `all` that is not in `part` keeps its weight list out of `part`'s lists. */
  lemma {:induction false} OutsideArrays(all: seq<DiagonalState>, part: seq<DiagonalState>, x: DiagonalState)
    requires DistinctArrays(all) && forall y :: y in part ==> y in all
    requires x in all && x !in part
    ensures x.normalization !in Arrays(part)
  {
    var i :| 0 <= i < |all| && all[i] == x;
    forall j | 0 <= j < |part|
      ensures part[j].normalization != x.normalization
    {
      assert part[j] in all;
      var k :| 0 <= k < |all| && all[k] == part[j];
      assert i != k;
    }
  }

  /** The current weights of every sample, in population order. */
  ghost function WeightsOf(samples: seq<DiagonalState>): (ws: seq<Weights>)
    requires AllValid(samples)
    reads Arrays(samples)
    ensures |ws| == |samples| && forall i :: 0 <= i < |samples| ==> ws[i] == samples[i].normalization[..]
  {
    seq(|samples|, i requires 0 <= i < |samples| reads Arrays(samples) => samples[i].normalization[..])
  }

  /** Rotates every sample of the population once, in place. */
  method RotateAll(samples: seq<DiagonalState>)
    requires AllValid(samples) && DistinctArrays(samples)
    modifies Arrays(samples)
    ensures WeightsOf(samples) == Rotated(old(WeightsOf(samples)))
  {
    for k := 0 to |samples|
      invariant forall i :: 0 <= i < k ==> samples[i].normalization[..] == YRotated(old(samples[i].normalization[..]))
      invariant forall i :: k <= i < |samples| ==> samples[i].normalization[..] == old(samples[i].normalization[..])
    {
      UniYRot(samples[k]);
    }
  }

  /**
   * The pairing loop: BXOR on (samples[2k], samples[2k+1]) with draw k for every k below
   * |samples| / 2, keeping what it returns. Nothing is changed.
   */
  method Distill(samples: seq<DiagonalState>, draws: seq<real>) returns (remaining: seq<DiagonalState>)
    requires AllValid(samples) && |samples| / 2 <= |draws|
    ensures remaining == Gather(samples, PairSurvivors(WeightsOf(samples), draws, |samples| / 2))
  {
    ghost var ws := WeightsOf(samples);
    remaining := [];
    for k := 0 to |samples| / 2
      invariant remaining == Gather(samples, PairSurvivors(ws, draws, k))
    {
      var keep := Bxor(samples[2 * k], samples[2 * k + 1], draws[k]);
      if keep.Some? {
        remaining := remaining + [keep.value];
      }
    }
  }

  /** Rotates every survivor once, in place, and records its fidelity after the rotation. */
  method RotateAndRecord(samples: seq<DiagonalState>) returns (fidelities: seq<real>)
    requires AllValid(samples) && DistinctArrays(samples)
    modifies Arrays(samples)
    ensures WeightsOf(samples) == Rotated(old(WeightsOf(samples)))
    ensures fidelities == Fidelities(WeightsOf(samples))
  {
    fidelities := [];
    for k := 0 to |samples|
      invariant forall i :: 0 <= i < k ==> samples[i].normalization[..] == YRotated(old(samples[i].normalization[..]))
      invariant forall i :: k <= i < |samples| ==> samples[i].normalization[..] == old(samples[i].normalization[..])
      invariant |fidelities| == k && forall i :: 0 <= i < k ==> fidelities[i] == samples[i].normalization[0]
    {
      UniYRot(samples[k]);
      fidelities := fidelities + [samples[k].Fidelity()];
    }
  }

  /**
   * One pass of the loop body (rotate all, pair and distill, rotate the survivors and
   * record their fidelities). The survivors are the kept sources, in order, and end the
   * round with the weights they started it with.
   */
  method Round(samples: seq<DiagonalState>, draws: seq<real>)
    returns (remaining: seq<DiagonalState>, fidelities: seq<real>)
    requires AllValid(samples) && DistinctArrays(samples)
    requires |samples| / 2 <= |draws|
    modifies Arrays(samples)
    ensures remaining == Gather(samples, Survivors(old(WeightsOf(samples)), draws))
    ensures AllValid(remaining) && DistinctArrays(remaining) && Arrays(remaining) <= Arrays(samples)
    ensures WeightsOf(remaining) == Gather(old(WeightsOf(samples)), Survivors(old(WeightsOf(samples)), draws))
    ensures fidelities == Fidelities(WeightsOf(remaining))
    ensures forall x :: x in remaining ==> x in samples
    ensures Settled(samples, remaining, old(WeightsOf(samples)), WeightsOf(samples))
  {
    ghost var ws := WeightsOf(samples);
    RotateAll(samples);
    remaining := Distill(samples, draws);
    fidelities := RestoreSurvivors(samples, remaining, ws, Survivors(ws, draws));
  }

  /**
   * The end of a round: rotates the survivors back, in place, and records their
   * fidelities. The survivors hold their weights from before the round and every other
   * sample stays rotated once.
   */
  method RestoreSurvivors(ghost samples: seq<DiagonalState>, remaining: seq<DiagonalState>,
                          ghost ws: seq<Weights>, ghost survivors: seq<nat>)
    returns (fidelities: seq<real>)
    requires AllValid(samples) && DistinctArrays(samples) && |ws| == |samples|
    requires WeightsOf(samples) == Rotated(ws)
    requires StrictlyIncreasing(survivors) && forall j :: 0 <= j < |survivors| ==> survivors[j] < |samples|
    requires remaining == Gather(samples, survivors)
    modifies Arrays(remaining)
    ensures AllValid(remaining) && DistinctArrays(remaining) && Arrays(remaining) <= Arrays(samples)
    ensures WeightsOf(remaining) == Gather(ws, survivors)
    ensures fidelities == Fidelities(WeightsOf(remaining))
    ensures forall x :: x in remaining ==> x in samples
    ensures Settled(samples, remaining, ws, WeightsOf(samples))
  {
    ghost var mid := WeightsOf(samples);
    assert Arrays(remaining) <= Arrays(samples);
    fidelities := RotateAndRecord(remaining);
    forall j | 0 <= j < |remaining|
      ensures remaining[j].normalization[..] == ws[survivors[j]]
    {
      YRotatedInvolution(ws[survivors[j]]);
    }
    forall i | 0 <= i < |samples| && samples[i].normalization !in Arrays(remaining)
      ensures samples[i].normalization[..] == mid[i]
    {
    }
    RoundSettles(samples, survivors, remaining, ws, mid);
  }

  /**
   * The end of a round, in the current heap: the survivors hold their starting weights and
   * every sample whose list is not a survivor's still holds its once-rotated weights.
   */
  lemma {:induction false} RoundSettles(samples: seq<DiagonalState>, survivors: seq<nat>, remaining: seq<DiagonalState>,
                                        ws: seq<Weights>, mid: seq<Weights>)
    requires AllValid(samples) && DistinctArrays(samples) && |ws| == |samples| && mid == Rotated(ws)
    requires forall j :: 0 <= j < |survivors| ==> survivors[j] < |samples|
    requires remaining == Gather(samples, survivors)
    requires forall j :: 0 <= j < |remaining| ==> remaining[j].normalization[..] == ws[survivors[j]]
    requires forall i :: 0 <= i < |samples| && samples[i].normalization !in Arrays(remaining) ==>
      samples[i].normalization[..] == mid[i]
    ensures forall x :: x in remaining ==> x in samples
    ensures Settled(samples, remaining, ws, WeightsOf(samples))
  {
    forall x | x in remaining
      ensures x in samples
    {
      var j :| 0 <= j < |remaining| && remaining[j] == x;
      assert samples[survivors[j]] == x;
    }
    var post := WeightsOf(samples);
    forall i | 0 <= i < |samples|
      ensures post[i] == if samples[i] in remaining then ws[i] else YRotated(ws[i])
    {
      if samples[i] in remaining {
        var j :| 0 <= j < |remaining| && remaining[j] == samples[i];
        assert samples[survivors[j]].normalization == samples[i].normalization;
      } else {
        OutsideArrays(samples, remaining, samples[i]);
      }
    }
  }

  /** Extending the first k elements of a sequence by the next one. */
  lemma PrefixExtend<T>(s: seq<T>, k: nat)
    requires k < |s|
    ensures s[..k] + [s[k]] == s[..k + 1]
  {
  }

  /** The positions 0, 1, ..., n - 1. */
  function Indices(n: nat): (idx: seq<nat>)
    ensures |idx| == n && forall i :: 0 <= i < n ==> idx[i] == i
  {
    seq(n, i requires 0 <= i < n => i)
  }

  /** `ws` with every position outside `alive` rotated once. */
  ghost function Marked(ws: seq<Weights>, alive: seq<nat>): seq<Weights>
  {
    seq(|ws|, i requires 0 <= i < |ws| => if i in alive then ws[i] else YRotated(ws[i]))
  }

  /** Positions into a population of n samples. */
  predicate InRange(idx: seq<nat>, n: nat)
  {
    forall j :: 0 <= j < |idx| ==> idx[j] < n
  }

  /** Before the first round every sample is live and nothing is rotated. */
  lemma {:induction false} AllLive(initial: seq<DiagonalState>, w0: seq<Weights>)
    requires |w0| == |initial|
    ensures InRange(Indices(|initial|), |initial|) && Gather(initial, Indices(|initial|)) == initial
    ensures Marked(w0, Indices(|initial|)) == w0
  {
    var idx := Indices(|initial|);
    forall i | 0 <= i < |w0|
      ensures Marked(w0, idx)[i] == w0[i]
    {
      assert idx[i] == i;
    }
  }

  /** Strictly increasing positions climb by at least one per step. */
  lemma {:induction false} Spread(idx: seq<nat>, j: nat, l: nat)
    requires StrictlyIncreasing(idx) && j <= l < |idx|
    ensures idx[l] - idx[j] >= l - j
    decreases l - j
  {
    if j < l {
      Spread(idx, j + 1, l);
    }
  }

  /** n strictly increasing positions below n are exactly 0, 1, ..., n - 1. */
  lemma {:induction false} AllPositions(idx: seq<nat>, n: nat)
    requires StrictlyIncreasing(idx) && InRange(idx, n) && |idx| == n
    ensures idx == Indices(n)
  {
    forall j | 0 <= j < n
      ensures idx[j] == j
    {
      Spread(idx, 0, j);
      Spread(idx, j, n - 1);
    }
  }

  /** The samples at strictly increasing positions of a population form a population of their own. */
  lemma {:induction false} LiveValid(initial: seq<DiagonalState>, alive: seq<nat>)
    requires AllValid(initial) && DistinctArrays(initial)
    requires StrictlyIncreasing(alive) && InRange(alive, |initial|)
    ensures AllValid(Gather(initial, alive)) && DistinctArrays(Gather(initial, alive))
    ensures Arrays(Gather(initial, alive)) <= Arrays(initial)
  {
    var live := Gather(initial, alive);
    forall a | a in Arrays(live)
      ensures a in Arrays(initial)
    {
      var j :| 0 <= j < |live| && live[j].normalization == a;
      assert initial[alive[j]].normalization == a;
    }
  }

  /** Gathering twice is gathering once, at the composed positions. */
  lemma {:induction false} GatherTwice<T>(xs: seq<T>, a: seq<nat>, b: seq<nat>)
    requires InRange(a, |xs|) && InRange(b, |a|)
    ensures InRange(Gather(a, b), |xs|)
    ensures Gather(Gather(xs, a), b) == Gather(xs, Gather(a, b))
  {
  }

  /** Strictly increasing positions taken at strictly increasing positions still increase. */
  lemma {:induction false} IncreasingTwice(a: seq<nat>, b: seq<nat>)
    requires StrictlyIncreasing(a) && StrictlyIncreasing(b) && InRange(b, |a|)
    ensures StrictlyIncreasing(Gather(a, b))
  {
    var c := Gather(a, b);
    forall j, l | 0 <= j < l < |c|
      ensures c[j] < c[l]
    {
      assert b[j] < b[l];
    }
  }

  /** A sample is among those at the given positions exactly when its own position is one of them. */
  lemma {:induction false} AmongIff(initial: seq<DiagonalState>, idx: seq<nat>, i: nat)
    requires DistinctArrays(initial) && InRange(idx, |initial|) && i < |initial|
    ensures initial[i] in Gather(initial, idx) <==> i in idx
  {
    var live := Gather(initial, idx);
    if initial[i] in live {
      var j :| 0 <= j < |live| && live[j] == initial[i];
      assert initial[idx[j]].normalization == initial[i].normalization;
      assert idx[j] == i;
    }
    if i in idx {
      var j :| 0 <= j < |idx| && idx[j] == i;
      assert live[j] == initial[i];
    }
  }

  /** The live samples hold their initial weights. */
  lemma {:induction false} LiveWeights(initial: seq<DiagonalState>, alive: seq<nat>, w0: seq<Weights>)
    requires AllValid(initial) && |w0| == |initial|
    requires InRange(alive, |initial|) && WeightsOf(initial) == Marked(w0, alive)
    ensures WeightsOf(Gather(initial, alive)) == Gather(w0, alive)
  {
    var post := WeightsOf(initial);
    forall j | 0 <= j < |alive|
      ensures WeightsOf(Gather(initial, alive))[j] == w0[alive[j]]
    {
      assert post[alive[j]] == Marked(w0, alive)[alive[j]];
    }
  }

  /** A sample outside the live positions keeps its list out of the live samples' lists. */
  lemma {:induction false} OutsideLive(initial: seq<DiagonalState>, alive: seq<nat>, i: nat)
    requires DistinctArrays(initial) && InRange(alive, |initial|) && i < |initial| && i !in alive
    ensures initial[i].normalization !in Arrays(Gather(initial, alive))
  {
    forall j | 0 <= j < |alive|
      ensures Gather(initial, alive)[j].normalization != initial[i].normalization
    {
      assert alive[j] != i;
    }
  }

  /**
   * The live samples, given by their positions in the initial population, are among the
   * initial samples, which are settled around them.
   */
  lemma {:induction false} LiveSettled(initial: seq<DiagonalState>, alive: seq<nat>, w0: seq<Weights>)
    requires AllValid(initial) && DistinctArrays(initial) && |w0| == |initial|
    requires InRange(alive, |initial|) && WeightsOf(initial) == Marked(w0, alive)
    ensures forall x :: x in Gather(initial, alive) ==> x in initial
    ensures Settled(initial, Gather(initial, alive), w0, WeightsOf(initial))
  {
    var live, post := Gather(initial, alive), WeightsOf(initial);
    forall x | x in live
      ensures x in initial
    {
      var j :| 0 <= j < |live| && live[j] == x;
      assert initial[alive[j]] == x;
    }
    forall i | 0 <= i < |initial|
      ensures post[i] == if initial[i] in live then w0[i] else YRotated(w0[i])
    {
      assert post[i] == Marked(w0, alive)[i];
      AmongIff(initial, alive, i);
    }
  }

  /** One position after a round: live positions follow the round, dropped ones stay rotated. */
  lemma {:induction false} MarkedAt(initial: seq<DiagonalState>, alive: seq<nat>, survivors: seq<nat>,
                                    w0: seq<Weights>, i: nat)
    requires AllValid(initial) && DistinctArrays(initial) && |w0| == |initial|
    requires InRange(alive, |initial|) && InRange(survivors, |alive|) && i < |initial|
    requires Settled(Gather(initial, alive), Gather(initial, Gather(alive, survivors)), Gather(w0, alive),
                     WeightsOf(Gather(initial, alive)))
    requires i !in alive ==> initial[i].normalization[..] == YRotated(w0[i])
    ensures initial[i].normalization[..] == if i in Gather(alive, survivors) then w0[i] else YRotated(w0[i])
  {
    var next := Gather(alive, survivors);
    GatherTwice(initial, alive, survivors);
    if i in alive {
      var j :| 0 <= j < |alive| && alive[j] == i;
      assert Gather(initial, alive)[j] == initial[i];
      AmongIff(initial, next, i);
    } else {
      forall m | 0 <= m < |next|
        ensures next[m] != i
      {
        assert next[m] == alive[survivors[m]];
      }
    }
  }

  /**
   * One round, followed on positions: the round's survivors are live next, and the
   * samples it drops join the once-rotated ones.
   */
  lemma {:induction false} MarkedStep(initial: seq<DiagonalState>, alive: seq<nat>, survivors: seq<nat>, w0: seq<Weights>)
    requires AllValid(initial) && DistinctArrays(initial) && |w0| == |initial|
    requires InRange(alive, |initial|) && InRange(survivors, |alive|)
    requires Settled(Gather(initial, alive), Gather(initial, Gather(alive, survivors)), Gather(w0, alive),
                     WeightsOf(Gather(initial, alive)))
    requires forall i :: 0 <= i < |initial| && i !in alive ==> initial[i].normalization[..] == YRotated(w0[i])
    ensures WeightsOf(initial) == Marked(w0, Gather(alive, survivors))
  {
    var post, next := WeightsOf(initial), Gather(alive, survivors);
    forall i | 0 <= i < |initial|
      ensures post[i] == Marked(w0, next)[i]
    {
      MarkedAt(initial, alive, survivors, w0, i);
    }
  }

  /**
   * A round on the live samples, followed on positions in the initial population: the
   * survivors' positions, their weights and fidelities, and the initial population's weights.
   */
  method IndexedRound(ghost initial: seq<DiagonalState>, ghost w0: seq<Weights>, ghost alive: seq<nat>,
                      samples: seq<DiagonalState>, draws: seq<real>)
    returns (remaining: seq<DiagonalState>, fidelities: seq<real>, ghost next: seq<nat>)
    requires AllValid(initial) && DistinctArrays(initial) && |w0| == |initial|
    requires StrictlyIncreasing(alive) && InRange(alive, |initial|) && samples == Gather(initial, alive)
    requires WeightsOf(initial) == Marked(w0, alive)
    requires |samples| / 2 <= |draws|
    modifies Arrays(initial)
    ensures StrictlyIncreasing(next) && InRange(next, |initial|) && remaining == Gather(initial, next)
    ensures var live := Gather(w0, alive);
      Gather(w0, next) == Gather(live, Survivors(live, draws))
    ensures fidelities == Fidelities(Gather(w0, next))
    ensures WeightsOf(initial) == Marked(w0, next)
  {
    LiveValid(initial, alive);
    LiveWeights(initial, alive, w0);
    ghost var preI, ws := WeightsOf(initial), WeightsOf(samples);
    ghost var survivors := Survivors(ws, draws);
    remaining, fidelities := Round(samples, draws);
    forall i | 0 <= i < |initial| && i !in alive
      ensures initial[i].normalization[..] == YRotated(w0[i])
    {
      OutsideLive(initial, alive, i);
      assert preI[i] == Marked(w0, alive)[i];
    }
    next := Gather(alive, survivors);
    IncreasingTwice(alive, survivors);
    GatherTwice(initial, alive, survivors);
    GatherTwice(w0, alive, survivors);
    MarkedStep(initial, alive, survivors, w0);
  }

  /** A trial followed stage by stage up to a stage at or below the threshold has ended there. */
  lemma {:induction false} TrialDone(ws: seq<Weights>, draws: seq<real>, threshold: nat, k: nat,
                                     last: seq<Weights>, used: nat, reports: seq<Report>)
    requires |ws| <= |draws|
    requires k < |Stages(Stage(ws, 0), draws, threshold)|
    requires Stages(Stage(ws, 0), draws, threshold)[k] == Stage(last, used) && |last| <= threshold
    requires k <= |Trial(ws, draws, threshold).reports| && reports == Trial(ws, draws, threshold).reports[..k]
    ensures last == Trial(ws, draws, threshold).final && reports == Trial(ws, draws, threshold).reports
  {
    StagesChain(Stage(ws, 0), draws, threshold, k);
  }

  /**
   * One more round of a trial followed stage by stage: a stage above the threshold is
   * followed by its round, and the trial reports on that round's survivors next.
   */
  lemma {:induction false} TrialStep(ws: seq<Weights>, draws: seq<real>, threshold: nat, k: nat,
                                     cur: seq<Weights>, used: nat, reports: seq<Report>)
    requires |ws| <= |draws|
    requires k < |Stages(Stage(ws, 0), draws, threshold)|
    requires Stages(Stage(ws, 0), draws, threshold)[k] == Stage(cur, used) && |cur| > threshold
    requires k <= |Trial(ws, draws, threshold).reports| && reports == Trial(ws, draws, threshold).reports[..k]
    ensures used + |cur| <= |draws|
    ensures var next := Gather(cur, Survivors(cur, draws[used..]));
      && k + 1 < |Stages(Stage(ws, 0), draws, threshold)|
      && Stages(Stage(ws, 0), draws, threshold)[k + 1] == Stage(next, used + |cur| / 2)
      && k + 1 <= |Trial(ws, draws, threshold).reports|
      && reports + [ReportOf(Fidelities(next))] == Trial(ws, draws, threshold).reports[..k + 1]
  {
    var s, t := Stage(ws, 0), Trial(ws, draws, threshold);
    StagesChain(s, draws, threshold, k);
    StagesNext(s, draws, threshold, k);
    PrefixExtend(t.reports, k);
  }

  /**
   * The round loop, which runs while more than `threshold` samples remain. Round r consumes the next
   * |samples| / 2 draws, one per pair in pair order. Returns the final population, the
   * round count `iter` and one report per round (what each round prints).
   */
  method Simulate(initial: seq<DiagonalState>, threshold: nat, draws: seq<real>)
    returns (samples: seq<DiagonalState>, fidelities: seq<real>, iter: nat, reports: seq<Report>)
    requires AllValid(initial) && DistinctArrays(initial)
    requires |initial| <= |draws|
    modifies Arrays(initial)
    ensures AllValid(samples) && DistinctArrays(samples) && Arrays(samples) <= Arrays(initial)
    ensures var t := Trial(old(WeightsOf(initial)), draws, threshold);
      WeightsOf(samples) == t.final && reports == t.reports
    ensures iter == |reports|
    ensures fidelities == if iter == 0 then [] else Fidelities(Trial(old(WeightsOf(initial)), draws, threshold).final)
    ensures forall x :: x in samples ==> x in initial
    ensures iter == 0 ==> samples == initial
    ensures Settled(initial, samples, old(WeightsOf(initial)), WeightsOf(initial))
  {
    ghost var w0 := WeightsOf(initial);
    ghost var stages := Stages(Stage(w0, 0), draws, threshold);
    ghost var t0 := Trial(w0, draws, threshold);
    samples, fidelities, iter, reports := initial, [], 0, [];
    ghost var alive := Indices(|initial|);
    AllLive(initial, w0);
    var used: nat := 0;
    while |samples| > threshold
      invariant StrictlyIncreasing(alive) && InRange(alive, |initial|) && samples == Gather(initial, alive)
      invariant WeightsOf(initial) == Marked(w0, alive)
      invariant iter < |stages| && stages[iter] == Stage(Gather(w0, alive), used)
      invariant iter <= |t0.reports| && reports == t0.reports[..iter]
      invariant iter == 0 ==> fidelities == []
      invariant iter > 0 ==> fidelities == Fidelities(stages[iter].ws)
      decreases |samples|
    {
      TrialStep(w0, draws, threshold, iter, Gather(w0, alive), used, reports);
      var remaining;
      remaining, fidelities, alive := IndexedRound(initial, w0, alive, samples, draws[used..]);
      used := used + |samples| / 2;
      iter := iter + 1;
      reports := reports + [ReportOf(fidelities)];
      samples := remaining;
    }
    TrialDone(w0, draws, threshold, iter, Gather(w0, alive), used, reports);
    LiveValid(initial, alive);
    LiveWeights(initial, alive, w0);
    LiveSettled(initial, alive, w0);
    if iter == 0 {
      AllPositions(alive, |initial|);
      AllLive(initial, w0);
    }
  }
}
