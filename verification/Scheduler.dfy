/** Choosing a worker for a new sandbox: the weighted draw, and the loop that
    assigns, drops workers that turn out full, and chooses again.

    Loads are reals. A status is what is left of its text once trimmed and
    lower-cased. */
module Scheduler {
  import opened Collections
  import opened Tables
  import Tx = Transactions

  datatype StatusText = Blank | ActiveText | OtherText

  datatype Info = Info(cpuUsage: int, memUsage: int, memBudget: int, status: StatusText)

  /** A worker row with the load its worker answered, if it did. */
  datatype Candidate = Candidate(worker: WorkerId, status: StatusText, info: Option<Info>)

  const CPU_USAGE_SCALE := 100

  function UsageRatio(usage: int, budget: int): real {
    if usage <= 0 then 0.0
    else if budget <= 0 then usage as real / 100.0
    else usage as real / budget as real
  }

  function LeftRatio(usage: int, budget: int): real {
    var left := 1.0 - UsageRatio(usage, budget);
    if left < 0.0 then 0.0 else if left > 1.0 then 1.0 else left
  }

  function LoadScore(i: Info): real {
    0.7 * UsageRatio(i.cpuUsage, CPU_USAGE_SCALE) + 0.3 * UsageRatio(i.memUsage, i.memBudget)
  }

  function Weight(i: Info): real {
    0.7 * LeftRatio(i.cpuUsage, CPU_USAGE_SCALE) + 0.3 * LeftRatio(i.memUsage, i.memBudget)
  }

  predicate HasCapacity(i: Info) {
    UsageRatio(i.cpuUsage, CPU_USAGE_SCALE) < 1.0 && UsageRatio(i.memUsage, i.memBudget) < 1.0
  }

  predicate IsActive(c: Candidate) {
    c.info.Some? &&
    (c.status == Blank || c.status == ActiveText) && (c.info.value.status == Blank || c.info.value.status == ActiveText)
  }

  predicate Eligible(c: Candidate, activeOnly: bool) {
    c.info.Some? && (activeOnly ==> IsActive(c))
  }

  predicate Open(c: Candidate) {
    IsActive(c) && HasCapacity(c.info.value)
  }

  /** A worker that answered is active unless its row or its answer says otherwise. */
  lemma ActiveUnlessToldOtherwise(c: Candidate)
    ensures IsActive(c) <==> c.info.Some? && c.status != OtherText && c.info.value.status != OtherText
  {
  }

  // ---- Loads, on the integers the workers report ----

  /** What a usage is measured against: its budget, or 100 where there is none. */
  function Limit(budget: int): (limit: int)
    ensures limit > 0
  {
    if budget > 0 then budget else 100
  }

  lemma RatioTimesLimit(usage: int, budget: int)
    ensures UsageRatio(usage, budget) * Limit(budget) as real == if usage > 0 then usage as real else 0.0
  {
    var u, b := usage as real, Limit(budget) as real;
    assert u / b * b == u;
  }

  lemma ProductGrows(a: real, b: real, limit: real)
    requires limit > 0.0
    ensures a * limit < b * limit <==> a < b
    ensures a * limit <= b * limit <==> a <= b
  {
    if a < b {
      ProductRises(a, b, limit);
    } else if b < a {
      ProductRises(b, a, limit);
    }
  }

  lemma ProductRises(a: real, b: real, limit: real)
    requires limit > 0.0 && a < b
    ensures a * limit < b * limit
  {
    assert (b - a) * limit > 0.0;
    assert (b - a) * limit == b * limit - a * limit;
  }

  lemma RatioIsPositive(usage: int, budget: int)
    ensures UsageRatio(usage, budget) >= 0.0
  {
    RatioTimesLimit(usage, budget);
    ProductGrows(0.0, UsageRatio(usage, budget), Limit(budget) as real);
  }

  lemma RatioBelowOne(usage: int, budget: int)
    ensures UsageRatio(usage, budget) < 1.0 <==> usage < Limit(budget)
  {
    var ratio, limit := UsageRatio(usage, budget), Limit(budget) as real;
    RatioTimesLimit(usage, budget);
    BelowOne(ratio, limit, if usage > 0 then usage as real else 0.0);
  }

  lemma BelowOne(ratio: real, limit: real, product: real)
    requires limit > 0.0 && ratio * limit == product
    ensures ratio < 1.0 <==> product < limit
  {
    ProductGrows(ratio, 1.0, limit);
    assert 1.0 * limit == limit;
  }

  lemma RatioGrows(usage: int, more: int, budget: int)
    requires usage <= more
    ensures UsageRatio(usage, budget) <= UsageRatio(more, budget)
  {
    RatioTimesLimit(usage, budget);
    RatioTimesLimit(more, budget);
    ProductGrows(UsageRatio(usage, budget), UsageRatio(more, budget), Limit(budget) as real);
  }

  /** A worker is saturated once its CPU or its memory is used up. */
  predicate Saturated(i: Info) {
    i.cpuUsage >= 100 || i.memUsage >= (if i.memBudget > 0 then i.memBudget else 100)
  }

  lemma CapacityIsUnsaturated(i: Info)
    ensures HasCapacity(i) <==> !Saturated(i)
  {
    RatioBelowOne(i.cpuUsage, CPU_USAGE_SCALE);
    RatioBelowOne(i.memUsage, i.memBudget);
  }

  /** Seven tenths of the CPU's share and three of the memory's. */
  lemma ScoreIsWeighted(i: Info)
    requires i.cpuUsage >= 0 && i.memUsage >= 0 && i.memBudget > 0
    ensures LoadScore(i) * (1000 * i.memBudget) as real == (7 * i.cpuUsage * i.memBudget + 300 * i.memUsage) as real
  {
    var cpu, mem, b := UsageRatio(i.cpuUsage, CPU_USAGE_SCALE), UsageRatio(i.memUsage, i.memBudget), i.memBudget as real;
    RatioTimesLimit(i.cpuUsage, CPU_USAGE_SCALE);
    RatioTimesLimit(i.memUsage, i.memBudget);
    WeightedScore(cpu, mem, b, i.cpuUsage as real, i.memUsage as real);
    assert (1000 * i.memBudget) as real == 1000.0 * b;
    assert (7 * i.cpuUsage * i.memBudget) as real == 7.0 * i.cpuUsage as real * b;
  }

  lemma WeightedScore(cpu: real, mem: real, b: real, cpuUsage: real, memUsage: real)
    requires cpu * 100.0 == cpuUsage && mem * b == memUsage
    ensures (0.7 * cpu + 0.3 * mem) * (1000.0 * b) == 7.0 * cpuUsage * b + 300.0 * memUsage
  {
    assert (0.3 * mem) * (1000.0 * b) == 300.0 * (mem * b);
    assert (0.7 * cpu) * (1000.0 * b) == 7.0 * (cpu * 100.0) * b;
  }

  /** More usage never lowers the score of a worker, and never raises its weight. */
  lemma MoreUsageWeighsLess(i: Info, j: Info)
    requires i.memBudget == j.memBudget && i.cpuUsage <= j.cpuUsage && i.memUsage <= j.memUsage
    ensures LoadScore(i) <= LoadScore(j) && Weight(i) >= Weight(j)
  {
    RatioGrows(i.cpuUsage, j.cpuUsage, CPU_USAGE_SCALE);
    RatioGrows(i.memUsage, j.memUsage, i.memBudget);
  }

  lemma WeightIsPositive(i: Info)
    ensures Weight(i) >= 0.0
  {
  }

  /** A worker with capacity left weighs exactly what its load leaves, and more
      than nothing. */
  lemma WeightIsWhatIsLeft(i: Info)
    requires HasCapacity(i)
    ensures Weight(i) == 1.0 - LoadScore(i)
    ensures Weight(i) > 0.0
  {
    RatioIsPositive(i.cpuUsage, CPU_USAGE_SCALE);
    RatioIsPositive(i.memUsage, i.memBudget);
  }

  // ---- The draw ----

  ghost function Sum(weights: seq<real>): real {
    if weights == [] then 0.0 else Sum(weights[..|weights| - 1]) + weights[|weights| - 1]
  }

  ghost predicate NonNegative(weights: seq<real>) {
    forall i :: 0 <= i < |weights| ==> weights[i] >= 0.0
  }

  /** Roll `roll` falls to index `i`: in the interval of length `weights[i]` that
      starts where those before it end. A roll of zero falls to the first. */
  ghost predicate FallsTo(weights: seq<real>, roll: real, i: nat)
    requires i < |weights|
  {
    || Sum(weights[..i]) < roll <= Sum(weights[..i + 1])
    || (i == 0 && roll == 0.0)
  }

  lemma SumStep(weights: seq<real>, i: nat)
    requires i < |weights|
    ensures Sum(weights[..i + 1]) == Sum(weights[..i]) + weights[i]
  {
    assert weights[..i + 1][..i] == weights[..i];
  }

  lemma {:induction false} SumMonotone(weights: seq<real>, i: nat, j: nat)
    requires NonNegative(weights) && i <= j <= |weights|
    ensures Sum(weights[..i]) <= Sum(weights[..j])
    decreases j
  {
    if i < j {
      SumStep(weights, j - 1);
      SumMonotone(weights, i, j - 1);
    }
  }

  /** The intervals are consecutive, each as long as its weight, and partition the
      rolls: every roll falls to exactly one index, and to one that weighs
      something unless the roll is zero. */
  lemma {:induction false} RollsArePartitioned(weights: seq<real>, roll: real, n: nat)
    requires NonNegative(weights) && n <= |weights| && 0.0 < roll <= Sum(weights[..n])
    ensures exists i: nat :: i < n && FallsTo(weights, roll, i)
    decreases n
  {
    assert weights[..0] == [];
    SumStep(weights, n - 1);
    if roll <= Sum(weights[..n - 1]) {
      RollsArePartitioned(weights, roll, n - 1);
    } else {
      assert FallsTo(weights, roll, n - 1);
    }
  }

  lemma RollFallsToOne(weights: seq<real>, roll: real, i: nat, j: nat)
    requires NonNegative(weights) && i < |weights| && j < |weights| && roll >= 0.0
    requires FallsTo(weights, roll, i) && FallsTo(weights, roll, j)
    ensures i == j
    ensures roll > 0.0 ==> weights[i] > 0.0
    ensures Sum(weights[..i + 1]) - Sum(weights[..i]) == weights[i]
  {
    SumStep(weights, i);
    if i < j {
      RollFallsBefore(weights, roll, i, j);
    } else if j < i {
      RollFallsBefore(weights, roll, j, i);
    }
  }

  lemma RollFallsBefore(weights: seq<real>, roll: real, i: nat, j: nat)
    requires NonNegative(weights) && i < j < |weights| && roll >= 0.0 && FallsTo(weights, roll, i)
    ensures !FallsTo(weights, roll, j)
  {
    assert weights[..0] == [];
    SumMonotone(weights, i + 1, j);
    SumMonotone(weights, 0, j);
  }

  /** The candidates a draw considers, in order, and their weights. */
  function Considered(candidates: seq<Candidate>, activeOnly: bool): (r: seq<Candidate>)
    ensures forall c <- r :: c in candidates && Eligible(c, activeOnly)
    ensures forall c <- candidates :: Eligible(c, activeOnly) ==> c in r
  {
    if candidates == [] then []
    else
      var n := |candidates| - 1;
      Considered(candidates[..n], activeOnly) + (if Eligible(candidates[n], activeOnly) then [candidates[n]] else [])
  }

  ghost function Weights(considered: seq<Candidate>): (ws: seq<real>)
    requires forall c <- considered :: c.info.Some?
    ensures |ws| == |considered|
    ensures NonNegative(ws)
  {
    seq(|considered|, i requires 0 <= i < |considered| =>
      assert considered[i] in considered; WeightIsPositive(considered[i].info.value); Weight(considered[i].info.value))
  }

  ghost predicate LeastUsed(candidates: seq<Candidate>, activeOnly: bool, c: Candidate) {
    && c in candidates && Eligible(c, activeOnly)
    && forall o <- candidates :: Eligible(o, activeOnly) ==> LoadScore(c.info.value) <= LoadScore(o.info.value)
  }

  method PickLeastUsed(candidates: seq<Candidate>, activeOnly: bool) returns (best: Option<Candidate>)
    ensures best.None? <==> forall c <- candidates :: !Eligible(c, activeOnly)
    ensures best.Some? ==> LeastUsed(candidates, activeOnly, best.value)
  {
    best := None;
    var i := 0;
    while i < |candidates|
      invariant 0 <= i <= |candidates|
      invariant best.None? <==> forall c <- candidates[..i] :: !Eligible(c, activeOnly)
      invariant best.Some? ==> LeastUsed(candidates[..i], activeOnly, best.value)
    {
      var c := candidates[i];
      if Eligible(c, activeOnly) && (best.None? || LoadScore(c.info.value) < LoadScore(best.value.info.value)) {
        best := Some(c);
      }
      assert candidates[..i + 1] == candidates[..i] + [c];
      i := i + 1;
    }
    assert candidates[..i] == candidates;
  }

  /** The candidates before `i` are weighed. */
  ghost predicate Weighed(candidates: seq<Candidate>, activeOnly: bool, i: nat, weighted: seq<Candidate>, weights: seq<real>, total: real)
    requires i <= |candidates|
  {
    weighted == Considered(candidates[..i], activeOnly) && weights == Weights(weighted) && total == Sum(weights)
  }

  lemma WeighedStep(candidates: seq<Candidate>, activeOnly: bool, i: nat, weighted: seq<Candidate>, weights: seq<real>, total: real)
    requires i < |candidates| && Weighed(candidates, activeOnly, i, weighted, weights, total)
    ensures var c := candidates[i];
            if Eligible(c, activeOnly)
            then Weighed(candidates, activeOnly, i + 1, weighted + [c], weights + [Weight(c.info.value)], total + Weight(c.info.value))
            else Weighed(candidates, activeOnly, i + 1, weighted, weights, total)
  {
    ConsideredStep(candidates, activeOnly, i);
    if Eligible(candidates[i], activeOnly) {
      WeightsAppend(weighted, candidates[i]);
    }
  }

  method Weigh(candidates: seq<Candidate>, activeOnly: bool)
    returns (weighted: seq<Candidate>, weights: seq<real>, total: real)
    ensures weighted == Considered(candidates, activeOnly)
    ensures weights == Weights(weighted) && total == Sum(weights)
  {
    weighted, weights, total := [], [], 0.0;
    var i := 0;
    while i < |candidates|
      invariant 0 <= i <= |candidates| && Weighed(candidates, activeOnly, i, weighted, weights, total)
    {
      var c := candidates[i];
      WeighedStep(candidates, activeOnly, i, weighted, weights, total);
      if Eligible(c, activeOnly) {
        var weight := Weight(c.info.value);
        weighted, weights, total := weighted + [c], weights + [weight], total + weight;
      }
      i := i + 1;
    }
    assert candidates[..i] == candidates;
  }

  lemma ConsideredStep(candidates: seq<Candidate>, activeOnly: bool, i: nat)
    requires i < |candidates|
    ensures Considered(candidates[..i + 1], activeOnly) ==
              Considered(candidates[..i], activeOnly) + if Eligible(candidates[i], activeOnly) then [candidates[i]] else []
  {
    assert candidates[..i + 1][..i] == candidates[..i];
  }

  lemma WeightsAppend(considered: seq<Candidate>, c: Candidate)
    requires c.info.Some? && forall o <- considered :: o.info.Some?
    ensures Weights(considered + [c]) == Weights(considered) + [Weight(c.info.value)]
    ensures Sum(Weights(considered + [c])) == Sum(Weights(considered)) + Weight(c.info.value)
  {
    var longer := Weights(considered + [c]);
    assert longer[..|longer| - 1] == Weights(considered);
  }

  /** Takes weights off the roll until nothing is left of it. The check on the last
      candidate and the fallback behind it pick the same. */
  method TakeRoll(weights: seq<real>, roll: real) returns (i: nat)
    requires weights != [] && 0.0 <= roll <= Sum(weights)
    ensures i < |weights| && FallsTo(weights, roll, i)
  {
    var left := roll;
    i := 0;
    assert weights[..0] == [];
    while i < |weights| - 1
      invariant 0 <= i <= |weights| - 1
      invariant left == roll - Sum(weights[..i])
      invariant if i > 0 then left > 0.0 else left >= 0.0
    {
      SumStep(weights, i);
      left := left - weights[i];
      if left <= 0.0 {
        return;
      }
      i := i + 1;
    }
    assert weights[..i + 1] == weights;
  }

  /** A random number in [0, 1), as the scaling it does: from a total weight to a
      roll below it. */
  ghost predicate IsDraw(draw: real -> real) {
    forall total :: total > 0.0 ==> 0.0 <= draw(total) < total
  }

  ghost predicate Draws(considered: seq<Candidate>, draw: real -> real, c: Candidate)
    requires forall o <- considered :: o.info.Some?
  {
    exists i: nat :: i < |considered| && considered[i] == c && FallsTo(Weights(considered), draw(Sum(Weights(considered))), i)
  }

  /** The candidate a draw picks. */
  method PickWeightedRandom(candidates: seq<Candidate>, activeOnly: bool, draw: real -> real) returns (picked: Option<Candidate>)
    requires IsDraw(draw)
    ensures picked.None? <==> forall c <- candidates :: !Eligible(c, activeOnly)
    ensures picked.Some? ==> picked.value in candidates && Eligible(picked.value, activeOnly)
    ensures picked.Some? ==>
              var considered := Considered(candidates, activeOnly);
              if Sum(Weights(considered)) > 0.0
              then Draws(considered, draw, picked.value)
              else LeastUsed(candidates, activeOnly, picked.value)
  {
    var weighted, weights, total := Weigh(candidates, activeOnly);
    if |weighted| == 0 {
      return None;
    }
    assert weighted[0] in weighted;
    if total <= 0.0 {
      picked := PickLeastUsed(candidates, activeOnly);
      return;
    }
    var k := TakeRoll(weights, draw(total));
    return Some(weighted[k]);
  }

  method SplitActive(candidates: seq<Candidate>) returns (hasActive: bool, withCapacity: seq<Candidate>)
    ensures hasActive <==> exists c <- candidates :: IsActive(c)
    ensures forall c :: c in withCapacity <==> c in candidates && Open(c)
  {
    hasActive, withCapacity := false, [];
    var i := 0;
    while i < |candidates|
      invariant 0 <= i <= |candidates|
      invariant hasActive <==> exists c <- candidates[..i] :: IsActive(c)
      invariant forall c :: c in withCapacity <==> c in candidates[..i] && Open(c)
    {
      var c := candidates[i];
      assert candidates[..i + 1] == candidates[..i] + [c];
      if IsActive(c) {
        hasActive := true;
        if HasCapacity(c.info.value) {
          withCapacity := withCapacity + [c];
        }
      }
      i := i + 1;
    }
    assert candidates[..i] == candidates;
  }

  datatype Chosen = Picked(candidate: Candidate) | NoCandidates | ClusterFull

  /** The cluster is full when some worker is active and none of those has
      capacity; and as long as one has, only such a worker is drawn. */
  method ChooseLeastUsedWorker(candidates: seq<Candidate>, draw: real -> real) returns (chosen: Chosen)
    requires IsDraw(draw)
    ensures chosen.ClusterFull? <==>
              (exists c <- candidates :: IsActive(c)) && (forall c <- candidates :: IsActive(c) ==> Saturated(c.info.value))
    ensures chosen.NoCandidates? <==> forall c <- candidates :: c.info.None?
    ensures chosen.Picked? ==> chosen.candidate in candidates && chosen.candidate.info.Some?
    ensures chosen.Picked? && (exists c <- candidates :: IsActive(c) && !Saturated(c.info.value)) ==>
              IsActive(chosen.candidate) && !Saturated(chosen.candidate.info.value)
  {
    if |candidates| == 0 {
      return NoCandidates;
    }
    forall c | IsActive(c) ensures Open(c) <==> !Saturated(c.info.value) { CapacityIsUnsaturated(c.info.value); }
    var hasActive, withCapacity := SplitActive(candidates);
    if hasActive && |withCapacity| == 0 {
      return ClusterFull;
    }
    assert hasActive ==> withCapacity[0] in withCapacity;
    var picked := PickWeightedRandom(withCapacity, true, draw);
    if picked.Some? {
      return Picked(picked.value);
    }
    NoneOpen(candidates, withCapacity);
    picked := PickWeightedRandom(candidates, false, draw);
    chosen := if picked.Some? then Picked(picked.value) else NoCandidates;
  }

  lemma NoneOpen(candidates: seq<Candidate>, withCapacity: seq<Candidate>)
    requires forall c :: c in withCapacity <==> c in candidates && Open(c)
    requires forall c <- withCapacity :: !Eligible(c, true)
    ensures forall c <- candidates :: !Open(c)
  {
  }

  // ---- The assignment loop ----

  function Without(candidates: seq<Candidate>, w: WorkerId): (r: seq<Candidate>)
    ensures forall c :: c in r <==> c in candidates && c.worker != w
    ensures |r| <= |candidates|
    ensures (exists c <- candidates :: c.worker == w) ==> |r| < |candidates|
  {
    if candidates == [] then []
    else (if candidates[0].worker == w then [] else [candidates[0]]) + Without(candidates[1..], w)
  }

  datatype LoopOutcome = To(w: WorkerId) | Refused(w: WorkerId, why: Tx.AssignAnswer) | Full | NoneLeft

  /** stepAssign's loop. `answers` is what AssignWorker answers for each worker at
      the moment it is asked, `draws` the scheduler's random numbers. */
  method AssignLoop(candidates: seq<Candidate>, answers: WorkerId -> Tx.AssignAnswer, draws: nat -> real -> real)
    returns (outcome: LoopOutcome, tried: seq<WorkerId>)
    requires forall n :: IsDraw(draws(n))
    ensures Distinct(tried)
    ensures forall w <- tried :: exists c <- candidates :: c.worker == w
    ensures forall i :: 0 <= i < |tried| - 1 ==> answers(tried[i]) == Tx.WorkerFull
    ensures outcome.To? || outcome.Refused? ==>
              tried != [] && outcome.w == tried[|tried| - 1] && answers(outcome.w) != Tx.WorkerFull
    ensures outcome.To? ==> answers(outcome.w) == Tx.AssignedTo
    ensures outcome.Refused? ==> outcome.why == answers(outcome.w) != Tx.AssignedTo
    ensures outcome.Full? || outcome.NoneLeft? ==>
              forall c <- candidates :: IsActive(c) ==>
                Saturated(c.info.value) || (c.worker in tried && answers(c.worker) == Tx.WorkerFull)
    ensures outcome.NoneLeft? ==> tried == []
  {
    var left := candidates;
    tried := [];
    var droppedFull := false;
    while true
      invariant forall c :: c in left <==> c in candidates && c.worker !in tried
      invariant Distinct(tried)
      invariant forall w <- tried :: exists c <- candidates :: c.worker == w
      invariant forall w <- tried :: answers(w) == Tx.WorkerFull
      invariant droppedFull <==> tried != []
      decreases |left|
    {
      var chosen := ChooseLeastUsedWorker(left, draws(|tried|));
      match chosen
      case ClusterFull =>
        return Full, tried;
      case NoCandidates =>
        return if droppedFull then Full else NoneLeft, tried;
      case Picked(c) =>
        var w := c.worker;
        var answer := answers(w);
        assert w !in tried;
        tried := tried + [w];
        if answer != Tx.WorkerFull {
          outcome := if answer == Tx.AssignedTo then To(w) else Refused(w, answer);
          return;
        }
        droppedFull := true;
        left := Without(left, w);
    }
  }
}
