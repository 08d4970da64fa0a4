/**
 * The scheduled batch sampler of the training-loop script: a schedule of
 * (batch size, epochs) pairs expanded into one batch size per epoch, the
 * batches of one epoch as consecutive slices of the (shuffled) index list,
 * and the counts of batches and samples over the whole schedule.
 */
module Sampler {
  import opened Py

  /** Python's `a // b`: the quotient rounded towards minus infinity. */
  function FloorDiv(a: int, b: int): (q: int)
    requires b != 0
    ensures b > 0 ==> q * b <= a < q * b + b
    ensures b < 0 ==> q * b + b < a <= q * b
  {
    if b > 0 then a / b else (-a) / (-b)
  }

  /** `math.ceil(a / b)`: the quotient rounded towards plus infinity. */
  function CeilDiv(a: int, b: int): (q: int)
    requires b != 0
    ensures b > 0 ==> q * b - b < a <= q * b
    ensures b < 0 ==> q * b <= a < q * b - b
  {
    -FloorDiv(-a, b)
  }

  /** `_expand_schedule`: every (batch size, epochs) pair becomes `[batch size] * epochs`, in order. */
  function Expand(schedule: seq<(int, int)>): (r: seq<int>)
    decreases |schedule|
  {
    if |schedule| == 0 then []
    else Expand(schedule[..|schedule| - 1]) + Repeat(schedule[|schedule| - 1].0, schedule[|schedule| - 1].1)
  }

  /** The number of epochs a schedule covers: the sum of its epoch counts, a non-positive count adding none. */
  function EpochCount(schedule: seq<(int, int)>): nat
    decreases |schedule|
  {
    if |schedule| == 0 then 0
    else EpochCount(schedule[..|schedule| - 1]) + (if schedule[|schedule| - 1].1 < 0 then 0 else schedule[|schedule| - 1].1)
  }

  /** Expanding a concatenation expands the parts one after the other. */
  lemma {:induction false} ExpandConcat(a: seq<(int, int)>, b: seq<(int, int)>)
    ensures Expand(a + b) == Expand(a) + Expand(b)
    decreases |b|
  {
    if |b| == 0 {
      assert a + b == a;
    } else {
      var b' := b[..|b| - 1];
      assert (a + b)[..|a + b| - 1] == a + b';
      ExpandConcat(a, b');
    }
  }

  /** The expanded schedule has one entry per epoch: the sum of the epoch counts (`get_total_epochs`). */
  lemma {:induction false} ExpandLength(schedule: seq<(int, int)>)
    ensures |Expand(schedule)| == EpochCount(schedule)
    decreases |schedule|
  {
    if |schedule| > 0 {
      ExpandLength(schedule[..|schedule| - 1]);
    }
  }

  /** Pair i of the schedule fills the epochs after those of the pairs before it with its batch size. */
  lemma ExpandBlock(schedule: seq<(int, int)>, i: nat)
    requires i < |schedule|
    ensures var start := |Expand(schedule[..i])|;
            var n := if schedule[i].1 < 0 then 0 else schedule[i].1;
            start + n <= |Expand(schedule)| &&
            forall e :: start <= e < start + n ==> Expand(schedule)[e] == schedule[i].0
  {
    assert schedule == schedule[..i] + [schedule[i]] + schedule[i + 1..];
    ExpandConcat(schedule[..i] + [schedule[i]], schedule[i + 1..]);
    ExpandConcat(schedule[..i], [schedule[i]]);
    assert [schedule[i]][..0] == schedule[..0];
  }

  /** The example of `_expand_schedule`'s documentation. */
  lemma ExpandExample()
    ensures Expand([(64, 1), (128, 2), (256, 4)]) == [64, 128, 128, 256, 256, 256, 256]
  {
    var s: seq<(int, int)> := [(64, 1), (128, 2), (256, 4)];
    assert s[..2] == [(64, 1), (128, 2)] && s[..2][..1] == [(64, 1)] && s[..2][..1][..0] == [];
    assert Repeat(64, 1) == [64] && Repeat(128, 2) == [128, 128];
    assert Repeat(256, 4) == [256, 256, 256, 256];
    assert Expand(s[..2][..1]) == [64];
    assert Expand(s[..2]) == [64, 128, 128];
  }

  /**
   * `_get_batch_size` for the current epoch: the schedule entry of that epoch
   * while the epoch is below the schedule's length (a negative epoch counts
   * from the end), otherwise the last entry; IndexError from `[-1]` on an
   * empty schedule, or for a negative epoch that reaches before its start.
   */
  function BatchSize(schedule: seq<int>, epoch: int): (r: Result<int>)
    ensures 0 <= epoch < |schedule| ==> r == Ok(schedule[epoch])
    ensures |schedule| <= epoch && |schedule| > 0 ==> r == Ok(schedule[|schedule| - 1])
    ensures -|schedule| <= epoch < 0 ==> r == Ok(schedule[|schedule| + epoch])
    ensures r.Err? <==> (|schedule| == 0 || epoch < -|schedule|)
    ensures r.Err? ==> r.error == IndexError
  {
    if epoch < |schedule| then PyIndex(schedule, epoch) else PyIndex(schedule, -1)
  }

  /** `__len__`'s formula for n samples: floor(n / bs) when the last batch is dropped, ceil(n / bs) otherwise; ZeroDivisionError for bs = 0. */
  function Batches(n: nat, bs: int, dropLast: bool): (r: Result<int>)
    ensures r.Err? <==> bs == 0
    ensures r.Err? ==> r.error == ZeroDivisionError
    ensures bs > 0 && dropLast ==> r.value * bs <= n < r.value * bs + bs
    ensures bs > 0 && !dropLast ==> r.value * bs - bs < n <= r.value * bs
    ensures bs < 0 && dropLast ==> r.value * bs + bs < n <= r.value * bs
    ensures bs < 0 && !dropLast ==> r.value * bs <= n < r.value * bs - bs
  {
    if bs == 0 then Err(ZeroDivisionError) else if dropLast then Ok(FloorDiv(n, bs)) else Ok(CeilDiv(n, bs))
  }

  /**
   * The batches of one epoch over xs for a positive batch size: consecutive
   * slices of length bs, a shorter last one kept or, with `drop_last`,
   * skipped.
   */
  function Chunks(xs: seq<nat>, bs: int, dropLast: bool): (r: seq<seq<nat>>)
    requires bs > 0
    decreases |xs|
  {
    if |xs| == 0 then []
    else if |xs| < bs then (if dropLast then [] else [xs])
    else [xs[..bs]] + Chunks(xs[bs..], bs, dropLast)
  }

  /** The concatenation of a list of batches. */
  function Flatten(bs: seq<seq<nat>>): seq<nat>
    decreases |bs|
  {
    if |bs| == 0 then [] else bs[0] + Flatten(bs[1..])
  }

  /** Two quotients that both satisfy floor division's bounds (or both ceiling division's) are equal. */
  lemma QuotientUnique(a: int, b: int, q1: int, q2: int, ceil: bool)
    requires b > 0
    requires !ceil ==> q1 * b <= a < q1 * b + b && q2 * b <= a < q2 * b + b
    requires ceil ==> q1 * b - b < a <= q1 * b && q2 * b - b < a <= q2 * b
    ensures q1 == q2
  {
    if q1 < q2 {
      MulMono(q1 + 1, q2, b);
    } else if q2 < q1 {
      MulMono(q2 + 1, q1, b);
    }
  }

  /** Multiplying by a non-negative factor keeps the order. */
  lemma MulMono(x: int, y: int, b: int)
    requires x <= y && b >= 0
    ensures x * b <= y * b
  {
    assert y * b - x * b == (y - x) * b;
  }

  /**
   * Every batch has bs indices except possibly the last, which is shorter
   * but not empty and is left out with `drop_last`.
   */
  lemma {:induction false} ChunksSizes(xs: seq<nat>, bs: int, dropLast: bool)
    requires bs > 0
    ensures var c := Chunks(xs, bs, dropLast);
            (forall i :: 0 <= i < |c| - 1 ==> |c[i]| == bs) &&
            (|c| > 0 ==> 0 < |c[|c| - 1]| <= bs) &&
            (dropLast ==> forall i :: 0 <= i < |c| ==> |c[i]| == bs)
    decreases |xs|
  {
    if |xs| >= bs {
      ChunksSizes(xs[bs..], bs, dropLast);
      assert Chunks(xs, bs, dropLast)[1..] == Chunks(xs[bs..], bs, dropLast);
    }
  }

  /**
   * The number c of batches rounds |xs| / bs down (c * bs <= |xs| < c * bs + bs)
   * with `drop_last` and up (c * bs - bs < |xs| <= c * bs) without.
   */
  lemma {:induction false} ChunksBounds(xs: seq<nat>, bs: int, dropLast: bool)
    requires bs > 0
    ensures var c := |Chunks(xs, bs, dropLast)|;
            (dropLast ==> c * bs <= |xs| < c * bs + bs) && (!dropLast ==> c * bs - bs < |xs| <= c * bs)
    decreases |xs|
  {
    if |xs| >= bs {
      ChunksBounds(xs[bs..], bs, dropLast);
      var k := |Chunks(xs[bs..], bs, dropLast)|;
      assert |Chunks(xs, bs, dropLast)| == k + 1;
      assert (k + 1) * bs == k * bs + bs;
    }
  }

  /** The batches are xs in order: all of it, or a prefix of it when the incomplete tail is dropped. */
  lemma {:induction false} ChunksFlatten(xs: seq<nat>, bs: int, dropLast: bool)
    requires bs > 0
    ensures var f := Flatten(Chunks(xs, bs, dropLast));
            |f| <= |xs| && f == xs[..|f|] && (!dropLast ==> f == xs)
    decreases |xs|
  {
    if |xs| >= bs {
      ChunksFlatten(xs[bs..], bs, dropLast);
      var c := Chunks(xs, bs, dropLast);
      var rest := Chunks(xs[bs..], bs, dropLast);
      assert c[1..] == rest;
      var m := |Flatten(rest)|;
      assert xs[..bs] + xs[bs..][..m] == xs[..bs + m];
    }
  }

  /** Batches that all have bs indices hold bs indices per batch. */
  lemma {:induction false} FlattenLength(c: seq<seq<nat>>, bs: int)
    requires forall i :: 0 <= i < |c| ==> |c[i]| == bs
    ensures |Flatten(c)| == |c| * bs
    decreases |c|
  {
    if |c| > 0 {
      FlattenLength(c[1..], bs);
      assert |c| * bs == (|c| - 1) * bs + bs;
    }
  }

  /** `__len__`'s formula counts the batches `__iter__` yields. */
  lemma ChunksCount(xs: seq<nat>, bs: int, dropLast: bool)
    requires bs > 0
    ensures Batches(|xs|, bs, dropLast) == Ok(|Chunks(xs, bs, dropLast)|)
  {
    ChunksBounds(xs, bs, dropLast);
    QuotientUnique(|xs|, bs, Batches(|xs|, bs, dropLast).value, |Chunks(xs, bs, dropLast)|, !dropLast);
  }

  /** The numbers 0 .. n - 1 in order: `list(range(n))`. */
  function Range(n: nat): (r: seq<nat>)
    ensures |r| == n && forall i :: 0 <= i < n ==> r[i] == i
  {
    seq(n, i requires 0 <= i < n => i)
  }

  /**
   * `get_total_steps`' sum over the expanded schedule: each epoch's batch
   * count by `__len__`'s formula; ZeroDivisionError for a batch size of 0.
   */
  function StepsSum(n: nat, schedule: seq<int>, dropLast: bool): (r: Result<int>)
    decreases |schedule|
  {
    if |schedule| == 0 then Ok(0)
    else
      var head :- StepsSum(n, schedule[..|schedule| - 1], dropLast);
      var last :- Batches(n, schedule[|schedule| - 1], dropLast);
      Ok(head + last)
  }

  /** `get_total_samples` with `drop_last`: each epoch's (n // bs) * bs; ZeroDivisionError for a batch size of 0. */
  function DroppedSum(n: nat, schedule: seq<int>): (r: Result<int>)
    decreases |schedule|
  {
    if |schedule| == 0 then Ok(0)
    else
      var head :- DroppedSum(n, schedule[..|schedule| - 1]);
      var bs := schedule[|schedule| - 1];
      if bs == 0 then Err(ZeroDivisionError) else Ok(head + FloorDiv(n, bs) * bs)
  }

  /** The batches over xs of every scheduled epoch, one list per epoch. */
  function EpochBatches(xs: seq<nat>, schedule: seq<int>, dropLast: bool): (r: seq<seq<seq<nat>>>)
    requires forall e :: 0 <= e < |schedule| ==> schedule[e] > 0
    ensures |r| == |schedule| && forall e :: 0 <= e < |schedule| ==> r[e] == Chunks(xs, schedule[e], dropLast)
  {
    seq(|schedule|, e requires 0 <= e < |schedule| => Chunks(xs, schedule[e], dropLast))
  }

  /** The number of batches of every epoch, summed. */
  function CountAll(b: seq<seq<seq<nat>>>): nat
    decreases |b|
  {
    if |b| == 0 then 0 else CountAll(b[..|b| - 1]) + |b[|b| - 1]|
  }

  /** The number of samples of every epoch, summed. */
  function SamplesAll(b: seq<seq<seq<nat>>>): nat
    decreases |b|
  {
    if |b| == 0 then 0 else SamplesAll(b[..|b| - 1]) + |Flatten(b[|b| - 1])|
  }

  /** With positive batch sizes, `get_total_steps` is the number of batches the schedule's epochs yield. */
  lemma {:induction false} StepsCountBatches(xs: seq<nat>, schedule: seq<int>, dropLast: bool)
    requires forall e :: 0 <= e < |schedule| ==> schedule[e] > 0
    ensures StepsSum(|xs|, schedule, dropLast) == Ok(CountAll(EpochBatches(xs, schedule, dropLast)))
    decreases |schedule|
  {
    if |schedule| > 0 {
      var front := schedule[..|schedule| - 1];
      StepsCountBatches(xs, front, dropLast);
      ChunksCount(xs, schedule[|schedule| - 1], dropLast);
      assert EpochBatches(xs, schedule, dropLast)[..|schedule| - 1] == EpochBatches(xs, front, dropLast);
    }
  }

  /** The samples of one epoch: all of xs, or only its complete batches with `drop_last`. */
  lemma EpochSamples(xs: seq<nat>, bs: int, dropLast: bool)
    requires bs > 0
    ensures |Flatten(Chunks(xs, bs, dropLast))| == if dropLast then FloorDiv(|xs|, bs) * bs else |xs|
  {
    ChunksFlatten(xs, bs, dropLast);
    ChunksCount(xs, bs, dropLast);
    if dropLast {
      ChunksSizes(xs, bs, dropLast);
      FlattenLength(Chunks(xs, bs, dropLast), bs);
    }
  }

  /** With positive batch sizes and `drop_last`, `get_total_samples` is the number of samples the schedule's epochs yield. */
  lemma {:induction false} DroppedCountsSamples(xs: seq<nat>, schedule: seq<int>)
    requires forall e :: 0 <= e < |schedule| ==> schedule[e] > 0
    ensures DroppedSum(|xs|, schedule) == Ok(SamplesAll(EpochBatches(xs, schedule, true)))
    decreases |schedule|
  {
    if |schedule| > 0 {
      var front := schedule[..|schedule| - 1];
      DroppedCountsSamples(xs, front);
      EpochSamples(xs, schedule[|schedule| - 1], true);
      assert EpochBatches(xs, schedule, true)[..|schedule| - 1] == EpochBatches(xs, front, true);
    }
  }

  /** Without `drop_last`, every epoch yields all of xs, so the schedule yields its length times |xs| samples. */
  lemma {:induction false} KeptCountsSamples(xs: seq<nat>, schedule: seq<int>)
    requires forall e :: 0 <= e < |schedule| ==> schedule[e] > 0
    ensures SamplesAll(EpochBatches(xs, schedule, false)) == |schedule| * |xs|
    decreases |schedule|
  {
    if |schedule| > 0 {
      var front := schedule[..|schedule| - 1];
      var b := EpochBatches(xs, schedule, false);
      var k := |schedule| - 1;
      KeptCountsSamples(xs, front);
      EpochSamples(xs, schedule[k], false);
      assert b[..k] == EpochBatches(xs, front, false);
      assert SamplesAll(b) == SamplesAll(b[..k]) + |Flatten(b[k])|;
      assert k * |xs| + |xs| == |schedule| * |xs| by { MulSucc(k, |xs|); }
    }
  }

  /** Multiplication by a successor, kept out of the solver's nonlinear reasoning. */
  lemma MulSucc(k: nat, n: nat)
    ensures k * n + n == (k + 1) * n
  {
  }

  /** `get_total_steps` raises exactly when some batch size is 0, and then ZeroDivisionError. */
  lemma {:induction false} StepsSumFails(n: nat, schedule: seq<int>, dropLast: bool)
    ensures StepsSum(n, schedule, dropLast).Err? <==> 0 in schedule
    ensures StepsSum(n, schedule, dropLast).Err? ==> StepsSum(n, schedule, dropLast).error == ZeroDivisionError
    decreases |schedule|
  {
    if |schedule| > 0 {
      var front := schedule[..|schedule| - 1];
      StepsSumFails(n, front, dropLast);
      assert schedule == front + [schedule[|schedule| - 1]];
    }
  }

  /** `get_total_samples` with `drop_last` raises exactly when some batch size is 0, and then ZeroDivisionError. */
  lemma {:induction false} DroppedSumFails(n: nat, schedule: seq<int>)
    ensures DroppedSum(n, schedule).Err? <==> 0 in schedule
    ensures DroppedSum(n, schedule).Err? ==> DroppedSum(n, schedule).error == ZeroDivisionError
    decreases |schedule|
  {
    if |schedule| > 0 {
      var front := schedule[..|schedule| - 1];
      DroppedSumFails(n, front);
      assert schedule == front + [schedule[|schedule| - 1]];
    }
  }

  class ScheduledBatchSampler {
    var numSamples: nat
    var indices: seq<nat>
    var schedule: seq<int>
    var currentEpoch: Option<int>
    var shuffle: bool
    var dropLast: bool

    /** The index list is always an arrangement of 0 .. numSamples - 1. */
    ghost predicate Valid()
      reads this
    {
      multiset(indices) == multiset(Range(numSamples))
    }

    /** `ScheduledBatchSampler(data_source, schedule, shuffle, drop_last)` over a data source of n samples. */
    constructor (n: nat, pairs: seq<(int, int)>, shuffleOn: bool, drop: bool)
      ensures Valid()
      ensures numSamples == n && indices == Range(n) && schedule == Expand(pairs)
      ensures currentEpoch == None && shuffle == shuffleOn && dropLast == drop
    {
      numSamples := n;
      indices := Range(n);
      var expanded := ExpandSchedule(pairs);
      schedule := expanded;
      currentEpoch := None;
      shuffle := shuffleOn;
      dropLast := drop;
    }

    /** `_expand_schedule`: the loop extending the list pair by pair. */
    static method ExpandSchedule(pairs: seq<(int, int)>) returns (r: seq<int>)
      ensures r == Expand(pairs)
    {
      r := [];
      var i := 0;
      while i < |pairs|
        invariant 0 <= i <= |pairs|
        invariant r == Expand(pairs[..i])
      {
        assert pairs[..i + 1][..i] == pairs[..i];
        r := r + Repeat(pairs[i].0, pairs[i].1);
        i := i + 1;
      }
      assert pairs[..i] == pairs;
    }

    /** `set_epoch(epoch)`: only the current epoch changes. */
    method SetEpoch(epoch: int)
      modifies this
      ensures currentEpoch == Some(epoch)
      ensures numSamples == old(numSamples) && indices == old(indices) && schedule == old(schedule)
      ensures shuffle == old(shuffle) && dropLast == old(dropLast)
    {
      currentEpoch := Some(epoch);
    }

    /** `get_total_epochs`: the length of the expanded schedule. */
    function TotalEpochs(): (n: nat)
      reads this
    {
      |schedule|
    }

    /** `__len__`: ValueError without an epoch, else `Batches` for that epoch's batch size. */
    method Len() returns (r: Result<int>)
      ensures currentEpoch.None? ==> r == Err(ValueError)
      ensures currentEpoch.Some? ==>
                r == (var bs := BatchSize(schedule, currentEpoch.value);
                      if bs.Err? then Err(bs.error) else Batches(numSamples, bs.value, dropLast))
    {
      if currentEpoch.None? {
        return Err(ValueError);
      }
      var bs :- BatchSize(schedule, currentEpoch.value);
      r := Batches(numSamples, bs, dropLast);
    }

    /**
     * `__iter__`, with `order` standing for the arrangement `random.shuffle`
     * leaves: ValueError without an epoch and the batch size's error, both
     * before the shuffle; then the index list is shuffled when `shuffle` is
     * set, and the batches are those of the (new) index list: ValueError for
     * a batch size of 0 (`range` with step 0), none for a negative one.
     */
    method Iter(order: seq<nat>) returns (r: Result<seq<seq<nat>>>)
      requires Valid()
      requires shuffle ==> multiset(order) == multiset(indices)
      modifies this
      ensures Valid()
      ensures numSamples == old(numSamples) && schedule == old(schedule) && currentEpoch == old(currentEpoch)
      ensures shuffle == old(shuffle) && dropLast == old(dropLast)
      ensures currentEpoch.None? ==> r == Err(ValueError) && indices == old(indices)
      ensures currentEpoch.Some? && BatchSize(schedule, currentEpoch.value).Err? ==>
                r == Err(BatchSize(schedule, currentEpoch.value).error) && indices == old(indices)
      ensures currentEpoch.Some? && BatchSize(schedule, currentEpoch.value).Ok? ==>
                indices == (if shuffle then order else old(indices)) &&
                var bs := BatchSize(schedule, currentEpoch.value).value;
                r == (if bs == 0 then Err(ValueError) else if bs < 0 then Ok([]) else Ok(Chunks(indices, bs, dropLast)))
    {
      if currentEpoch.None? {
        return Err(ValueError);
      }
      var bs :- BatchSize(schedule, currentEpoch.value);
      if shuffle {
        indices := order;
      }
      if bs == 0 {
        return Err(ValueError);
      }
      if bs < 0 {
        return Ok([]);
      }
      var batches := Batch(indices, bs, dropLast);
      r := Ok(batches);
    }

    /** The loop of `__iter__`: slices from every multiple of bs, the short last one skipped with `drop_last`. */
    static method Batch(xs: seq<nat>, bs: int, dropLast: bool) returns (batches: seq<seq<nat>>)
      requires bs > 0
      ensures batches == Chunks(xs, bs, dropLast)
    {
      batches := [];
      var start := 0;
      while start < |xs|
        invariant 0 <= start <= |xs|
        invariant Chunks(xs, bs, dropLast) == batches + Chunks(xs[start..], bs, dropLast)
        decreases |xs| - start
      {
        var batch := PySlice(xs, start, start + bs);
        if |xs| - start >= bs {
          assert batch == xs[start..][..bs];
          assert xs[start..][bs..] == xs[start + bs..];
          batches := batches + [batch];
          start := start + bs;
        } else {
          assert batch == xs[start..];
          if !dropLast {
            batches := batches + [batch];
          }
          start := |xs|;
        }
      }
    }

    /** `get_total_steps`: the loop summing `__len__`'s formula over the expanded schedule. */
    method TotalSteps() returns (r: Result<int>)
      ensures r == StepsSum(numSamples, schedule, dropLast)
    {
      var total := 0;
      var i := 0;
      while i < |schedule|
        invariant 0 <= i <= |schedule|
        invariant StepsSum(numSamples, schedule[..i], dropLast) == Ok(total)
      {
        assert schedule[..i + 1][..i] == schedule[..i];
        if schedule[i] == 0 {
          StepsSumFails(numSamples, schedule, dropLast);
          return Err(ZeroDivisionError);
        }
        var steps := Batches(numSamples, schedule[i], dropLast).value;
        total := total + steps;
        i := i + 1;
      }
      assert schedule[..i] == schedule;
      r := Ok(total);
    }

    /**
     * `get_total_samples`: with `drop_last` the loop summing (n // bs) * bs,
     * otherwise the length of the schedule times n, without looking at the
     * batch sizes.
     */
    method TotalSamples() returns (r: Result<int>)
      ensures dropLast ==> r == DroppedSum(numSamples, schedule)
      ensures !dropLast ==> r == Ok(|schedule| * numSamples)
    {
      if !dropLast {
        return Ok(|schedule| * numSamples);
      }
      var total := 0;
      var i := 0;
      while i < |schedule|
        invariant 0 <= i <= |schedule|
        invariant DroppedSum(numSamples, schedule[..i]) == Ok(total)
      {
        assert schedule[..i + 1][..i] == schedule[..i];
        if schedule[i] == 0 {
          DroppedSumFails(numSamples, schedule);
          return Err(ZeroDivisionError);
        }
        total := total + FloorDiv(numSamples, schedule[i]) * schedule[i];
        i := i + 1;
      }
      assert schedule[..i] == schedule;
      r := Ok(total);
    }
  }

  /** A valid sampler's index list has one entry per sample. */
  lemma ValidLength(s: seq<nat>, n: nat)
    requires multiset(s) == multiset(Range(n))
    ensures |s| == n
  {
    assert |multiset(s)| == |s| && |multiset(Range(n))| == n;
  }

  /**
   * With positive batch sizes, `get_total_steps` counts the batches and
   * `get_total_samples` the samples that iterating over every scheduled
   * epoch yields, whatever the shuffle does.
   */
  lemma TotalsMatchIteration(xs: seq<nat>, n: nat, schedule: seq<int>, dropLast: bool)
    requires multiset(xs) == multiset(Range(n))
    requires forall e :: 0 <= e < |schedule| ==> schedule[e] > 0
    ensures StepsSum(n, schedule, dropLast) == Ok(CountAll(EpochBatches(xs, schedule, dropLast)))
    ensures dropLast ==> DroppedSum(n, schedule) == Ok(SamplesAll(EpochBatches(xs, schedule, dropLast)))
    ensures !dropLast ==> |schedule| * n == SamplesAll(EpochBatches(xs, schedule, dropLast))
  {
    ValidLength(xs, n);
    StepsCountBatches(xs, schedule, dropLast);
    if dropLast {
      DroppedCountsSamples(xs, schedule);
    } else {
      KeptCountsSamples(xs, schedule);
    }
  }
}
