/** Mergeable number channels: per-deploy differences and merging them back
    (`rholang/src/merging.rs`, `casper/src/merging.rs`). Sums wrap at 64 bits; merging restores the final value
    exactly when it lies within a 64-bit step of the initial one. */
module NumberDiffs {
  import opened Orders
  import opened Bytes

  type Channel = nat

  type Values = map<Channel, I64>

  /** The value of each channel before deploy `n`: the latest recorded, else the initial one. */
  function Known(values: seq<Values>, init: Values, n: nat): Values
    requires n <= |values|
  {
    if n == 0 then init else Known(values, init, n - 1) + values[n - 1]
  }

  /** The difference deploy `n` makes on each channel known before it. */
  function DiffAt(values: seq<Values>, init: Values, n: nat): Values
    requires n < |values|
  {
    var before := Known(values, init, n);
    map ch | ch in values[n] && ch in before :: WrappingSub(values[n][ch], before[ch])
  }

  function WrappingSub(a: I64, b: I64): I64 {
    Wrap(a as int - b as int)
  }

  function WrappingAdd(a: I64, b: I64): I64 {
    Wrap(a as int + b as int)
  }

  function CheckedAdd(a: I64, b: I64): Option<I64> {
    var sum := a as int + b as int;
    if -I64_LIMIT <= sum < I64_LIMIT then Some(sum) else None
  }

  // ----- calculate_num_channel_diff

  method DiffMap(before: Values, end: Values) returns (diff: Values)
    ensures diff == map ch | ch in end && ch in before :: WrappingSub(end[ch], before[ch])
  {
    diff := map[];
    var todo := end.Keys;
    while todo != {}
      invariant todo <= end.Keys
      invariant diff == map ch | ch in end && ch !in todo && ch in before :: WrappingSub(end[ch], before[ch])
      decreases todo
    {
      var ch :| ch in todo;
      if ch in before { diff := diff[ch := WrappingSub(end[ch], before[ch])]; }
      todo := todo - {ch};
    }
  }

  method Record(before: Values, end: Values) returns (after: Values)
    ensures after == before + end
  {
    after := before;
    var todo := end.Keys;
    while todo != {}
      invariant todo <= end.Keys && after == before + (end - todo)
      decreases todo
    {
      var ch :| ch in todo;
      assert before + (end - (todo - {ch})) == (before + (end - todo))[ch := end[ch]];
      after := after[ch := end[ch]];
      todo := todo - {ch};
    }
    assert end - {} == end;
  }

  method CalculateDiffs(values: seq<Values>, init: Values) returns (diffs: seq<Values>)
    ensures |diffs| == |values| && forall i :: 0 <= i < |values| ==> diffs[i] == DiffAt(values, init, i)
  {
    var prev := init;
    diffs := [];
    for i := 0 to |values|
      invariant prev == Known(values, init, i) && |diffs| == i
      invariant forall k :: 0 <= k < i ==> diffs[k] == DiffAt(values, init, k)
    {
      var diff := DiffMap(prev, values[i]);
      diffs := diffs + [diff];
      prev := Record(prev, values[i]);
    }
  }

  // ----- telescoping

  function Entry(m: Values, ch: Channel): I64 {
    if ch in m then m[ch] else 0
  }

  /** The differences on one channel, summed in wrapping arithmetic. */
  function Total(values: seq<Values>, init: Values, ch: Channel, n: nat): I64
    requires n <= |values|
  {
    if n == 0 then 0 else WrappingAdd(Total(values, init, ch, n - 1), Entry(DiffAt(values, init, n - 1), ch))
  }

  /** How many times 2^64 the wrapping adds. */
  function Turns(x: int): int {
    if x % U64_LIMIT < I64_LIMIT then -(x / U64_LIMIT) else -(x / U64_LIMIT) - 1
  }

  lemma WrapTurns(x: int)
    ensures Wrap(x) == x + Turns(x) * U64_LIMIT
  {
  }

  lemma WrapSame(x: int, y: int, k: int)
    requires x == y + k * U64_LIMIT
    ensures Wrap(x) == Wrap(y)
  {
  }

  /** Wrapping an intermediate sum does not change the wrapped result. */
  lemma WrapAbsorbs(x: int, y: int)
    ensures Wrap(Wrap(x) as int + Wrap(y) as int) == Wrap(x + y)
  {
    WrapTurns(x);
    WrapTurns(y);
    WrapSame(Wrap(x) as int + Wrap(y) as int, x + y, Turns(x) + Turns(y));
  }

  lemma {:induction false} KnownKept(values: seq<Values>, init: Values, ch: Channel, n: nat)
    requires n <= |values| && ch in init
    ensures ch in Known(values, init, n)
  {
    if n > 0 { KnownKept(values, init, ch, n - 1); }
  }

  /** The summed differences are the last recorded value less the initial one, up to 64-bit wrapping. */
  lemma {:induction false} DiffsTelescope(values: seq<Values>, init: Values, ch: Channel, n: nat)
    requires n <= |values| && ch in init
    ensures ch in Known(values, init, n)
    ensures Total(values, init, ch, n) == Wrap(Known(values, init, n)[ch] as int - init[ch] as int)
  {
    hide Wrap;
    KnownKept(values, init, ch, n);
    if n == 0 {
      WrapFits(0);
    } else {
      DiffsTelescope(values, init, ch, n - 1);
      var before, after := Known(values, init, n - 1)[ch] as int, Known(values, init, n)[ch] as int;
      var start := init[ch] as int;
      if ch in values[n - 1] {
        WrapAbsorbs(before - start, after - before);
        assert before - start + (after - before) == after - start;
      } else {
        WrapFits(0);
        WrapAbsorbs(before - start, 0);
      }
    }
  }

  /** Merging a block's differences onto its pre-state gives back the last recorded value exactly when that is a
      64-bit step away, and is refused otherwise. */
  lemma MergeRestoresIff(values: seq<Values>, init: Values, ch: Channel)
    requires ch in init
    ensures ch in Known(values, init, |values|)
    ensures var last := Known(values, init, |values|)[ch] as int;
            CheckedAdd(init[ch], Total(values, init, ch, |values|))
            == if -I64_LIMIT <= last - init[ch] as int < I64_LIMIT then Some(Known(values, init, |values|)[ch]) else None
  {
    DiffsTelescope(values, init, ch, |values|);
    hide Total, Known, Wrap, CheckedAdd;
    AddWrapped(init[ch], Known(values, init, |values|)[ch]);
  }

  /** Adding a wrapped difference restores the minuend exactly when nothing was wrapped. */
  lemma AddWrapped(a: I64, b: I64)
    ensures CheckedAdd(a, Wrap(b as int - a as int))
         == if -I64_LIMIT <= b as int - a as int < I64_LIMIT then Some(b) else None
  {
    hide Wrap;
    var step := b as int - a as int;
    WrapFits(step);
    WrapTurns(step);
  }
}
