/** How both renaming drivers cut the file list into request batches: the loop
    `for i in range(0, len(files), batch_size)` over the slices `files[i:i+batch_size]`,
    with the batch number `i // batch_size + 1` and the total `(len(files) - 1) // batch_size + 1`
    shown in the progress header. */
module Batching {
  import opened Text

  function Min(x: int, y: int): int { if x <= y then x else y }

  /** `files[i:i+b]` for `i, b >= 0`: Python slicing clamps both ends to the length. */
  function Slice<T>(files: seq<T>, i: nat, b: nat): seq<T>
  {
    files[Min(i, |files|)..Min(i + b, |files|)]
  }

  /** The header's batch total, `(len(files) - 1) // batch_size + 1`. For a positive
      divisor Python's floor division and Dafny's Euclidean division agree, also at `n == 0`
      where the dividend is -1. */
  function BatchCount(n: nat, b: nat): int
    requires b >= 1
  {
    (n - 1) / b + 1
  }

  /** The slices the loop visits from start index `i` on: one per `i, i + b, i + 2b, ... < n`. */
  function BatchesFrom<T>(files: seq<T>, b: nat, i: nat): seq<seq<T>>
    requires b >= 1
    decreases |files| - i
  {
    if i >= |files| then [] else [Slice(files, i, b)] + BatchesFrom(files, b, i + b)
  }

  /** All the batches of one run, in order. */
  function Batches<T>(files: seq<T>, b: nat): seq<seq<T>>
    requires b >= 1
  {
    BatchesFrom(files, b, 0)
  }

  function Flatten<T>(xss: seq<seq<T>>): seq<T>
  {
    if |xss| == 0 then [] else xss[0] + Flatten(xss[1..])
  }

  /** Integer division is determined by its bounds. */
  lemma DivUnique(x: int, b: int, q: int)
    requires b >= 1 && b * q <= x < b * q + b
    ensures x / b == q
  {
    var r := x / b;
    assert x == b * r + x % b && 0 <= x % b < b;
    if r > q {
      assert b * r >= b * (q + 1) by { MulMono(b, q + 1, r); }
    } else if r < q {
      assert b * q >= b * (r + 1) by { MulMono(b, r + 1, q); }
    }
  }

  lemma MulDistrib(x: int, b: int)
    ensures x * b + b == (x + 1) * b
  {
  }

  lemma DivBounds(x: int, b: int)
    requires b >= 1
    ensures b * (x / b) <= x < b * (x / b) + b
  {
    assert x == b * (x / b) + x % b && 0 <= x % b < b;
  }

  lemma MulMono(b: int, x: int, y: int)
    requires b >= 1 && x <= y
    ensures b * x <= b * y
  {
    assert b * y - b * x == b * (y - x);
  }

  /** The header total is the ceiling of `n / b`: zero for an empty folder, otherwise the
      least count of `b`-sized batches that covers `n` files. */
  lemma {:induction false} BatchCountIsCeiling(n: nat, b: nat)
    requires b >= 1
    ensures n == 0 ==> BatchCount(n, b) == 0
    ensures n > 0 ==> BatchCount(n, b) >= 1 && (BatchCount(n, b) - 1) * b < n <= BatchCount(n, b) * b
  {
    if n == 0 {
      DivUnique(-1, b, -1);
    } else {
      var q := (n - 1) / b;
      assert n - 1 == b * q + (n - 1) % b;
      assert q >= 0 by {
        if q < 0 { MulMono(b, q, -1); }
      }
      assert (q + 1) * b == b * q + b;
    }
  }

  /** The batch that starts at `i = k * b` is shown as number `i // b + 1 == k + 1`. */
  lemma BatchNumber(k: nat, b: nat)
    requires b >= 1
    ensures (k * b) / b + 1 == k + 1
  {
    DivUnique(k * b, b, k);
  }

  /** Over the loop from index `i`, the batches together are `files[i:]`, in order. */
  lemma {:induction false} BatchesFromFlatten<T>(files: seq<T>, b: nat, i: nat)
    requires b >= 1 && i <= |files|
    ensures Flatten(BatchesFrom(files, b, i)) == files[i..]
    decreases |files| - i
  {
    if i < |files| {
      var bs := BatchesFrom(files, b, i);
      if i + b < |files| {
        BatchesFromFlatten(files, b, i + b);
        assert files[i..] == Slice(files, i, b) + files[i + b..];
      } else {
        assert files[i..] == Slice(files, i, b);
      }
      assert Flatten(bs) == bs[0] + Flatten(bs[1..]);
    }
  }

  /** The `k`-th batch from index `i` is the slice at `i + k * b`, which starts inside the list. */
  lemma {:induction false} BatchesFromAt<T>(files: seq<T>, b: nat, i: nat, k: nat)
    requires b >= 1 && k < |BatchesFrom(files, b, i)|
    ensures i + k * b < |files|
    ensures BatchesFrom(files, b, i)[k] == Slice(files, i + k * b, b)
    decreases k
  {
    var rest := BatchesFrom(files, b, i + b);
    assert i < |files|;
    assert BatchesFrom(files, b, i) == [Slice(files, i, b)] + rest;
    if k > 0 {
      ConsAt(Slice(files, i, b), rest, k);
      BatchesFromAt(files, b, i + b, k - 1);
      MulDistrib(k - 1, b);
    }
  }

  /** Over the loop from index `i < |files|` there are `(|files| - i - 1) // b + 1` batches. */
  lemma {:induction false} BatchesFromCount<T>(files: seq<T>, b: nat, i: nat)
    requires b >= 1 && i < |files|
    ensures |BatchesFrom(files, b, i)| == (|files| - i - 1) / b + 1
    decreases |files| - i
  {
    assert |BatchesFrom(files, b, i)| == 1 + |BatchesFrom(files, b, i + b)|;
    if i + b < |files| {
      BatchesFromCount(files, b, i + b);
      var x := |files| - i - 1;
      var m := (x - b) / b;
      DivBounds(x - b, b);
      assert b * (m + 1) == b * m + b;
      DivUnique(x, b, m + 1);
    } else {
      DivUnique(|files| - i - 1, b, 0);
    }
  }

  /** Every batch holds between 1 and `b` files, and every batch but the last exactly `b`. */
  lemma BatchSize<T>(files: seq<T>, b: nat, k: nat)
    requires b >= 1 && k < |Batches(files, b)|
    ensures 1 <= |Batches(files, b)[k]| <= b
    ensures k < |Batches(files, b)| - 1 ==> |Batches(files, b)[k]| == b
  {
    BatchesFromAt(files, b, 0, k);
    if k < |Batches(files, b)| - 1 {
      BatchesFromAt(files, b, 0, k + 1);
      assert (k + 1) * b == k * b + b;
    }
  }

  /** The run's batches partition the file list (gui.py:232-237, ai_rename.py:30-32), and
      there are as many as the header's total says. */
  lemma BatchesPartition<T>(files: seq<T>, b: nat)
    requires b >= 1
    ensures var bs := Batches(files, b);
            && Flatten(bs) == files
            && |bs| == BatchCount(|files|, b)
            && (forall k :: 0 <= k < |bs| ==> bs[k] == Slice(files, k * b, b) && 1 <= |bs[k]| <= b)
            && (forall k :: 0 <= k < |bs| - 1 ==> |bs[k]| == b)
  {
    var bs := Batches(files, b);
    BatchesFromFlatten(files, b, 0);
    if |files| == 0 {
      BatchCountIsCeiling(0, b);
    } else {
      BatchesFromCount(files, b, 0);
    }
    forall k | 0 <= k < |bs|
      ensures bs[k] == Slice(files, k * b, b) && 1 <= |bs[k]| <= b
      ensures k < |bs| - 1 ==> |bs[k]| == b
    {
      BatchesFromAt(files, b, 0, k);
      BatchSize(files, b, k);
    }
  }

  /** The inter-batch delay condition `i + batch_size < len(files)`, at a batch start `i`,
      holds exactly when the batch is not the last one. */
  lemma DelayOnlyBetweenBatches(n: nat, b: nat, k: nat)
    requires b >= 1 && k * b < n
    ensures k * b + b < n <==> (k * b) / b + 1 < BatchCount(n, b)
  {
    BatchNumber(k, b);
    var c := BatchCount(n, b);
    BatchCountIsCeiling(n, b);
    if k * b + b < n {
      assert (k + 1) * b < n;
      if c <= k + 1 {
        MulMono(b, c, k + 1);
      }
    } else {
      if c > k + 1 {
        MulMono(b, k + 1, c - 1);
      }
    }
  }

  /** Concatenation of `part(i, k)` over the loop's batches, `i = k * b` for `i` below `n`. */
  function Gather<X>(n: nat, b: nat, i: nat, k: nat, part: (nat, nat) -> seq<X>): seq<X>
    requires b >= 1
    decreases n - i
  {
    if i >= n then [] else part(i, k) + Gather(n, b, i + b, k + 1, part)
  }

  /** The batch numbers `[k + 1]` the pass for batch `k` announces. */
  function NumberPart(): (nat, nat) -> seq<int> {
    (i: nat, k: nat) => [k + 1]
  }

  /** A pass that has work left announces its own number first. */
  lemma GatherNumberStep(n: nat, b: nat, i: nat, k: nat)
    requires b >= 1 && i < n
    ensures Gather(n, b, i, k, NumberPart()) == [k + 1] + Gather(n, b, i + b, k + 1, NumberPart())
  {
    assert NumberPart()(i, k) == [k + 1];
  }

  /** The numbers `k + 1, k + 2, ...` of the batches from index `i` on. */
  lemma {:induction false} GatherNumbers(n: nat, b: nat, i: nat, k: nat)
    requires b >= 1
    ensures var nums := Gather(n, b, i, k, NumberPart());
            && (i < n ==> |nums| == BatchCount(n - i, b))
            && (i >= n ==> nums == [])
            && forall m :: 0 <= m < |nums| ==> nums[m] == k + 1 + m
    decreases n - i
  {
    if i < n {
      GatherNumbers(n, b, i + b, k + 1);
      if i + b < n {
        CountStep(n - i, b);
      } else {
        DivUnique(n - i - 1, b, 0);
      }
    }
  }

  /** One batch more, one less left: with `m > b` files left there is one batch more than
      with `m - b`. */
  lemma CountStep(m: nat, b: nat)
    requires b >= 1 && b < m
    ensures BatchCount(m, b) == BatchCount(m - b, b) + 1
  {
    var q := (m - b - 1) / b;
    assert b * q <= m - b - 1 < b * q + b;
    DivUnique(m - 1, b, q + 1);
  }
}
