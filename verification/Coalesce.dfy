/** Merging the pages of one write batch into contiguous requests: merge_arr of write_file_async
    and write_bio_async. Page i heads a request of merge_arr[i] pages, or none when that is 0. */
module Coalesce {
  import opened Params

  /** Page i directly follows page i-1 on the device. */
  predicate Joined(offs: seq<nat>, i: int) {
    0 < i < |offs| && offs[i - 1] + 1 == offs[i]
  }

  /** First page of the run of consecutive offsets that page i is in. */
  function RunStart(offs: seq<nat>, i: nat): (r: nat)
    requires i < |offs|
    ensures r <= i
  {
    if Joined(offs, i) then RunStart(offs, i - 1) else i
  }

  /** Last page of that run among the first n pages. */
  function RunEnd(offs: seq<nat>, n: nat, i: nat): (r: nat)
    requires i < n <= |offs|
    ensures i <= r < n
    decreases n - i
  {
    if i + 1 < n && Joined(offs, i + 1) then RunEnd(offs, n, i + 1) else i
  }

  /** The request headed by the r-th page of a run that goes on for `rest` more pages: the first
      page counts up to the limit, and so does every page at which the previous request filled up. */
  function CountAt(r: nat, rest: nat): (c: nat)
    ensures c <= BIO_MAX_PAGES && c <= rest + 1
  {
    if r == 0 then Min(rest + 1, BIO_MAX_PAGES)
    else if (r + 1) % BIO_MAX_PAGES == 0 then Min(rest, BIO_MAX_PAGES)
    else 0
  }

  /** What the loop leaves in merge_arr[j] once it has looked at the first n pages. */
  function Count(offs: seq<nat>, n: nat, j: nat): (c: nat)
    requires j < n <= |offs|
    ensures c <= BIO_MAX_PAGES
  {
    CountAt(j - RunStart(offs, j), RunEnd(offs, n, j) - j)
  }

  /** Where in a run the request lies that the page after its r-th would extend. */
  function BaseAt(r: nat): (b: nat)
    ensures b <= r
  {
    var full := (r + 1) / BIO_MAX_PAGES;
    if full == 0 then 0 else full * BIO_MAX_PAGES - 1
  }

  function Base(offs: seq<nat>, i: nat): (b: nat)
    requires i < |offs|
    ensures b <= i
  {
    RunStart(offs, i) + BaseAt(i - RunStart(offs, i))
  }

  // ---- runs ----------------------------------------------------------------------------------

  /** All pages between the start and the end of a run are in that run. */
  lemma {:induction false} InRun(offs: seq<nat>, n: nat, i: nat, j: nat)
    requires i < n <= |offs| && RunStart(offs, i) <= j <= RunEnd(offs, n, i)
    ensures RunStart(offs, j) == RunStart(offs, i) && RunEnd(offs, n, j) == RunEnd(offs, n, i)
    decreases if i < j then j - i else i - j
  {
    if j < i { InRun(offs, n, i - 1, j); }
    if i < j { InRun(offs, n, i + 1, j); }
  }

  /** One more page lengthens the run of its predecessor, or begins its own. */
  lemma {:induction false} EndGrows(offs: seq<nat>, n: nat, j: nat)
    requires j < n < |offs|
    ensures RunEnd(offs, n + 1, j) ==
            if RunEnd(offs, n, j) == n - 1 && Joined(offs, n) then n else RunEnd(offs, n, j)
    decreases n - j
  {
    if j + 1 < n && Joined(offs, j + 1) { EndGrows(offs, n, j + 1); }
  }

  lemma {:induction false} OffsetsInRun(offs: seq<nat>, n: nat, i: nat, j: nat)
    requires i <= j < n <= |offs| && j <= RunEnd(offs, n, i)
    ensures offs[j] == offs[i] + (j - i)
    decreases j - i
  {
    if i < j { OffsetsInRun(offs, n, i + 1, j); }
  }

  // ---- the loop ------------------------------------------------------------------------------

  /** Lengthening a run by one page adds one to the request of its base and to no other. */
  lemma CountAtGrows(r: nat, last: nat)
    requires r <= last
    ensures CountAt(r, last - r + 1) == CountAt(r, last - r) + (if r == BaseAt(last) then 1 else 0)
    ensures BaseAt(last + 1) == if CountAt(BaseAt(last), last - BaseAt(last) + 1) == BIO_MAX_PAGES
                                then last + 1 else BaseAt(last)
  {
  }

  lemma CountGrows(offs: seq<nat>, n: nat, j: nat)
    requires 0 < n < |offs| && j < n
    ensures Count(offs, n + 1, j) ==
            Count(offs, n, j) + (if Joined(offs, n) && j == Base(offs, n - 1) then 1 else 0)
  {
    EndGrows(offs, n, j);
    var s, e := RunStart(offs, j), RunEnd(offs, n, j);
    if e == n - 1 {
      InRun(offs, n, j, n - 1);
      CountAtGrows(j - s, n - 1 - s);
    } else if RunStart(offs, n - 1) <= j {
      InRun(offs, n, n - 1, j);
    }
  }

  lemma BaseMoves(offs: seq<nat>, n: nat)
    requires 0 < n < |offs| && Joined(offs, n)
    ensures Base(offs, n) == if Count(offs, n + 1, Base(offs, n - 1)) == BIO_MAX_PAGES then n else Base(offs, n - 1)
  {
    var s, b := RunStart(offs, n - 1), Base(offs, n - 1);
    CountAtGrows(b - s, n - 1 - s);
    InRun(offs, n, n - 1, b);
    EndGrows(offs, n, b);
  }

  /** merge_arr after the first n pages; the entries of the others still hold their initial 1. */
  ghost predicate Tracks(m: seq<int>, offs: seq<nat>, n: nat) {
    && |m| == |offs| && n <= |offs|
    && (forall j :: 0 <= j < n ==> m[j] == Count(offs, n, j))
    && (forall j :: n <= j < |offs| ==> m[j] == 1)
  }

  /** One iteration on merge_arr. */
  function NextMerges(m: seq<int>, offs: seq<nat>, n: nat): seq<int>
    requires 0 < n < |offs| && |m| == |offs|
  {
    var b := Base(offs, n - 1);
    if Joined(offs, n) then m[b := m[b] + 1][n := m[n] - 1] else m
  }

  lemma TracksNext(m: seq<int>, offs: seq<nat>, n: nat)
    requires 0 < n < |offs| && Tracks(m, offs, n)
    ensures Tracks(NextMerges(m, offs, n), offs, n + 1)
    ensures Joined(offs, n) ==> (m[Base(offs, n - 1)] + 1 == BIO_MAX_PAGES <==> Base(offs, n) == n)
    ensures Joined(offs, n) && Base(offs, n) != n ==> Base(offs, n) == Base(offs, n - 1)
  {
    var m' := NextMerges(m, offs, n);
    forall j | 0 <= j < n + 1 ensures m'[j] == Count(offs, n + 1, j) {
      if j < n { CountGrows(offs, n, j); }
    }
    if Joined(offs, n) {
      BaseMoves(offs, n);
      CountGrows(offs, n, Base(offs, n - 1));
    }
  }

  /** merge_arr of a batch, computed as both writers do. */
  method ComputeMerges(offs: seq<nat>) returns (merge: array<int>)
    ensures merge.Length == |offs|
    ensures forall j :: 0 <= j < |offs| ==> merge[j] == Count(offs, |offs|, j)
  {
    merge := new int[|offs|](_ => 1);
    if |offs| == 0 { return; }
    var baseIdx := 0;
    var base := offs[0];
    for i := 1 to |offs|
      invariant base == offs[i - 1] && baseIdx == Base(offs, i - 1)
      invariant Tracks(merge[..], offs, i)
    {
      TracksNext(merge[..], offs, i);
      ghost var next := NextMerges(merge[..], offs, i);
      if base + 1 == offs[i] {
        merge[baseIdx] := merge[baseIdx] + 1;
        merge[i] := merge[i] - 1;
        if merge[baseIdx] == BIO_MAX_PAGES {
          baseIdx := i;
        }
      } else {
        baseIdx := i;
      }
      base := offs[i];
      assert merge[..] == next;
    }
  }

  // ---- what the requests cover ---------------------------------------------------------------

  function RunLength(offs: seq<nat>, j: nat): (l: nat)
    requires j < |offs|
    ensures l > 0
  {
    RunEnd(offs, |offs|, j) - RunStart(offs, j) + 1
  }

  /** Page j is written by the request that page i heads. */
  predicate Covers(offs: seq<nat>, i: int, j: int) {
    0 <= i <= j < |offs| && j < i + Count(offs, |offs|, i)
  }

  ghost predicate Covered(offs: seq<nat>, j: int) { exists i :: Covers(offs, i, j) }

  ghost predicate Twice(offs: seq<nat>, j: int) {
    exists i, i' :: i != i' && Covers(offs, i, j) && Covers(offs, i', j)
  }

  /** A request stays inside the batch and its pages have consecutive offsets. */
  lemma RequestContiguous(offs: seq<nat>, i: nat)
    requires i < |offs|
    ensures i + Count(offs, |offs|, i) <= |offs|
    ensures forall j :: Covers(offs, i, j) ==> offs[j] == offs[i] + (j - i)
  {
    forall j | Covers(offs, i, j) ensures offs[j] == offs[i] + (j - i) {
      OffsetsInRun(offs, |offs|, i, j);
    }
  }

  /** Which requests of a run cover its r-th page. */
  predicate CoversAt(h: nat, r: nat, length: nat) { h <= r < length && r < h + CountAt(h, length - 1 - h) }

  lemma CoversInRun(offs: seq<nat>, i: nat, j: nat)
    requires i < |offs| && j < |offs|
    ensures var s := RunStart(offs, j);
            Covers(offs, i, j) <==> s <= i && CoversAt(i - s, j - s, RunLength(offs, j))
  {
    var n, s := |offs|, RunStart(offs, j);
    if Covers(offs, i, j) { InRun(offs, n, i, j); }
    if s <= i <= RunEnd(offs, n, j) { InRun(offs, n, j, i); }
  }

  /** The pages of one run that its requests cover, and cover twice. */
  lemma LastUncovered(h: nat, r: nat, length: nat)
    requires length > BIO_MAX_PAGES && r == length - 1
    ensures !CoversAt(h, r, length)
  {
  }

  lemma OthersCovered(r: nat, length: nat)
    requires r < length && (length <= BIO_MAX_PAGES || r < length - 1)
    ensures CoversAt(if r < BIO_MAX_PAGES then 0 else BaseAt(r), r, length)
  {
  }

  lemma RunTwice(r: nat, length: nat, h: nat, h': nat)
    requires h < h' && CoversAt(h, r, length) && CoversAt(h', r, length)
    ensures length > BIO_MAX_PAGES && r == BIO_MAX_PAGES - 1
  {
  }

  lemma LastIsUncovered(offs: seq<nat>, j: nat)
    requires j < |offs| && RunLength(offs, j) > BIO_MAX_PAGES && j == RunEnd(offs, |offs|, j)
    ensures !Covered(offs, j)
  {
    var s, l := RunStart(offs, j), RunLength(offs, j);
    forall i ensures !Covers(offs, i, j) {
      if 0 <= i < |offs| {
        CoversInRun(offs, i, j);
        if s <= i { LastUncovered(i - s, j - s, l); }
      }
    }
  }

  lemma OthersAreCovered(offs: seq<nat>, j: nat, s: nat, h: nat)
    requires j < |offs| && s == RunStart(offs, j)
    requires RunLength(offs, j) <= BIO_MAX_PAGES || j < RunEnd(offs, |offs|, j)
    requires h == if j - s < BIO_MAX_PAGES then 0 else BaseAt(j - s)
    ensures Covers(offs, s + h, j)
  {
    OthersCovered(j - s, RunLength(offs, j));
    CoversInRun(offs, s + h, j);
  }

  /** Pages a to b have consecutive offsets. */
  predicate Consecutive(offs: seq<nat>, a: int, b: int) {
    0 <= a <= b < |offs| && forall i :: a < i <= b ==> offs[i] == offs[i - 1] + 1
  }

  /** ... and neither the page before nor the page after them continues them. */
  predicate WholeRun(offs: seq<nat>, a: int, b: int) {
    && Consecutive(offs, a, b)
    && (a > 0 ==> offs[a] != offs[a - 1] + 1) && (b + 1 < |offs| ==> offs[b + 1] != offs[b] + 1)
  }

  lemma {:induction false} StartsRun(offs: seq<nat>, j: nat)
    requires j < |offs|
    ensures Consecutive(offs, RunStart(offs, j), j)
    ensures RunStart(offs, j) > 0 ==> offs[RunStart(offs, j)] != offs[RunStart(offs, j) - 1] + 1
  {
    if Joined(offs, j) { StartsRun(offs, j - 1); }
  }

  lemma {:induction false} EndsRun(offs: seq<nat>, j: nat)
    requires j < |offs|
    ensures var e := RunEnd(offs, |offs|, j);
            Consecutive(offs, j, e) && (e + 1 < |offs| ==> offs[e + 1] != offs[e] + 1)
    decreases |offs| - j
  {
    if j + 1 < |offs| && Joined(offs, j + 1) { EndsRun(offs, j + 1); }
  }

  /** A page is in one run only: the longest stretch of consecutive offsets around it. */
  lemma RunExact(offs: seq<nat>, a: int, b: int, j: nat)
    requires j < |offs|
    ensures WholeRun(offs, a, b) && a <= j <= b <==> a == RunStart(offs, j) && b == RunEnd(offs, |offs|, j)
    ensures WholeRun(offs, a, b) && a <= j <= b ==> RunLength(offs, j) == b - a + 1
  {
    StartsRun(offs, j);
    EndsRun(offs, j);
    var s, e := RunStart(offs, j), RunEnd(offs, |offs|, j);
    assert WholeRun(offs, s, e);
  }

  /** Exactly the last page of every run longer than 256 pages is in no request. */
  lemma CoveredExact(offs: seq<nat>, j: nat)
    requires j < |offs|
    ensures Covered(offs, j) <==> !(RunLength(offs, j) > 256 && j == RunEnd(offs, |offs|, j))
    ensures Covered(offs, j) <==> !exists a :: WholeRun(offs, a, j) && j - a + 1 > 256
  {
    RunExact(offs, RunStart(offs, j), RunEnd(offs, |offs|, j), j);
    forall a | WholeRun(offs, a, j)
      ensures a == RunStart(offs, j) && j == RunEnd(offs, |offs|, j) && RunLength(offs, j) == j - a + 1
    {
      RunExact(offs, a, j, j);
    }
    if RunLength(offs, j) > BIO_MAX_PAGES && j == RunEnd(offs, |offs|, j) {
      LastIsUncovered(offs, j);
    } else {
      var s := RunStart(offs, j);
      OthersAreCovered(offs, j, s, if j - s < BIO_MAX_PAGES then 0 else BaseAt(j - s));
    }
  }

  lemma TwiceInRun(offs: seq<nat>, j: nat)
    requires j < |offs|
    ensures Twice(offs, j) <==> (RunLength(offs, j) > 256 && j - RunStart(offs, j) == 255)
  {
    var s, l := RunStart(offs, j), RunLength(offs, j);
    if l > BIO_MAX_PAGES && j - s == BIO_MAX_PAGES - 1 {
      CoversInRun(offs, s, j);
      CoversInRun(offs, j, j);
      assert Covers(offs, s, j) && Covers(offs, j, j);
    }
    forall i, i' | i < i' && Covers(offs, i, j) && Covers(offs, i', j)
      ensures l > BIO_MAX_PAGES && j - s == BIO_MAX_PAGES - 1
    {
      CoversInRun(offs, i, j);
      CoversInRun(offs, i', j);
      RunTwice(j - s, l, i - s, i' - s);
    }
  }

  /** A page is in two requests exactly when it is the 256th of a run longer than that. */
  lemma TwiceExact(offs: seq<nat>, j: nat)
    requires j < |offs|
    ensures Twice(offs, j) <==> (RunLength(offs, j) > 256 && j - RunStart(offs, j) == 255)
    ensures Twice(offs, j) <==> exists a, b :: WholeRun(offs, a, b) && j == a + 255 && j < b
  {
    TwiceInRun(offs, j);
    RunExact(offs, RunStart(offs, j), RunEnd(offs, |offs|, j), j);
    forall a, b | WholeRun(offs, a, b) && j == a + 255 && j < b
      ensures a == RunStart(offs, j) && b == RunEnd(offs, |offs|, j) && RunLength(offs, j) == b - a + 1
    {
      RunExact(offs, a, b, j);
    }
  }

  /** Every page is written exactly once. */
  ghost predicate Partition(offs: seq<nat>) {
    forall j :: 0 <= j < |offs| ==> Covered(offs, j) && !Twice(offs, j)
  }

  /** The requests partition the batch if and only if no run is longer than the limit. */
  lemma PartitionExact(offs: seq<nat>)
    ensures Partition(offs) <==> forall j :: 0 <= j < |offs| ==> RunLength(offs, j) <= 256
    ensures Partition(offs) <==> forall a, b :: WholeRun(offs, a, b) ==> b - a + 1 <= 256
  {
    forall a, b | WholeRun(offs, a, b) ensures RunLength(offs, a) == b - a + 1 { RunExact(offs, a, b, a); }
    forall j | 0 <= j < |offs|
      ensures exists a, b :: WholeRun(offs, a, b) && RunLength(offs, j) == b - a + 1
    {
      RunExact(offs, RunStart(offs, j), RunEnd(offs, |offs|, j), j);
      assert WholeRun(offs, RunStart(offs, j), RunEnd(offs, |offs|, j));
    }
    forall j | 0 <= j < |offs| ensures RunLength(offs, j) <= BIO_MAX_PAGES ==> Covered(offs, j) && !Twice(offs, j) {
      CoveredExact(offs, j);
      TwiceExact(offs, j);
    }
    if j :| 0 <= j < |offs| && RunLength(offs, j) > BIO_MAX_PAGES {
      var e := RunEnd(offs, |offs|, j);
      InRun(offs, |offs|, j, e);
      CoveredExact(offs, e);
    }
  }

  // ---- the counts add up ---------------------------------------------------------------------

  function Sum(m: seq<int>): int { if m == [] then 0 else Sum(m[..|m| - 1]) + m[|m| - 1] }

  lemma {:induction false} SumUpdate(m: seq<int>, b: nat, d: int)
    requires b < |m|
    ensures Sum(m[b := m[b] + d]) == Sum(m) + d
  {
    var m' := m[b := m[b] + d];
    if b < |m| - 1 {
      SumUpdate(m[..|m| - 1], b, d);
      assert m'[..|m| - 1] == m[..|m| - 1][b := m[b] + d];
    } else {
      assert m'[..|m| - 1] == m[..|m| - 1];
    }
  }

  lemma {:induction false} SumOnes(n: nat)
    ensures Sum(seq(n, _ => 1)) == n
  {
    if n > 0 {
      SumOnes(n - 1);
      assert seq(n, _ => 1)[..n - 1] == seq(n - 1, _ => 1);
    }
  }

  /** merge_arr after the first n pages, as a value. */
  function Merges(offs: seq<nat>, n: nat): (m: seq<int>)
    requires 0 < n <= |offs|
    ensures |m| == |offs|
  {
    if n == 1 then seq(|offs|, _ => 1) else NextMerges(Merges(offs, n - 1), offs, n - 1)
  }

  lemma {:induction false} MergesTrack(offs: seq<nat>, n: nat)
    requires 0 < n <= |offs|
    ensures Tracks(Merges(offs, n), offs, n)
  {
    if n > 1 {
      MergesTrack(offs, n - 1);
      TracksNext(Merges(offs, n - 1), offs, n - 1);
    }
  }

  lemma {:induction false} MergesSum(offs: seq<nat>, n: nat)
    requires 0 < n <= |offs|
    ensures Sum(Merges(offs, n)) == |offs|
  {
    if n == 1 {
      SumOnes(|offs|);
    } else {
      MergesSum(offs, n - 1);
      SumMoves(Merges(offs, n - 1), offs, n - 1);
    }
  }

  lemma {:induction false} SumMoves(m: seq<int>, offs: seq<nat>, n: nat)
    requires 0 < n < |offs| && |m| == |offs|
    ensures Sum(NextMerges(m, offs, n)) == Sum(m)
  {
    if Joined(offs, n) {
      SumShift(m, Base(offs, n - 1), n);
    }
  }

  lemma {:induction false} SumShift(m: seq<int>, b: nat, n: nat)
    requires b < n < |m|
    ensures Sum(m[b := m[b] + 1][n := m[n] - 1]) == Sum(m)
  {
    var m1 := m[b := m[b] + 1];
    SumUpdate(m, b, 1);
    SumUpdate(m1, n, -1);
    assert m1[n := m1[n] + -1] == m[b := m[b] + 1][n := m[n] - 1];
  }

  /** Merging moves counts from page to page: the counts of a batch add up to its length. */
  lemma CountsAddUp(offs: seq<nat>, m: seq<int>)
    requires |m| == |offs| && forall j :: 0 <= j < |offs| ==> m[j] == Count(offs, |offs|, j)
    ensures Sum(m) == |offs|
  {
    if offs != [] {
      MergesTrack(offs, |offs|);
      MergesSum(offs, |offs|);
      assert m == Merges(offs, |offs|);
    }
  }

  // ---- a batch that loses a page -------------------------------------------------------------

  function FirstOffsets(n: nat): (offs: seq<nat>)
    ensures |offs| == n && forall j :: 0 <= j < n ==> offs[j] == j
  {
    seq(n, (i: nat) => i)
  }

  /** 257 consecutive pages: the last is in no request. */
  lemma LongRunLosesAPage()
    ensures !Covered(FirstOffsets(257), 256)
  {
    var offs := FirstOffsets(257);
    StartOfAll(offs, 256);
    CoveredExact(offs, 256);
  }

  lemma {:induction false} StartOfAll(offs: seq<nat>, i: nat)
    requires i < |offs| && forall j :: 0 <= j < |offs| ==> offs[j] == j
    ensures RunStart(offs, i) == 0
  {
    if i > 0 { StartOfAll(offs, i - 1); }
  }
}
