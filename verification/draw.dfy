/** The AI's move draw. The game asks for one weighted random choice among
    "disarm", "status quo" and "attack". Here the randomness is injected: a
    draw `x` in [0, total weight) picks the move whose cumulative-weight
    bucket contains it, which is how a weighted choice turns one uniform
    number into a move. */
module Draw {
  import opened Moves
  import opened Wrappers
  import opened Difficulty

  /** The moves in the order the game offers them to the draw. */
  const Population: seq<string> := [Name(Disarm), Name(StatusQuo), Name(Attack)]

  function Sum(ws: seq<int>): int
  {
    if |ws| == 0 then 0 else Sum(ws[..|ws| - 1]) + ws[|ws| - 1]
  }

  predicate AllNonNegative(ws: seq<int>)
  {
    forall i :: 0 <= i < |ws| ==> ws[i] >= 0
  }

  /** Extending a prefix by one element adds that element to its sum. */
  lemma SumStep(ws: seq<int>, k: nat)
    requires k < |ws|
    ensures Sum(ws[..k + 1]) == Sum(ws[..k]) + ws[k]
  {
    assert ws[..k + 1][..k] == ws[..k];
  }

  /** Prefix sums of non-negative weights never decrease. */
  lemma {:induction false} SumPrefixMonotone(ws: seq<int>, i: nat, j: nat)
    requires AllNonNegative(ws)
    requires i <= j <= |ws|
    ensures Sum(ws[..i]) <= Sum(ws[..j])
    decreases j - i
  {
    if i < j {
      SumStep(ws, i);
      SumPrefixMonotone(ws, i + 1, j);
    }
  }

  /** x falls in the k-th bucket [Sum(ws[..k]), Sum(ws[..k+1])) of the
      cumulative weights. */
  predicate InBucket(ws: seq<int>, k: nat, x: int)
  {
    k < |ws| && Sum(ws[..k]) <= x < Sum(ws[..k + 1])
  }

  /** Buckets do not overlap: a draw lies in at most one of them. */
  lemma BucketUnique(ws: seq<int>, k1: nat, k2: nat, x: int)
    requires AllNonNegative(ws)
    requires InBucket(ws, k1, x) && InBucket(ws, k2, x)
    ensures k1 == k2
  {
    if k1 < k2 {
      SumPrefixMonotone(ws, k1 + 1, k2);
    } else if k2 < k1 {
      SumPrefixMonotone(ws, k2 + 1, k1);
    }
  }

  /** Cumulative-bucket selection: scans the running totals for the first
      one above x, never looking past the last index. The chosen index is
      the unique bucket holding x, and its weight is positive, so a move of
      weight zero is never drawn. */
  method SelectBucket(ws: seq<int>, x: int) returns (k: nat)
    requires AllNonNegative(ws)
    requires 0 <= x < Sum(ws)
    ensures InBucket(ws, k, x)
    ensures ws[k] > 0
  {
    assert ws[..|ws|] == ws;
    k := 0;
    SumStep(ws, 0);
    var upper := ws[0];
    while k < |ws| - 1 && upper <= x
      invariant k < |ws|
      invariant upper == Sum(ws[..k + 1])
      invariant Sum(ws[..k]) <= x
    {
      k := k + 1;
      SumStep(ws, k);
      upper := upper + ws[k];
    }
    SumStep(ws, k);
  }

  /** Where each move's bucket starts among the cumulative weights. */
  function Lower(w: Weights, m: Move): int
  {
    match m
    case Disarm => 0
    case StatusQuo => w.disarm
    case Attack => w.disarm + w.statusQuo
  }

  /** The move a draw selects, read straight off the three buckets. */
  function Bucket(w: Weights, x: int): (m: Move)
    requires w.NonNegative() && 0 <= x < w.Total()
    ensures Lower(w, m) <= x < Lower(w, m) + w.Of(m)
    ensures w.Of(m) > 0
  {
    if x < w.disarm then Disarm
    else if x < w.disarm + w.statusQuo then StatusQuo
    else Attack
  }

  /** The cumulative sums of a weight triple, in draw order. */
  lemma TripleSums(w: Weights)
    ensures var ws := w.AsSeq();
      Sum(ws[..0]) == 0 && Sum(ws[..1]) == w.disarm
      && Sum(ws[..2]) == w.disarm + w.statusQuo && Sum(ws[..3]) == w.Total()
  {
    var ws := w.AsSeq();
    SumStep(ws, 0);
    SumStep(ws, 1);
    SumStep(ws, 2);
  }

  /** The generic bucket search over a triple agrees with the three-bucket
      reading: index k holds x exactly when the k-th move is Bucket(w, x). */
  lemma BucketAgrees(w: Weights, k: nat, x: int)
    requires w.NonNegative() && 0 <= x < w.Total()
    requires InBucket(w.AsSeq(), k, x)
    ensures k < 3 && Population[k] == Name(Bucket(w, x))
  {
    TripleSums(w);
  }

  /** The AI's move for the stored difficulty and an injected draw in tenths
      (the uniform draw in [0, 1) scaled by ten and rounded down). The result
      is always one of the three move strings, the one whose bucket holds
      the draw. */
  method AiChoice(difficulty: Option<string>, x: int) returns (choice: string)
    requires 0 <= x < 10
    ensures Parse(choice).Some?
    ensures choice == Name(Bucket(WeightsFor(difficulty), x))
  {
    var w := WeightsFor(difficulty);
    TripleSums(w);
    var k := SelectBucket(w.AsSeq(), x);
    BucketAgrees(w, k, x);
    choice := Population[k];
    ParseName(Bucket(w, x));
  }

  /** How many of the draws 0, ..., n-1 select move m. */
  function CountDraws(w: Weights, m: Move, n: nat): nat
    requires w.NonNegative() && n <= w.Total()
  {
    if n == 0 then 0
    else CountDraws(w, m, n - 1) + (if Bucket(w, n - 1) == m then 1 else 0)
  }

  /** Of the first n draws, move m takes those that fall in its bucket. */
  lemma {:induction false} CountDrawsPrefix(w: Weights, m: Move, n: nat)
    requires w.NonNegative() && n <= w.Total()
    ensures var lo := Lower(w, m);
      CountDraws(w, m, n) == if n <= lo then 0 else if n <= lo + w.Of(m) then n - lo else w.Of(m)
  {
    if n > 0 {
      CountDrawsPrefix(w, m, n - 1);
      var b := Bucket(w, n - 1);
      if b != m {
        match b
        case Disarm =>
        case StatusQuo =>
        case Attack =>
      }
    }
  }

  /** Over the whole range of draws, each move is selected by exactly as
      many draws as its weight: with a uniform draw the AI plays m with
      probability weight(m) / total, as a weighted choice promises. */
  lemma DrawFrequency(w: Weights, m: Move)
    requires w.NonNegative()
    ensures CountDraws(w, m, w.Total()) == w.Of(m)
  {
    CountDrawsPrefix(w, m, w.Total());
  }
}
