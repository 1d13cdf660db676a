/** The sub-image carousel shared by the compact and the wide layout:
    a current image index moved one step back or forward by the two
    arrow buttons, clamped to the image list, with no wraparound. */
module Carousel {
  import opened Numbers

  /** The two arrow buttons. */
  datatype Nav = Back | Forward

  /** The "previous" arrow is disabled on the first image
      (`disabled={subIdx === 0}`): exactly when there is no earlier
      image to go back to. */
  predicate PrevDisabled(idx: int)
    requires 0 <= idx
    ensures PrevDisabled(idx) <==> !(0 <= idx - 1)
  {
    idx == 0
  }

  /** The "next" arrow is disabled on the last image
      (`disabled={subIdx === images.length - 1}`): exactly when there is
      no later image to go forward to. */
  predicate NextDisabled(idx: int, count: int)
    requires 0 <= idx < count
    ensures NextDisabled(idx, count) <==> !(idx + 1 < count)
  {
    idx == count - 1
  }

  /** Index after the "previous" arrow: `max(0, idx - 1)`. It moves at
      most one step back, never below the first image, and it stays
      put exactly when the arrow is disabled. */
  function Prev(idx: int): (r: int)
    requires 0 <= idx
    ensures 0 <= r <= idx && idx - r <= 1
    ensures r == idx <==> PrevDisabled(idx)
  {
    Max(0, idx - 1)
  }

  /** Index after the "next" arrow: `min(count - 1, idx + 1)`. It moves
      at most one step forward, never past the last image, and it stays
      put exactly when the arrow is disabled. */
  function Next(idx: int, count: int): (r: int)
    requires 0 <= idx < count
    ensures idx <= r < count && r - idx <= 1
    ensures r == idx <==> NextDisabled(idx, count)
  {
    Min(count - 1, idx + 1)
  }

  /** The counter under the frame: "`idx + 1` / `count`". The shown
      number is 1 exactly when "previous" is disabled and equals the
      total exactly when "next" is disabled. */
  function Position(idx: int, count: int): (r: (int, int))
    requires 0 <= idx < count
    ensures 1 <= r.0 <= r.1 && r.1 == count
    ensures r.0 == 1 <==> PrevDisabled(idx)
    ensures r.0 == r.1 <==> NextDisabled(idx, count)
  {
    (idx + 1, count)
  }

  /** One button press. */
  function Step(idx: int, count: int, b: Nav): (r: int)
    requires 0 <= idx < count
    ensures 0 <= r < count
  {
    match b
    case Back => Prev(idx)
    case Forward => Next(idx, count)
  }

  /** The index after a sequence of presses starting at `idx`; whatever
      the presses, it stays within the image list. */
  function Run(idx: int, count: int, presses: seq<Nav>): (r: int)
    requires 0 <= idx < count
    ensures 0 <= r < count
    decreases |presses|
  {
    if presses == [] then idx else Run(Step(idx, count, presses[0]), count, presses[1..])
  }

  /** `k` presses of the same button. */
  function Repeat(b: Nav, k: nat): (r: seq<Nav>)
    ensures |r| == k
    ensures forall i :: 0 <= i < k ==> r[i] == b
  {
    seq(k, _ => b)
  }

  /** Running two press sequences one after the other is running their
      concatenation. */
  lemma {:induction false} RunAppend(idx: int, count: int, a: seq<Nav>, b: seq<Nav>)
    requires 0 <= idx < count
    ensures Run(idx, count, a + b) == Run(Run(idx, count, a), count, b)
    decreases |a|
  {
    if a == [] {
      assert a + b == b;
    } else {
      assert (a + b)[0] == a[0];
      assert (a + b)[1..] == a[1..] + b;
      RunAppend(Step(idx, count, a[0]), count, a[1..], b);
    }
  }

  /** `k` forward presses from `idx` reach `min(idx + k, count - 1)`. */
  lemma {:induction false} RunForward(idx: int, count: int, k: nat)
    requires 0 <= idx < count
    ensures Run(idx, count, Repeat(Forward, k)) == Min(idx + k, count - 1)
    decreases k
  {
    if k > 0 {
      assert Repeat(Forward, k)[1..] == Repeat(Forward, k - 1);
      RunForward(Next(idx, count), count, k - 1);
    }
  }

  /** `m` backward presses from `idx` reach `max(idx - m, 0)`. */
  lemma {:induction false} RunBack(idx: int, count: int, m: nat)
    requires 0 <= idx < count
    ensures Run(idx, count, Repeat(Back, m)) == Max(idx - m, 0)
    decreases m
  {
    if m > 0 {
      assert Repeat(Back, m)[1..] == Repeat(Back, m - 1);
      RunBack(Prev(idx), count, m - 1);
    }
  }

  /** From the initial index 0, `k` forward presses followed by `m`
      backward presses show image `max(min(k, count - 1) - m, 0)`. */
  lemma ForwardThenBack(count: int, k: nat, m: nat)
    requires count >= 1
    ensures Run(0, count, Repeat(Forward, k) + Repeat(Back, m)) == Max(Min(k, count - 1) - m, 0)
  {
    RunAppend(0, count, Repeat(Forward, k), Repeat(Back, m));
    RunForward(0, count, k);
    RunBack(Min(k, count - 1), count, m);
  }
}
