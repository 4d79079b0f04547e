/** The photo gallery of `ImageGallery.tsx`: a current index stepped by the
    previous and next arrows (wrapping at both ends) and set by clicking a
    thumbnail, plus the first four thumbnails and the count of the rest. */
module ImageGallery {

  /** `handleNext`'s update: the last index wraps to 0, any other index
      advances by one. */
  function Next(i: int, n: int): (r: int)
    ensures 0 <= i < n ==> 0 <= r < n
    ensures i == n - 1 ==> r == 0
    ensures i != n - 1 ==> r == i + 1
  {
    if i == n - 1 then 0 else i + 1
  }

  /** `handlePrevious`'s update: 0 wraps to the last index, any other index
      steps back by one. */
  function Previous(i: int, n: int): (r: int)
    ensures 0 <= i < n ==> 0 <= r < n
    ensures i == 0 ==> r == n - 1
    ensures i != 0 ==> r == i - 1
  {
    if i == 0 then n - 1 else i - 1
  }

  /** Next and previous undo each other on every valid index. */
  lemma NextPreviousInverse(i: int, n: int)
    requires 0 <= i < n
    ensures Previous(Next(i, n), n) == i
    ensures Next(Previous(i, n), n) == i
  {
  }

  /** `k` presses of next. */
  function NextTimes(i: int, n: int, k: nat): int {
    if k == 0 then i else Next(NextTimes(i, n, k - 1), n)
  }

  /** Short of the end, `k` presses of next advance `k` places. */
  lemma {:induction false} NextTimesAdvances(i: int, n: int, k: nat)
    requires 0 <= i && i + k < n
    ensures NextTimes(i, n, k) == i + k
  {
    if k > 0 {
      NextTimesAdvances(i, n, k - 1);
    }
  }

  /** Presses of next compose. */
  lemma {:induction false} NextTimesSplit(i: int, n: int, a: nat, b: nat)
    ensures NextTimes(i, n, a + b) == NextTimes(NextTimes(i, n, a), n, b)
  {
    if b > 0 {
      NextTimesSplit(i, n, a, b - 1);
    }
  }

  /** As many presses of next as there are images come back to the start:
      `n - 1 - i` presses reach the last image, one more wraps to 0, and `i`
      more return to `i`. */
  lemma NextRoundTrip(i: int, n: int)
    requires 0 <= i < n
    ensures NextTimes(i, n, n) == i
  {
    NextTimesSplit(i, n, n - 1 - i, i + 1);
    NextTimesAdvances(i, n, n - 1 - i);
    NextTimesSplit(n - 1, n, 1, i);
    NextTimesAdvances(0, n, i);
  }

  /** `images.slice(0, 4)`. */
  function Thumbnails<T>(images: seq<T>): (r: seq<T>)
    ensures |r| == if |images| < 4 then |images| else 4
    ensures r <= images
  {
    if |images| < 4 then images else images[..4]
  }

  /** `images.length - 4`: may be negative. */
  function RemainingCount<T>(images: seq<T>): (r: int)
    ensures r > 0 <==> |images| > 4
    ensures r > 0 ==> |Thumbnails(images)| + r == |images|
  {
    |images| - 4
  }

  /** The "+N more" tile is shown exactly when some image has no thumbnail,
      and it counts those images. */
  lemma MoreTileIffHidden<T>(images: seq<T>)
    ensures RemainingCount(images) > 0 <==> |Thumbnails(images)| < |images|
    ensures RemainingCount(images) > 0 ==> RemainingCount(images) == |images| - |Thumbnails(images)|
  {
  }

  class Gallery {
    const images: seq<string>
    var currentIndex: int

    /** The featured image exists. */
    predicate InRange()
      reads this
    {
      0 <= currentIndex < |images|
    }

    constructor (images: seq<string>)
      ensures this.images == images && currentIndex == 0
      ensures images != [] ==> InRange()
    {
      this.images := images;
      currentIndex := 0;
    }

    method HandlePrevious()
      modifies this
      ensures currentIndex == Previous(old(currentIndex), |images|)
      ensures old(InRange()) ==> InRange()
    {
      currentIndex := if currentIndex == 0 then |images| - 1 else currentIndex - 1;
    }

    method HandleNext()
      modifies this
      ensures currentIndex == Next(old(currentIndex), |images|)
      ensures old(InRange()) ==> InRange()
    {
      currentIndex := if currentIndex == |images| - 1 then 0 else currentIndex + 1;
    }

    /** A thumbnail click; thumbnails exist only for images, so `index` is one
        of theirs. */
    method SelectImage(index: int)
      requires 0 <= index < |images|
      modifies this
      ensures currentIndex == index && InRange()
    {
      currentIndex := index;
    }
  }
}
