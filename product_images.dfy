/**
 * The image carousel of `components/shared/product/product-images.tsx`:
 * `currentImage` moved by the arrows with JavaScript's remainder, set by a
 * thumbnail click, shown with a counter and a placeholder for missing images.
 */
module ProductImages {
  import opened JsText
  import opened JsNumber

  const MainPlaceholder := "/placeholder.svg?height=600&width=600"
  const ThumbnailPlaceholder := "/placeholder.svg?height=150&width=150"

  /** JavaScript `a % n`: the remainder truncates toward zero, taking the sign of `a`. */
  function JsRem(a: int, n: int): (r: int)
    requires n != 0
    ensures a >= 0 && n > 0 ==> r == a % n
    ensures a < 0 ==> r <= 0
  {
    var m := Abs(a) % Abs(n);
    if a < 0 then -m else m
  }

  /** `(prev + 1) % images.length` */
  function NextIndex(i: int, n: int): int
    requires n != 0
  {
    JsRem(i + 1, n)
  }

  /** `(prev - 1 + images.length) % images.length` */
  function PrevIndex(i: int, n: int): int
    requires n != 0
  {
    JsRem(i - 1 + n, n)
  }

  lemma {:induction false} MulAtLeast(d: int, n: int)
    requires d >= 1 && n > 0
    ensures d * n >= n
    decreases d
  {
    if d > 1 {
      MulAtLeast(d - 1, n);
      assert d * n == (d - 1) * n + n;
    }
  }

  /** The remainder is the unique r in [0, n) with a == q * n + r. */
  lemma ModUnique(a: int, n: int, q: int, r: int)
    requires 0 < n && 0 <= r < n && a == q * n + r
    ensures a % n == r
  {
    var q2, r2 := a / n, a % n;
    assert a == q2 * n + r2 && 0 <= r2 < n;
    var d := q - q2;
    assert d * n == r2 - r by {
      assert q * n - q2 * n == d * n;
    }
    if d >= 1 {
      MulAtLeast(d, n);
    } else if d <= -1 {
      MulAtLeast(-d, n);
    }
  }

  /** A remainder by `n` of a value already in [0, n) is that value. */
  lemma ModBelow(a: int, n: int)
    requires 0 <= a < n
    ensures a % n == a
  {
    ModUnique(a, n, 0, a);
  }

  /** Adding `n` does not change a remainder by `n`. */
  lemma ModPlusN(a: int, n: int)
    requires 0 <= a && 0 < n
    ensures (a + n) % n == a % n
  {
    var q, r := a / n, a % n;
    assert a == q * n + r;
    assert a + n == (q + 1) * n + r;
    ModUnique(a + n, n, q + 1, r);
  }

  /** From a valid index both arrows land on a valid index: one step forward or back around the ring. */
  lemma ArrowsStayInRange(i: int, n: int)
    requires 0 <= i < n
    ensures NextIndex(i, n) == (if i == n - 1 then 0 else i + 1)
    ensures PrevIndex(i, n) == (if i == 0 then n - 1 else i - 1)
    ensures 0 <= NextIndex(i, n) < n && 0 <= PrevIndex(i, n) < n
  {
    if i < n - 1 {
      ModBelow(i + 1, n);
    } else {
      ModPlusN(0, n);
      ModBelow(0, n);
    }
    if i > 0 {
      ModPlusN(i - 1, n);
      ModBelow(i - 1, n);
    } else {
      ModBelow(n - 1, n);
    }
  }

  /**
   * The arrows move the image exactly when there is more than one: with a
   * single image both would stay put, which is why they are shown only for
   * `images.length > 1`.
   */
  lemma ArrowsMoveIffSeveral(i: int, n: int)
    requires 0 <= i < n
    ensures NextIndex(i, n) != i <==> n > 1
    ensures PrevIndex(i, n) != i <==> n > 1
  {
    ArrowsStayInRange(i, n);
  }

  /** "Previous" undoes "next", and "next" undoes "previous". */
  lemma ArrowsAreInverse(i: int, n: int)
    requires 0 <= i < n
    ensures PrevIndex(NextIndex(i, n), n) == i
    ensures NextIndex(PrevIndex(i, n), n) == i
  {
    ArrowsStayInRange(i, n);
    ArrowsStayInRange(NextIndex(i, n), n);
    ArrowsStayInRange(PrevIndex(i, n), n);
  }

  /** Pressing "next" `k` times. */
  function NextTimes(i: int, n: int, k: nat): (r: int)
    requires 0 <= i < n
    ensures 0 <= r < n
  {
    if k == 0 then i
    else
      var j := NextTimes(i, n, k - 1);
      ArrowsStayInRange(j, n);
      NextIndex(j, n)
  }

  /** `k` presses of "next" advance by `k` around the ring. */
  lemma {:induction false} NextTimesAdvances(i: int, n: int, k: nat)
    requires 0 <= i < n
    ensures NextTimes(i, n, k) == (i + k) % n
  {
    if k > 0 {
      NextTimesAdvances(i, n, k - 1);
      var j := NextTimes(i, n, k - 1);
      ArrowsStayInRange(j, n);
      StepMod(i + k - 1, n);
    }
  }

  /** One more step on the ring: the remainder of `a + 1` follows from that of `a`. */
  lemma StepMod(a: int, n: int)
    requires 0 <= a && 0 < n
    ensures (a + 1) % n == if a % n == n - 1 then 0 else a % n + 1
  {
    var q, r := a / n, a % n;
    assert a == q * n + r && 0 <= r < n;
    if r == n - 1 {
      assert a + 1 == (q + 1) * n + 0;
      ModUnique(a + 1, n, q + 1, 0);
    } else {
      assert a + 1 == q * n + (r + 1);
      ModUnique(a + 1, n, q, r + 1);
    }
  }

  /** So `n` presses of "next" come back to the starting image. */
  lemma FullTurn(i: int, n: int)
    requires 0 <= i < n
    ensures NextTimes(i, n, n) == i
  {
    NextTimesAdvances(i, n, n);
    ModUnique(i + n, n, 1, i);
  }

  class Carousel {
    const images: seq<string>
    var currentImage: int

    /** The index points at an image, or is 0 for an empty list. */
    predicate Valid()
      reads this
    {
      0 <= currentImage && (currentImage < |images| || currentImage == 0)
    }

    constructor(images: seq<string>)
      ensures this.images == images
      ensures currentImage == 0 && Valid()
    {
      this.images := images;
      currentImage := 0;
    }

    /** Arrows, counter and thumbnails are rendered only for more than one image. */
    predicate ShowControls()
      reads this
    {
      |images| > 1
    }

    /** The right arrow. */
    method Next()
      requires Valid() && ShowControls()
      modifies this
      ensures Valid()
      ensures currentImage == NextIndex(old(currentImage), |images|)
      ensures currentImage == (old(currentImage) + 1) % |images|
    {
      ArrowsStayInRange(currentImage, |images|);
      currentImage := NextIndex(currentImage, |images|);
    }

    /** The left arrow. */
    method Prev()
      requires Valid() && ShowControls()
      modifies this
      ensures Valid()
      ensures currentImage == PrevIndex(old(currentImage), |images|)
      ensures currentImage == (old(currentImage) - 1 + |images|) % |images|
    {
      ArrowsStayInRange(currentImage, |images|);
      currentImage := PrevIndex(currentImage, |images|);
    }

    /** Clicking thumbnail `k`. */
    method SelectThumbnail(k: nat)
      requires Valid() && ShowControls() && k < |images|
      modifies this
      ensures Valid()
      ensures currentImage == k
    {
      currentImage := k;
    }

    /** The counter's two numbers: the 1-based position and the number of images. */
    function Counter(): (c: (nat, nat))
      requires Valid()
      reads this
      ensures c.1 == |images|
      ensures |images| > 0 ==> 1 <= c.0 <= c.1
      ensures c.0 == currentImage + 1
    {
      (currentImage + 1, |images|)
    }

    /** The counter as rendered, "i / n". */
    function CounterText(): string
      requires Valid()
      reads this
    {
      NatToString(Counter().0) + " / " + NatToString(Counter().1)
    }

    /** `images[currentImage] || placeholder` */
    function MainImageSource(): (src: string)
      reads this
      ensures src != ""
      ensures 0 <= currentImage < |images| && images[currentImage] != "" ==> src == images[currentImage]
      ensures !(0 <= currentImage < |images| && images[currentImage] != "") ==> src == MainPlaceholder
    {
      if 0 <= currentImage < |images| && images[currentImage] != "" then images[currentImage] else MainPlaceholder
    }

    /** Exactly the current thumbnail carries the highlight ring. */
    predicate Highlighted(k: nat)
      reads this
    {
      currentImage == k
    }

    lemma OneHighlight()
      requires Valid() && |images| > 0
      ensures exists k :: 0 <= k < |images| && Highlighted(k)
      ensures forall j, k :: 0 <= j < |images| && 0 <= k < |images| && Highlighted(j) && Highlighted(k) ==> j == k
    {
      assert Highlighted(currentImage);
    }
  }

  /** `image || placeholder` for thumbnail `k`. */
  function ThumbnailSource(images: seq<string>, k: nat): (src: string)
    requires k < |images|
    ensures src != ""
    ensures images[k] != "" ==> src == images[k]
    ensures images[k] == "" ==> src == ThumbnailPlaceholder
  {
    if images[k] != "" then images[k] else ThumbnailPlaceholder
  }
}
