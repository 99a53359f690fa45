/**
 * The stimulus list of the experiment: the 24 product images, each tied to the
 * side of the screen it is shown on, and the one shuffle applied when the
 * application module is loaded.
 */
module Trials {
  import opened Decimal

  const Left: string := "left"
  const Right: string := "right"

  /** One trial: the image file to show and the side it belongs to. */
  datatype Trial = Trial(image: string, position: string)

  /** The file name `item<k>.jpg`. */
  function ImageName(k: nat): string {
    "item" + NatToString(k) + ".jpg"
  }

  /** Distinct item numbers name distinct files. */
  lemma ImageNameInjective(a: nat, b: nat)
    requires ImageName(a) == ImageName(b)
    ensures a == b
  {
    var x := ImageName(a);
    assert NatToString(a) == x[4..|x| - 4] == NatToString(b);
    NatToStringInjective(a, b);
  }

  /** Distinct item numbers name distinct files, stated the other way round. */
  lemma ImageNamesDiffer(a: nat, b: nat)
    requires a != b
    ensures ImageName(a) != ImageName(b)
  {
    if ImageName(a) == ImageName(b) {
      ImageNameInjective(a, b);
    }
  }

  /** The first, the thirteenth and the last file name. */
  lemma ImageNameExamples()
    ensures ImageName(1) == "item1.jpg"
    ensures ImageName(13) == "item13.jpg"
    ensures ImageName(24) == "item24.jpg"
  {
    assert NatToString(1) == [Digit(1)] == "1";
    assert NatToString(2) == [Digit(2)] == "2";
    assert NatToString(13) == NatToString(1) + [Digit(3)] == "13";
    assert NatToString(24) == NatToString(2) + [Digit(4)] == "24";
  }

  /** IMAGES: `item1.jpg` to `item24.jpg`, in order. */
  function Images(): seq<string> {
    seq(24, i requires 0 <= i < 24 => ImageName(i + 1))
  }

  /** The comprehension that pairs every image of `images` with `position`. */
  function Placed(images: seq<string>, position: string): seq<Trial> {
    seq(|images|, i requires 0 <= i < |images| => Trial(images[i], position))
  }

  /** TRIALS before the shuffle: the first twelve images on the left, the rest on the right. */
  function BaseTrials(): seq<Trial> {
    Placed(Images()[..12], Left) + Placed(Images()[12..], Right)
  }

  /** The `i`-th unshuffled trial shows `item<i+1>.jpg`, on the left exactly when `i < 12`. */
  lemma BaseTrialAt(i: nat)
    requires i < 24
    ensures |BaseTrials()| == 24
    ensures BaseTrials()[i] == Trial(ImageName(i + 1), if i < 12 then Left else Right)
  {
    if i >= 12 {
      assert BaseTrials()[i] == Placed(Images()[12..], Right)[i - 12];
    }
  }

  /** What a trial is counted by. */
  datatype Criterion = ByImage(image: string) | ByPosition(position: string)

  predicate Matches(t: Trial, c: Criterion) {
    match c
    case ByImage(img) => t.image == img
    case ByPosition(pos) => t.position == pos
  }

  /** The number of trials in `s` that match `c`. */
  function Count(s: seq<Trial>, c: Criterion): nat {
    if s == [] then 0 else (if Matches(s[0], c) then 1 else 0) + Count(s[1..], c)
  }

  lemma {:induction false} CountAppend(a: seq<Trial>, b: seq<Trial>, c: Criterion)
    ensures Count(a + b, c) == Count(a, c) + Count(b, c)
    decreases |a|
  {
    if a == [] {
      assert a + b == b;
    } else {
      assert (a + b)[1..] == a[1..] + b;
      CountAppend(a[1..], b, c);
    }
  }

  /** Taking out the element at `j` removes one copy of it and its contribution to every count. */
  lemma RemoveAt(t: seq<Trial>, j: nat, c: Criterion)
    requires j < |t|
    ensures multiset(t[..j] + t[j + 1..]) == multiset(t) - multiset{t[j]}
    ensures Count(t, c) == Count(t[..j] + t[j + 1..], c) + (if Matches(t[j], c) then 1 else 0)
  {
    var x := t[j];
    assert t == t[..j] + ([x] + t[j + 1..]);
    assert multiset(t) == multiset(t[..j]) + multiset{x} + multiset(t[j + 1..]);
    CountAppend(t[..j], [x] + t[j + 1..], c);
    CountAppend(t[..j], t[j + 1..], c);
    assert ([x] + t[j + 1..])[1..] == t[j + 1..];
  }

  /** Removing the same element from two permutations of each other leaves permutations. */
  lemma TailPermutation(s: seq<Trial>, t: seq<Trial>, j: nat)
    requires multiset(s) == multiset(t)
    requires s != [] && j < |t| && t[j] == s[0]
    ensures multiset(s[1..]) == multiset(t[..j] + t[j + 1..])
  {
    var x := s[0];
    assert s == [x] + s[1..];
    assert t == t[..j] + [x] + t[j + 1..];
    assert multiset(s[1..]) == multiset(s) - multiset{x};
    assert multiset(t[..j] + t[j + 1..]) == multiset(t) - multiset{x};
  }

  /** Counting does not depend on the order: a permutation has the same counts. */
  lemma {:induction false} CountPermutation(s: seq<Trial>, t: seq<Trial>, c: Criterion)
    requires multiset(s) == multiset(t)
    ensures Count(s, c) == Count(t, c)
    decreases |s|
  {
    if s == [] {
      assert |t| == |multiset(t)| == 0;
    } else {
      assert s[0] in multiset(t);
      var j :| 0 <= j < |t| && t[j] == s[0];
      RemoveAt(t, j, c);
      TailPermutation(s, t, j);
      CountPermutation(s[1..], t[..j] + t[j + 1..], c);
    }
  }

  lemma {:induction false} CountNone(s: seq<Trial>, c: Criterion)
    requires forall i :: 0 <= i < |s| ==> !Matches(s[i], c)
    ensures Count(s, c) == 0
    decreases |s|
  {
    if s != [] {
      CountNone(s[1..], c);
    }
  }

  lemma {:induction false} CountAll(s: seq<Trial>, c: Criterion)
    requires forall i :: 0 <= i < |s| ==> Matches(s[i], c)
    ensures Count(s, c) == |s|
    decreases |s|
  {
    if s != [] {
      CountAll(s[1..], c);
    }
  }

  /** An image that occurs at index `j` only is counted once. */
  lemma {:induction false} CountSingle(s: seq<Trial>, j: nat)
    requires j < |s|
    requires forall i :: 0 <= i < |s| && i != j ==> s[i].image != s[j].image
    ensures Count(s, ByImage(s[j].image)) == 1
    decreases |s|
  {
    if j == 0 {
      CountNone(s[1..], ByImage(s[0].image));
    } else {
      CountSingle(s[1..], j - 1);
    }
  }

  /** No two unshuffled trials share an image. */
  lemma BaseImagesDistinct(i: nat, j: nat)
    requires i < 24 && j < 24 && i != j
    ensures BaseTrials()[i].image != BaseTrials()[j].image
  {
    BaseTrialAt(i);
    BaseTrialAt(j);
    ImageNamesDiffer(i + 1, j + 1);
  }

  /** The unshuffled list holds every image `item1.jpg` .. `item24.jpg` exactly once. */
  lemma BaseImageCounts(k: nat)
    requires 1 <= k <= 24
    ensures Count(BaseTrials(), ByImage(ImageName(k))) == 1
  {
    var b := BaseTrials();
    BaseTrialAt(k - 1);
    forall i | 0 <= i < |b| && i != k - 1
      ensures b[i].image != b[k - 1].image
    {
      BaseImagesDistinct(i, k - 1);
    }
    CountSingle(b, k - 1);
  }

  /** The unshuffled list has twelve trials per side. */
  lemma BasePositionCounts()
    ensures Count(BaseTrials(), ByPosition(Left)) == 12
    ensures Count(BaseTrials(), ByPosition(Right)) == 12
  {
    var lefts, rights := Placed(Images()[..12], Left), Placed(Images()[12..], Right);
    assert BaseTrials() == lefts + rights;
    assert |lefts| == 12;
    assert Left != Right;
    CountAppend(lefts, rights, ByPosition(Left));
    CountAppend(lefts, rights, ByPosition(Right));
    CountAll(lefts, ByPosition(Left));
    CountNone(lefts, ByPosition(Right));
    CountAll(rights, ByPosition(Right));
    CountNone(rights, ByPosition(Left));
  }

  /** An unshuffled trial is on the left exactly when it shows one of `item1.jpg` .. `item12.jpg`. */
  lemma BaseTrialSide(t: Trial)
    requires t in BaseTrials()
    ensures t.position == Left <==> exists k :: 1 <= k <= 12 && t.image == ImageName(k)
    ensures t.position == Right <==> exists k :: 13 <= k <= 24 && t.image == ImageName(k)
  {
    var b := BaseTrials();
    BaseTrialAt(0);
    var i :| 0 <= i < 24 && b[i] == t;
    BaseTrialAt(i);
    assert Left != Right;
    forall k | 1 <= k <= 24 && t.image == ImageName(k)
      ensures k == i + 1
    {
      ImageNameInjective(k, i + 1);
    }
    assert t.image == ImageName(i + 1);
  }

  /**
   * Whatever order the shuffle produced, TRIALS holds 24 trials, every image
   * `item1.jpg` .. `item24.jpg` exactly once, and twelve trials per side.
   */
  lemma ShuffledTrialCounts(trials: seq<Trial>)
    requires multiset(trials) == multiset(BaseTrials())
    ensures |trials| == 24
    ensures forall k :: 1 <= k <= 24 ==> Count(trials, ByImage(ImageName(k))) == 1
    ensures Count(trials, ByPosition(Left)) == 12
    ensures Count(trials, ByPosition(Right)) == 12
  {
    var b := BaseTrials();
    BaseTrialAt(0);
    assert |trials| == |multiset(trials)| == |b|;
    forall k | 1 <= k <= 24
      ensures Count(trials, ByImage(ImageName(k))) == 1
    {
      BaseImageCounts(k);
      CountPermutation(trials, b, ByImage(ImageName(k)));
    }
    BasePositionCounts();
    CountPermutation(trials, b, ByPosition(Left));
    CountPermutation(trials, b, ByPosition(Right));
  }

  /**
   * Whatever order the shuffle produced, a trial is on the left exactly when its
   * image is one of `item1.jpg` .. `item12.jpg`, and on the right exactly when it
   * is one of `item13.jpg` .. `item24.jpg`.
   */
  lemma ShuffledTrialSides(trials: seq<Trial>)
    requires multiset(trials) == multiset(BaseTrials())
    ensures forall t :: t in trials ==> (t.position == Left <==> exists k :: 1 <= k <= 12 && t.image == ImageName(k))
    ensures forall t :: t in trials ==> (t.position == Right <==> exists k :: 13 <= k <= 24 && t.image == ImageName(k))
  {
    forall t | t in trials
      ensures t.position == Left <==> exists k :: 1 <= k <= 12 && t.image == ImageName(k)
      ensures t.position == Right <==> exists k :: 13 <= k <= 24 && t.image == ImageName(k)
    {
      assert t in multiset(BaseTrials());
      BaseTrialSide(t);
    }
  }

  /**
   * random.shuffle: CPython's Fisher-Yates pass, which for i from the last index
   * down to 1 swaps element i with element draws[i], a draw with 0 <= draws[i] <= i.
   */
  method Shuffle<T>(a: array<T>, draws: seq<nat>)
    requires |draws| == a.Length
    requires forall i :: 0 <= i < |draws| ==> draws[i] <= i
    modifies a
    ensures multiset(a[..]) == old(multiset(a[..]))
  {
    var i := a.Length - 1;
    while i >= 1
      invariant i < a.Length
      invariant multiset(a[..]) == old(multiset(a[..]))
    {
      var j := draws[i];
      a[i], a[j] := a[j], a[i];
      i := i - 1;
    }
  }

  /** Module load: build TRIALS and shuffle it in place once. */
  method LoadTrials(draws: seq<nat>) returns (trials: array<Trial>)
    requires |draws| == 24
    requires forall i :: 0 <= i < 24 ==> draws[i] <= i
    ensures fresh(trials)
    ensures multiset(trials[..]) == multiset(BaseTrials())
  {
    var base := BaseTrials();
    BaseTrialAt(0);
    trials := new Trial[24](i requires 0 <= i < 24 => base[i]);
    assert trials[..] == base;
    Shuffle(trials, draws);
  }
}
