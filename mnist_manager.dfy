/**
 * `MyMNISTManager` (Sources/Modules/MNIST/Module/MyMNISTManager.cs): holds the loaded training
 * and test images, counts how many of them a digit filter accepts, and serves them one at a
 * time through a cursor per set, either filtered by a set of digits or in a defined digit
 * order, restarting or sending a blank image once a set (or its demand) is exhausted.
 */
module MnistSelection {
  import opened Wrappers
  import opened MnistBytes
  import opened MnistImages

  /** What `GetNextImage` does once a set or its demand is exhausted. */
  datatype LastImageMethod = ResetToStart | SendNothing

  datatype SetType = Training | Test

  /**
   * The exceptions of the sequential path: the `ArgumentException` for a set with no
   * satisfying image, the `IndexOutOfRangeException` of a sequence iterator outside the
   * digit list, and running out of the fuel that bounds the recursion.
   */
  datatype SelectionError = TooFewImages(setType: SetType) | IndexOutOfRange | OutOfFuel

  // ---------------------------------------------------------------------------------------
  // SatisfyingImagesLoaded

  /** The number of `images` whose label is one of `numbers`. */
  function CountMatching(images: seq<MnistImage>, numbers: seq<int>): (n: nat)
    ensures n <= |images|
  {
    if images == [] then 0
    else CountMatching(images[..|images| - 1], numbers) + (if images[|images| - 1].Label in numbers then 1 else 0)
  }

  /** The count is zero exactly when no image carries one of the labels. */
  lemma {:induction false} CountMatchingZeroIff(images: seq<MnistImage>, numbers: seq<int>)
    ensures CountMatching(images, numbers) == 0 <==> forall k | 0 <= k < |images| :: images[k].Label !in numbers
  {
    if images != [] {
      var n := |images| - 1;
      CountMatchingZeroIff(images[..n], numbers);
      assert forall k | 0 <= k < n :: images[..n][k] == images[k];
    }
  }

  /**
   * The images `SatisfyingImagesLoaded` looks at: the first `demand` of them, all when fewer
   * are loaded, none when the demand is not positive.
   */
  function Considered(images: seq<MnistImage>, demand: int): (r: seq<MnistImage>)
    ensures |r| == if demand <= 0 then 0 else if demand < |images| then demand else |images|
    ensures r == images[..|r|]
  {
    if demand < |images| then (if demand <= 0 then [] else images[..demand]) else images
  }

  // ---------------------------------------------------------------------------------------
  // The sequential path of GetNextImage, as a function of the manager's state

  /** The part of the state `GetNextImage` changes: both enumerator positions, the served count and the sequence iterator. */
  datatype Progress = Progress(trainingPosition: int, testPosition: int, served: int, sequenceIterator: int)

  /** The part of the state `GetNextImage` only reads. */
  datatype Catalogue = Catalogue(
    trainingImages: seq<MnistImage>, testImages: seq<MnistImage>,
    trainingDemand: int, testDemand: int,
    trainingSatisfying: int, testSatisfying: int,
    definedOrder: bool, afterLastImage: LastImageMethod, blankImage: MnistImage)

  function ImagesOf(c: Catalogue, s: SetType): seq<MnistImage> {
    if s == Training then c.trainingImages else c.testImages
  }

  function DemandOf(c: Catalogue, s: SetType): int {
    if s == Training then c.trainingDemand else c.testDemand
  }

  function SatisfyingOf(c: Catalogue, s: SetType): int {
    if s == Training then c.trainingSatisfying else c.testSatisfying
  }

  function PositionOf(p: Progress, s: SetType): int {
    if s == Training then p.trainingPosition else p.testPosition
  }

  function WithPosition(p: Progress, s: SetType, position: int): (q: Progress)
    ensures PositionOf(q, s) == position
    ensures q.served == p.served && q.sequenceIterator == p.sequenceIterator
    ensures s == Training ==> q.testPosition == p.testPosition
    ensures s == Test ==> q.trainingPosition == p.trainingPosition
  {
    if s == Training then p.(trainingPosition := position) else p.(testPosition := position)
  }

  /** An `ArrayList` enumerator stands before the first element (-1), on one, or past the last. */
  predicate PositionsValid(c: Catalogue, p: Progress) {
    -1 <= p.trainingPosition <= |c.trainingImages| && -1 <= p.testPosition <= |c.testImages|
  }

  /** `MoveNext` of an `ArrayList` enumerator: steps onto the next element, or parks past the last. */
  function MoveNext(position: int, count: nat): (r: (bool, int))
    requires -1 <= position <= count
    ensures r.0 <==> position + 1 < count
    ensures r.0 ==> r.1 == position + 1 && 0 <= r.1 < count
    ensures !r.0 ==> r.1 == count
  {
    if position < count - 1 then (true, position + 1) else (false, count)
  }

  /** What one pass through `GetNextImage` ends in, before any recursive call. */
  datatype Outcome = Served(image: MnistImage) | Blank | Retry | Refused(error: SelectionError)

  /** One pass through the sequential path of `GetNextImage`. */
  function Step(c: Catalogue, p: Progress, validNumbers: seq<int>, s: SetType): (r: (Outcome, Progress))
    requires PositionsValid(c, p)
    ensures PositionsValid(c, r.1)
  {
    if SatisfyingOf(c, s) == 0 then (Refused(TooFewImages(s)), p)
    else
      var images := ImagesOf(c, s);
      var (moved, position) := MoveNext(PositionOf(p, s), |images|);
      var p1 := WithPosition(p, s, position);
      if moved && p.served < DemandOf(c, s) then
        var im := images[position];
        var p2 := p1.(served := p.served + 1);
        if c.definedOrder then
          if !(0 <= p.sequenceIterator < |validNumbers|) then (Refused(IndexOutOfRange), p2)
          else if im.Label != validNumbers[p.sequenceIterator] then (Retry, p2)
          else (Served(im), p2.(sequenceIterator := (p.sequenceIterator + 1) % |validNumbers|))
        else if im.Label !in validNumbers then (Retry, p2)
        else (Served(im), p2)
      else
        match c.afterLastImage
        case ResetToStart => (Retry, WithPosition(p1, s, -1).(served := 0))
        case SendNothing => (Blank, p1)
  }

  /** `GetNextImage` with at most `fuel` recursive calls: the image served, or the error, and the new progress. */
  function Next(c: Catalogue, p: Progress, validNumbers: seq<int>, s: SetType, fuel: nat): (r: (Result<MnistImage, SelectionError>, Progress))
    requires PositionsValid(c, p)
    ensures PositionsValid(c, r.1)
    decreases fuel
  {
    var (outcome, p1) := Step(c, p, validNumbers, s);
    match outcome
    case Served(im) => (Success(im), p1)
    case Blank => (Success(c.blankImage), p1)
    case Refused(e) => (Failure(e), p1)
    case Retry => if fuel == 0 then (Failure(OutOfFuel), p1) else Next(c, p1, validNumbers, s, fuel - 1)
  }

  // ---------------------------------------------------------------------------------------
  // Properties of the sequential path

  /** A set none of whose loaded images passed the filter is refused, and nothing moves. */
  lemma RefusedWithoutSatisfyingImages(c: Catalogue, p: Progress, validNumbers: seq<int>, s: SetType, fuel: nat)
    requires PositionsValid(c, p) && SatisfyingOf(c, s) == 0
    ensures Next(c, p, validNumbers, s, fuel) == (Failure(TooFewImages(s)), p)
  {
  }

  /** Consuming an image advances the cursor by one and counts the image as served. */
  lemma ConsumingAdvances(c: Catalogue, p: Progress, validNumbers: seq<int>, s: SetType)
    requires PositionsValid(c, p) && SatisfyingOf(c, s) != 0
    requires PositionOf(p, s) + 1 < |ImagesOf(c, s)| && p.served < DemandOf(c, s)
    ensures var (_, p1) := Step(c, p, validNumbers, s);
      PositionOf(p1, s) == PositionOf(p, s) + 1 && p1.served == p.served + 1
  {
  }

  /**
   * Once the set is exhausted or its demand met, `ResetToStart` rewinds the cursor and the
   * served count and tries again.
   */
  lemma ExhaustedResets(c: Catalogue, p: Progress, validNumbers: seq<int>, s: SetType)
    requires PositionsValid(c, p) && SatisfyingOf(c, s) != 0 && c.afterLastImage == ResetToStart
    requires PositionOf(p, s) + 1 >= |ImagesOf(c, s)| || p.served >= DemandOf(c, s)
    ensures var (outcome, p1) := Step(c, p, validNumbers, s);
      outcome == Retry && PositionOf(p1, s) == -1 && p1.served == 0 && p1.sequenceIterator == p.sequenceIterator
  {
  }

  /**
   * Once the set is exhausted or its demand met, `SendNothing` returns the blank image; the
   * enumerator has still been moved, so a met demand still costs the cursor one step.
   */
  lemma ExhaustedSendsBlank(c: Catalogue, p: Progress, validNumbers: seq<int>, s: SetType, fuel: nat)
    requires PositionsValid(c, p) && SatisfyingOf(c, s) != 0 && c.afterLastImage == SendNothing
    requires PositionOf(p, s) + 1 >= |ImagesOf(c, s)| || p.served >= DemandOf(c, s)
    ensures var (r, p1) := Next(c, p, validNumbers, s, fuel);
      && r == Success(c.blankImage)
      && PositionOf(p1, s) == (if PositionOf(p, s) + 1 < |ImagesOf(c, s)| then PositionOf(p, s) + 1 else |ImagesOf(c, s)|)
      && p1.served == p.served && p1.sequenceIterator == p.sequenceIterator
  {
  }

  /** Without a defined order, every image served is the blank one or a loaded image with one of the wanted labels. */
  lemma {:induction false} UnorderedServesWantedLabels(c: Catalogue, p: Progress, validNumbers: seq<int>, s: SetType, fuel: nat)
    requires PositionsValid(c, p) && !c.definedOrder
    ensures var (r, _) := Next(c, p, validNumbers, s, fuel);
      r.Success? ==> r.value == c.blankImage || (r.value in ImagesOf(c, s) && r.value.Label in validNumbers)
    decreases fuel
  {
    var (outcome, p1) := Step(c, p, validNumbers, s);
    if outcome.Retry? && fuel > 0 {
      UnorderedServesWantedLabels(c, p1, validNumbers, s, fuel - 1);
    }
  }

  /**
   * In defined order, an image other than the blank one carries the label the iterator
   * pointed at, and the iterator moves on by one, cyclically; until then it stays put.
   */
  lemma {:induction false} OrderedServesExpectedLabel(c: Catalogue, p: Progress, validNumbers: seq<int>, s: SetType, fuel: nat)
    requires PositionsValid(c, p) && c.definedOrder
    ensures var (r, p1) := Next(c, p, validNumbers, s, fuel);
      r.Success? ==>
        || (r.value == c.blankImage && p1.sequenceIterator == p.sequenceIterator)
        || (&& r.value in ImagesOf(c, s)
            && 0 <= p.sequenceIterator < |validNumbers|
            && r.value.Label == validNumbers[p.sequenceIterator]
            && p1.sequenceIterator == (p.sequenceIterator + 1) % |validNumbers|
            && 0 <= p1.sequenceIterator < |validNumbers|)
    decreases fuel
  {
    var (outcome, p1) := Step(c, p, validNumbers, s);
    if outcome.Retry? && fuel > 0 {
      OrderedServesExpectedLabel(c, p1, validNumbers, s, fuel - 1);
    }
  }

  /** Serving a set never pushes the served count past that set's demand. */
  lemma {:induction false} ServedWithinDemand(c: Catalogue, p: Progress, validNumbers: seq<int>, s: SetType, fuel: nat)
    requires PositionsValid(c, p) && 0 <= p.served <= DemandOf(c, s)
    ensures var (_, p1) := Next(c, p, validNumbers, s, fuel);
      0 <= p1.served <= DemandOf(c, s)
    decreases fuel
  {
    var (outcome, p1) := Step(c, p, validNumbers, s);
    if outcome.Retry? && fuel > 0 {
      ServedWithinDemand(c, p1, validNumbers, s, fuel - 1);
    }
  }

  // ---------------------------------------------------------------------------------------
  // The manager

  class MnistManager {
    var imagesServed: int
    var trainingImagesDemand: int
    var testImagesDemand: int
    const trainingImages: seq<MnistImage>
    const testImages: seq<MnistImage>
    const blankImage: MnistImage
    var trainingPosition: int
    var testPosition: int
    const afterLastImage: LastImageMethod
    var sequenceIterator: int
    var definedOrder: bool
    var test: int
    var training: int

    /** The state `GetNextImage` reads but does not change. */
    function Settings(): Catalogue
      reads this`trainingImagesDemand, this`testImagesDemand, this`training, this`test, this`definedOrder
    {
      Catalogue(trainingImages, testImages, trainingImagesDemand, testImagesDemand,
                training, test, definedOrder, afterLastImage, blankImage)
    }

    /** The state `GetNextImage` changes. */
    function Progression(): Progress
      reads this`trainingPosition, this`testPosition, this`imagesServed, this`sequenceIterator
    {
      Progress(trainingPosition, testPosition, imagesServed, sequenceIterator)
    }

    predicate Valid()
      reads this
    {
      PositionsValid(Settings(), Progression())
    }

    /**
     * The constructor, given the images `ReadMnistSet` loaded for each set: nothing served,
     * both enumerators before their first image, a blank 28 by 28 image with label 0.
     */
    constructor (trainingLoaded: seq<MnistImage>, testLoaded: seq<MnistImage>,
                 trainingImagesCnt: int, testImagesCnt: int, afterLastImage: LastImageMethod)
      ensures Valid()
      ensures trainingImages == trainingLoaded && testImages == testLoaded
      ensures trainingImagesDemand == trainingImagesCnt && testImagesDemand == testImagesCnt
      ensures this.afterLastImage == afterLastImage
      ensures imagesServed == 0 && sequenceIterator == 0 && !definedOrder
      ensures training == 0 && test == 0
      ensures trainingPosition == -1 && testPosition == -1
      ensures fresh(blankImage) && blankImage.Label == 0
      ensures blankImage.width == 28 && blankImage.height == 28 && blankImage.GridShaped()
      ensures forall i, j | 0 <= i < 28 && 0 <= j < 28 :: blankImage.data[i, j] == 0.0
    {
      trainingImages := trainingLoaded;
      testImages := testLoaded;
      this.afterLastImage := afterLastImage;
      trainingImagesDemand := trainingImagesCnt;
      testImagesDemand := testImagesCnt;
      imagesServed := 0;
      sequenceIterator := 0;
      definedOrder := false;
      training := 0;
      test := 0;
      var data := new Byte[28, 28]((i, j) => 0);
      var blank := new MnistImage.FromPixels(data, 0, 28, 28);
      assert blank.max == 0.0 && blank.min == 0.0 by {
        assert blank.min <= data[0, 0] as real <= blank.max;
      }
      blankImage := blank;
      trainingPosition := -1;
      testPosition := -1;
    }

    /**
     * `SatisfyingImagesLoaded`: counts, in each set, the images among the first `demand`
     * loaded ones whose label the set's filter lists.
     */
    method SatisfyingImagesLoaded(trainingNumsToSend: seq<int>, testNumsToSend: seq<int>) returns (r: (int, int))
      modifies this`training, this`test
      ensures training == CountMatching(Considered(trainingImages, trainingImagesDemand), trainingNumsToSend)
      ensures test == CountMatching(Considered(testImages, testImagesDemand), testNumsToSend)
      ensures r == (training, test)
    {
      training, test := 0, 0;
      var trainingToCount, testToCount;
      if trainingImagesDemand < |trainingImages| {
        trainingToCount := trainingImagesDemand;
      } else {
        trainingToCount := |trainingImages|;
      }
      var i := 0;
      while i < trainingToCount
        modifies this`training
        invariant 0 <= i && (0 <= trainingToCount ==> i <= trainingToCount) && (trainingToCount < 0 ==> i == 0)
        invariant i <= |trainingImages|
        invariant training == CountMatching(trainingImages[..i], trainingNumsToSend)
      {
        var m := trainingImages[i];
        if m.Label in trainingNumsToSend {
          training := training + 1;
        }
        assert trainingImages[..i + 1][..i] == trainingImages[..i];
        i := i + 1;
      }
      assert trainingImages[..|trainingImages|] == trainingImages;
      assert trainingImages[..i] == Considered(trainingImages, trainingImagesDemand);

      if testImagesDemand < |testImages| {
        testToCount := testImagesDemand;
      } else {
        testToCount := |testImages|;
      }
      i := 0;
      while i < testToCount
        modifies this`test
        invariant 0 <= i && (0 <= testToCount ==> i <= testToCount) && (testToCount < 0 ==> i == 0)
        invariant i <= |testImages|
        invariant test == CountMatching(testImages[..i], testNumsToSend)
      {
        var m := testImages[i];
        if m.Label in testNumsToSend {
          test := test + 1;
        }
        assert testImages[..i + 1][..i] == testImages[..i];
        i := i + 1;
      }
      assert testImages[..|testImages|] == testImages;
      assert testImages[..i] == Considered(testImages, testImagesDemand);
      r := (training, test);
    }

    /**
     * The sequential path of `GetNextImage`, with at most `fuel` recursive calls. State
     * changes made before an exception stay made, as they do in the original.
     */
    method GetNextImage(validNumbers: seq<int>, setType: SetType, fuel: nat) returns (r: Result<MnistImage, SelectionError>)
      requires Valid()
      modifies this`trainingPosition, this`testPosition, this`imagesServed, this`sequenceIterator
      ensures Valid()
      ensures (r, Progression()) == Next(old(Settings()), old(Progression()), validNumbers, setType, fuel)
      decreases fuel
    {
      ghost var c, p := Settings(), Progression();
      var images: seq<MnistImage>;
      var imagesDemand: int;
      if setType == Training {
        if training == 0 {
          return Failure(TooFewImages(Training));
        }
        images := trainingImages;
        imagesDemand := trainingImagesDemand;
      } else {
        if test == 0 {
          return Failure(TooFewImages(Test));
        }
        images := testImages;
        imagesDemand := testImagesDemand;
      }
      assert images == ImagesOf(c, setType) && imagesDemand == DemandOf(c, setType);

      // enumerator.MoveNext()
      var position := if setType == Training then trainingPosition else testPosition;
      var moved := position < |images| - 1;
      position := if moved then position + 1 else |images|;
      assert (moved, position) == MoveNext(PositionOf(p, setType), |images|);
      if setType == Training { trainingPosition := position; } else { testPosition := position; }
      ghost var p1 := WithPosition(p, setType, position);
      assert Progression() == p1;

      if moved && imagesServed < imagesDemand {
        var im := images[position];
        imagesServed := imagesServed + 1;
        assert Progression() == p1.(served := p.served + 1);
        if definedOrder {
          if !(0 <= sequenceIterator < |validNumbers|) {
            assert Step(c, p, validNumbers, setType) == (Refused(IndexOutOfRange), Progression());
            return Failure(IndexOutOfRange);
          }
          if im.Label != validNumbers[sequenceIterator] {
            assert Step(c, p, validNumbers, setType) == (Retry, Progression());
            r := Again(validNumbers, setType, fuel);
            return;
          }
          sequenceIterator := (sequenceIterator + 1) % |validNumbers|;
        } else {
          if im.Label !in validNumbers {
            assert Step(c, p, validNumbers, setType) == (Retry, Progression());
            r := Again(validNumbers, setType, fuel);
            return;
          }
        }
        assert Step(c, p, validNumbers, setType) == (Served(im), Progression());
        return Success(im);
      } else {
        match afterLastImage
        case ResetToStart =>
          // enumerator.Reset()
          if setType == Training { trainingPosition := -1; } else { testPosition := -1; }
          imagesServed := 0;
          assert Step(c, p, validNumbers, setType) == (Retry, Progression());
          r := Again(validNumbers, setType, fuel);
        case SendNothing =>
          assert Step(c, p, validNumbers, setType) == (Blank, Progression());
          r := Success(blankImage);
      }
    }

    /** The recursive call of `GetNextImage`, or `OutOfFuel` when the fuel is spent. */
    method Again(validNumbers: seq<int>, setType: SetType, fuel: nat) returns (r: Result<MnistImage, SelectionError>)
      requires Valid()
      modifies this`trainingPosition, this`testPosition, this`imagesServed, this`sequenceIterator
      ensures Valid()
      ensures fuel == 0 ==> r == Failure(OutOfFuel) && Progression() == old(Progression())
      ensures fuel > 0 ==> (r, Progression()) == Next(old(Settings()), old(Progression()), validNumbers, setType, fuel - 1)
      decreases fuel, 0
    {
      if fuel == 0 {
        r := Failure(OutOfFuel);
      } else {
        r := GetNextImage(validNumbers, setType, fuel - 1);
      }
    }
  }
}
