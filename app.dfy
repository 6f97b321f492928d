/** The picture-hanging arithmetic of src/App.tsx: even spacing of `imageCount`
    pictures of width `imageWidth` on a wall of length `wallLength`, and the
    nail (centre) position of each picture measured from the wall's start. */
module App {
  import opened Types

  /** Uniform spacing policy: all three gaps of a layout are the same. */
  predicate EvenGaps(m: Measurements) {
    m.wallToFirst == m.betweenImages == m.lastToWall
  }

  /** The layout fills the wall exactly: left margin, the pictures, the gaps
      between neighbours and the right margin add up to the wall length. */
  predicate FillsWall(wallLength: real, imageWidth: real, imageCount: int, m: Measurements) {
    m.wallToFirst + imageCount as real * imageWidth
      + (imageCount - 1) as real * m.betweenImages + m.lastToWall == wallLength
  }

  /** The spacing calculation: `None` ("does not fit") when there are no pictures
      or when they are wider in total than the wall, otherwise three equal,
      non-negative gaps that fill the wall exactly. */
  function CalculateSpacing(wallLength: real, imageWidth: real, imageCount: int): (r: Option<Measurements>)
    ensures imageCount <= 0 ==> r == None
    ensures imageCount > 0 && imageWidth * imageCount as real > wallLength ==> r == None
    ensures imageCount > 0 && imageWidth * imageCount as real <= wallLength ==>
      && r.Some?
      && EvenGaps(r.value)
      && r.value.wallToFirst >= 0.0
      && FillsWall(wallLength, imageWidth, imageCount, r.value)
  {
    if imageCount <= 0 then None
    else
      var totalImageWidth := imageWidth * imageCount as real;
      var remainingSpace := wallLength - totalImageWidth;
      if remainingSpace < 0.0 then None
      else
        var gaps := imageCount + 1;
        var spacing := remainingSpace / gaps as real;
        assert spacing * gaps as real == remainingSpace;
        Some(Measurements(spacing, spacing, spacing))
  }

  /** Closed form of the `i`-th nail position: the left margin, half a picture,
      and `i` steps of one picture plus one gap. */
  function NailAt(m: Measurements, imageWidth: real, i: int): real {
    m.wallToFirst + imageWidth / 2.0 + i as real * (imageWidth + m.betweenImages)
  }

  /** The nail positions of `imageCount` pictures laid out with gaps `m`
      (empty when `imageCount` is not positive, as the loop then never runs). */
  function NailPositions(m: Measurements, imageWidth: real, imageCount: int): (ps: seq<real>)
    ensures |ps| == if imageCount > 0 then imageCount else 0
    ensures forall i :: 0 <= i < |ps| ==> ps[i] == NailAt(m, imageWidth, i)
  {
    if imageCount <= 0 then [] else seq(imageCount, i => NailAt(m, imageWidth, i))
  }

  /** Walks a cursor along the wall: half a picture to its centre (recorded as the
      nail), then the other half and one gap to the next picture's leading edge. */
  method CalculateNailPositions(m: Measurements, imageWidth: real, imageCount: int)
    returns (positions: seq<real>)
    ensures positions == NailPositions(m, imageWidth, imageCount)
    ensures forall i :: 0 <= i < |positions| - 1 ==>
      positions[i + 1] - positions[i] == imageWidth + m.betweenImages
  {
    positions := [];
    var currentPosition := m.wallToFirst;
    var i := 0;
    while i < imageCount
      invariant 0 <= i <= if imageCount > 0 then imageCount else 0
      invariant |positions| == i
      invariant currentPosition == m.wallToFirst + i as real * (imageWidth + m.betweenImages)
      invariant forall k :: 0 <= k < i ==> positions[k] == NailAt(m, imageWidth, k)
    {
      currentPosition := currentPosition + imageWidth / 2.0;
      assert currentPosition == NailAt(m, imageWidth, i);
      positions := positions + [currentPosition];
      currentPosition := currentPosition + (imageWidth / 2.0 + m.betweenImages);
      i := i + 1;
    }
  }

  /** One recomputation from a single input snapshot: the spacing, and the nail
      positions derived from it, or no positions when the pictures do not fit. */
  method Recompute(wallLength: real, imageWidth: real, imageCount: int)
    returns (measurements: Option<Measurements>, nailPositions: seq<real>)
    ensures measurements == CalculateSpacing(wallLength, imageWidth, imageCount)
    ensures measurements.None? ==> nailPositions == []
    ensures measurements.Some? ==>
      nailPositions == NailPositions(measurements.value, imageWidth, imageCount)
      && |nailPositions| == imageCount
      && nailPositions[imageCount - 1] + imageWidth / 2.0 + measurements.value.lastToWall == wallLength
    ensures measurements.Some? && imageWidth >= 0.0 ==>
      forall i :: 0 <= i < |nailPositions| ==> 0.0 <= nailPositions[i] <= wallLength
  {
    measurements := CalculateSpacing(wallLength, imageWidth, imageCount);
    if measurements.Some? {
      nailPositions := CalculateNailPositions(measurements.value, imageWidth, imageCount);
      LastNailMeetsWallEnd(wallLength, imageWidth, imageCount);
      forall i | 0 <= i < |nailPositions| && imageWidth >= 0.0
        ensures 0.0 <= nailPositions[i] <= wallLength
      {
        NailWithinWall(wallLength, imageWidth, imageCount, i);
      }
    } else {
      nailPositions := [];
    }
  }

  /** Pictures that exactly cover the wall fit, with every gap zero. */
  lemma ExactFitHasZeroGaps(wallLength: real, imageWidth: real, imageCount: int)
    requires imageCount > 0
    requires imageWidth * imageCount as real == wallLength
    ensures CalculateSpacing(wallLength, imageWidth, imageCount) == Some(Measurements(0.0, 0.0, 0.0))
  {
  }

  /** With non-negative width and gap, nail positions never decrease. */
  lemma NailsNonDecreasing(m: Measurements, imageWidth: real, i: int, j: int)
    requires imageWidth >= 0.0 && m.betweenImages >= 0.0
    requires i <= j
    ensures NailAt(m, imageWidth, i) <= NailAt(m, imageWidth, j)
  {
  }

  /** With a positive step (width plus gap), nail positions strictly increase. */
  lemma NailsIncreasing(m: Measurements, imageWidth: real, i: int, j: int)
    requires imageWidth + m.betweenImages > 0.0
    requires i < j
    ensures NailAt(m, imageWidth, i) < NailAt(m, imageWidth, j)
  {
  }

  /** The last nail, plus half a picture and the right margin, lands on the wall's end. */
  lemma LastNailMeetsWallEnd(wallLength: real, imageWidth: real, imageCount: int)
    requires CalculateSpacing(wallLength, imageWidth, imageCount).Some?
    ensures var m := CalculateSpacing(wallLength, imageWidth, imageCount).value;
      NailAt(m, imageWidth, imageCount - 1) + imageWidth / 2.0 + m.lastToWall == wallLength
  {
  }

  /** Every nail of a layout that fits lies on the wall, for pictures of non-negative width. */
  lemma NailWithinWall(wallLength: real, imageWidth: real, imageCount: int, i: int)
    requires CalculateSpacing(wallLength, imageWidth, imageCount).Some?
    requires imageWidth >= 0.0
    requires 0 <= i < imageCount
    ensures var m := CalculateSpacing(wallLength, imageWidth, imageCount).value;
      0.0 <= NailAt(m, imageWidth, i) <= wallLength
  {
  }
}
