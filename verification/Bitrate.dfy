/** The default bitrate of a video stream: a piecewise linear curve over its pixel rate. */
module Bitrate {

  datatype Point = Point(size: real, bitrate: real)

  const TABLE := [
    Point(0.0, 0.0), Point(76800.0, 400.0), Point(307200.0, 800.0), Point(921600.0, 2000.0),
    Point(2073600.0, 4000.0), Point(8294400.0, 16000.0), Point(33177600.0, 64000.0)]

  const LARGEST := 33177600.0
  const LIMIT := 64000.0

  predicate InSegment(rate: real, i: nat)
    requires i < 6
  {
    TABLE[i].size < rate <= TABLE[i + 1].size
  }

  /** The curve segment by segment, each by its slope. */
  function Curve(rate: real): real {
    if rate <= 0.0 || rate > LARGEST then LIMIT
    else if rate <= 76800.0 then rate / 192.0
    else if rate <= 307200.0 then 400.0 + (rate - 76800.0) / 576.0
    else if rate <= 921600.0 then 800.0 + (rate - 307200.0) / 512.0
    else if rate <= 2073600.0 then 2000.0 + (rate - 921600.0) / 576.0
    else 4000.0 + (rate - 2073600.0) / 518.4
  }

  lemma OneSegment(rate: real)
    ensures 0.0 < rate <= LARGEST <==> exists i: nat :: i < 6 && InSegment(rate, i)
    ensures forall i: nat, j: nat :: i < 6 && j < 6 && InSegment(rate, i) && InSegment(rate, j) ==> i == j
  {
    if 0.0 < rate <= LARGEST {
      var i: nat :=
        if rate <= 76800.0 then 0 else if rate <= 307200.0 then 1 else if rate <= 921600.0 then 2
        else if rate <= 2073600.0 then 3 else if rate <= 8294400.0 then 4 else 5;
      assert InSegment(rate, i);
    }
  }

  /** On its segment the curve is the line between the two table points. */
  lemma CurveInterpolates(rate: real, i: nat)
    requires i < 6 && InSegment(rate, i)
    ensures var a, b := TABLE[i], TABLE[i + 1];
            Curve(rate) == a.bitrate + (b.bitrate - a.bitrate) * ((rate - a.size) / (b.size - a.size))
  {
  }

  /** The curve never jumps and never falls: between any two positive rates it climbs by at most 1/192 per unit, and as
      long as it has not reached its end by at least 1/576. */
  lemma CurveClimbs(x: real, y: real)
    requires 0.0 < x <= y
    ensures 0.0 <= Curve(y) - Curve(x) <= (y - x) / 192.0
    ensures y <= LARGEST ==> Curve(y) - Curve(x) >= (y - x) / 576.0
  {
  }

  lemma CurveRange(rate: real)
    ensures 0.0 < Curve(rate) <= LIMIT
    ensures Curve(rate) == LIMIT <==> rate <= 0.0 || rate >= LARGEST
  {
  }

  /** A larger rate never gets less, except that a rate that is not positive gets the limit. */
  lemma MonotoneExactly(x: real, y: real)
    requires x <= y
    ensures Curve(x) <= Curve(y) <==> x > 0.0 || y <= 0.0 || y >= LARGEST
  {
  }

  /** The arithmetic is exact here, where the source rounds to doubles. */
  method StandardBitrate(width: real, height: real, framerate: real) returns (bitrate: real)
    ensures bitrate == Curve(PixelRate(width, height, framerate))
  {
    bitrate := -1.0;
    var def := width * height * framerate / 30.0;
    var i: nat := 0;
    while i < |TABLE| - 1
      invariant i <= 6 && bitrate == -1.0
      invariant forall j: nat :: j < i ==> !InSegment(def, j)
    {
      var prev, next := TABLE[i], TABLE[i + 1];
      if def > prev.size && def <= next.size {
        var portion := (def - prev.size) / (next.size - prev.size);
        bitrate := prev.bitrate + (next.bitrate - prev.bitrate) * portion;
        CurveInterpolates(def, i);
        CurveRange(def);
        break;
      }
      i := i + 1;
    }
    OneSegment(def);
    if bitrate == -1.0 {
      bitrate := 64000.0;
    }
  }

  function PixelRate(width: real, height: real, framerate: real): real {
    width * height * framerate / 30.0
  }

  function CodecFactor(codec: string): real {
    match codec
    case "h264" => 1.0
    case "vp8" => 1.2
    case "vp9" => 0.8
    case "h265" => 0.9
    case _ => 1.0
  }

  function Rated(rate: real, factor: real, motionFactor: real): real {
    Curve(rate) * factor * motionFactor
  }

  function DefaultBitrate(codec: string, width: real, height: real, framerate: real, motionFactor: real): real {
    Rated(PixelRate(width, height, framerate), CodecFactor(codec), motionFactor)
  }

  method CalcDefaultBitrate(codec: string, width: real, height: real, framerate: real, motionFactor: real) returns (r: real)
    ensures r == DefaultBitrate(codec, width, height, framerate, motionFactor)
    ensures var h264 := Curve(PixelRate(width, height, framerate)) * motionFactor;
            && (codec == "vp8" ==> r == 1.2 * h264) && (codec == "vp9" ==> r == 0.8 * h264)
            && (codec == "h265" ==> r == 0.9 * h264)
            && (codec != "vp8" && codec != "vp9" && codec != "h265" ==> r == h264)
  {
    var standard := StandardBitrate(width, height, framerate);
    r := standard * CodecFactor(codec) * motionFactor;
  }

  lemma Product(a: real, b: real, c: real, d: real)
    requires 0.0 <= a <= b && 0.0 <= c <= d
    ensures 0.0 <= a * c <= b * d
  {
  }

  lemma Scaled(a: real, b: real, factor: real, motion: real)
    requires 0.0 <= a <= b && factor >= 0.0 && motion >= 0.0
    ensures 0.0 <= a * factor * motion <= b * factor * motion
  {
  }

  lemma RateGrows(w: real, h: real, f: real, w': real, h': real, f': real)
    requires 0.0 < w <= w' && 0.0 < h <= h' && 0.0 < f <= f'
    ensures 0.0 < PixelRate(w, h, f) <= PixelRate(w', h', f')
  {
    Product(w, w', h, h');
    Product(w * h, w' * h', f, f');
    assert w * h > 0.0;
    assert w * h * f > 0.0;
  }

  /** A wider, higher or faster picture never gets a lower default. */
  lemma DefaultIsMonotone(codec: string, w: real, h: real, f: real, w': real, h': real, f': real, motion: real)
    requires 0.0 < w <= w' && 0.0 < h <= h' && 0.0 < f <= f' && motion >= 0.0
    ensures 0.0 <= DefaultBitrate(codec, w, h, f, motion) <= DefaultBitrate(codec, w', h', f', motion)
  {
    RateGrows(w, h, f, w', h', f');
    RatesCompare(PixelRate(w, h, f), PixelRate(w', h', f'), CodecFactor(codec), motion);
  }

  lemma RatesCompare(x: real, y: real, factor: real, motion: real)
    requires factor >= 0.0 && motion >= 0.0 && (0.0 < x <= y || y == 0.0)
    ensures 0.0 <= Rated(x, factor, motion) <= Rated(y, factor, motion)
  {
    CurveRange(x);
    CurveRange(y);
    if 0.0 < x <= y {
      CurveClimbs(x, y);
    }
    var a, b := Curve(x), Curve(y);
    Scaled(a, b, factor, motion);
    assert Rated(x, factor, motion) == a * factor * motion;
    assert Rated(y, factor, motion) == b * factor * motion;
  }

  /** A picture of no width gets the largest default there is. */
  lemma EmptyPicture(codec: string, w: real, h: real, f: real, h': real, f': real, motion: real)
    requires motion >= 0.0
    ensures DefaultBitrate(codec, w, h, f, motion) <= DefaultBitrate(codec, 0.0, h', f', motion)
  {
  }
}
