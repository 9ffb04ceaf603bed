/**
 * The state the p5 sketch closure keeps between frames: the smoothed
 * temperature. Each frame moves it toward the stored reading, derives the
 * frame parameters from it and sets the ambient loop's volume. The drawing
 * itself is not modelled.
 */
module Animation {
  import opened Temperature
  import Audio

  class Sketch {
    /** `tempSmoothed`, in Celsius. */
    var tempSmoothed: real
    /** Coldest and warmest of the start value and every target drawn toward so far. */
    ghost var coldest: real
    ghost var warmest: real

    /** The smoothed value never leaves the range spanned by what it was drawn toward. */
    ghost predicate Valid()
      reads this
    {
      coldest <= DefaultTempC <= warmest && coldest <= tempSmoothed <= warmest
    }

    constructor ()
      ensures Valid()
      ensures tempSmoothed == DefaultTempC && coldest == warmest == DefaultTempC
    {
      tempSmoothed := DefaultTempC;
      coldest, warmest := DefaultTempC, DefaultTempC;
    }

    /** The temperature part of `p.draw`, given the reading stored in `tempRef`. */
    method Draw(stored: TempValue, audio: Audio.AudioBank) returns (f: FrameParams)
      requires Valid()
      requires !stored.NaN?
      modifies this, audio`ambientVolume
      ensures Valid()
      ensures tempSmoothed == SmoothStep(old(tempSmoothed), SmoothTarget(stored))
      ensures coldest == Min(old(coldest), SmoothTarget(stored))
      ensures warmest == Max(old(warmest), SmoothTarget(stored))
      ensures f == Frame(tempSmoothed)
      ensures audio.ambientVolume == if audio.ambient then f.ambientVolume else old(audio.ambientVolume)
    {
      var tempNow := if stored.Celsius? then stored.c else DefaultTempC;
      tempSmoothed := tempSmoothed + (tempNow - tempSmoothed) * SmoothingFactor;
      coldest := Min(coldest, tempNow);
      warmest := Max(warmest, tempNow);
      var uT := Temp01(tempSmoothed);
      f := FrameParams(uT, 0.12 + uT * 2.25, 18.0 + uT * 52.0, 0.0008 + uT * 0.0025, 0.22 + uT * 0.25);
      if audio.ambient {
        audio.ambientVolume := f.ambientVolume;
      }
    }
  }
}
