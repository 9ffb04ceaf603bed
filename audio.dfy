/**
 * Sound selection and the one-shot start of the ambient loop. The audio
 * clips themselves are foreign browser objects: the model keeps only whether
 * each clip is loaded, the `ambientStarted` flag, the ambient volume, and the
 * sequence of clips handed to `safePlay` (each click restarts from time 0).
 */
module Audio {
  import opened Temperature

  datatype Sound = ColdClick | WarmClick | AmbientLoop

  /** The click a press plays: cold for a numeric reading at or below 12 °C, warm otherwise. */
  function ClickSound(t: TempValue): (s: Sound)
    ensures s == ColdClick <==> t.Celsius? && t.c <= SoundThresholdC
    ensures s == WarmClick <==> !IsNumber(t) || t.NaN? || t.c > SoundThresholdC
  {
    // `typeof temp === "number" && temp <= 12`: false for NaN
    if t.Celsius? && t.c <= SoundThresholdC then ColdClick else WarmClick
  }

  /** `audioRef.current` as the press handlers see it. */
  datatype AudioState = AudioState(
    cold: bool,             // the cold click is loaded
    warm: bool,             // the warm click is loaded
    ambient: bool,          // the ambient loop is loaded
    ambientStarted: bool,
    played: seq<Sound>)     // clips handed to safePlay, oldest first

  predicate Loaded(a: AudioState, s: Sound) {
    match s
    case ColdClick => a.cold
    case WarmClick => a.warm
    case AmbientLoop => a.ambient
  }

  /** `startAmbientIfNeeded`: start the loop once, and only if it is loaded. */
  function StartAmbient(a: AudioState): (b: AudioState)
    ensures b.cold == a.cold && b.warm == a.warm && b.ambient == a.ambient
    ensures b == a <==> !a.ambient || a.ambientStarted
    ensures b != a ==> b.ambientStarted && b.played == a.played + [AmbientLoop]
  {
    if !a.ambient || a.ambientStarted then a
    else a.(ambientStarted := true, played := a.played + [AmbientLoop])
  }

  /** Starting the ambient loop a second time changes nothing. */
  lemma StartAmbientIdempotent(a: AudioState)
    ensures StartAmbient(StartAmbient(a)) == StartAmbient(a)
  {
  }

  /** `playClickSound(temp)`: the selected click is played if loaded; nothing else changes. */
  function PlayClick(a: AudioState, t: TempValue): (b: AudioState)
    ensures b.(played := a.played) == a
    ensures |a.played| <= |b.played| <= |a.played| + 1 && b.played[..|a.played|] == a.played
    ensures |b.played| == |a.played| + 1 <==> Loaded(a, ClickSound(t))
    ensures |b.played| == |a.played| + 1 ==> b.played[|a.played|] == ClickSound(t)
  {
    var snd := ClickSound(t);
    if !Loaded(a, snd) then a else a.(played := a.played + [snd])
  }

  /** A press on the canvas: start the ambient loop if needed, then play the click. */
  function Press(a: AudioState, t: TempValue): (b: AudioState)
    ensures b.cold == a.cold && b.warm == a.warm && b.ambient == a.ambient
    ensures b.ambientStarted == (a.ambientStarted || a.ambient)
    ensures |a.played| <= |b.played| <= |a.played| + 2 && b.played[..|a.played|] == a.played
    ensures Loaded(a, ClickSound(t)) ==> |b.played| > 0 && b.played[|b.played| - 1] == ClickSound(t)
    ensures b.played == a.played
      + (if a.ambient && !a.ambientStarted then [AmbientLoop] else [])
      + (if Loaded(a, ClickSound(t)) then [ClickSound(t)] else [])
  {
    PlayClick(StartAmbient(a), t)
  }

  /** The state after a series of presses, with the stored reading at each. */
  function Presses(a: AudioState, temps: seq<TempValue>): AudioState
    decreases |temps|
  {
    if temps == [] then a else Presses(Press(a, temps[0]), temps[1..])
  }

  /** How many times the ambient loop has been played. */
  function AmbientPlays(a: AudioState): nat {
    multiset(a.played)[AmbientLoop]
  }

  /** The flag records exactly whether the loop has been played, and then it was played once. */
  ghost predicate AmbientOnce(a: AudioState) {
    && (a.ambientStarted ==> a.ambient)
    && AmbientPlays(a) == (if a.ambientStarted then 1 else 0)
  }

  /** A press keeps the ambient loop played at most once. */
  lemma PressKeepsAmbientOnce(a: AudioState, t: TempValue)
    requires AmbientOnce(a)
    ensures AmbientOnce(Press(a, t))
    ensures Press(a, t).ambientStarted == (a.ambientStarted || a.ambient)
  {
    var b := StartAmbient(a);
    assert AmbientOnce(b) by {
      if b != a {
        assert multiset(b.played) == multiset(a.played) + multiset{AmbientLoop};
      }
    }
    var c := PlayClick(b, t);
    if c != b {
      assert c.played == b.played + [ClickSound(t)];
      assert multiset(c.played) == multiset(b.played) + multiset{ClickSound(t)};
    }
  }

  /**
   * Over any series of presses the ambient loop is played at most once: once
   * if it is loaded and there was a press, never if it is not loaded.
   */
  lemma {:induction false} PressesPlayAmbientOnce(a: AudioState, temps: seq<TempValue>)
    requires AmbientOnce(a)
    ensures AmbientOnce(Presses(a, temps))
    ensures AmbientPlays(Presses(a, temps)) <= 1
    ensures Presses(a, temps).ambientStarted == (a.ambientStarted || (a.ambient && temps != []))
    decreases |temps|
  {
    if temps != [] {
      PressKeepsAmbientOnce(a, temps[0]);
      PressesPlayAmbientOnce(Press(a, temps[0]), temps[1..]);
    }
  }

  /** The click each stored reading selects, in order. */
  function Clicks(temps: seq<TempValue>): (r: seq<Sound>)
    ensures |r| == |temps|
    ensures forall i :: 0 <= i < |temps| ==> r[i] == ClickSound(temps[i])
  {
    if temps == [] then [] else [ClickSound(temps[0])] + Clicks(temps[1..])
  }

  /**
   * With both clicks loaded, press i plays exactly the click selected by
   * reading i, preceded on the first press by the ambient loop when it is
   * loaded and not yet started.
   */
  lemma {:induction false} PressesPlayOneClickEach(a: AudioState, temps: seq<TempValue>)
    requires a.cold && a.warm
    ensures Presses(a, temps).played == a.played
      + (if a.ambient && !a.ambientStarted && temps != [] then [AmbientLoop] else [])
      + Clicks(temps)
    ensures |Presses(a, temps).played| ==
      |a.played| + |temps| + (if a.ambient && !a.ambientStarted && temps != [] then 1 else 0)
    decreases |temps|
  {
    if temps != [] {
      var amb := if a.ambient && !a.ambientStarted then [AmbientLoop] else [];
      var b := Press(a, temps[0]);
      assert Loaded(a, ClickSound(temps[0]));
      assert b.played == a.played + amb + [ClickSound(temps[0])];
      assert !(b.ambient && !b.ambientStarted);
      PressesPlayOneClickEach(b, temps[1..]);
      assert Clicks(temps) == [ClickSound(temps[0])] + Clicks(temps[1..]);
      assert Presses(a, temps).played == a.played + amb + [ClickSound(temps[0])] + Clicks(temps[1..]);
    }
  }

  /** `audioRef.current`: the loaded clips, the flag and what has been played. */
  class AudioBank {
    var cold: bool
    var warm: bool
    var ambient: bool
    var ambientStarted: bool
    var ambientVolume: real
    var played: seq<Sound>

    function State(): AudioState
      reads this
    {
      AudioState(cold, warm, ambient, ambientStarted, played)
    }

    ghost predicate Valid()
      reads this
    {
      AmbientOnce(State())
    }

    /** The clips after loading: whichever are present, none started, ambient at volume 0.3. */
    constructor (hasCold: bool, hasWarm: bool, hasAmbient: bool)
      ensures Valid()
      ensures State() == AudioState(hasCold, hasWarm, hasAmbient, false, [])
      ensures ambientVolume == 0.3
    {
      cold, warm, ambient := hasCold, hasWarm, hasAmbient;
      ambientStarted := false;
      ambientVolume := 0.3;
      played := [];
    }

    method StartAmbientIfNeeded()
      requires Valid()
      modifies this
      ensures Valid()
      ensures State() == StartAmbient(old(State()))
      ensures ambientVolume == old(ambientVolume)
    {
      if !ambient || ambientStarted {
        return;
      }
      ambientStarted := true;
      played := played + [AmbientLoop];
      assert multiset(played) == multiset(old(played)) + multiset{AmbientLoop};
    }

    method PlayClickSound(temp: TempValue)
      requires Valid()
      modifies this
      ensures Valid()
      ensures State() == PlayClick(old(State()), temp)
      ensures ambientVolume == old(ambientVolume)
    {
      var snd := if temp.Celsius? && temp.c <= SoundThresholdC then ColdClick else WarmClick;
      var loaded := match snd
        case ColdClick => cold
        case WarmClick => warm
        case AmbientLoop => ambient;
      if !loaded {
        return;
      }
      played := played + [snd];
      assert multiset(played) == multiset(old(played)) + multiset{snd};
    }

    /** The pointer-down handler's audio part: ambient first, then the click. */
    method PointerDown(temp: TempValue)
      requires Valid()
      modifies this
      ensures Valid()
      ensures State() == Press(old(State()), temp)
      ensures ambientVolume == old(ambientVolume)
    {
      StartAmbientIfNeeded();
      PlayClickSound(temp);
    }
  }
}
