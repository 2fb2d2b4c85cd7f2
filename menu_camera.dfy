/**
 * `MenuCamera`: the menu camera's inspector settings, kept within bounds
 * whenever they are edited, and its background colour, which cycles
 * through a list of colours at a fixed interval or at once on a key press.
 */
module Menu {
  import opened Mathf

  /** The inspector settings `OnValidate` corrects. */
  datatype Settings = Settings(minFOV: real, maxFOV: real, minTimeInterval: real, maxTimeInterval: real, transitionDuration: real)

  /** Settings `OnValidate` leaves as they are. */
  predicate Settled(s: Settings) {
    && 1.0 <= s.minFOV <= s.maxFOV
    && (s.maxFOV <= 179.0 || s.maxFOV == s.minFOV)
    && 0.1 <= s.minTimeInterval <= s.maxTimeInterval
    && s.transitionDuration >= 0.1
  }

  /**
   * The corrections of `OnValidate`: the smallest field of view is at least
   * 1, the largest at most 179 but never below the smallest; the shortest
   * interval is at least 0.1 and the longest never below it; the transition
   * lasts at least 0.1.
   */
  function Validate(s: Settings): (r: Settings)
    ensures Settled(r)
    ensures r.minFOV >= 1.0 && r.maxFOV >= r.minFOV && (r.minFOV <= 179.0 ==> r.maxFOV <= 179.0)
    ensures r.minTimeInterval >= 0.1 && r.maxTimeInterval >= r.minTimeInterval && r.transitionDuration >= 0.1
    ensures r == s <==> Settled(s)
  {
    var minFOV := Max(1.0, s.minFOV);
    var maxFOV := Max(minFOV, Min(179.0, s.maxFOV));
    var minTimeInterval := Max(0.1, s.minTimeInterval);
    Settings(minFOV, maxFOV, minTimeInterval, Max(minTimeInterval, s.maxTimeInterval), Max(0.1, s.transitionDuration))
  }

  /** Validating twice is validating once. */
  lemma ValidateIdempotent(s: Settings)
    ensures Validate(Validate(s)) == Validate(s)
  {
  }

  /** The next colour index: one on, back to 0 past the end of `count` colours. */
  function NextIndex(i: int, count: nat): (r: int)
    ensures r == 0 || r == i + 1
    ensures 0 <= i && count > 0 ==> 0 <= r < count
  {
    if i + 1 >= count then 0 else i + 1
  }

  /** The colour index after `steps` changes. */
  function Advance(i: int, count: nat, steps: nat): int
    decreases steps
  {
    if steps == 0 then i else Advance(NextIndex(i, count), count, steps - 1)
  }

  /** Changes made one batch after another add up. */
  lemma {:induction false} AdvanceCompose(i: int, count: nat, first: nat, second: nat)
    ensures Advance(i, count, first + second) == Advance(Advance(i, count, first), count, second)
    decreases first
  {
    if first > 0 {
      AdvanceCompose(NextIndex(i, count), count, first - 1, second);
    }
  }

  /** Short of the end of the list, each change moves the index one place on. */
  lemma {:induction false} AdvanceWithin(i: int, count: nat, steps: nat)
    requires 0 <= i && i + steps < count
    ensures Advance(i, count, steps) == i + steps
    decreases steps
  {
    if steps > 0 {
      AdvanceWithin(i + 1, count, steps - 1);
    }
  }

  /** After as many changes as there are colours the cycle is back where it started. */
  lemma CycleReturns(i: int, count: nat)
    requires 0 <= i < count
    ensures Advance(i, count, count) == i
  {
    AdvanceCompose(i, count, count - 1 - i, 1 + i);
    AdvanceWithin(i, count, count - 1 - i);
    AdvanceCompose(count - 1, count, 1, i);
    AdvanceWithin(0, count, i);
  }

  datatype Color = Color(r: real, g: real, b: real, a: real)

  datatype ClearFlags = Skybox | SolidColor | Depth | Nothing

  class MenuCamera {
    var minFOV: real
    var maxFOV: real
    var minTimeInterval: real
    var maxTimeInterval: real
    var transitionDuration: real
    /** `backgroundColors` */
    const backgroundColors: seq<Color>
    /** `backgroundColorChangeInterval` */
    const changeInterval: real
    /** `_backgroundTimer` */
    var backgroundTimer: real
    /** `_colorIndex` */
    var colorIndex: int
    /** The camera's `backgroundColor`. */
    var backgroundColor: Color

    ghost predicate Valid()
      reads this
    {
      colorIndex >= 0
    }

    /** The inspector settings as they stand. */
    function CurrentSettings(): Settings
      reads this
    {
      Settings(minFOV, maxFOV, minTimeInterval, maxTimeInterval, transitionDuration)
    }

    /** The component as `Start` leaves its background: the timer set to the interval, the first colour index. */
    constructor (settings: Settings, backgroundColors: seq<Color>, changeInterval: real, backgroundColor: Color)
      ensures Valid()
      ensures CurrentSettings() == settings
      ensures this.backgroundColors == backgroundColors && this.changeInterval == changeInterval
      ensures backgroundTimer == changeInterval && colorIndex == 0 && this.backgroundColor == backgroundColor
    {
      minFOV := settings.minFOV;
      maxFOV := settings.maxFOV;
      minTimeInterval := settings.minTimeInterval;
      maxTimeInterval := settings.maxTimeInterval;
      transitionDuration := settings.transitionDuration;
      this.backgroundColors := backgroundColors;
      this.changeInterval := changeInterval;
      backgroundTimer := changeInterval;
      colorIndex := 0;
      this.backgroundColor := backgroundColor;
    }

    /** `OnValidate`: corrects the settings in place. */
    method OnValidate()
      modifies this`minFOV, this`maxFOV, this`minTimeInterval, this`maxTimeInterval, this`transitionDuration
      ensures CurrentSettings() == Validate(old(CurrentSettings()))
      ensures Settled(CurrentSettings())
    {
      minFOV := Max(1.0, minFOV);
      maxFOV := Min(179.0, maxFOV);
      maxFOV := Max(minFOV, maxFOV);
      minTimeInterval := Max(0.1, minTimeInterval);
      maxTimeInterval := Max(minTimeInterval, maxTimeInterval);
      transitionDuration := Max(0.1, transitionDuration);
    }

    /**
     * What `UpdateBackgroundColor` does when it finds the timer at `timer`.
     * Only a solid-colour camera is affected: its timer runs down and, once
     * below zero, the next colour is shown and the timer starts again. With
     * no colours the lookup throws, after the index has been reset to 0 and
     * before the timer is restarted.
     */
    twostate predicate BackgroundStepped(timer: real, deltaTime: real, clearFlags: ClearFlags, thrown: bool)
      reads this
    {
      if clearFlags != SolidColor then
        !thrown && backgroundTimer == timer && colorIndex == old(colorIndex) && backgroundColor == old(backgroundColor)
      else if timer - deltaTime >= 0.0 then
        !thrown && backgroundTimer == timer - deltaTime && colorIndex == old(colorIndex) &&
        backgroundColor == old(backgroundColor)
      else
        colorIndex == NextIndex(old(colorIndex), |backgroundColors|) && thrown == (|backgroundColors| == 0) &&
        if |backgroundColors| > 0 then
          0 <= colorIndex < |backgroundColors| && backgroundColor == backgroundColors[colorIndex] &&
          backgroundTimer == changeInterval
        else
          backgroundTimer == timer - deltaTime && backgroundColor == old(backgroundColor)
    }

    /** `UpdateBackgroundColor`, given the frame time and the camera's clear flags. */
    method UpdateBackgroundColor(deltaTime: real, clearFlags: ClearFlags) returns (thrown: bool)
      requires Valid()
      modifies this`backgroundTimer, this`colorIndex, this`backgroundColor
      ensures Valid()
      ensures BackgroundStepped(old(backgroundTimer), deltaTime, clearFlags, thrown)
    {
      thrown := false;
      if clearFlags != SolidColor {
        return;
      }
      backgroundTimer := backgroundTimer - deltaTime;
      if backgroundTimer < 0.0 {
        colorIndex := colorIndex + 1;
        if colorIndex >= |backgroundColors| {
          colorIndex := 0;
        }
        if colorIndex >= |backgroundColors| {
          return true;
        }
        backgroundColor := backgroundColors[colorIndex];
        backgroundTimer := changeInterval;
      }
    }

    /**
     * The background part of `Update`: a key press sets the timer to -1
     * before the background is updated, so on a solid-colour camera the
     * colour changes in the same frame whatever the time left, and on any
     * other camera the timer stays at -1.
     */
    method Update(anyKeyDown: bool, deltaTime: real, clearFlags: ClearFlags) returns (thrown: bool)
      requires Valid()
      modifies this`backgroundTimer, this`colorIndex, this`backgroundColor
      ensures Valid()
      ensures BackgroundStepped(if anyKeyDown then -1.0 else old(backgroundTimer), deltaTime, clearFlags, thrown)
      ensures anyKeyDown && clearFlags == SolidColor && deltaTime >= 0.0 ==>
                colorIndex == NextIndex(old(colorIndex), |backgroundColors|) &&
                (|backgroundColors| > 0 ==> !thrown && backgroundColor == backgroundColors[colorIndex] &&
                                            backgroundTimer == changeInterval)
    {
      if anyKeyDown {
        backgroundTimer := -1.0;
      }
      thrown := UpdateBackgroundColor(deltaTime, clearFlags);
    }
  }
}
