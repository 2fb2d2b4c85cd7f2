/**
 * `Zoomable`: an object the mouse wheel scales between two bounds, whose
 * displayed scale follows the target scale, and which fires a threshold's
 * event each time its scale rises to or past that threshold.
 *
 * Threshold entries are serialised records, so each is a value in the list;
 * what their events do is outside the model, and the object records which
 * events it fired, in order.
 */
module Zoom {
  import opened Mathf
  import opened Geometry

  /** A `UnityEvent` field: unset, or an event identified by `id`. */
  datatype EventRef = NoEvent | EventRef(id: nat)

  /** `ZoomThresholdEvent` */
  datatype ZoomThresholdEvent = ZoomThresholdEvent(scaleThreshold: real, onThresholdReached: EventRef, hasTriggered: bool)

  /** Non-decreasing by `scaleThreshold`, the order `Start` and `AddThresholdEvent` sort into. */
  predicate SortedByThreshold(s: seq<ZoomThresholdEvent>) {
    forall i, j :: 0 <= i < j < |s| ==> s[i].scaleThreshold <= s[j].scaleThreshold
  }

  /** Inserts `e` after the entries with smaller thresholds. */
  function Insert(e: ZoomThresholdEvent, s: seq<ZoomThresholdEvent>): (r: seq<ZoomThresholdEvent>)
    requires SortedByThreshold(s)
    ensures SortedByThreshold(r)
    ensures multiset(r) == multiset(s) + multiset{e}
    ensures |s| > 0 ==> r[0] == e || r[0] == s[0]
  {
    if |s| == 0 then [e]
    else if e.scaleThreshold <= s[0].scaleThreshold then [e] + s
    else
      var rest := Insert(e, s[1..]);
      assert s == [s[0]] + s[1..];
      assert s[0].scaleThreshold <= rest[0].scaleThreshold;
      [s[0]] + rest
  }

  /**
   * `List.Sort` by `scaleThreshold`: a sorted permutation. The library sort
   * is not stable; this one keeps equal thresholds in list order, which is
   * one of the orders it may produce.
   */
  function SortByThreshold(s: seq<ZoomThresholdEvent>): (r: seq<ZoomThresholdEvent>)
    ensures SortedByThreshold(r)
    ensures multiset(r) == multiset(s)
  {
    if |s| == 0 then []
    else
      assert s == [s[0]] + s[1..];
      Insert(s[0], SortByThreshold(s[1..]))
  }

  /** The entry's event is due: the scale is at or past its threshold and it has not fired since it was last below. */
  predicate Fires(e: ZoomThresholdEvent, currentScale: real) {
    currentScale >= e.scaleThreshold && !e.hasTriggered
  }

  /** The events one entry fires at `currentScale` (an unset event fires nothing). */
  function FiredBy(e: ZoomThresholdEvent, currentScale: real): seq<nat> {
    if Fires(e, currentScale) && e.onThresholdReached.EventRef? then [e.onThresholdReached.id] else []
  }

  /** The events a pass over `s` fires at `currentScale`, in list order. */
  function Due(s: seq<ZoomThresholdEvent>, currentScale: real): (r: seq<nat>)
    ensures |r| <= |s|
    ensures (forall k :: 0 <= k < |s| ==> !Fires(s[k], currentScale)) ==> r == []
  {
    if |s| == 0 then []
    else Due(s[..|s| - 1], currentScale) + FiredBy(s[|s| - 1], currentScale)
  }

  /** The entry after a pass: armed again exactly when the scale is below its threshold. */
  function Rearm(e: ZoomThresholdEvent, currentScale: real): (r: ZoomThresholdEvent)
    ensures r.scaleThreshold == e.scaleThreshold && r.onThresholdReached == e.onThresholdReached
    ensures r.hasTriggered <==> currentScale >= e.scaleThreshold
  {
    e.(hasTriggered := currentScale >= e.scaleThreshold)
  }

  /** The list after a pass at `currentScale`. */
  function RearmAll(s: seq<ZoomThresholdEvent>, currentScale: real): (r: seq<ZoomThresholdEvent>)
    ensures |r| == |s|
    ensures forall k :: 0 <= k < |s| ==> r[k] == Rearm(s[k], currentScale)
  {
    seq(|s|, k requires 0 <= k < |s| => Rearm(s[k], currentScale))
  }

  /** An event is fired by a pass exactly when some entry carrying it is due. */
  lemma {:induction false} DueIff(s: seq<ZoomThresholdEvent>, currentScale: real, id: nat)
    ensures id in Due(s, currentScale) <==>
              exists k :: 0 <= k < |s| && s[k].onThresholdReached == EventRef(id) && Fires(s[k], currentScale)
  {
    if |s| > 0 {
      var init := s[..|s| - 1];
      DueIff(init, currentScale, id);
      if id in Due(init, currentScale) {
        var k :| 0 <= k < |init| && init[k].onThresholdReached == EventRef(id) && Fires(init[k], currentScale);
        assert s[k] == init[k];
      }
      if exists k :: 0 <= k < |s| && s[k].onThresholdReached == EventRef(id) && Fires(s[k], currentScale) {
        var k :| 0 <= k < |s| && s[k].onThresholdReached == EventRef(id) && Fires(s[k], currentScale);
        if k < |init| {
          assert init[k] == s[k];
        }
      }
    }
  }

  /**
   * After a pass at `previous`, a pass at a scale no larger fires nothing:
   * an entry fires again only once the scale has dropped below its threshold
   * and risen back to it.
   */
  lemma {:induction false} NoRefireWithoutGrowth(s: seq<ZoomThresholdEvent>, previous: real, currentScale: real)
    requires currentScale <= previous
    ensures Due(RearmAll(s, previous), currentScale) == []
  {
    if |s| > 0 {
      var init := s[..|s| - 1];
      NoRefireWithoutGrowth(init, previous, currentScale);
      assert RearmAll(s, previous)[..|s| - 1] == RearmAll(init, previous);
    }
  }

  /** After a pass at `previous`, an entry is due at `currentScale` exactly when the scale crossed its threshold upwards. */
  lemma RefiresOnCrossing(s: seq<ZoomThresholdEvent>, previous: real, currentScale: real, k: nat)
    requires k < |s|
    ensures Fires(RearmAll(s, previous)[k], currentScale) <==> previous < s[k].scaleThreshold <= currentScale
  {
  }

  /** Every component lies in `[lo, hi]`. */
  predicate WithinScale(v: Vec3, lo: real, hi: real) {
    lo <= v.x <= hi && lo <= v.y <= hi && lo <= v.z <= hi
  }

  /** `Mathf.Clamp` applied to each component, as `HandleZoom` does. */
  function ClampEach(v: Vec3, lo: real, hi: real): (r: Vec3)
    ensures lo <= hi ==> WithinScale(r, lo, hi)
    ensures WithinScale(v, lo, hi) ==> r == v
  {
    Vec3(Clamp(v.x, lo, hi), Clamp(v.y, lo, hi), Clamp(v.z, lo, hi))
  }

  class Zoomable {
    const minScale: real
    const maxScale: real
    const zoomSpeed: real
    const smoothZoom: bool
    const smoothSpeed: real
    /** `thresholdEvents` */
    var thresholdEvents: seq<ZoomThresholdEvent>
    /** `targetScale` */
    var targetScale: Vec3
    /** `transform.localScale` */
    var localScale: Vec3
    /** The threshold events fired so far, oldest first. */
    var fired: seq<nat>

    constructor (minScale: real, maxScale: real, zoomSpeed: real, smoothZoom: bool, smoothSpeed: real,
                 thresholdEvents: seq<ZoomThresholdEvent>, localScale: Vec3)
      ensures this.minScale == minScale && this.maxScale == maxScale && this.zoomSpeed == zoomSpeed
      ensures this.smoothZoom == smoothZoom && this.smoothSpeed == smoothSpeed
      ensures this.thresholdEvents == thresholdEvents && this.localScale == localScale
      ensures targetScale == Vec3(0.0, 0.0, 0.0) && fired == []
    {
      this.minScale := minScale;
      this.maxScale := maxScale;
      this.zoomSpeed := zoomSpeed;
      this.smoothZoom := smoothZoom;
      this.smoothSpeed := smoothSpeed;
      this.thresholdEvents := thresholdEvents;
      this.localScale := localScale;
      targetScale := Vec3(0.0, 0.0, 0.0);
      fired := [];
    }

    /** `Start`: the target starts at the current scale and the thresholds are sorted. */
    method Start()
      modifies this`targetScale, this`thresholdEvents
      ensures targetScale == localScale
      ensures SortedByThreshold(thresholdEvents)
      ensures multiset(thresholdEvents) == multiset(old(thresholdEvents))
    {
      targetScale := localScale;
      thresholdEvents := SortByThreshold(thresholdEvents);
    }

    /**
     * The scale part of `HandleZoom`: a scroll multiplies the target scale by
     * `1 + scrollDelta * zoomSpeed` and clamps each component.
     */
    method HandleZoom(scrollDelta: real)
      modifies this`targetScale
      ensures scrollDelta == 0.0 ==> targetScale == old(targetScale)
      ensures scrollDelta != 0.0 ==>
                targetScale == ClampEach(old(targetScale).Times(1.0 + scrollDelta * zoomSpeed), minScale, maxScale)
      ensures scrollDelta != 0.0 && minScale <= maxScale ==> WithinScale(targetScale, minScale, maxScale)
    {
      if scrollDelta != 0.0 {
        var scaleFactor := 1.0 + scrollDelta * zoomSpeed;
        var newScale := targetScale.Times(scaleFactor);
        newScale := ClampEach(newScale, minScale, maxScale);
        targetScale := newScale;
      }
    }

    /**
     * `UpdateScale`: without smoothing the scale jumps to the target; with it,
     * `Vector3.Lerp` moves each component towards the target, reaching it
     * once `deltaTime * smoothSpeed` is at least 1.
     */
    method UpdateScale(deltaTime: real)
      modifies this`localScale
      ensures !smoothZoom ==> localScale == targetScale
      ensures smoothZoom ==>
                localScale == Vec3(Lerp(old(localScale.x), targetScale.x, deltaTime * smoothSpeed),
                                   Lerp(old(localScale.y), targetScale.y, deltaTime * smoothSpeed),
                                   Lerp(old(localScale.z), targetScale.z, deltaTime * smoothSpeed))
      ensures smoothZoom ==>
                Min(old(localScale.x), targetScale.x) <= localScale.x <= Max(old(localScale.x), targetScale.x) &&
                Min(old(localScale.y), targetScale.y) <= localScale.y <= Max(old(localScale.y), targetScale.y) &&
                Min(old(localScale.z), targetScale.z) <= localScale.z <= Max(old(localScale.z), targetScale.z)
      ensures smoothZoom && deltaTime * smoothSpeed >= 1.0 ==> localScale == targetScale
    {
      if smoothZoom {
        var t := deltaTime * smoothSpeed;
        localScale := Vec3(Lerp(localScale.x, targetScale.x, t),
                           Lerp(localScale.y, targetScale.y, t),
                           Lerp(localScale.z, targetScale.z, t));
      } else {
        localScale := targetScale;
      }
    }

    /**
     * `CheckThresholds`: one pass over the list at the current x scale. An
     * entry whose threshold is reached fires its event unless it already
     * has; afterwards each entry is marked triggered exactly when the scale
     * is at or past its threshold.
     */
    method CheckThresholds()
      modifies this`thresholdEvents, this`fired
      ensures thresholdEvents == RearmAll(old(thresholdEvents), localScale.x)
      ensures fired == old(fired) + Due(old(thresholdEvents), localScale.x)
      ensures SortedByThreshold(old(thresholdEvents)) ==> SortedByThreshold(thresholdEvents)
    {
      var currentScale := localScale.x;
      var i := 0;
      while i < |thresholdEvents|
        invariant 0 <= i <= |thresholdEvents| == |old(thresholdEvents)|
        invariant forall k :: 0 <= k < i ==> thresholdEvents[k] == Rearm(old(thresholdEvents)[k], currentScale)
        invariant forall k :: i <= k < |thresholdEvents| ==> thresholdEvents[k] == old(thresholdEvents)[k]
        invariant fired == old(fired) + Due(old(thresholdEvents)[..i], currentScale)
      {
        var threshold := thresholdEvents[i];
        assert old(thresholdEvents)[..i + 1][..i] == old(thresholdEvents)[..i];
        if currentScale >= threshold.scaleThreshold {
          if !threshold.hasTriggered {
            if threshold.onThresholdReached.EventRef? {
              fired := fired + [threshold.onThresholdReached.id];
            }
            threshold := threshold.(hasTriggered := true);
          }
        } else {
          threshold := threshold.(hasTriggered := false);
        }
        thresholdEvents := thresholdEvents[i := threshold];
        i := i + 1;
      }
      assert old(thresholdEvents)[..i] == old(thresholdEvents);
    }

    /** `AddThresholdEvent`: adds an unfired entry and sorts the list again. */
    method AddThresholdEvent(scale: real, thresholdEvent: EventRef)
      modifies this`thresholdEvents
      ensures |thresholdEvents| == |old(thresholdEvents)| + 1
      ensures multiset(thresholdEvents) == multiset(old(thresholdEvents)) + multiset{ZoomThresholdEvent(scale, thresholdEvent, false)}
      ensures ZoomThresholdEvent(scale, thresholdEvent, false) in thresholdEvents
      ensures SortedByThreshold(thresholdEvents)
    {
      var entry := ZoomThresholdEvent(scale, thresholdEvent, false);
      thresholdEvents := SortByThreshold(thresholdEvents + [entry]);
      assert entry in multiset(thresholdEvents);
    }
  }
}
