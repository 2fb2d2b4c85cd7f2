/**
 * `ZoomController`: a camera over a picture level. The mouse wheel sets a
 * zoom target between two bounds, the camera size eases towards it, the
 * camera is kept over the level picture, and loading a level replaces the
 * hotspot objects with one per hotspot of the level and resets the camera.
 *
 * Instantiated hotspot objects are values carrying a fresh handle; the
 * controller records the objects it destroyed, in order.
 */
module LevelView {
  import opened Mathf
  import opened Geometry
  import Zoom

  datatype HotspotType = LoadNextLevel | Event

  /** `Hotspot`: the serialised description of one hotspot of a level. */
  datatype Hotspot = Hotspot(position: Vec2, nextLevelIndex: int, interactionType: HotspotType, interactionEvent: Zoom.EventRef)

  /** `LevelData`: the level picture, identified by `levelImage`, and its hotspots. */
  datatype LevelData = LevelData(levelImage: nat, hotspots: seq<Hotspot>)

  /**
   * An instantiated hotspot object: its handle, its local position and the
   * description it was made from; `initialized` says whether its
   * `HotspotInteraction` received that description.
   */
  datatype HotspotObject = HotspotObject(handle: nat, localPosition: Vec2, data: Hotspot, initialized: bool)

  /** The camera position `ResetCamera` restores. */
  const ResetPosition := Vec3(0.0, 0.0, -10.0)
  /** The orthographic size `ResetCamera` restores. */
  const ResetSize := 5.0

  class ZoomController {
    const minZoom: real
    const maxZoom: real
    const zoomSpeed: real
    const smoothSpeed: real
    /** `levels` */
    const levels: seq<LevelData>
    /** Whether `levelRenderer` is set. */
    const hasRenderer: bool
    /** Whether `hotspotPrefab` carries a `HotspotInteraction`. */
    const prefabInteracts: bool

    /** `_currentLevelIndex` */
    var currentLevelIndex: int
    /** `_currentZoom` */
    var currentZoom: real
    /** The main camera's position and `orthographicSize`. */
    var cameraPosition: Vec3
    var orthographicSize: real
    /** The sprite shown by `levelRenderer`, as a level image. */
    var shownImage: nat
    /** `_activeHotspots` */
    var activeHotspots: seq<HotspotObject>
    /** The hotspot objects destroyed so far, oldest first. */
    var destroyed: seq<HotspotObject>
    /** The handle the next instantiated object receives. */
    var nextHandle: nat

    constructor (minZoom: real, maxZoom: real, zoomSpeed: real, smoothSpeed: real, levels: seq<LevelData>,
                 hasRenderer: bool, prefabInteracts: bool, cameraPosition: Vec3, orthographicSize: real)
      ensures this.minZoom == minZoom && this.maxZoom == maxZoom
      ensures this.zoomSpeed == zoomSpeed && this.smoothSpeed == smoothSpeed
      ensures this.levels == levels && this.hasRenderer == hasRenderer && this.prefabInteracts == prefabInteracts
      ensures this.cameraPosition == cameraPosition && this.orthographicSize == orthographicSize
      ensures currentLevelIndex == 0 && currentZoom == 1.0
      ensures activeHotspots == [] && destroyed == [] && nextHandle == 0
    {
      this.minZoom := minZoom;
      this.maxZoom := maxZoom;
      this.zoomSpeed := zoomSpeed;
      this.smoothSpeed := smoothSpeed;
      this.levels := levels;
      this.hasRenderer := hasRenderer;
      this.prefabInteracts := prefabInteracts;
      this.cameraPosition := cameraPosition;
      this.orthographicSize := orthographicSize;
      currentLevelIndex := 0;
      currentZoom := 1.0;
      shownImage := 0;
      activeHotspots := [];
      destroyed := [];
      nextHandle := 0;
    }

    /** The object `CreateHotspot` makes from `data` under `handle`. */
    function HotspotFor(data: Hotspot, handle: nat): (h: HotspotObject)
    {
      HotspotObject(handle, data.position, data, prefabInteracts)
    }

    /**
     * What `LoadLevel(levelIndex)` does. An index outside the list changes
     * nothing. Otherwise every active hotspot is destroyed and the index is
     * set; without a renderer the assignment of the picture throws and
     * nothing more happens; with one, the picture is shown, one fresh
     * hotspot object per hotspot of the level is made, in order, and the
     * camera is reset. `zoom` is the zoom target as the load finds it.
     */
    twostate predicate LevelLoaded(levelIndex: int, thrown: bool, zoom: real)
      reads this
    {
      if levelIndex < 0 || levelIndex >= |levels| then
        !thrown &&
        currentLevelIndex == old(currentLevelIndex) && currentZoom == zoom &&
        cameraPosition == old(cameraPosition) && orthographicSize == old(orthographicSize) &&
        shownImage == old(shownImage) && activeHotspots == old(activeHotspots) &&
        destroyed == old(destroyed) && nextHandle == old(nextHandle)
      else
        var level := levels[levelIndex];
        thrown == !hasRenderer &&
        destroyed == old(destroyed) + old(activeHotspots) &&
        currentLevelIndex == levelIndex &&
        (thrown ==>
           activeHotspots == [] && nextHandle == old(nextHandle) && shownImage == old(shownImage) &&
           currentZoom == zoom && cameraPosition == old(cameraPosition) &&
           orthographicSize == old(orthographicSize)) &&
        (!thrown ==>
           shownImage == level.levelImage &&
           |activeHotspots| == |level.hotspots| &&
           nextHandle == old(nextHandle) + |level.hotspots| &&
           (forall k :: 0 <= k < |activeHotspots| ==>
              activeHotspots[k] == HotspotFor(level.hotspots[k], old(nextHandle) + k)) &&
           currentZoom == 1.0 && cameraPosition == ResetPosition && orthographicSize == ResetSize)
    }

    /** `Start`: the zoom target is set to its maximum, then the current level is loaded. */
    method Start() returns (thrown: bool)
      modifies this
      ensures LevelLoaded(old(currentLevelIndex), thrown, maxZoom)
    {
      currentZoom := maxZoom;
      thrown := LoadLevel(currentLevelIndex);
    }

    /** The scroll part of `HandleInput`: scrolling up lowers the zoom target, within its bounds. */
    method HandleScroll(scrollDelta: real)
      modifies this`currentZoom
      ensures scrollDelta == 0.0 ==> currentZoom == old(currentZoom)
      ensures scrollDelta != 0.0 ==> currentZoom == Clamp(old(currentZoom) - scrollDelta * zoomSpeed, minZoom, maxZoom)
      ensures scrollDelta != 0.0 && minZoom <= maxZoom ==> minZoom <= currentZoom <= maxZoom
    {
      if scrollDelta != 0.0 {
        var targetZoom := currentZoom - scrollDelta * zoomSpeed;
        currentZoom := Clamp(targetZoom, minZoom, maxZoom);
      }
    }

    /** `UpdateCameraZoom`: the camera size moves towards the zoom target, reaching it once `deltaTime * smoothSpeed` is at least 1. */
    method UpdateCameraZoom(deltaTime: real)
      modifies this`orthographicSize
      ensures orthographicSize == Lerp(old(orthographicSize), currentZoom, deltaTime * smoothSpeed)
      ensures Min(old(orthographicSize), currentZoom) <= orthographicSize <= Max(old(orthographicSize), currentZoom)
      ensures deltaTime * smoothSpeed >= 1.0 ==> orthographicSize == currentZoom
    {
      orthographicSize := Lerp(orthographicSize, currentZoom, deltaTime * smoothSpeed);
    }

    /**
     * `ClampCameraPosition`, given the camera's `aspect` and the renderer's
     * bounds: keeps the camera's view inside the picture, leaving depth
     * alone; without a renderer nothing happens.
     */
    method ClampCameraPosition(aspect: real, boundsMin: Vec3, boundsMax: Vec3)
      modifies this`cameraPosition
      ensures !hasRenderer ==> cameraPosition == old(cameraPosition)
      ensures hasRenderer ==>
                var camWidth := orthographicSize * aspect;
                cameraPosition == Vec3(Clamp(old(cameraPosition.x), boundsMin.x + camWidth, boundsMax.x - camWidth),
                                       Clamp(old(cameraPosition.y), boundsMin.y + orthographicSize, boundsMax.y - orthographicSize),
                                       old(cameraPosition.z))
      ensures hasRenderer && boundsMin.y + orthographicSize <= boundsMax.y - orthographicSize ==>
                boundsMin.y + orthographicSize <= cameraPosition.y <= boundsMax.y - orthographicSize
      ensures hasRenderer && boundsMin.x + orthographicSize * aspect <= boundsMax.x - orthographicSize * aspect ==>
                boundsMin.x + orthographicSize * aspect <= cameraPosition.x <= boundsMax.x - orthographicSize * aspect
    {
      if !hasRenderer {
        return;
      }
      var camHeight := orthographicSize;
      var camWidth := camHeight * aspect;
      var minX := boundsMin.x + camWidth;
      var maxX := boundsMax.x - camWidth;
      var minY := boundsMin.y + camHeight;
      var maxY := boundsMax.y - camHeight;
      var pos := cameraPosition;
      pos := pos.(x := Clamp(pos.x, minX, maxX));
      pos := pos.(y := Clamp(pos.y, minY, maxY));
      cameraPosition := pos;
    }

    /** `LoadLevel` */
    method LoadLevel(levelIndex: int) returns (thrown: bool)
      modifies this
      ensures LevelLoaded(levelIndex, thrown, old(currentZoom))
    {
      if levelIndex < 0 || levelIndex >= |levels| {
        return false;
      }
      var i := 0;
      while i < |activeHotspots|
        invariant 0 <= i <= |activeHotspots|
        invariant activeHotspots == old(activeHotspots) && nextHandle == old(nextHandle)
        invariant destroyed == old(destroyed) + old(activeHotspots)[..i]
        invariant currentLevelIndex == old(currentLevelIndex) && shownImage == old(shownImage)
        invariant currentZoom == old(currentZoom) && cameraPosition == old(cameraPosition)
        invariant orthographicSize == old(orthographicSize)
      {
        destroyed := destroyed + [activeHotspots[i]];
        i := i + 1;
      }
      assert old(activeHotspots)[..i] == old(activeHotspots);
      activeHotspots := [];
      currentLevelIndex := levelIndex;
      var levelData := levels[levelIndex];
      if !hasRenderer {
        return true;
      }
      shownImage := levelData.levelImage;
      var j := 0;
      while j < |levelData.hotspots|
        invariant 0 <= j <= |levelData.hotspots|
        invariant |activeHotspots| == j && nextHandle == old(nextHandle) + j
        invariant forall k :: 0 <= k < j ==> activeHotspots[k] == HotspotFor(levelData.hotspots[k], old(nextHandle) + k)
        invariant destroyed == old(destroyed) + old(activeHotspots)
        invariant currentLevelIndex == levelIndex && shownImage == levelData.levelImage
      {
        CreateHotspot(levelData.hotspots[j]);
        j := j + 1;
      }
      ResetCamera();
      thrown := false;
    }

    /** `CreateHotspot`: makes one fresh hotspot object at the hotspot's position and adds it to the active ones. */
    method CreateHotspot(hotspotData: Hotspot)
      modifies this`activeHotspots, this`nextHandle
      ensures activeHotspots == old(activeHotspots) + [HotspotFor(hotspotData, old(nextHandle))]
      ensures activeHotspots[|activeHotspots| - 1].localPosition == hotspotData.position
      ensures nextHandle == old(nextHandle) + 1
    {
      var hotspot := HotspotObject(nextHandle, hotspotData.position, hotspotData, false);
      nextHandle := nextHandle + 1;
      if prefabInteracts {
        hotspot := hotspot.(initialized := true);
      }
      activeHotspots := activeHotspots + [hotspot];
    }

    /** `ResetCamera` */
    method ResetCamera()
      modifies this`currentZoom, this`cameraPosition, this`orthographicSize
      ensures currentZoom == 1.0 && cameraPosition == ResetPosition && orthographicSize == ResetSize
    {
      currentZoom := 1.0;
      cameraPosition := ResetPosition;
      orthographicSize := ResetSize;
    }

    /** `TransitionToLevel`: loads the level, exactly as `LoadLevel` does. */
    method TransitionToLevel(nextLevelIndex: int) returns (thrown: bool)
      modifies this
      ensures LevelLoaded(nextLevelIndex, thrown, old(currentZoom))
    {
      thrown := LoadLevel(nextLevelIndex);
    }
  }
}
