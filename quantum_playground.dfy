/**
 * The seeded layout generator of `QuantumPlaygroundGenerator`: rooms are
 * placed by bounded rejection sampling, consecutive rooms are linked by
 * corridors, every room is furnished according to its type, and the room
 * lists are cached by seed and replayed on a later request.
 *
 * Host objects (walls, decorations, particles, backgrounds) are values
 * describing what was spawned; `scene` lists the objects tagged
 * "Generated" that are alive in the host.
 */
module QuantumPlayground {
  import opened Geometry
  import opened SystemRandom

  /** `Room.RoomType` */
  datatype RoomType = Normal | Quantum | Mixed

  /** `(Room.RoomType)k` over the enum's three values. */
  function RoomTypeOf(k: int): (t: RoomType)
    requires 0 <= k < 3
    ensures k == 0 <==> t == Normal
    ensures k == 1 <==> t == Quantum
  {
    if k == 0 then Normal else if k == 1 then Quantum else Mixed
  }

  datatype DecorationKind = ReflectiveSurface | EnergyBarrier
  datatype Material = NormalMaterial | QuantumMaterial

  /** What the generator asks the host to spawn. */
  datatype HostObject =
    | Wall(from: Vec2, to: Vec2, prefab: nat)
    | WallGroup(name: string, children: seq<HostObject>)
    | Decoration(kind: DecorationKind, position: Vec2, angle: real, prefab: nat)
    | Particles(position: Vec2, depth: real, scale: Vec2)
    | Background(position: Vec2, depth: real, scale: Vec2, material: Material)

  /** The serialized inspector settings; prefab arrays are given by their lengths. */
  datatype Config = Config(
    playgroundSize: Vec2,
    minRoomSize: real, maxRoomSize: real,
    minRooms: int, maxRooms: int,
    wallPrefabs: nat, energyBarriers: nat, reflectiveSurfaces: nat,
    hasParticles: bool)
  {
    /**
     * Settings the generator runs with: `Next(minRooms, maxRooms + 1)` throws
     * when its bounds are reversed, and picking from an empty prefab array
     * throws.
     */
    predicate Usable() {
      minRooms <= maxRooms + 1 && wallPrefabs > 0 && energyBarriers > 0 && reflectiveSurfaces > 0
    }

    /** The largest room count `Next(minRooms, maxRooms + 1)` can draw. */
    function MaxRoomCount(): nat {
      var m := if minRooms <= maxRooms then maxRooms else minRooms;
      if m < 0 then 0 else m
    }
  }

  const Padding: real := 2.0
  const CorridorWidth: real := 3.0
  const MaxAttempts: nat := 50
  const ParticleDepth: real := -1.0
  const BackgroundDepth: real := -2.0

  /**
   * `v == u * span + lo` for some sample `u` in [0, 1): the values a
   * `NextDouble() * span + lo` draw can produce.
   */
  predicate Drawn(v: real, lo: real, span: real) {
    && (span > 0.0 ==> lo <= v < lo + span)
    && (span == 0.0 ==> v == lo)
    && (span < 0.0 ==> lo + span < v <= lo)
  }

  lemma ScaledSample(u: real, lo: real, span: real)
    requires 0.0 <= u < 1.0
    ensures Drawn(u * span + lo, lo, span)
  {
    if span > 0.0 {
      assert span * (1.0 - u) > 0.0;
    } else if span < 0.0 {
      assert (-span) * (1.0 - u) > 0.0;
      assert (-span) * u >= 0.0;
    }
  }

  /** A room side drawn by `NextDouble() * (maxRoomSize - minRoomSize) + minRoomSize`. */
  predicate SizeOk(s: real, cfg: Config) {
    Drawn(s, cfg.minRoomSize, cfg.maxRoomSize - cfg.minRoomSize)
  }

  /** A centre coordinate drawn by `NextDouble() * (extent - side) - extent / 2`. */
  predicate AxisOk(c: real, side: real, extent: real) {
    Drawn(c, -extent / 2.0, extent - side)
  }

  class Room {
    const position: Vec2
    const size: Vec2
    const kind: RoomType
    var walls: seq<HostObject>
    var objects: seq<HostObject>

    constructor (position: Vec2, size: Vec2, kind: RoomType)
      ensures this.position == position && this.size == size && this.kind == kind
      ensures walls == [] && objects == []
    {
      this.position := position;
      this.size := size;
      this.kind := kind;
      walls := [];
      objects := [];
    }
  }

  predicate Distinct(rooms: seq<Room>) {
    forall i, j :: 0 <= i < j < |rooms| ==> rooms[i] != rooms[j]
  }

  /**
   * `RoomOverlaps`'s test against one earlier room, grown by the padding:
   * for sizes that are not negative, the centres are closer than the half
   * sizes plus the padding on both axes.
   */
  function Clashes(position: Vec2, size: Vec2, existing: Room): (b: bool)
    ensures size.x >= 0.0 && size.y >= 0.0 && existing.size.x >= 0.0 && existing.size.y >= 0.0 ==>
              (b <==> Abs(position.x - existing.position.x) < (size.x + existing.size.x) / 2.0 + Padding &&
                      Abs(position.y - existing.position.y) < (size.y + existing.size.y) / 2.0 + Padding)
  {
    CenteredRect(position, size).Overlaps(Inflate(CenteredRect(existing.position, existing.size), Padding))
  }

  /** Sizes and centres as drawn, and no room clashing with an earlier one. */
  predicate Spaced(rooms: seq<Room>, cfg: Config) {
    && (forall k :: 0 <= k < |rooms| ==> SizeOk(rooms[k].size.x, cfg) && SizeOk(rooms[k].size.y, cfg))
    && (forall k :: 0 <= k < |rooms| ==>
          AxisOk(rooms[k].position.x, rooms[k].size.x, cfg.playgroundSize.x)
          && AxisOk(rooms[k].position.y, rooms[k].size.y, cfg.playgroundSize.y))
    && (forall i, j :: 0 <= i < j < |rooms| ==> !Clashes(rooms[j].position, rooms[j].size, rooms[i]))
  }

  /** What placement guarantees of a room list: it is spaced, with no more rooms than can be drawn. */
  predicate WellPlaced(rooms: seq<Room>, cfg: Config) {
    |rooms| <= cfg.MaxRoomCount() && Spaced(rooms, cfg)
  }

  /** The negation of `RoomOverlaps`: the centre clashes with no listed room. */
  predicate Fits(position: Vec2, size: Vec2, rooms: seq<Room>) {
    forall k :: 0 <= k < |rooms| ==> !Clashes(position, size, rooms[k])
  }

  /**
   * Candidate centre number `a` of a search whose first sample is `start`:
   * `NextDouble() * (extent - side) - extent / 2` on each axis, from the
   * samples at `start + 2a` and `start + 2a + 1`.
   */
  function Candidate(stream: nat -> Unit, start: nat, a: nat, size: Vec2, extent: Vec2): Vec2 {
    var at := start + 2 * a;
    Vec2(stream(at) * (extent.x - size.x) + -extent.x / 2.0, stream(at + 1) * (extent.y - size.y) + -extent.y / 2.0)
  }

  /** A candidate centre lies in the ranges its draw can produce. */
  lemma CandidateDrawn(stream: nat -> Unit, start: nat, a: nat, size: Vec2, extent: Vec2)
    ensures var c := Candidate(stream, start, a, size, extent);
            AxisOk(c.x, size.x, extent.x) && AxisOk(c.y, size.y, extent.y)
  {
    var at := start + 2 * a;
    var u, v := stream(at), stream(at + 1);
    var spanX, spanY := extent.x - size.x, extent.y - size.y;
    var lowX, lowY := -extent.x / 2.0, -extent.y / 2.0;
    ScaledSample(u, lowX, spanX);
    ScaledSample(v, lowY, spanY);
    assert Candidate(stream, start, a, size, extent) == Vec2(u * spanX + lowX, v * spanY + lowY);
  }

  /**
   * The size and type of a `new Room`, from the three samples at `at`:
   * `NextDouble() * (maxRoomSize - minRoomSize) + minRoomSize` on each axis,
   * then `Next(0, 3)`.
   */
  ghost predicate Shaped(stream: nat -> Unit, at: nat, size: Vec2, kind: RoomType, cfg: Config) {
    var span := cfg.maxRoomSize - cfg.minRoomSize;
    && size == Vec2(stream(at) * span + cfg.minRoomSize, stream(at + 1) * span + cfg.minRoomSize)
    && kind == RoomTypeOf(ScaledIndex(stream(at + 2), 3))
  }

  /**
   * A first-fit search from sample `start` that tried `attempts` candidate
   * centres: every candidate before the last clashes with one of `rooms`,
   * the search `placed` the room exactly when the last candidate fits, and
   * it gave up only after `MaxAttempts` candidates.
   */
  ghost predicate FirstFit(stream: nat -> Unit, start: nat, attempts: nat, placed: bool, size: Vec2,
                           rooms: seq<Room>, cfg: Config) {
    && 1 <= attempts <= MaxAttempts
    && (forall a :: 0 <= a < attempts - 1 ==> !Fits(Candidate(stream, start, a, size, cfg.playgroundSize), size, rooms))
    && (placed <==> Fits(Candidate(stream, start, attempts - 1, size, cfg.playgroundSize), size, rooms))
    && (!placed ==> attempts == MaxAttempts)
  }

  /**
   * One pass of the room loop of `GenerateRooms`: the index `at` of its
   * first sample, the size and type drawn there, how many candidate centres
   * were tried, whether the room was kept, and how many rooms were kept
   * before it.
   */
  datatype Placement = Placement(at: nat, size: Vec2, kind: RoomType, attempts: nat, placed: bool, keptBefore: nat)

  /** The first sample of a pass's candidates, after two for the size and one for the type. */
  function SearchStart(p: Placement): nat {
    p.at + 3
  }

  /** The index of the first sample after a pass: two per candidate. */
  function DrawnAfter(p: Placement): nat {
    SearchStart(p) + 2 * p.attempts
  }

  /** The number of rooms kept once a pass is over. */
  function KeptAfter(p: Placement): nat {
    p.keptBefore + if p.placed then 1 else 0
  }

  /**
   * A pass as the stream dictates it, given the rooms kept so far: the size
   * and type come from the pass's first three samples, every candidate
   * before the last clashes with a room kept earlier, the room is kept
   * exactly when the last candidate fits (at that centre, as the next kept
   * room), and it is dropped only after all `MaxAttempts` candidates.
   */
  ghost predicate Tried(p: Placement, rooms: seq<Room>, stream: nat -> Unit, cfg: Config) {
    && Shaped(stream, p.at, p.size, p.kind, cfg)
    && p.keptBefore <= |rooms|
    && FirstFit(stream, SearchStart(p), p.attempts, p.placed, p.size, rooms[..p.keptBefore], cfg)
    && (p.placed ==>
          && p.keptBefore < |rooms|
          && rooms[p.keptBefore].position == Candidate(stream, SearchStart(p), p.attempts - 1, p.size, cfg.playgroundSize)
          && rooms[p.keptBefore].size == p.size
          && rooms[p.keptBefore].kind == p.kind)
  }

  /**
   * A pass whose search placed its room, appended as the next kept room,
   * is tried as the stream dictates, and the rooms stay spaced.
   */
  lemma PassKept(p: Placement, rooms: seq<Room>, room: Room, stream: nat -> Unit, cfg: Config)
    requires p.keptBefore == |rooms| && p.placed
    requires Shaped(stream, p.at, p.size, p.kind, cfg) && SizeOk(p.size.x, cfg) && SizeOk(p.size.y, cfg)
    requires FirstFit(stream, SearchStart(p), p.attempts, p.placed, p.size, rooms, cfg)
    requires room.position == Candidate(stream, SearchStart(p), p.attempts - 1, p.size, cfg.playgroundSize)
    requires room.size == p.size && room.kind == p.kind
    requires Spaced(rooms, cfg)
    ensures Tried(p, rooms + [room], stream, cfg) && Spaced(rooms + [room], cfg)
  {
    var grown := rooms + [room];
    assert grown[..p.keptBefore] == rooms;
    CandidateDrawn(stream, SearchStart(p), p.attempts - 1, p.size, cfg.playgroundSize);
    forall i, j | 0 <= i < j < |grown| ensures !Clashes(grown[j].position, grown[j].size, grown[i]) {
      if j < |rooms| {
        assert grown[i] == rooms[i] && grown[j] == rooms[j];
      } else {
        assert grown[i] == rooms[i];
      }
    }
  }

  /** A pass whose search gave up keeps no room and is tried as the stream dictates. */
  lemma PassDropped(p: Placement, rooms: seq<Room>, stream: nat -> Unit, cfg: Config)
    requires p.keptBefore == |rooms| && !p.placed
    requires Shaped(stream, p.at, p.size, p.kind, cfg)
    requires FirstFit(stream, SearchStart(p), p.attempts, p.placed, p.size, rooms, cfg)
    ensures Tried(p, rooms, stream, cfg)
  {
    assert rooms[..p.keptBefore] == rooms;
  }

  /** Rooms kept later do not change what an earlier pass saw. */
  lemma TriedGrows(p: Placement, rooms: seq<Room>, grown: seq<Room>, stream: nat -> Unit, cfg: Config)
    requires Tried(p, rooms, stream, cfg)
    requires |rooms| <= |grown| && grown[..|rooms|] == rooms
    ensures Tried(p, grown, stream, cfg)
  {
    assert grown[..p.keptBefore] == rooms[..p.keptBefore];
  }

  /**
   * The passes of `trail`, in order and starting at sample `first`, keep
   * exactly `rooms` and draw every sample up to `drawn`: each pass starts
   * where the previous one stopped drawing, and sees the rooms the earlier
   * passes kept.
   */
  ghost predicate Laid(rooms: seq<Room>, trail: seq<Placement>, stream: nat -> Unit, first: nat, drawn: nat, cfg: Config)
    decreases |trail|
  {
    if |trail| == 0 then rooms == [] && drawn == first
    else
      var p := trail[|trail| - 1];
      && p.keptBefore <= |rooms|
      && Laid(rooms[..p.keptBefore], trail[..|trail| - 1], stream, first, p.at, cfg)
      && Tried(p, rooms, stream, cfg)
      && |rooms| == KeptAfter(p) && drawn == DrawnAfter(p)
  }

  /** Every pass of a laid trail is as the stream dictates, against the final room list. */
  lemma {:induction false} LaidPasses(rooms: seq<Room>, trail: seq<Placement>, stream: nat -> Unit, first: nat, drawn: nat, cfg: Config)
    requires Laid(rooms, trail, stream, first, drawn, cfg)
    ensures forall j :: 0 <= j < |trail| ==> Tried(trail[j], rooms, stream, cfg)
    decreases |trail|
  {
    if |trail| > 0 {
      var n := |trail| - 1;
      var before := rooms[..trail[n].keptBefore];
      LaidPasses(before, trail[..n], stream, first, trail[n].at, cfg);
      forall j | 0 <= j < n
        ensures Tried(trail[j], rooms, stream, cfg)
      {
        assert trail[..n][j] == trail[j];
        TriedGrows(trail[j], before, rooms, stream, cfg);
      }
    }
  }

  /**
   * The passes of a laid trail follow one another: the first starts at
   * `first` with no room kept, and each later one starts at the sample and
   * the room count where the previous one stopped.
   */
  lemma {:induction false} LaidChained(rooms: seq<Room>, trail: seq<Placement>, stream: nat -> Unit, first: nat, drawn: nat, cfg: Config)
    requires Laid(rooms, trail, stream, first, drawn, cfg)
    ensures |trail| > 0 ==> trail[0].at == first && trail[0].keptBefore == 0
    ensures forall i, j :: 0 <= i < j < |trail| && j == i + 1 ==>
              trail[j].at == DrawnAfter(trail[i]) && trail[j].keptBefore == KeptAfter(trail[i])
    decreases |trail|
  {
    if |trail| > 0 {
      var n := |trail| - 1;
      var before := rooms[..trail[n].keptBefore];
      LaidChained(before, trail[..n], stream, first, trail[n].at, cfg);
      if n > 0 {
        LaidLast(before, trail[..n], stream, first, trail[n].at, cfg);
        assert trail[..n][n - 1] == trail[n - 1];
      } else {
        assert before == [];
      }
      forall i, j | 0 <= i < j < |trail| && j == i + 1
        ensures trail[j].at == DrawnAfter(trail[i]) && trail[j].keptBefore == KeptAfter(trail[i])
      {
        if j < n {
          assert trail[..n][i] == trail[i] && trail[..n][j] == trail[j];
        }
      }
    }
  }

  /** The sample where a trail of passes starting at `first` stops drawing. */
  function TrailEnd(trail: seq<Placement>, first: nat): nat {
    if |trail| == 0 then first else DrawnAfter(trail[|trail| - 1])
  }

  /** A laid trail extended by one more pass, started where the trail stopped drawing, stays laid. */
  lemma LaidExtended(rooms: seq<Room>, trail: seq<Placement>, grown: seq<Room>, p: Placement,
                     stream: nat -> Unit, first: nat, drawn: nat, cfg: Config)
    requires Laid(rooms, trail, stream, first, drawn, cfg) && p.at == drawn
    requires p.keptBefore == |rooms| && Tried(p, grown, stream, cfg)
    requires |grown| == KeptAfter(p) && grown[..|rooms|] == rooms
    ensures Laid(grown, trail + [p], stream, first, DrawnAfter(p), cfg)
  {
    assert (trail + [p])[..|trail|] == trail;
  }

  /** The last pass of a laid trail stops at `drawn`, having kept all the rooms. */
  lemma LaidLast(rooms: seq<Room>, trail: seq<Placement>, stream: nat -> Unit, first: nat, drawn: nat, cfg: Config)
    requires Laid(rooms, trail, stream, first, drawn, cfg)
    ensures drawn == TrailEnd(trail, first)
    ensures |trail| > 0 ==> |rooms| == KeptAfter(trail[|trail| - 1])
  {
  }

  /** What `GenerateRooms` promises, run from the first sample of `stream`, is `Generated`. */
  lemma GeneratedFrom(rooms: seq<Room>, trail: seq<Placement>, stream: nat -> Unit, drawn: nat, roomCount: int, cfg: Config)
    requires cfg.Usable()
    requires roomCount == cfg.minRooms + ScaledIndex(stream(0), cfg.maxRooms + 1 - cfg.minRooms)
    requires |trail| == if roomCount < 0 then 0 else roomCount
    requires Laid(rooms, trail, stream, 1, drawn, cfg)
    ensures Generated(rooms, trail, stream, cfg)
  {
    LaidLast(rooms, trail, stream, 1, drawn, cfg);
  }

  /**
   * `GenerateRooms` run on a fresh generator over `stream`: the room count is
   * the first sample, and the passes that follow, one per counted room, lay
   * out `rooms` from the second sample on.
   */
  ghost predicate Generated(rooms: seq<Room>, trail: seq<Placement>, stream: nat -> Unit, cfg: Config) {
    && cfg.minRooms <= cfg.maxRooms + 1
    && var roomCount := cfg.minRooms + ScaledIndex(stream(0), cfg.maxRooms + 1 - cfg.minRooms);
    && |trail| == (if roomCount < 0 then 0 else roomCount)
    && Laid(rooms, trail, stream, 1, TrailEnd(trail, 1), cfg)
  }

  /** Two room lists with the same centres, sizes and types, room by room. */
  predicate SameLayout(rooms: seq<Room>, others: seq<Room>) {
    && |rooms| == |others|
    && forall k :: 0 <= k < |rooms| ==>
         rooms[k].position == others[k].position && rooms[k].size == others[k].size && rooms[k].kind == others[k].kind
  }

  /** Whether a centre fits depends only on the centres and sizes of the rooms kept. */
  lemma FitsSameLayout(position: Vec2, size: Vec2, rooms: seq<Room>, others: seq<Room>)
    requires SameLayout(rooms, others)
    ensures Fits(position, size, rooms) <==> Fits(position, size, others)
  {
    forall k | 0 <= k < |rooms|
      ensures Clashes(position, size, rooms[k]) == Clashes(position, size, others[k])
    {
    }
  }

  /** A first-fit search over the same stream and the same layout tries as many candidates and ends the same way. */
  lemma FirstFitUnique(stream: nat -> Unit, start: nat, size: Vec2, cfg: Config,
                       attempts: nat, placed: bool, rooms: seq<Room>,
                       attempts': nat, placed': bool, others: seq<Room>)
    requires FirstFit(stream, start, attempts, placed, size, rooms, cfg)
    requires FirstFit(stream, start, attempts', placed', size, others, cfg)
    requires SameLayout(rooms, others)
    ensures attempts == attempts' && placed == placed'
  {
    var extent := cfg.playgroundSize;
    FitsSameLayout(Candidate(stream, start, attempts - 1, size, extent), size, rooms, others);
    FitsSameLayout(Candidate(stream, start, attempts' - 1, size, extent), size, rooms, others);
  }

  /**
   * One pass is determined by where it starts and by the layout of the rooms
   * kept before it: the same size, type, attempts and outcome, and, when
   * placed, a room with the same centre, size and type.
   */
  lemma TriedUnique(p: Placement, rooms: seq<Room>, p': Placement, others: seq<Room>, stream: nat -> Unit, cfg: Config)
    requires Tried(p, rooms, stream, cfg) && Tried(p', others, stream, cfg)
    requires p.at == p'.at && p.keptBefore == p'.keptBefore
    requires SameLayout(rooms[..p.keptBefore], others[..p'.keptBefore])
    ensures p == p'
    ensures p.placed ==>
              && rooms[p.keptBefore].position == others[p.keptBefore].position
              && rooms[p.keptBefore].size == others[p.keptBefore].size
              && rooms[p.keptBefore].kind == others[p.keptBefore].kind
  {
    FirstFitUnique(stream, SearchStart(p), p.size, cfg, p.attempts, p.placed, rooms[..p.keptBefore],
                   p'.attempts, p'.placed, others[..p'.keptBefore]);
  }

  /** Layouts that agree on a prefix, and on the one room after it if any, agree. */
  lemma SameLayoutGrown(rooms: seq<Room>, others: seq<Room>, kept: nat)
    requires kept <= |rooms| == |others| <= kept + 1
    requires SameLayout(rooms[..kept], others[..kept])
    requires kept < |rooms| ==>
               && rooms[kept].position == others[kept].position
               && rooms[kept].size == others[kept].size
               && rooms[kept].kind == others[kept].kind
    ensures SameLayout(rooms, others)
  {
    forall k | 0 <= k < kept
      ensures rooms[k].position == others[k].position && rooms[k].size == others[k].size && rooms[k].kind == others[k].kind
    {
      assert rooms[..kept][k] == rooms[k] && others[..kept][k] == others[k];
    }
  }

  /**
   * The room loop is deterministic: the same number of passes over the same
   * stream from the same sample records the same passes, stops at the same
   * sample, and keeps rooms with the same centres, sizes and types.
   */
  lemma {:induction false} LaidUnique(rooms: seq<Room>, trail: seq<Placement>, drawn: nat,
                                      others: seq<Room>, trail': seq<Placement>, drawn': nat,
                                      stream: nat -> Unit, first: nat, cfg: Config)
    requires Laid(rooms, trail, stream, first, drawn, cfg)
    requires Laid(others, trail', stream, first, drawn', cfg)
    requires |trail| == |trail'|
    ensures trail == trail' && drawn == drawn' && SameLayout(rooms, others)
    decreases |trail|
  {
    if |trail| > 0 {
      var n := |trail| - 1;
      var p, p' := trail[n], trail'[n];
      LaidUnique(rooms[..p.keptBefore], trail[..n], p.at, others[..p'.keptBefore], trail'[..n], p'.at, stream, first, cfg);
      LastPassUnique(rooms, trail, drawn, others, trail', drawn', stream, first, cfg);
      TrailsEqual(trail, trail');
    }
  }

  /**
   * The step of `LaidUnique`: two laid trails whose last passes start at the
   * same sample, after the same layout, end with the same pass, stop at the
   * same sample and keep the same layout.
   */
  lemma LastPassUnique(rooms: seq<Room>, trail: seq<Placement>, drawn: nat,
                       others: seq<Room>, trail': seq<Placement>, drawn': nat,
                       stream: nat -> Unit, first: nat, cfg: Config)
    requires Laid(rooms, trail, stream, first, drawn, cfg)
    requires Laid(others, trail', stream, first, drawn', cfg)
    requires |trail| == |trail'| > 0
    requires trail[|trail| - 1].at == trail'[|trail'| - 1].at
    requires trail[|trail| - 1].keptBefore <= |rooms| && trail'[|trail'| - 1].keptBefore <= |others|
    requires SameLayout(rooms[..trail[|trail| - 1].keptBefore], others[..trail'[|trail'| - 1].keptBefore])
    ensures trail[|trail| - 1] == trail'[|trail'| - 1] && drawn == drawn' && SameLayout(rooms, others)
  {
    var p, p' := trail[|trail| - 1], trail'[|trail'| - 1];
    TriedUnique(p, rooms, p', others, stream, cfg);
    SameLayoutGrown(rooms, others, p.keptBefore);
  }

  /** Two trails that agree before their last pass and on it are equal. */
  lemma TrailsEqual(trail: seq<Placement>, trail': seq<Placement>)
    requires |trail| == |trail'| > 0
    requires trail[..|trail| - 1] == trail'[..|trail'| - 1] && trail[|trail| - 1] == trail'[|trail'| - 1]
    ensures trail == trail'
  {
    var n := |trail| - 1;
    assert trail == trail[..n] + [trail[n]];
  }

  /** Two cache misses on the same stream and settings lay out the same rooms. */
  lemma GeneratedUnique(rooms: seq<Room>, trail: seq<Placement>, others: seq<Room>, trail': seq<Placement>,
                        stream: nat -> Unit, cfg: Config)
    requires Generated(rooms, trail, stream, cfg) && Generated(others, trail', stream, cfg)
    ensures trail == trail' && SameLayout(rooms, others)
  {
    LaidUnique(rooms, trail, TrailEnd(trail, 1), others, trail', TrailEnd(trail', 1), stream, 1, cfg);
  }

  /**
   * The scene objects one populate pass spawns over a room list: per room,
   * its boundary, then its furnishings.
   */
  function Spawned(boundaries: seq<HostObject>, furnishings: seq<seq<HostObject>>): seq<HostObject>
    requires |boundaries| == |furnishings|
  {
    if |boundaries| == 0 then []
    else
      var n := |boundaries| - 1;
      Spawned(boundaries[..n], furnishings[..n]) + [boundaries[n]] + furnishings[n]
  }

  /** One more populated room appends its boundary and its furnishings to what was spawned. */
  lemma SpawnedStep(prior: seq<HostObject>, boundaries: seq<HostObject>, furnishings: seq<seq<HostObject>>,
                    boundary: HostObject, furnished: seq<HostObject>)
    requires |boundaries| == |furnishings|
    ensures Spawned(boundaries + [boundary], furnishings + [furnished]) == Spawned(boundaries, furnishings) + [boundary] + furnished
    ensures prior + Spawned(boundaries + [boundary], furnishings + [furnished])
         == prior + Spawned(boundaries, furnishings) + [boundary] + furnished
  {
    assert (boundaries + [boundary])[..|boundaries|] == boundaries;
    assert (furnishings + [furnished])[..|furnishings|] == furnishings;
    var spawned := Spawned(boundaries, furnishings);
    assert prior + (spawned + [boundary] + furnished) == prior + (spawned + [boundary]) + furnished;
    assert prior + (spawned + [boundary]) == prior + spawned + [boundary];
  }

  /** `RoomOverlaps(position, size, rooms)`: the candidate clashes with some listed room. */
  method RoomOverlaps(position: Vec2, size: Vec2, rooms: seq<Room>) returns (overlaps: bool)
    ensures overlaps <==> exists k :: 0 <= k < |rooms| && Clashes(position, size, rooms[k])
    ensures overlaps <==> !Fits(position, size, rooms)
  {
    var i := 0;
    while i < |rooms|
      invariant 0 <= i <= |rooms|
      invariant forall k :: 0 <= k < i ==> !Clashes(position, size, rooms[k])
    {
      if Clashes(position, size, rooms[i]) {
        return true;
      }
      i := i + 1;
    }
    return false;
  }

  /** A wall segment from `a` to `b` built from one of `prefabs` prefabs. */
  predicate Joins(wall: HostObject, a: Vec2, b: Vec2, prefabs: nat) {
    wall.Wall? && wall.from == a && wall.to == b && wall.prefab < prefabs
  }

  /**
   * Rooms placed with non-negative sizes keep the padding between them on
   * at least one axis, so no two of them share a centre; a corridor between
   * consecutive rooms therefore never has length zero.
   */
  lemma PlacedRoomsApart(rooms: seq<Room>, cfg: Config)
    requires WellPlaced(rooms, cfg) && 0.0 <= cfg.minRoomSize <= cfg.maxRoomSize
    ensures forall i, j :: 0 <= i < j < |rooms| ==>
              || Abs(rooms[j].position.x - rooms[i].position.x) >= (rooms[j].size.x + rooms[i].size.x) / 2.0 + Padding
              || Abs(rooms[j].position.y - rooms[i].position.y) >= (rooms[j].size.y + rooms[i].size.y) / 2.0 + Padding
    ensures forall i, j :: 0 <= i < j < |rooms| ==> rooms[i].position != rooms[j].position
  {
    forall i, j | 0 <= i < j < |rooms|
      ensures || Abs(rooms[j].position.x - rooms[i].position.x) >= (rooms[j].size.x + rooms[i].size.x) / 2.0 + Padding
              || Abs(rooms[j].position.y - rooms[i].position.y) >= (rooms[j].size.y + rooms[i].size.y) / 2.0 + Padding
    {
      assert SizeOk(rooms[i].size.x, cfg) && SizeOk(rooms[i].size.y, cfg);
      assert SizeOk(rooms[j].size.x, cfg) && SizeOk(rooms[j].size.y, cfg);
      assert !Clashes(rooms[j].position, rooms[j].size, rooms[i]);
      CenteredOverlapIff(rooms[j].position, rooms[j].size, rooms[i].position, rooms[i].size, Padding);
    }
  }

  /**
   * A centre drawn at the lowest sample sits on the playground's lower edge,
   * so half of the room lies outside: 10-wide rooms in a 100-wide playground
   * can reach x = -55.
   */
  lemma RoomMayLeavePlayground()
    ensures AxisOk(-50.0, 10.0, 100.0)
    ensures CenteredRect(Vec2(-50.0, -50.0), Vec2(10.0, 10.0)).x == -55.0
  {
    ScaledSample(0.0, -50.0, 90.0);
  }

  /** The walls of a closed outline: wall k runs from corner k to corner (k + 1) % 4. */
  predicate WallLoop(walls: seq<HostObject>, corners: seq<Vec2>, prefabs: nat) {
    && |corners| == 4 && |walls| == 4
    && Joins(walls[0], corners[0], corners[1], prefabs)
    && Joins(walls[1], corners[1], corners[2], prefabs)
    && Joins(walls[2], corners[2], corners[3], prefabs)
    && Joins(walls[3], corners[3], corners[0], prefabs)
  }

  predicate IsGroup(o: HostObject, name: string) {
    o.WallGroup? && o.name == name
  }

  /**
   * The first `i` rooms have each gained their boundary and furnishings on
   * top of the lists `walls0`/`objects0` they started from; the rest are as
   * they started.
   */
  predicate Populated(rooms: seq<Room>, i: nat, walls0: seq<seq<HostObject>>, objects0: seq<seq<HostObject>>,
                      boundaries: seq<HostObject>, furnishings: seq<seq<HostObject>>, cfg: Config)
    reads rooms
  {
    && |boundaries| == |furnishings| == i <= |rooms|
    && |walls0| == |objects0| == |rooms|
    && (forall k :: 0 <= k < i ==> rooms[k].walls == walls0[k] + [boundaries[k]] && rooms[k].objects == objects0[k] + furnishings[k])
    && (forall k :: 0 <= k < i ==> Populates(boundaries[k], furnishings[k], rooms[k], cfg))
    && (forall k :: i <= k < |rooms| ==> rooms[k].walls == walls0[k] && rooms[k].objects == objects0[k])
  }

  /** Each room holds exactly its one boundary and its furnishings, as populating it lays them out. */
  predicate Settled(rooms: seq<Room>, boundaries: seq<HostObject>, furnishings: seq<seq<HostObject>>, cfg: Config)
    reads rooms
  {
    && |boundaries| == |furnishings| == |rooms|
    && (forall k :: 0 <= k < |rooms| ==> rooms[k].walls == [boundaries[k]] && rooms[k].objects == furnishings[k])
    && (forall k :: 0 <= k < |rooms| ==> Populates(boundaries[k], furnishings[k], rooms[k], cfg))
  }

  /** No object of the list is a "Corridor" parent. */
  predicate NoCorridor(objects: seq<HostObject>) {
    forall k :: 0 <= k < |objects| ==> !IsGroup(objects[k], "Corridor")
  }

  /** A room's boundary and its furnishings add no corridor. */
  lemma NoCorridorStep(objects: seq<HostObject>, boundary: HostObject, furnished: seq<HostObject>)
    requires NoCorridor(objects) && IsGroup(boundary, "Room_Walls")
    requires forall k :: 0 <= k < |furnished| ==> !furnished[k].WallGroup?
    ensures NoCorridor(objects + [boundary] + furnished)
  {
    var all := objects + [boundary] + furnished;
    forall k | 0 <= k < |all|
      ensures !IsGroup(all[k], "Corridor")
    {
      if k < |objects| {
        assert all[k] == objects[k];
      } else if k == |objects| {
        assert all[k] == boundary;
      } else {
        assert all[k] == furnished[k - |objects| - 1];
      }
    }
  }

  /** The "Room_Walls" parent of a room's four boundary walls. */
  predicate IsBoundary(o: HostObject, room: Room, cfg: Config) {
    IsGroup(o, "Room_Walls") && WallLoop(o.children, RoomCorners(room.position, room.size), cfg.wallPrefabs)
  }

  /** Decorations of one kind, inside the room's central 80%, at angles in [0, 360). */
  predicate Items(items: seq<HostObject>, kind: DecorationKind, room: Room, prefabs: nat) {
    forall k :: 0 <= k < |items| ==>
      && items[k].Decoration?
      && items[k].kind == kind
      && Abs(items[k].position.x - room.position.x) <= 0.4 * Abs(room.size.x)
      && Abs(items[k].position.y - room.position.y) <= 0.4 * Abs(room.size.y)
      && 0.0 <= items[k].angle < 360.0
      && items[k].prefab < prefabs
  }

  predicate NormalItems(items: seq<HostObject>, room: Room, cfg: Config) {
    2 <= |items| <= 4 && Items(items, ReflectiveSurface, room, cfg.reflectiveSurfaces)
  }

  predicate QuantumItems(items: seq<HostObject>, room: Room, cfg: Config) {
    3 <= |items| <= 5 && Items(items, EnergyBarrier, room, cfg.energyBarriers)
  }

  /** The decorations a room of the given type receives in one populate. */
  predicate Decorated(items: seq<HostObject>, room: Room, cfg: Config) {
    match room.kind
    case Normal => NormalItems(items, room, cfg)
    case Quantum => QuantumItems(items, room, cfg)
    case Mixed => exists n :: 2 <= n <= 4 && n <= |items|
                    && NormalItems(items[..n], room, cfg) && QuantumItems(items[n..], room, cfg)
  }

  /** Only a Quantum room gets the quantum material; Normal and Mixed get the normal one. */
  function MaterialFor(t: RoomType): (m: Material)
    ensures m == QuantumMaterial <==> t == Quantum
  {
    if t == Quantum then QuantumMaterial else NormalMaterial
  }

  /**
   * The objects one populate appends to a room: its decorations, then the
   * particle effect when one is configured, then the background.
   */
  predicate Furnished(added: seq<HostObject>, room: Room, cfg: Config) {
    var extras := Extras(cfg);
    && |added| >= extras
    && Decorated(added[..|added| - extras], room, cfg)
    && (cfg.hasParticles ==> added[|added| - 2] == Particles(room.position, ParticleDepth, room.size))
    && added[|added| - 1] == Background(room.position, BackgroundDepth, room.size, MaterialFor(room.kind))
  }

  /** The objects `CreateBackground` appends: the particle effect when one is configured, and the background. */
  function Extras(cfg: Config): nat {
    if cfg.hasParticles then 2 else 1
  }

  /** The `Next` calls that pick how many decorations a room gets: one per decoration pass, so two for Mixed. */
  function CountDraws(kind: RoomType): nat {
    match kind
    case Normal => 1
    case Quantum => 1
    case Mixed => 2
  }

  /** How many of a populate's objects are decorations, before the particle effect and the background. */
  function DecorationCount(furnished: seq<HostObject>, cfg: Config): nat {
    if |furnished| >= Extras(cfg) then |furnished| - Extras(cfg) else 0
  }

  /**
   * The samples one populate draws for a room: a prefab pick for each of its
   * four boundary walls, the decoration counts, and per decoration two for
   * its position, one for its angle and one for its prefab. The background
   * draws none.
   */
  function RoomDraws(room: Room, furnished: seq<HostObject>, cfg: Config): nat {
    4 + CountDraws(room.kind) + 4 * DecorationCount(furnished, cfg)
  }

  /** The samples a populate pass over `rooms` draws, room by room. */
  function PopulateDraws(rooms: seq<Room>, furnishings: seq<seq<HostObject>>, cfg: Config): nat
    requires |rooms| == |furnishings|
  {
    if |rooms| == 0 then 0
    else
      var n := |rooms| - 1;
      PopulateDraws(rooms[..n], furnishings[..n], cfg) + RoomDraws(rooms[n], furnishings[n], cfg)
  }

  /** Populating room `i` after the first `i` adds its own draws to theirs. */
  lemma PopulateDrawsStep(rooms: seq<Room>, i: nat, furnishings: seq<seq<HostObject>>, furnished: seq<HostObject>, cfg: Config)
    requires i < |rooms| && |furnishings| == i
    ensures PopulateDraws(rooms[..i + 1], furnishings + [furnished], cfg)
         == PopulateDraws(rooms[..i], furnishings, cfg) + RoomDraws(rooms[i], furnished, cfg)
  {
    assert rooms[..i + 1][..i] == rooms[..i];
    assert (furnishings + [furnished])[..i] == furnishings;
  }

  /** What one populate appends to a room: a boundary to its walls and furnishings to its objects. */
  predicate Populates(boundary: HostObject, furnishings: seq<HostObject>, room: Room, cfg: Config) {
    IsBoundary(boundary, room, cfg) && Furnished(furnishings, room, cfg)
  }

  /** Decorations followed by the particle effect and background make up one populate's objects. */
  lemma FurnishedOf(decorations: seq<HostObject>, extras: seq<HostObject>, room: Room, cfg: Config)
    requires Decorated(decorations, room, cfg) && forall k :: 0 <= k < |decorations| ==> decorations[k].Decoration?
    requires |extras| == Extras(cfg)
    requires cfg.hasParticles ==> extras[0] == Particles(room.position, ParticleDepth, room.size)
    requires extras[|extras| - 1] == Background(room.position, BackgroundDepth, room.size, MaterialFor(room.kind))
    ensures Furnished(decorations + extras, room, cfg)
    ensures forall k :: 0 <= k < |decorations + extras| ==> !(decorations + extras)[k].WallGroup?
  {
    var added := decorations + extras;
    assert added[..|added| - |extras|] == decorations;
    forall k | 0 <= k < |added| ensures !added[k].WallGroup? {
      if k >= |decorations| {
        assert added[k] == extras[k - |decorations|];
      }
    }
  }

  /**
   * A corridor between rooms level with each other, with direction (1, 0):
   * its corners lie 1.5, half the corridor width, either side of the centre
   * line, from the start centre to the end centre and back.
   */
  lemma CorridorAlongX(x0: real, x1: real, y: real)
    ensures CorridorCorners(Vec2(x0, y), Vec2(x1, y), Vec2(1.0, 0.0), CorridorWidth)
         == [Vec2(x0, y + 1.5), Vec2(x1, y + 1.5), Vec2(x1, y - 1.5), Vec2(x0, y - 1.5)]
  {
    var h := Perpendicular(Vec2(1.0, 0.0)).Times(CorridorWidth / 2.0);
    assert h == Vec2(0.0, 1.5);
    assert Vec2(x0, y).Plus(h) == Vec2(x0, y + 1.5) && Vec2(x1, y).Plus(h) == Vec2(x1, y + 1.5);
    assert Vec2(x1, y).Minus(h) == Vec2(x1, y - 1.5) && Vec2(x0, y).Minus(h) == Vec2(x0, y - 1.5);
  }

  class Generator {
    const config: Config
    /** The sample stream `new System.Random(seed)` produces. */
    const streamFor: int -> (nat -> Unit)
    /** `Vector2.normalized`, which needs a square root and is not modelled. */
    const normalize: Vec2 -> Vec2

    var random: Random?
    var universeCache: map<int, seq<Room>>
    /** The objects tagged "Generated" that are alive in the host. */
    var scene: seq<HostObject>

    ghost predicate Valid()
      reads this`random, this`universeCache
    {
      && config.Usable()
      && (universeCache != map[] ==> random != null)
      && forall seed :: seed in universeCache ==>
           Distinct(universeCache[seed]) && WellPlaced(universeCache[seed], config)
    }

    constructor (config: Config, streamFor: int -> (nat -> Unit), normalize: Vec2 -> Vec2)
      requires config.Usable()
      ensures Valid()
      ensures this.config == config && this.streamFor == streamFor && this.normalize == normalize
      ensures random == null && universeCache == map[] && scene == []
    {
      this.config := config;
      this.streamFor := streamFor;
      this.normalize := normalize;
      random := null;
      universeCache := map[];
      scene := [];
    }

    /** A "Corridor" parent whose walls outline the strip from `start` to `end`. */
    predicate IsCorridor(o: HostObject, start: Vec2, end: Vec2) {
      && IsGroup(o, "Corridor")
      && WallLoop(o.children, CorridorCorners(start, end, normalize(end.Minus(start)), CorridorWidth), config.wallPrefabs)
    }

    /** One corridor per neighbouring pair of rooms, in list order. */
    predicate Linked(rooms: seq<Room>, corridors: seq<HostObject>) {
      && |corridors| == (if |rooms| == 0 then 0 else |rooms| - 1)
      && forall k :: 0 <= k < |corridors| ==> IsCorridor(corridors[k], rooms[k].position, rooms[k + 1].position)
    }

    /**
     * The outcome of a cache hit for `seed`: the cache and the generator are
     * kept, each cached room gains one boundary and its furnishings, and the
     * scene holds exactly those objects, with no corridor.
     */
    twostate predicate Repopulated(seed: int, boundaries: seq<HostObject>, furnishings: seq<seq<HostObject>>)
      reads this, random, if seed in universeCache then universeCache[seed] else []
    {
      && seed in universeCache && universeCache == old(universeCache)
      && random == old(random) && random != null
      && var rooms := universeCache[seed];
         && |boundaries| == |furnishings| == |rooms|
         && random.drawn == old(random.drawn) + PopulateDraws(rooms, furnishings, config)
         && (forall k :: 0 <= k < |rooms| ==>
               && rooms[k].walls == old(rooms[k].walls) + [boundaries[k]]
               && rooms[k].objects == old(rooms[k].objects) + furnishings[k])
         && (forall k :: 0 <= k < |rooms| ==> Populates(boundaries[k], furnishings[k], rooms[k], config))
         && scene == Spawned(boundaries, furnishings)
         && NoCorridor(scene)
    }

    /**
     * The state the populate pass and the caching of a miss for `seed` leave:
     * the generator runs over the seed's stream, `rooms` are cached under the
     * seed and each holds its one boundary and its furnishings, and the scene
     * holds `corridors`, then each room's boundary and furnishings.
     */
    ghost predicate Stocked(seed: int, rooms: seq<Room>, corridors: seq<HostObject>,
                            boundaries: seq<HostObject>, furnishings: seq<seq<HostObject>>)
      reads this, random, rooms
    {
      && random != null && random.stream == streamFor(seed)
      && seed in universeCache && universeCache[seed] == rooms
      && Settled(rooms, boundaries, furnishings, config)
      && scene == corridors + Spawned(boundaries, furnishings)
    }

    /**
     * The outcome of a cache miss for `seed`: only the seed's entry of the
     * cache changes, to new rooms laid out by a new generator over the seed's
     * stream as `trail` records, one corridor links each neighbouring pair of
     * them, and the rooms are `Stocked`.
     */
    twostate predicate Built(seed: int, trail: seq<Placement>, corridors: seq<HostObject>,
                             boundaries: seq<HostObject>, furnishings: seq<seq<HostObject>>)
      reads this, random, if seed in universeCache then universeCache[seed] else []
    {
      && seed in universeCache && universeCache == old(universeCache)[seed := universeCache[seed]]
      && random != null && fresh(random)
      && (forall k :: 0 <= k < |universeCache[seed]| ==> fresh(universeCache[seed][k]))
      && Generated(universeCache[seed], trail, streamFor(seed), config)
      && Linked(universeCache[seed], corridors)
      && Stocked(seed, universeCache[seed], corridors, boundaries, furnishings)
      && random.drawn == TrailEnd(trail, 1) + 4 * |corridors| + PopulateDraws(universeCache[seed], furnishings, config)
    }

    /**
     * `GenerateUniverse(seed)`. On a miss the generator is reseeded, the scene
     * cleared, rooms placed, linked and populated, and the list cached under
     * the seed. On a hit the cached rooms are populated again with the
     * current generator, without reseeding, placement or corridors.
     */
    method GenerateUniverse(seed: int)
      returns (ghost trail: seq<Placement>, ghost corridors: seq<HostObject>,
               ghost boundaries: seq<HostObject>, ghost furnishings: seq<seq<HostObject>>)
      requires Valid()
      modifies this, random, if seed in universeCache then universeCache[seed] else []
      ensures Valid() && seed in universeCache
      ensures old(seed in universeCache) ==> Repopulated(seed, boundaries, furnishings) && trail == [] && corridors == []
      ensures old(seed !in universeCache) ==> Built(seed, trail, corridors, boundaries, furnishings)
    {
      if seed in universeCache {
        trail, corridors := [], [];
        boundaries, furnishings := LoadCachedUniverse(seed);
        return;
      }
      trail, corridors, boundaries, furnishings := BuildUniverse(seed);
    }

    /** The cache-miss path of `GenerateUniverse`. */
    method BuildUniverse(seed: int)
      returns (ghost trail: seq<Placement>, ghost corridors: seq<HostObject>,
               ghost boundaries: seq<HostObject>, ghost furnishings: seq<seq<HostObject>>)
      requires Valid() && seed !in universeCache
      modifies this
      ensures Valid()
      ensures Built(seed, trail, corridors, boundaries, furnishings)
    {
      var rooms;
      rooms, trail, corridors := LayOut(seed);
      boundaries, furnishings := Settle(seed, rooms, corridors);
    }

    /**
     * The last two steps of a cache miss: `universeCache[seed] = rooms` and
     * `PopulateRooms(rooms)`. The cache is written first here; the cached
     * value is the list of `Room` objects itself, so populating them
     * afterwards leaves the same cache and the same rooms.
     */
    method Settle(seed: int, rooms: seq<Room>, ghost corridors: seq<HostObject>)
      returns (ghost boundaries: seq<HostObject>, ghost furnishings: seq<seq<HostObject>>)
      requires Valid() && random != null && random.stream == streamFor(seed)
      requires Distinct(rooms) && WellPlaced(rooms, config)
      requires forall k :: 0 <= k < |rooms| ==> rooms[k].walls == [] && rooms[k].objects == []
      requires scene == corridors
      modifies this`scene, this`universeCache, random, rooms
      ensures Valid() && universeCache == old(universeCache)[seed := rooms]
      ensures Stocked(seed, rooms, corridors, boundaries, furnishings)
      ensures random.drawn == old(random.drawn) + PopulateDraws(rooms, furnishings, config)
    {
      CacheRooms(seed, rooms);
      boundaries, furnishings := PopulateNew(rooms);
    }

    /** `universeCache[seed] = rooms`, for rooms laid out as the generator lays them out. */
    method CacheRooms(seed: int, rooms: seq<Room>)
      requires Valid() && random != null && Distinct(rooms) && WellPlaced(rooms, config)
      modifies this`universeCache
      ensures Valid() && universeCache == old(universeCache)[seed := rooms]
    {
      universeCache := universeCache[seed := rooms];
    }

    /** The populate pass over rooms that hold nothing yet. */
    method PopulateNew(rooms: seq<Room>) returns (ghost boundaries: seq<HostObject>, ghost furnishings: seq<seq<HostObject>>)
      requires config.Usable() && random != null && Distinct(rooms)
      requires forall k :: 0 <= k < |rooms| ==> rooms[k].walls == [] && rooms[k].objects == []
      modifies this`scene, random, rooms
      ensures Settled(rooms, boundaries, furnishings, config)
      ensures scene == old(scene) + Spawned(boundaries, furnishings)
      ensures random.drawn == old(random.drawn) + PopulateDraws(rooms, furnishings, config)
    {
      ghost var spawned;
      boundaries, furnishings, spawned := PopulateRooms(rooms);
    }

    /**
     * The steps of a cache miss before the populate pass: a fresh generator
     * over the seed's stream, the scene cleared, `GenerateRooms` run on the
     * generator and `ConnectRooms` on its rooms.
     */
    method LayOut(seed: int) returns (rooms: seq<Room>, ghost trail: seq<Placement>, ghost corridors: seq<HostObject>)
      requires Valid()
      modifies this`random, this`scene
      ensures Valid()
      ensures fresh(random) && random.stream == streamFor(seed)
      ensures Generated(rooms, trail, streamFor(seed), config)
      ensures Distinct(rooms) && WellPlaced(rooms, config)
      ensures forall k :: 0 <= k < |rooms| ==> fresh(rooms[k]) && rooms[k].walls == [] && rooms[k].objects == []
      ensures scene == corridors && Linked(rooms, corridors)
      ensures random.drawn == TrailEnd(trail, 1) + 4 * |corridors|
    {
      Reseed(seed);
      ClearCurrentUniverse();
      ghost var roomCount, dropped;
      rooms, roomCount, dropped, trail := GenerateRooms();
      assert forall k :: 0 <= k < |rooms| ==> rooms[k] in rooms;
      GeneratedFrom(rooms, trail, random.stream, random.drawn, roomCount, config);
      LaidLast(rooms, trail, random.stream, 1, random.drawn, config);
      corridors := ConnectRooms(rooms);
    }

    /** `random = new System.Random(seed)`. */
    method Reseed(seed: int)
      requires Valid()
      modifies this`random
      ensures Valid() && fresh(random) && random.stream == streamFor(seed) && random.drawn == 0
    {
      random := new Random(streamFor(seed));
    }

    /** `ClearCurrentUniverse`: every "Generated" object is destroyed. */
    method ClearCurrentUniverse()
      modifies this`scene
      ensures scene == []
    {
      scene := [];
    }

    /**
     * `GenerateRooms`: draws a room count, then for each room its size and
     * type and up to `MaxAttempts` candidate centres; a room is kept at its
     * first candidate that clashes with no room kept before it, and dropped
     * when all its candidates clash. `trail` records each pass.
     */
    method GenerateRooms() returns (rooms: seq<Room>, ghost roomCount: int, ghost dropped: nat, ghost trail: seq<Placement>)
      requires config.Usable() && random != null
      modifies random
      ensures roomCount == config.minRooms + ScaledIndex(random.stream(old(random.drawn)), config.maxRooms + 1 - config.minRooms)
      ensures config.minRooms <= config.maxRooms ==> config.minRooms <= roomCount <= config.maxRooms
      ensures config.minRooms == config.maxRooms + 1 ==> roomCount == config.minRooms
      ensures |rooms| + dropped == if roomCount < 0 then 0 else roomCount
      ensures |trail| == if roomCount < 0 then 0 else roomCount
      ensures Laid(rooms, trail, random.stream, old(random.drawn) + 1, random.drawn, config)
      ensures Distinct(rooms) && WellPlaced(rooms, config)
      ensures forall r :: r in rooms ==> fresh(r) && r.walls == [] && r.objects == []
    {
      var count := random.NextInRange(config.minRooms, config.maxRooms + 1);
      roomCount := count;
      rooms, dropped, trail := DrawRooms(count);
    }

    /** The room loop of `GenerateRooms`: `count` passes of `DrawRoom`, from no rooms. */
    method DrawRooms(count: int) returns (rooms: seq<Room>, ghost dropped: nat, ghost trail: seq<Placement>)
      requires random != null
      modifies random
      ensures |rooms| + dropped == |trail| == if count < 0 then 0 else count
      ensures Laid(rooms, trail, random.stream, old(random.drawn), random.drawn, config)
      ensures Distinct(rooms) && Spaced(rooms, config)
      ensures forall r :: r in rooms ==> fresh(r) && r.walls == [] && r.objects == []
    {
      rooms := [];
      dropped := 0;
      trail := [];
      var i := 0;
      while i < count
        invariant i == 0 || i <= count
        invariant |rooms| + dropped == i
        invariant |trail| == i
        invariant Laid(rooms, trail, random.stream, old(random.drawn), random.drawn, config)
        invariant Distinct(rooms) && Spaced(rooms, config)
        invariant forall r :: r in rooms ==> fresh(r) && r.walls == [] && r.objects == []
      {
        ghost var at := random.drawn;
        var grown, pass := DrawRoom(rooms);
        LaidExtended(rooms, trail, grown, pass, random.stream, old(random.drawn), at, config);
        if !pass.placed {
          dropped := dropped + 1;
        }
        rooms := grown;
        trail := trail + [pass];
        i := i + 1;
      }
    }

    /**
     * One pass of the room loop of `GenerateRooms`: a size and a type are
     * drawn, and the room is appended when `PlaceRoom` finds it a centre.
     */
    method DrawRoom(rooms: seq<Room>) returns (grown: seq<Room>, ghost pass: Placement)
      requires random != null && Distinct(rooms) && Spaced(rooms, config)
      modifies random
      ensures pass.at == old(random.drawn) && pass.keptBefore == |rooms|
      ensures random.drawn == DrawnAfter(pass)
      ensures Tried(pass, grown, random.stream, config)
      ensures |grown| == KeptAfter(pass) && grown[..|rooms|] == rooms
      ensures forall r :: r in grown ==> r in rooms || (fresh(r) && r.walls == [] && r.objects == [])
      ensures Distinct(grown) && Spaced(grown, config)
    {
      ghost var at := random.drawn;
      var size, kind := DrawShape();
      var placed, position, attempts := PlaceRoom(size, rooms);
      pass := Placement(at, size, kind, attempts, placed, |rooms|);
      if placed {
        var room := new Room(position, size, kind);
        PassKept(pass, rooms, room, random.stream, config);
        grown := rooms + [room];
        assert forall r :: r in grown ==> r in rooms || r == room;
      } else {
        PassDropped(pass, rooms, random.stream, config);
        grown := rooms;
      }
      assert grown[..|rooms|] == rooms;
    }

    /** The size and type a `new Room` of `GenerateRooms` draws, from the next three samples. */
    method DrawShape() returns (size: Vec2, kind: RoomType)
      requires random != null
      modifies random
      ensures Shaped(random.stream, old(random.drawn), size, kind, config)
      ensures SizeOk(size.x, config) && SizeOk(size.y, config)
      ensures random.drawn == old(random.drawn) + 3
    {
      var span := config.maxRoomSize - config.minRoomSize;
      var u := random.NextDouble();
      var v := random.NextDouble();
      ScaledSample(u, config.minRoomSize, span);
      ScaledSample(v, config.minRoomSize, span);
      size := Vec2(u * span + config.minRoomSize, v * span + config.minRoomSize);
      var t := random.NextInRange(0, 3);
      kind := RoomTypeOf(t);
    }

    /**
     * The `while (!placed && attempts < 50)` loop of `GenerateRooms`: draws
     * candidate centres until one clashes with no earlier room, and keeps
     * the first that does.
     */
    method PlaceRoom(size: Vec2, rooms: seq<Room>) returns (placed: bool, position: Vec2, ghost attempts: nat)
      requires random != null
      modifies random
      ensures random.drawn == old(random.drawn) + 2 * attempts
      ensures FirstFit(random.stream, old(random.drawn), attempts, placed, size, rooms, config)
      ensures placed ==>
        && position == Candidate(random.stream, old(random.drawn), attempts - 1, size, config.playgroundSize)
        && Fits(position, size, rooms)
        && AxisOk(position.x, size.x, config.playgroundSize.x)
        && AxisOk(position.y, size.y, config.playgroundSize.y)
    {
      var extent := config.playgroundSize;
      ghost var first := random.drawn;
      placed := false;
      position := Vec2(0.0, 0.0);
      var tries := 0;
      while !placed && tries < MaxAttempts
        invariant 0 <= tries <= MaxAttempts
        invariant random.drawn == first + 2 * tries
        invariant placed ==> 1 <= tries
        invariant forall a :: 0 <= a < tries && (a < tries - 1 || !placed) ==>
                    !Fits(Candidate(random.stream, first, a, size, extent), size, rooms)
        invariant placed ==>
          && position == Candidate(random.stream, first, tries - 1, size, extent)
          && Fits(position, size, rooms)
        decreases MaxAttempts - tries
      {
        var testPos := DrawCandidate(size);
        assert testPos == Candidate(random.stream, first, tries, size, extent);
        var overlaps := RoomOverlaps(testPos, size, rooms);
        if !overlaps {
          position := testPos;
          placed := true;
        }
        tries := tries + 1;
      }
      attempts := tries;
      if placed {
        CandidateDrawn(random.stream, first, attempts - 1, size, extent);
      }
    }

    /** The `testPos` of one attempt in `GenerateRooms`: a centre from the next two samples. */
    method DrawCandidate(size: Vec2) returns (testPos: Vec2)
      requires random != null
      modifies random
      ensures testPos == Candidate(random.stream, old(random.drawn), 0, size, config.playgroundSize)
      ensures AxisOk(testPos.x, size.x, config.playgroundSize.x) && AxisOk(testPos.y, size.y, config.playgroundSize.y)
      ensures random.drawn == old(random.drawn) + 2
    {
      var extent := config.playgroundSize;
      var u := random.NextDouble();
      var v := random.NextDouble();
      var spanX, spanY := extent.x - size.x, extent.y - size.y;
      var lowX, lowY := -extent.x / 2.0, -extent.y / 2.0;
      ScaledSample(u, lowX, spanX);
      ScaledSample(v, lowY, spanY);
      testPos := Vec2(u * spanX + lowX, v * spanY + lowY);
    }

    /** `ConnectRooms`: one corridor from each room to the next one in list order. */
    method ConnectRooms(rooms: seq<Room>) returns (ghost corridors: seq<HostObject>)
      requires config.Usable() && random != null
      modifies this`scene, random
      ensures scene == old(scene) + corridors
      ensures |corridors| == if |rooms| == 0 then 0 else |rooms| - 1
      ensures random.drawn == old(random.drawn) + 4 * |corridors|
      ensures forall k :: 0 <= k < |corridors| ==> IsCorridor(corridors[k], rooms[k].position, rooms[k + 1].position)
    {
      corridors := [];
      var i := 0;
      while i < |rooms| - 1
        invariant 0 <= i <= (if |rooms| == 0 then 0 else |rooms| - 1)
        invariant |corridors| == i
        invariant scene == old(scene) + corridors
        invariant random.drawn == old(random.drawn) + 4 * i
        invariant forall k :: 0 <= k < i ==> IsCorridor(corridors[k], rooms[k].position, rooms[k + 1].position)
      {
        var corridor := CreateCorridor(rooms[i].position, rooms[i + 1].position);
        corridors := corridors + [corridor];
        i := i + 1;
      }
    }

    /**
     * `CreateCorridor`: a "Corridor" parent with four walls around the strip
     * of width `CorridorWidth` between the two centres. There is no check for
     * coincident centres.
     */
    method CreateCorridor(start: Vec2, end: Vec2) returns (ghost corridor: HostObject)
      requires config.Usable() && random != null
      modifies this`scene, random
      ensures scene == old(scene) + [corridor]
      ensures IsCorridor(corridor, start, end)
      ensures random.drawn == old(random.drawn) + 4
    {
      var direction := normalize(end.Minus(start));
      var corners := CorridorCorners(start, end, direction, CorridorWidth);
      var walls := CreateWalls(corners);
      var wallParent := WallGroup("Corridor", walls);
      scene := scene + [wallParent];
      corridor := wallParent;
    }

    /** The index loop shared by corridors and room boundaries: wall k joins corner k to corner (k + 1) % 4. */
    method CreateWalls(corners: seq<Vec2>) returns (walls: seq<HostObject>)
      requires |corners| == 4 && config.Usable() && random != null
      modifies random
      ensures WallLoop(walls, corners, config.wallPrefabs)
      ensures random.drawn == old(random.drawn) + 4
    {
      walls := [];
      for i := 0 to 4
        invariant |walls| == i
        invariant random.drawn == old(random.drawn) + i
        invariant forall k :: 0 <= k < i ==> Joins(walls[k], corners[k], corners[(k + 1) % 4], config.wallPrefabs)
      {
        var wall := CreateWall(corners[i], corners[(i + 1) % 4]);
        walls := walls + [wall];
      }
    }

    /** `CreateWall`: a wall segment from a randomly picked prefab. */
    method CreateWall(start: Vec2, end: Vec2) returns (wall: HostObject)
      requires config.Usable() && random != null
      modifies random
      ensures wall.Wall? && wall.from == start && wall.to == end && wall.prefab < config.wallPrefabs
      ensures random.drawn == old(random.drawn) + 1
    {
      var prefab := random.Next(config.wallPrefabs);
      wall := Wall(start, end, prefab);
    }

    /** `PopulateRooms`: each room in turn gets its boundary, its decorations and its background. */
    method PopulateRooms(rooms: seq<Room>)
      returns (ghost boundaries: seq<HostObject>, ghost furnishings: seq<seq<HostObject>>, ghost spawned: seq<HostObject>)
      requires config.Usable() && random != null && Distinct(rooms)
      modifies this`scene, random, rooms
      ensures |boundaries| == |furnishings| == |rooms|
      ensures forall k :: 0 <= k < |rooms| ==>
                && rooms[k].walls == old(rooms[k].walls) + [boundaries[k]]
                && rooms[k].objects == old(rooms[k].objects) + furnishings[k]
      ensures forall k :: 0 <= k < |rooms| ==> Populates(boundaries[k], furnishings[k], rooms[k], config)
      ensures scene == old(scene) + spawned && spawned == Spawned(boundaries, furnishings)
      ensures NoCorridor(spawned)
      ensures random.drawn == old(random.drawn) + PopulateDraws(rooms, furnishings, config)
    {
      ghost var walls0 := seq(|rooms|, k requires 0 <= k < |rooms| reads rooms => rooms[k].walls);
      ghost var objects0 := seq(|rooms|, k requires 0 <= k < |rooms| reads rooms => rooms[k].objects);
      boundaries, furnishings := [], [];
      for i := 0 to |rooms|
        invariant Populated(rooms, i, walls0, objects0, boundaries, furnishings, config)
        invariant scene == old(scene) + Spawned(boundaries, furnishings) && NoCorridor(Spawned(boundaries, furnishings))
        invariant random.drawn == old(random.drawn) + PopulateDraws(rooms[..i], furnishings, config)
      {
        boundaries, furnishings := PopulateStep(rooms, i, walls0, objects0, old(scene), old(random.drawn), boundaries, furnishings);
      }
      assert rooms[..|rooms|] == rooms;
      spawned := Spawned(boundaries, furnishings);
    }

    /** One pass of the populate loops: room `i` gets its boundary and furnishings, the others stay. */
    method PopulateStep(rooms: seq<Room>, i: nat, ghost walls0: seq<seq<HostObject>>, ghost objects0: seq<seq<HostObject>>,
                        ghost prior: seq<HostObject>, ghost drawn0: nat,
                        ghost boundaries: seq<HostObject>, ghost furnishings: seq<seq<HostObject>>)
      returns (ghost boundaries': seq<HostObject>, ghost furnishings': seq<seq<HostObject>>)
      requires config.Usable() && random != null && i < |rooms|
      requires forall k :: 0 <= k < |rooms| && k != i ==> rooms[k] != rooms[i]
      requires Populated(rooms, i, walls0, objects0, boundaries, furnishings, config)
      requires scene == prior + Spawned(boundaries, furnishings) && NoCorridor(Spawned(boundaries, furnishings))
      requires random.drawn == drawn0 + PopulateDraws(rooms[..i], furnishings, config)
      modifies this`scene, random, rooms[i]
      ensures Populated(rooms, i + 1, walls0, objects0, boundaries', furnishings', config)
      ensures scene == prior + Spawned(boundaries', furnishings') && NoCorridor(Spawned(boundaries', furnishings'))
      ensures random.drawn == drawn0 + PopulateDraws(rooms[..i + 1], furnishings', config)
    {
      ghost var boundary, furnished := PopulateRoom(rooms[i]);
      PopulateDrawsStep(rooms, i, furnishings, furnished, config);
      SpawnedStep(prior, boundaries, furnishings, boundary, furnished);
      NoCorridorStep(Spawned(boundaries, furnishings), boundary, furnished);
      boundaries', furnishings' := boundaries + [boundary], furnishings + [furnished];
    }

    /** The body of `PopulateRooms`' loop for one room. */
    method PopulateRoom(room: Room) returns (ghost boundary: HostObject, ghost furnishings: seq<HostObject>)
      requires config.Usable() && random != null
      modifies this`scene, random, room
      ensures room.walls == old(room.walls) + [boundary] && room.objects == old(room.objects) + furnishings
      ensures scene == old(scene) + [boundary] + furnishings
      ensures Populates(boundary, furnishings, room, config)
      ensures IsGroup(boundary, "Room_Walls") && forall k :: 0 <= k < |furnishings| ==> !furnishings[k].WallGroup?
      ensures random.drawn == old(random.drawn) + RoomDraws(room, furnishings, config)
    {
      boundary := CreateRoomBoundaries(room);
      furnishings := Furnish(room);
    }

    /** The decorations of `PopulateRooms`' loop body, followed by `CreateBackground`. */
    method Furnish(room: Room) returns (ghost furnishings: seq<HostObject>)
      requires config.Usable() && random != null
      modifies this`scene, random, room`objects
      ensures room.objects == old(room.objects) + furnishings && scene == old(scene) + furnishings
      ensures Furnished(furnishings, room, config)
      ensures forall k :: 0 <= k < |furnishings| ==> !furnishings[k].WallGroup?
      ensures random.drawn == old(random.drawn) + CountDraws(room.kind) + 4 * DecorationCount(furnishings, config)
    {
      ghost var objects0, scene0 := room.objects, scene;
      ghost var decorations := PopulateByType(room);
      ghost var extras := CreateBackground(room);
      furnishings := decorations + extras;
      FurnishedOf(decorations, extras, room, config);
      assert DecorationCount(furnishings, config) == |decorations|;
    }

    /** The `switch (room.type)` of `PopulateRooms`. */
    method PopulateByType(room: Room) returns (ghost decorations: seq<HostObject>)
      requires config.Usable() && random != null
      modifies this`scene, random, room`objects
      ensures room.objects == old(room.objects) + decorations && scene == old(scene) + decorations
      ensures Decorated(decorations, room, config)
      ensures forall k :: 0 <= k < |decorations| ==> decorations[k].Decoration?
      ensures random.drawn == old(random.drawn) + CountDraws(room.kind) + 4 * |decorations|
    {
      match room.kind {
        case Normal =>
          decorations := PopulateNormalRoom(room);
        case Quantum =>
          decorations := PopulateQuantumRoom(room);
        case Mixed =>
          decorations := PopulateMixedRoom(room);
      }
    }

    /** `CreateRoomBoundaries`: a "Room_Walls" parent with four walls around the room's rectangle. */
    method CreateRoomBoundaries(room: Room) returns (ghost boundary: HostObject)
      requires config.Usable() && random != null
      modifies this`scene, random, room`walls
      ensures room.walls == old(room.walls) + [boundary] && scene == old(scene) + [boundary]
      ensures IsBoundary(boundary, room, config)
      ensures random.drawn == old(random.drawn) + 4
    {
      var corners := RoomCorners(room.position, room.size);
      var walls := CreateWalls(corners);
      var wallParent := WallGroup("Room_Walls", walls);
      scene := scene + [wallParent];
      room.walls := room.walls + [wallParent];
      boundary := wallParent;
    }

    /** `PopulateNormalRoom`: two to four reflective surfaces. */
    method PopulateNormalRoom(room: Room) returns (ghost added: seq<HostObject>)
      requires config.Usable() && random != null
      modifies this`scene, random, room`objects
      ensures room.objects == old(room.objects) + added && scene == old(scene) + added
      ensures NormalItems(added, room, config)
      ensures random.drawn == old(random.drawn) + 1 + 4 * |added|
    {
      var surfaceCount := random.NextInRange(2, 5);
      added := PlaceDecorations(room, ReflectiveSurface, surfaceCount, config.reflectiveSurfaces);
    }

    /** `PopulateQuantumRoom`: three to five energy barriers. */
    method PopulateQuantumRoom(room: Room) returns (ghost added: seq<HostObject>)
      requires config.Usable() && random != null
      modifies this`scene, random, room`objects
      ensures room.objects == old(room.objects) + added && scene == old(scene) + added
      ensures QuantumItems(added, room, config)
      ensures random.drawn == old(random.drawn) + 1 + 4 * |added|
    {
      var barrierCount := random.NextInRange(3, 6);
      added := PlaceDecorations(room, EnergyBarrier, barrierCount, config.energyBarriers);
    }

    /** `PopulateMixedRoom`: the normal pass, then the quantum pass. */
    method PopulateMixedRoom(room: Room) returns (ghost added: seq<HostObject>)
      requires config.Usable() && random != null && room.kind == Mixed
      modifies this`scene, random, room`objects
      ensures room.objects == old(room.objects) + added && scene == old(scene) + added
      ensures Decorated(added, room, config)
      ensures forall k :: 0 <= k < |added| ==> added[k].Decoration?
      ensures random.drawn == old(random.drawn) + 2 + 4 * |added|
    {
      var normal := PopulateNormalRoom(room);
      var quantum := PopulateQuantumRoom(room);
      added := normal + quantum;
      assert added[..|normal|] == normal && added[|normal|..] == quantum;
    }

    /**
     * The `for` loop shared by `PopulateNormalRoom` and `PopulateQuantumRoom`:
     * per item a position in the room, an angle, and a prefab pick.
     */
    method PlaceDecorations(room: Room, kind: DecorationKind, count: int, prefabs: nat)
      returns (ghost added: seq<HostObject>)
      requires random != null && prefabs > 0
      modifies this`scene, random, room`objects
      ensures |added| == if count < 0 then 0 else count
      ensures room.objects == old(room.objects) + added && scene == old(scene) + added
      ensures Items(added, kind, room, prefabs)
      ensures random.drawn == old(random.drawn) + 4 * |added|
    {
      added := [];
      var i := 0;
      while i < count
        invariant i == 0 || i <= count
        invariant |added| == i
        invariant room.objects == old(room.objects) + added && scene == old(scene) + added
        invariant Items(added, kind, room, prefabs)
        invariant random.drawn == old(random.drawn) + 4 * i
      {
        var position := GetRandomPositionInRoom(room);
        var a := random.NextDouble();
        var angle := a * 360.0;
        var prefab := random.Next(prefabs);
        var item := Decoration(kind, position, angle, prefab);
        scene := scene + [item];
        room.objects := room.objects + [item];
        added := added + [item];
        i := i + 1;
      }
    }

    /** `GetRandomPositionInRoom`: a point in the central 80% of the room on each axis. */
    method GetRandomPositionInRoom(room: Room) returns (p: Vec2)
      requires random != null
      modifies random
      ensures Abs(p.x - room.position.x) <= 0.4 * Abs(room.size.x)
      ensures Abs(p.y - room.position.y) <= 0.4 * Abs(room.size.y)
      ensures random.drawn == old(random.drawn) + 2
    {
      var u := random.NextDouble();
      var v := random.NextDouble();
      p := InteriorPoint(room.position, room.size, u, v);
    }

    /**
     * `CreateBackground`: the particle effect when one is configured, then
     * the background, whose material is the quantum one only for Quantum
     * rooms.
     */
    method CreateBackground(room: Room) returns (ghost added: seq<HostObject>)
      modifies this`scene, room`objects
      ensures room.objects == old(room.objects) + added && scene == old(scene) + added
      ensures |added| == Extras(config)
      ensures config.hasParticles ==> added[0] == Particles(room.position, ParticleDepth, room.size)
      ensures added[|added| - 1] == Background(room.position, BackgroundDepth, room.size, MaterialFor(room.kind))
    {
      added := [];
      if config.hasParticles {
        var particles := Particles(room.position, ParticleDepth, room.size);
        room.objects := room.objects + [particles];
        scene := scene + [particles];
        added := added + [particles];
      }
      var background := Background(room.position, BackgroundDepth, room.size, MaterialFor(room.kind));
      room.objects := room.objects + [background];
      scene := scene + [background];
      added := added + [background];
    }

    /**
     * `LoadCachedUniverse(seed)`: clears the scene and populates each cached
     * room again, appending to its existing lists. The one-room `PopulateRooms`
     * calls, one per cached room in order with nothing in between, are the
     * single call on the whole list made here.
     */
    method LoadCachedUniverse(seed: int) returns (ghost boundaries: seq<HostObject>, ghost furnishings: seq<seq<HostObject>>)
      requires config.Usable() && random != null && seed in universeCache && Distinct(universeCache[seed])
      modifies this`scene, random, universeCache[seed]
      ensures Repopulated(seed, boundaries, furnishings)
    {
      ClearCurrentUniverse();
      ghost var spawned;
      boundaries, furnishings, spawned := PopulateRooms(universeCache[seed]);
    }
  }
}
