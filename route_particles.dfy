/** The decorative particle stream drawn along a route. A custom map layer owns
    flat buffers of per-particle data; when it is added, every particle is
    placed at a point of the route and given a random speed, size, colour and
    offset; on every frame, every particle's position is recomputed from the
    elapsed time and written into its three slots of the position buffer.

    Foreign parts are parameters: the projection of a longitude/latitude pair
    to the map's internal coordinates (`MercatorCoordinate.fromLngLat` at
    altitude 0), the square root, the random draws and the elapsed time. */
module RouteParticles {

  import opened Domain
  import opened MapSurface

  const ParticleLayerId: string := "route-particles"
  const MobileBreakpoint: int := 768
  const MobileCount: nat := 150
  const DesktopCount: nat := 500
  /** Base traversal rate: fraction of the route covered per second at speed 1. */
  const Rate: real := 0.12

  /** Fewer particles on narrow viewports. */
  function ParticleCount(viewportWidth: int): (n: nat)
    ensures viewportWidth < MobileBreakpoint ==> n == MobileCount
    ensures viewportWidth >= MobileBreakpoint ==> n == DesktopCount
  {
    if viewportWidth < MobileBreakpoint then MobileCount else DesktopCount
  }

  datatype Mercator = Mercator(x: real, y: real, z: real)

  /** The map's projection of (longitude, latitude) at altitude 0. */
  type Projection = (real, real) -> Mercator

  /** What the model uses of `Math.sqrt`: on non-negative numbers it gives a
      non-negative root that squares back, positive exactly for positive input. */
  ghost predicate IsSqrt(sqrt: real -> real) {
    forall x {:trigger sqrt(x)} :: 0.0 <= x ==>
      0.0 <= sqrt(x) && sqrt(x) * sqrt(x) == x && (sqrt(x) > 0.0 <==> x > 0.0)
  }

  // ---------------------------------------------------------------------------
  // Per-particle arithmetic

  /** `x % 1` for a non-negative `x`: its fractional part. */
  function Frac(x: real): (f: real)
    requires x >= 0.0
    ensures 0.0 <= f < 1.0
    ensures (x - f).Floor as real == x - f
  {
    x - x.Floor as real
  }

  /** How far along the whole route a particle is, cycling every
      1 / (speed * Rate) seconds. */
  function Progress(elapsed: real, speed: real): (p: real)
    requires elapsed >= 0.0 && speed >= 0.0
    ensures 0.0 <= p < 1.0
    ensures elapsed == 0.0 ==> p == 0.0
  {
    Frac(elapsed * speed * Rate)
  }

  /** A fraction of a positive number stays below it. */
  lemma BelowScale(p: real, n: real)
    requires 0.0 <= p < 1.0 && n >= 0.0
    ensures 0.0 <= p * n && (n > 0.0 ==> p * n < n) && (n == 0.0 ==> p * n == 0.0)
    ensures p == 0.0 ==> p * n == 0.0
  {
    if n > 0.0 {
      assert n - p * n == (1.0 - p) * n;
      assert (1.0 - p) * n > 0.0;
    }
  }

  /** The whole part of a number in [0, m) is a natural number below m. */
  lemma FloorBelow(x: real, m: nat)
    requires 0.0 <= x < m as real
    ensures 0 <= x.Floor < m
  {
  }

  /** Index of the route point a segment starts at: `floor(progress * (len - 1))`. */
  function SegmentStart(progress: real, len: nat): (k: nat)
    requires 0.0 <= progress < 1.0 && len >= 1
    ensures k < len
    ensures len >= 2 ==> k + 1 < len
    ensures progress == 0.0 ==> k == 0
  {
    var n := (len - 1) as real;
    BelowScale(progress, n);
    var raw := progress * n;
    if len == 1 then
      assert raw == 0.0;
      0
    else
      FloorBelow(raw, len - 1);
      raw.Floor
  }

  /** Index of the route point the segment ends at: the next point, or the last
      point when there is no next one. */
  function SegmentEnd(start: nat, len: nat): (k: nat)
    requires start < len
    ensures k < len
    ensures start + 1 < len ==> k == start + 1
    ensures start + 1 == len ==> k == start
  {
    if start + 1 < len - 1 then start + 1 else len - 1
  }

  /** Route point a particle starts at when the layer is added: particle `i` of
      `count` is placed at `floor(i / count * (len - 1))`. */
  function InitialIndex(i: nat, count: nat, len: nat): (k: nat)
    requires i < count && len >= 1
    ensures k < len
    ensures len >= 2 ==> k <= len - 2
    ensures i == 0 ==> k == 0
  {
    var fraction := i as real / count as real;
    assert fraction < 1.0;
    var n := (len - 1) as real;
    BelowScale(fraction, n);
    var raw := fraction * n;
    if len == 1 then
      assert raw == 0.0;
      0
    else
      FloorBelow(raw, len - 1);
      raw.Floor
  }

  /** The vector perpendicular to (dx, dy), turned a quarter left and divided
      by the segment's length; (0, 0) for a zero-length segment, so that nothing
      is divided by zero. */
  function Perpendicular(dx: real, dy: real, sqrt: real -> real): (p: (real, real))
    requires IsSqrt(sqrt)
    ensures dx == 0.0 && dy == 0.0 ==> p == (0.0, 0.0)
    ensures dx != 0.0 || dy != 0.0 ==> p.0 * dx + p.1 * dy == 0.0 && p != (0.0, 0.0)
  {
    var square := dx * dx + dy * dy;
    SumOfSquares(dx, dy);
    var length := sqrt(square);
    if length > 0.0 then
      TurnedQuarter(dx, dy, length);
      (-dy / length, dx / length)
    else
      (0.0, 0.0)
  }

  lemma SquarePositive(x: real)
    requires x != 0.0
    ensures x * x > 0.0
  {
    if x < 0.0 {
      assert x * x == (-x) * (-x);
    }
  }

  lemma SumOfSquares(dx: real, dy: real)
    ensures dx * dx + dy * dy >= 0.0
    ensures dx != 0.0 || dy != 0.0 ==> dx * dx + dy * dy > 0.0
  {
    if dx != 0.0 {
      SquarePositive(dx);
    }
    if dy != 0.0 {
      SquarePositive(dy);
    }
  }

  lemma TurnedQuarter(dx: real, dy: real, length: real)
    requires length > 0.0
    ensures (-dy / length) * dx + (dx / length) * dy == 0.0
    ensures dx != 0.0 || dy != 0.0 ==> (-dy / length, dx / length) != (0.0, 0.0)
  {
    var u := dx / length;
    var v := dy / length;
    assert dx == u * length;
    assert dy == v * length;
    calc {
      (-v) * dx + u * dy;
      (-v) * (u * length) + u * (v * length);
      0.0;
    }
    if dx != 0.0 {
      assert dx / length != 0.0;
    } else if dy != 0.0 {
      assert -dy / length != 0.0;
    }
  }

  /** `v` lies between `x` and `y`, whichever is smaller. */
  predicate Between(x: real, y: real, v: real) {
    (x <= y ==> x <= v <= y) && (y <= x ==> y <= v <= x)
  }

  /** Linear interpolation at a fraction in [0, 1] stays between the ends. */
  lemma Interpolates(x: real, y: real, t: real)
    requires 0.0 <= t <= 1.0
    ensures Between(x, y, x + (y - x) * t)
  {
    var d := y - x;
    assert d - d * t == d * (1.0 - t);
    if d >= 0.0 {
      ProductNonNegative(d, t);
      ProductNonNegative(d, 1.0 - t);
    } else {
      ProductNonNegative(-d, t);
      ProductNonNegative(-d, 1.0 - t);
      assert (-d) * t == -(d * t) && (-d) * (1.0 - t) == -(d * (1.0 - t));
    }
  }

  lemma ProductNonNegative(p: real, q: real)
    requires p >= 0.0 && q >= 0.0
    ensures p * q >= 0.0
  {
  }

  /** A point moved `offsetX` along the direction `perp` and `offsetY`
      towards the north. */
  function Shifted(c: Coord, perp: (real, real), offsetX: real, offsetY: real): Coord {
    Coord(c.lng + perp.0 * offsetX, c.lat + perp.1 * offsetX + offsetY)
  }

  /** The particle's coordinate in a frame: the point at `progress` along the
      route polyline, moved `offsetX` along the segment's left perpendicular and
      `offsetY` towards the north. Without a cross-track offset the particle
      rides its segment: between the segment's ends in longitude, and in
      latitude once `offsetY` is taken off. */
  function ParticleCoord(route: seq<Coord>, progress: real, offsetX: real, offsetY: real,
                         sqrt: real -> real): (c: Coord)
    requires |route| >= 1 && 0.0 <= progress < 1.0 && IsSqrt(sqrt)
    ensures var start := SegmentStart(progress, |route|);
      var a := route[start];
      var b := route[SegmentEnd(start, |route|)];
      offsetX == 0.0 ==> Between(a.lng, b.lng, c.lng) && Between(a.lat, b.lat, c.lat - offsetY)
  {
    var len := |route|;
    var start := SegmentStart(progress, len);
    var end := SegmentEnd(start, len);
    var t := Frac(progress * (len - 1) as real);
    var a := route[start];
    var b := route[end];
    var lng := a.lng + (b.lng - a.lng) * t;
    var lat := a.lat + (b.lat - a.lat) * t;
    var perp := Perpendicular(b.lng - a.lng, b.lat - a.lat, sqrt);
    Interpolates(a.lng, b.lng, t);
    Interpolates(a.lat, b.lat, t);
    assert offsetX == 0.0 ==> perp.0 * offsetX == 0.0 && perp.1 * offsetX == 0.0;
    Shifted(Coord(lng, lat), perp, offsetX, offsetY)
  }

  /** On a segment of zero length the perpendicular offset vanishes: the
      particle sits on the segment's point, moved only by `offsetY` in latitude. */
  lemma {:induction false} ZeroLengthSegment(route: seq<Coord>, progress: real, offsetX: real, offsetY: real,
                          sqrt: real -> real)
    requires |route| >= 1 && 0.0 <= progress < 1.0 && IsSqrt(sqrt)
    requires var start := SegmentStart(progress, |route|);
      route[start] == route[SegmentEnd(start, |route|)]
    ensures var a := route[SegmentStart(progress, |route|)];
      ParticleCoord(route, progress, offsetX, offsetY, sqrt) == Coord(a.lng, a.lat + offsetY)
  {
  }

  /** A one-point route puts every particle on that point, whatever its
      progress, shifted only by its latitude offset. */
  lemma {:induction false} SinglePointRoute(route: seq<Coord>, progress: real, offsetX: real, offsetY: real,
                         sqrt: real -> real)
    requires |route| == 1 && 0.0 <= progress < 1.0 && IsSqrt(sqrt)
    ensures ParticleCoord(route, progress, offsetX, offsetY, sqrt)
            == Coord(route[0].lng, route[0].lat + offsetY)
  {
    ZeroLengthSegment(route, progress, offsetX, offsetY, sqrt);
  }

  /** A particle exactly on a route point (no fraction of a segment left)
      sits on that point, moved only by its offsets. */
  lemma {:induction false} OnRoutePoint(route: seq<Coord>, progress: real, offsetX: real, offsetY: real, sqrt: real -> real)
    requires |route| >= 1 && 0.0 <= progress < 1.0 && IsSqrt(sqrt)
    requires Frac(progress * (|route| - 1) as real) == 0.0
    ensures var a := route[SegmentStart(progress, |route|)];
      var b := route[SegmentEnd(SegmentStart(progress, |route|), |route|)];
      var p := Perpendicular(b.lng - a.lng, b.lat - a.lat, sqrt);
      ParticleCoord(route, progress, offsetX, offsetY, sqrt) == Shifted(a, p, offsetX, offsetY)
  {
  }

  /** Progress 0 leaves no fraction of a segment. */
  lemma NoFractionAtStart(len: nat)
    requires len >= 1
    ensures Frac(0.0 * (len - 1) as real) == 0.0
  {
    BelowScale(0.0, (len - 1) as real);
  }

  /** At the start of the animation every particle is at the first route point,
      moved only by its own offsets. */
  lemma {:induction false} AnimationStart(route: seq<Coord>, speed: real, offsetX: real, offsetY: real,
                       sqrt: real -> real)
    requires |route| >= 1 && speed >= 0.0 && IsSqrt(sqrt)
    ensures var b := route[SegmentEnd(0, |route|)];
      var p := Perpendicular(b.lng - route[0].lng, b.lat - route[0].lat, sqrt);
      ParticleCoord(route, Progress(0.0, speed), offsetX, offsetY, sqrt)
        == Shifted(route[0], p, offsetX, offsetY)
  {
    var progress := Progress(0.0, speed);
    NoFractionAtStart(|route|);
    assert progress == 0.0 && Frac(progress * (|route| - 1) as real) == 0.0;
    OnRoutePoint(route, progress, offsetX, offsetY, sqrt);
  }

  // ---------------------------------------------------------------------------
  // The position buffer: three slots per particle

  function Slot(m: Mercator): seq<real> {
    [m.x, m.y, m.z]
  }

  /** The flat buffer holding particle `i` in slots 3i, 3i+1 and 3i+2. */
  function Flatten(ms: seq<Mercator>): (r: seq<real>)
    ensures |r| == 3 * |ms|
  {
    if ms == [] then [] else Flatten(ms[..|ms| - 1]) + Slot(ms[|ms| - 1])
  }

  lemma {:induction false} FlattenSnoc(ms: seq<Mercator>, i: nat)
    requires i < |ms|
    ensures Flatten(ms[..i + 1]) == Flatten(ms[..i]) + Slot(ms[i])
  {
    assert ms[..i + 1][..i] == ms[..i];
  }

  /** Slot 3i+k of the buffer is coordinate k of particle i, and particle i
      writes no other slot. */
  lemma {:induction false} FlattenAt(ms: seq<Mercator>, i: nat, k: nat)
    requires i < |ms| && k < 3
    ensures 3 * i + k < |Flatten(ms)|
    ensures Flatten(ms)[3 * i + k] == Slot(ms[i])[k]
  {
    var last := |ms| - 1;
    if i < last {
      FlattenAt(ms[..last], i, k);
    }
  }

  /** Where the particles start: each on its initial route point. */
  function InitialPoints(route: seq<Coord>, count: nat, project: Projection): (ms: seq<Mercator>)
    requires |route| >= 1
    ensures |ms| == count
  {
    seq(count, i requires 0 <= i < count =>
      var c := route[InitialIndex(i, count, |route|)];
      project(c.lng, c.lat))
  }

  ghost predicate NonNegative(s: seq<real>) {
    forall i :: 0 <= i < |s| ==> s[i] >= 0.0
  }

  /** Where the particles are after `elapsed` seconds. */
  function FramePoints(route: seq<Coord>, elapsed: real, speeds: seq<real>, offsets: seq<real>,
                       project: Projection, sqrt: real -> real): (ms: seq<Mercator>)
    requires |route| >= 1 && elapsed >= 0.0 && IsSqrt(sqrt)
    requires NonNegative(speeds) && |offsets| == 2 * |speeds|
    ensures |ms| == |speeds|
  {
    seq(|speeds|, i requires 0 <= i < |speeds| =>
      var c := ParticleCoord(route, Progress(elapsed, speeds[i]), offsets[2 * i], offsets[2 * i + 1], sqrt);
      project(c.lng, c.lat))
  }

  // ---------------------------------------------------------------------------
  // Per-particle attributes drawn when the layer is added, from `Math.random()`
  // results in [0, 1)

  /** A speed factor in [0.8, 1.3). */
  function Speed(draw: real): (v: real)
    ensures 0.0 <= draw < 1.0 ==> 0.8 <= v < 1.3
  {
    draw * 0.5 + 0.8
  }

  /** A point size in [1.5, 2.5), scaled down to 70% on mobile and up to
      120% otherwise. */
  function Size(draw: real, mobile: bool): (v: real)
    ensures 0.0 <= draw < 1.0 && mobile ==> 1.05 <= v < 1.75
    ensures 0.0 <= draw < 1.0 && !mobile ==> 1.8 <= v < 3.0
  {
    (draw * 1.0 + 1.5) * (if mobile then 0.7 else 1.2)
  }

  /** A cross-track offset of at most 0.0000075 either way. */
  function CrossOffset(draw: real): (v: real)
    ensures 0.0 <= draw < 1.0 ==> -0.0000075 <= v < 0.0000075
  {
    (draw - 0.5) * 0.000015
  }

  /** A latitude offset of at most 0.000004 either way. */
  function LatitudeOffset(draw: real): (v: real)
    ensures 0.0 <= draw < 1.0 ==> -0.000004 <= v < 0.000004
  {
    (draw - 0.5) * 0.000008
  }

  /** A blue intensity in [0.7, 1.0). */
  function Blue(draw: real): (v: real)
    ensures 0.0 <= draw < 1.0 ==> 0.7 <= v < 1.0
  {
    draw * 0.3 + 0.7
  }

  /** The colour of one particle: no red, green at 40% of the blue, and a
      bright blue. */
  function Tint(draw: real): (rgb: seq<real>)
    ensures |rgb| == 3 && rgb[0] == 0.0 && rgb[1] == 0.4 * rgb[2]
    ensures 0.0 <= draw < 1.0 ==> 0.7 <= rgb[2] < 1.0
  {
    [0.0, Blue(draw) * 0.4, Blue(draw)]
  }

  /** The speeds of the first `n` particles, from every fifth draw. */
  function Speeds(draws: seq<real>, n: nat): (r: seq<real>)
    requires 5 * n <= |draws|
    ensures |r| == n
  {
    if n == 0 then [] else Speeds(draws, n - 1) + [Speed(draws[5 * (n - 1)])]
  }

  /** Particle `i`'s speed comes from draw 5i. */
  lemma {:induction false} SpeedsAt(draws: seq<real>, n: nat, i: nat)
    requires 5 * n <= |draws| && i < n
    ensures Speeds(draws, n)[i] == Speed(draws[5 * i])
  {
    if i < n - 1 {
      SpeedsAt(draws, n - 1, i);
    }
  }

  /** The sizes of the first `n` particles, from the draw after each speed. */
  function Sizes(draws: seq<real>, n: nat, mobile: bool): (r: seq<real>)
    requires 5 * n <= |draws|
    ensures |r| == n
  {
    if n == 0 then [] else Sizes(draws, n - 1, mobile) + [Size(draws[5 * (n - 1) + 1], mobile)]
  }

  /** Particle `i`'s size comes from draw 5i+1. */
  lemma {:induction false} SizesAt(draws: seq<real>, n: nat, mobile: bool, i: nat)
    requires 5 * n <= |draws| && i < n
    ensures Sizes(draws, n, mobile)[i] == Size(draws[5 * i + 1], mobile)
  {
    if i < n - 1 {
      SizesAt(draws, n - 1, mobile, i);
    }
  }

  /** The offset buffer of the first `n` particles: two slots each, the
      cross-track offset and then the latitude offset. */
  function Offsets(draws: seq<real>, n: nat): (r: seq<real>)
    requires 5 * n <= |draws|
    ensures |r| == 2 * n
  {
    if n == 0 then []
    else Offsets(draws, n - 1) + [CrossOffset(draws[5 * (n - 1) + 2]), LatitudeOffset(draws[5 * (n - 1) + 3])]
  }

  /** Slots 2i and 2i+1 of the offset buffer hold particle `i`'s cross-track
      and latitude offsets. */
  lemma {:induction false} OffsetsAt(draws: seq<real>, n: nat, i: nat)
    requires 5 * n <= |draws| && i < n
    ensures Offsets(draws, n)[2 * i] == CrossOffset(draws[5 * i + 2])
    ensures Offsets(draws, n)[2 * i + 1] == LatitudeOffset(draws[5 * i + 3])
  {
    if i < n - 1 {
      OffsetsAt(draws, n - 1, i);
    }
  }

  /** The colour buffer of the first `n` particles: three slots each, coloured
      from every fifth draw. */
  function ColorBuffer(draws: seq<real>, n: nat): (r: seq<real>)
    requires 5 * n <= |draws|
    ensures |r| == 3 * n
  {
    if n == 0 then [] else ColorBuffer(draws, n - 1) + Tint(draws[5 * (n - 1) + 4])
  }

  /** Slots 3i..3i+2 of the colour buffer hold the tint of particle `i`. */
  lemma {:induction false} ColorAt(draws: seq<real>, n: nat, i: nat)
    requires 5 * n <= |draws| && i < n
    ensures ColorBuffer(draws, n)[3 * i..3 * i + 3] == Tint(draws[5 * i + 4])
  {
    if i < n - 1 {
      ColorAt(draws, n - 1, i);
      var prev := ColorBuffer(draws, n - 1);
      assert ColorBuffer(draws, n)[..3 * (n - 1)] == prev;
      assert ColorBuffer(draws, n)[3 * i..3 * i + 3] == prev[3 * i..3 * i + 3];
    }
  }

  /** The first `n` slots of `buffer` hold `s`. */
  ghost predicate Prefix(buffer: array<real>, n: nat, s: seq<real>)
    reads buffer
  {
    n <= buffer.Length && buffer[..n] == s
  }

  /** Writes one value into slot `i`. */
  method PutOne(buffer: array<real>, i: nat, v: real, ghost s: seq<real>)
    requires i < buffer.Length && Prefix(buffer, i, s)
    modifies buffer
    ensures Prefix(buffer, i + 1, s + [v])
    ensures buffer[i + 1..] == old(buffer[i + 1..])
  {
    buffer[i] := v;
  }

  /** Writes two values into slots 2i and 2i+1. */
  method PutPair(buffer: array<real>, i: nat, u: real, v: real, ghost s: seq<real>)
    requires 2 * i + 2 <= buffer.Length && Prefix(buffer, 2 * i, s)
    modifies buffer
    ensures Prefix(buffer, 2 * i + 2, s + [u, v])
    ensures buffer[2 * i + 2..] == old(buffer[2 * i + 2..])
  {
    buffer[2 * i] := u;
    buffer[2 * i + 1] := v;
  }

  /** Writes one particle's projected position into its three slots. */
  method PutSlot(buffer: array<real>, i: nat, m: Mercator, ghost s: seq<real>)
    requires 3 * i + 3 <= buffer.Length && Prefix(buffer, 3 * i, s)
    modifies buffer
    ensures Prefix(buffer, 3 * i + 3, s + Slot(m))
    ensures buffer[3 * i + 3..] == old(buffer[3 * i + 3..])
  {
    buffer[3 * i] := m.x;
    buffer[3 * i + 1] := m.y;
    buffer[3 * i + 2] := m.z;
  }

  /** Writes one particle's colour into its three slots. */
  method PutTint(buffer: array<real>, i: nat, draw: real, ghost s: seq<real>)
    requires 3 * i + 3 <= buffer.Length && Prefix(buffer, 3 * i, s)
    modifies buffer
    ensures Prefix(buffer, 3 * i + 3, s + Tint(draw))
    ensures buffer[3 * i + 3..] == old(buffer[3 * i + 3..])
  {
    var blue := Blue(draw);
    buffer[3 * i] := 0.0;
    buffer[3 * i + 1] := blue * 0.4;
    buffer[3 * i + 2] := blue;
  }

  /** The buffers of `onAdd` hold the first `i` particles. */
  ghost predicate Placed(route: seq<Coord>, count: nat, mobile: bool, draws: seq<real>, project: Projection,
                         pos: array<real>, spd: array<real>, col: array<real>, siz: array<real>, off: array<real>,
                         i: nat)
    requires |route| >= 1 && i <= count && |draws| == 5 * count
    reads pos, spd, col, siz, off
  {
    && Prefix(pos, 3 * i, Flatten(InitialPoints(route, count, project)[..i]))
    && Prefix(spd, i, Speeds(draws, i))
    && Prefix(siz, i, Sizes(draws, i, mobile))
    && Prefix(off, 2 * i, Offsets(draws, i))
    && Prefix(col, 3 * i, ColorBuffer(draws, i))
  }

  /** One turn of the loop of `onAdd`: particle `i` is projected from its
      initial route point into slots 3i..3i+2 and gets its speed, size,
      offsets and colour from draws 5i..5i+4. */
  method PlaceParticle(route: seq<Coord>, count: nat, mobile: bool, draws: seq<real>, project: Projection,
                       pos: array<real>, spd: array<real>, col: array<real>, siz: array<real>, off: array<real>,
                       i: nat)
    requires |route| >= 1 && |draws| == 5 * count && i < count
    requires pos.Length == 3 * count && spd.Length == count && col.Length == 3 * count
    requires siz.Length == count && off.Length == 2 * count
    requires pos != spd && pos != col && pos != siz && pos != off && spd != col && spd != siz
    requires spd != off && col != siz && col != off && siz != off
    requires Placed(route, count, mobile, draws, project, pos, spd, col, siz, off, i)
    modifies pos, spd, col, siz, off
    ensures Placed(route, count, mobile, draws, project, pos, spd, col, siz, off, i + 1)
    ensures pos[3 * i + 3..] == old(pos[3 * i + 3..]) && col[3 * i + 3..] == old(col[3 * i + 3..])
    ensures spd[i + 1..] == old(spd[i + 1..]) && siz[i + 1..] == old(siz[i + 1..])
    ensures off[2 * i + 2..] == old(off[2 * i + 2..])
  {
    ghost var points := InitialPoints(route, count, project);
    var coord := route[InitialIndex(i, count, |route|)];
    var m := project(coord.lng, coord.lat);
    assert m == points[i];
    FlattenSnoc(points, i);
    PutSlot(pos, i, m, Flatten(points[..i]));
    PutOne(spd, i, Speed(draws[5 * i]), Speeds(draws, i));
    PutOne(siz, i, Size(draws[5 * i + 1], mobile), Sizes(draws, i, mobile));
    PutPair(off, i, CrossOffset(draws[5 * i + 2]), LatitudeOffset(draws[5 * i + 3]), Offsets(draws, i));
    PutTint(col, i, draws[5 * i + 4], ColorBuffer(draws, i));
    assert 2 * (i + 1) == 2 * i + 2 && 3 * (i + 1) == 3 * i + 3;
  }

  /** One turn of the loop of `render`: particle `i`'s position for the frame
      is projected into slots 3i..3i+2. */
  method MoveParticle(route: seq<Coord>, elapsed: real, speeds: seq<real>, offsets: seq<real>,
                      project: Projection, sqrt: real -> real, positions: array<real>, i: nat)
    requires |route| >= 1 && elapsed >= 0.0 && IsSqrt(sqrt)
    requires NonNegative(speeds) && |offsets| == 2 * |speeds| && i < |speeds|
    requires positions.Length == 3 * |speeds|
    requires Prefix(positions, 3 * i, Flatten(FramePoints(route, elapsed, speeds, offsets, project, sqrt)[..i]))
    modifies positions
    ensures Prefix(positions, 3 * i + 3, Flatten(FramePoints(route, elapsed, speeds, offsets, project, sqrt)[..i + 1]))
    ensures positions[3 * i + 3..] == old(positions[3 * i + 3..])
  {
    ghost var points := FramePoints(route, elapsed, speeds, offsets, project, sqrt);
    var progress := Progress(elapsed, speeds[i]);
    var coord := ParticleCoord(route, progress, offsets[2 * i], offsets[2 * i + 1], sqrt);
    var m := project(coord.lng, coord.lat);
    assert m == points[i];
    FlattenSnoc(points, i);
    PutSlot(positions, i, m, Flatten(points[..i]));
  }

  /** The loop of `onAdd`: every particle placed in turn. */
  method PlaceParticles(route: seq<Coord>, count: nat, mobile: bool, draws: seq<real>, project: Projection,
                        pos: array<real>, spd: array<real>, col: array<real>, siz: array<real>, off: array<real>)
    requires |route| >= 1 && |draws| == 5 * count
    requires pos.Length == 3 * count && spd.Length == count && col.Length == 3 * count
    requires siz.Length == count && off.Length == 2 * count
    requires pos != spd && pos != col && pos != siz && pos != off && spd != col && spd != siz
    requires spd != off && col != siz && col != off && siz != off
    modifies pos, spd, col, siz, off
    ensures pos[..] == Flatten(InitialPoints(route, count, project))
    ensures spd[..] == Speeds(draws, count)
    ensures siz[..] == Sizes(draws, count, mobile)
    ensures off[..] == Offsets(draws, count)
    ensures col[..] == ColorBuffer(draws, count)
  {
    var i := 0;
    while i < count
      invariant 0 <= i <= count
      invariant Placed(route, count, mobile, draws, project, pos, spd, col, siz, off, i)
    {
      PlaceParticle(route, count, mobile, draws, project, pos, spd, col, siz, off, i);
      i := i + 1;
    }
    assert InitialPoints(route, count, project)[..count] == InitialPoints(route, count, project);
    assert pos[..] == pos[..3 * count];
    assert spd[..] == spd[..count];
    assert siz[..] == siz[..count];
    assert off[..] == off[..2 * count];
    assert col[..] == col[..3 * count];
  }

  // ---------------------------------------------------------------------------
  // The custom layer

  class ParticleLayer {
    const route: seq<Coord>
    const count: nat
    const mobile: bool
    const positions: array<real>
    const speeds: array<real>
    const colors: array<real>
    const sizes: array<real>
    const offsets: array<real>

    ghost predicate Valid()
      reads this, speeds
    {
      && |route| >= 1
      && positions.Length == 3 * count && speeds.Length == count && colors.Length == 3 * count
      && sizes.Length == count && offsets.Length == 2 * count
      && positions != speeds && positions != offsets
      && forall i :: 0 <= i < count ==> 0.8 <= speeds[i] < 1.3
    }

    /** `onAdd`: allocate the buffers and place every particle. `draws` are the
        successive `Math.random()` results, five per particle (speed, size,
        cross-track offset, latitude offset, blue intensity). */
    constructor OnAdd(route: seq<Coord>, count: nat, mobile: bool, draws: seq<real>, project: Projection)
      requires |route| >= 1 && |draws| == 5 * count
      requires forall j :: 0 <= j < |draws| ==> 0.0 <= draws[j] < 1.0
      ensures Valid()
      ensures this.route == route && this.count == count && this.mobile == mobile
      ensures fresh(positions) && fresh(speeds) && fresh(colors) && fresh(sizes) && fresh(offsets)
      ensures positions[..] == Flatten(InitialPoints(route, count, project))
      ensures speeds[..] == Speeds(draws, count)
      ensures sizes[..] == Sizes(draws, count, mobile)
      ensures offsets[..] == Offsets(draws, count)
      ensures colors[..] == ColorBuffer(draws, count)
    {
      var pos := new real[3 * count];
      var spd := new real[count];
      var col := new real[3 * count];
      var siz := new real[count];
      var off := new real[2 * count];
      PlaceParticles(route, count, mobile, draws, project, pos, spd, col, siz, off);
      forall j | 0 <= j < count
        ensures 0.8 <= spd[j] < 1.3
      {
        SpeedsAt(draws, count, j);
        assert spd[j] == spd[..][j];
      }
      this.route := route;
      this.count := count;
      this.mobile := mobile;
      positions := pos;
      speeds := spd;
      colors := col;
      sizes := siz;
      offsets := off;
    }

    /** `render`: recompute every particle's position for `elapsed` seconds
        since the layer was added and write it into the particle's own slots. */
    method Render(elapsed: real, project: Projection, sqrt: real -> real)
      requires Valid() && elapsed >= 0.0 && IsSqrt(sqrt)
      modifies positions
      ensures Valid()
      ensures NonNegative(speeds[..])
      ensures positions[..] == Flatten(FramePoints(route, elapsed, speeds[..], offsets[..], project, sqrt))
    {
      assert NonNegative(speeds[..]) by {
        forall j | 0 <= j < speeds.Length ensures speeds[..][j] >= 0.0 {
          assert 0.8 <= speeds[j];
        }
      }
      ghost var points := FramePoints(route, elapsed, speeds[..], offsets[..], project, sqrt);
      var i := 0;
      while i < count
        invariant 0 <= i <= count
        invariant Prefix(positions, 3 * i, Flatten(points[..i]))
      {
        MoveParticle(route, elapsed, speeds[..], offsets[..], project, sqrt, positions, i);
        i := i + 1;
      }
      assert points[..count] == points;
      assert positions[..] == positions[..3 * count];
    }
  }

  // ---------------------------------------------------------------------------
  // Layer lifecycle

  /** Take the particle layer off the map if it is there (the effect's cleanup,
      and its branch for a missing map or route). */
  method RemoveParticleLayer(view: MapView?)
    requires view != null ==> view.Valid()
    modifies view
    ensures view != null ==> view.Valid() && ParticleLayerId !in view.layers
    ensures view != null ==>
      view.layers == Without(old(view.layers), ParticleLayerId) && view.sources == old(view.sources)
  {
    if view != null && view.HasLayer(ParticleLayerId) {
      view.RemoveLayer(ParticleLayerId);
    }
  }

  /** The effect run when the map or the route changes: with no map or an
      empty route, only the old layer is removed; otherwise the old layer is
      replaced by a fresh one built for the new route, so the map holds
      exactly one particle layer, on top. */
  method ShowParticles(view: MapView?, route: Option<seq<Coord>>, viewportWidth: int,
                       draws: seq<real>, project: Projection) returns (layer: ParticleLayer?)
    requires view != null ==> view.Valid()
    requires |draws| == 5 * ParticleCount(viewportWidth)
    requires forall j :: 0 <= j < |draws| ==> 0.0 <= draws[j] < 1.0
    modifies view
    ensures view != null ==> view.Valid() && view.sources == old(view.sources)
    ensures view == null || route.None? || route.value == [] ==> layer == null
    ensures view != null && (route.None? || route.value == []) ==>
      view.layers == Without(old(view.layers), ParticleLayerId)
    ensures view != null && route.Some? && route.value != [] ==>
      && layer != null && fresh(layer) && layer.Valid()
      && layer.route == route.value
      && layer.count == ParticleCount(viewportWidth)
      && layer.mobile == (viewportWidth < MobileBreakpoint)
      && view.layers == Without(old(view.layers), ParticleLayerId) + [ParticleLayerId]
  {
    if view == null || route.None? || route.value == [] {
      RemoveParticleLayer(view);
      return null;
    }
    RemoveParticleLayer(view);
    var mobile := viewportWidth < MobileBreakpoint;
    var count := if mobile then MobileCount else DesktopCount;
    layer := new ParticleLayer.OnAdd(route.value, count, mobile, draws, project);
    view.AddLayer(ParticleLayerId);
  }

  /** Removing the layer a second time changes nothing. */
  lemma {:induction false} RemoveTwice(layers: seq<string>)
    ensures Without(Without(layers, ParticleLayerId), ParticleLayerId) == Without(layers, ParticleLayerId)
  {
    WithoutIdempotent(layers, ParticleLayerId);
  }
}
