/**
 * The fire particle effect: a fixed population of particles kept in two flat
 * buffers (x, y, z per particle for positions, r, g, b per particle for
 * colours). Every frame each particle rises; one that rises above the ceiling
 * is recycled at the base. Random draws are supplied by the caller, each in
 * [0, 1).
 */
module FireEffect {

  /** Number of particles. */
  const COUNT: nat := 500

  /** Numbers per particle in each buffer. */
  const STRIDE: nat := 3

  /** Draws consumed per particle by the set-up: x, y, z and the colour mix. */
  const SETUP_DRAWS: nat := 4

  const SPREAD: real := 0.2
  const BASE_DEPTH: real := 0.1
  const RISE_BASE: real := 0.05
  const RISE_JITTER: real := 0.02
  const CEILING: real := 2.0

  /** A position in the effect's local space. */
  datatype Point = Point(x: real, y: real, z: real)

  /** A colour as three channels. */
  datatype Rgb = Rgb(r: real, g: real, b: real)

  /** Dark orange, 0xFF8C00, channel by channel. */
  const COLOR_START: Rgb := Rgb(1.0, 140.0 / 255.0, 0.0)

  /** Orange red, 0xFF4500, channel by channel. */
  const COLOR_END: Rgb := Rgb(1.0, 69.0 / 255.0, 0.0)

  predicate IsDraw(d: real)
  {
    0.0 <= d < 1.0
  }

  predicate AllDraws(ds: seq<real>)
  {
    forall i :: 0 <= i < |ds| ==> IsDraw(ds[i])
  }

  /** A horizontal offset centred on the axis. */
  function Spread(d: real): (r: real)
    ensures IsDraw(d) ==> -SPREAD / 2.0 <= r < SPREAD / 2.0
  {
    (d - 0.5) * SPREAD
  }

  /** A starting height near the base. */
  function BaseHeight(d: real): (r: real)
    ensures IsDraw(d) ==> 0.0 <= r < BASE_DEPTH
  {
    d * BASE_DEPTH
  }

  /** The rise of one frame. */
  function Rise(d: real): (r: real)
    ensures IsDraw(d) ==> RISE_BASE <= r < RISE_BASE + RISE_JITTER
  {
    RISE_BASE + d * RISE_JITTER
  }

  /** Linear interpolation from `a` (at t = 0) towards `b` (at t = 1), as three.js mixes one channel. */
  function Lerp(a: real, b: real, t: real): real
  {
    a + (b - a) * t
  }

  /** Mix two colours with one parameter shared by all three channels. */
  function LerpColor(s: Rgb, e: Rgb, t: real): Rgb
  {
    Rgb(Lerp(s.r, e.r, t), Lerp(s.g, e.g, t), Lerp(s.b, e.b, t))
  }

  /** The set-up's particle colour: dark orange mixed towards orange red by `t`. */
  function Mix(t: real): (c: Rgb)
    requires 0.0 <= t <= 1.0
    ensures Between(c, COLOR_START, COLOR_END)
    ensures t == 0.0 ==> c == COLOR_START
    ensures t == 1.0 ==> c == COLOR_END
  {
    LerpColor(COLOR_START, COLOR_END, t)
  }

  /** Each channel of `c` lies between the matching channels of `s` and `e`. */
  predicate Between(c: Rgb, s: Rgb, e: Rgb)
  {
    && Min(s.r, e.r) <= c.r <= Max(s.r, e.r)
    && Min(s.g, e.g) <= c.g <= Max(s.g, e.g)
    && Min(s.b, e.b) <= c.b <= Max(s.b, e.b)
  }

  function Min(a: real, b: real): real { if a <= b then a else b }

  function Max(a: real, b: real): real { if a <= b then b else a }

  /** Where a particle may be: on the base square, between floor and ceiling. */
  predicate InPlume(p: Point)
  {
    && -SPREAD / 2.0 <= p.x < SPREAD / 2.0
    && -SPREAD / 2.0 <= p.z < SPREAD / 2.0
    && 0.0 <= p.y <= CEILING
  }

  /** The particle that set-up creates from its four draws. */
  function Spawn(dx: real, dy: real, dz: real): (p: Point)
    requires IsDraw(dx) && IsDraw(dy) && IsDraw(dz)
    ensures InPlume(p)
    ensures -SPREAD / 2.0 <= p.x < SPREAD / 2.0 && -SPREAD / 2.0 <= p.z < SPREAD / 2.0
    ensures 0.0 <= p.y < BASE_DEPTH
  {
    Point(Spread(dx), BaseHeight(dy), Spread(dz))
  }

  /**
   * One frame for one particle: it rises by `Rise(rise)`; above the ceiling it
   * restarts on the floor with x and z re-drawn from `dx` and `dz`.
   */
  function Advance(p: Point, rise: real, dx: real, dz: real): (q: Point)
    requires IsDraw(rise) && IsDraw(dx) && IsDraw(dz)
    ensures InPlume(p) ==> InPlume(q)
    ensures p.y + Rise(rise) <= CEILING ==> q == Point(p.x, p.y + Rise(rise), p.z)
    ensures p.y + Rise(rise) > CEILING ==>
      q.y == 0.0 && -SPREAD / 2.0 <= q.x < SPREAD / 2.0 && -SPREAD / 2.0 <= q.z < SPREAD / 2.0
    ensures q.y == 0.0 || RISE_BASE <= q.y - p.y < RISE_BASE + RISE_JITTER
  {
    var y := p.y + Rise(rise);
    if y > CEILING then Point(Spread(dx), 0.0, Spread(dz)) else Point(p.x, y, p.z)
  }

  /** A recycled particle climbs back from the floor by one rise the next frame. */
  lemma RecycledClimbs(p: Point, rise: real, dx: real, dz: real, rise2: real, dx2: real, dz2: real)
    requires IsDraw(rise) && IsDraw(dx) && IsDraw(dz)
    requires IsDraw(rise2) && IsDraw(dx2) && IsDraw(dz2)
    requires p.y + Rise(rise) > CEILING
    ensures RISE_BASE <= Advance(Advance(p, rise, dx, dz), rise2, dx2, dz2).y < RISE_BASE + RISE_JITTER
  {
  }

  /** The ceiling is inclusive: a particle that lands exactly on it stays. */
  lemma CeilingIsInclusive(p: Point, rise: real, dx: real, dz: real)
    requires IsDraw(rise) && IsDraw(dx) && IsDraw(dz)
    requires p.y + Rise(rise) == CEILING
    ensures Advance(p, rise, dx, dz) == Point(p.x, CEILING, p.z)
  {
  }

  /** Particle `i` of a flat stride-3 buffer. */
  function PointAt(buf: seq<real>, i: nat): Point
    requires STRIDE * i + 2 < |buf|
  {
    Point(buf[STRIDE * i], buf[STRIDE * i + 1], buf[STRIDE * i + 2])
  }

  /** Colour `i` of a flat stride-3 buffer: the same triple read as channels. */
  function TintAt(buf: seq<real>, i: nat): Rgb
    requires STRIDE * i + 2 < |buf|
  {
    var p := PointAt(buf, i);
    Rgb(p.x, p.y, p.z)
  }

  /** Write slot `i` of a full stride-3 buffer, leaving every other slot alone. */
  method PutSlot(a: array<real>, i: nat, u: real, v: real, w: real)
    requires a.Length == STRIDE * COUNT && i < COUNT
    modifies a
    ensures PointAt(a[..], i) == Point(u, v, w)
    ensures forall j :: 0 <= j < COUNT && j != i ==> PointAt(a[..], j) == PointAt(old(a[..]), j)
  {
    a[STRIDE * i], a[STRIDE * i + 1], a[STRIDE * i + 2] := u, v, w;
  }

  /** Every particle of a full position buffer is in the plume. */
  ghost predicate Plume(buf: seq<real>)
    requires |buf| == STRIDE * COUNT
  {
    forall i :: 0 <= i < COUNT ==> InPlume(PointAt(buf, i))
  }

  /** The fire effect's particle buffers. */
  class Particles {
    const positions: array<real>
    const colors: array<real>

    ghost predicate Valid()
      reads positions
    {
      && positions.Length == STRIDE * COUNT
      && colors.Length == STRIDE * COUNT
      && positions != colors
      && Plume(positions[..])
    }

    /**
     * Set-up: particle i is spawned from draws 4i, 4i + 1, 4i + 2 and coloured
     * by mixing the two endpoint colours with draw 4i + 3.
     */
    constructor (draws: seq<real>)
      requires |draws| == SETUP_DRAWS * COUNT && AllDraws(draws)
      ensures Valid() && fresh(positions) && fresh(colors)
      ensures forall i :: 0 <= i < COUNT ==>
        PointAt(positions[..], i) ==
          Spawn(draws[SETUP_DRAWS * i], draws[SETUP_DRAWS * i + 1], draws[SETUP_DRAWS * i + 2])
      ensures forall i :: 0 <= i < COUNT ==>
        TintAt(colors[..], i) == Mix(draws[SETUP_DRAWS * i + 3])
    {
      var pos := new real[STRIDE * COUNT];
      var col := new real[STRIDE * COUNT];
      for i := 0 to COUNT
        invariant forall j :: 0 <= j < i ==>
          PointAt(pos[..], j) ==
            Spawn(draws[SETUP_DRAWS * j], draws[SETUP_DRAWS * j + 1], draws[SETUP_DRAWS * j + 2])
        invariant forall j :: 0 <= j < i ==>
          TintAt(col[..], j) == Mix(draws[SETUP_DRAWS * j + 3])
      {
        var p := Spawn(draws[SETUP_DRAWS * i], draws[SETUP_DRAWS * i + 1], draws[SETUP_DRAWS * i + 2]);
        var c := Mix(draws[SETUP_DRAWS * i + 3]);
        PutSlot(pos, i, p.x, p.y, p.z);
        ghost var before := col[..];
        PutSlot(col, i, c.r, c.g, c.b);
        forall j | 0 <= j < i
          ensures TintAt(col[..], j) == TintAt(before, j)
        {
          assert PointAt(col[..], j) == PointAt(before, j);
        }
      }
      positions := pos;
      colors := col;
    }

    /**
     * One frame: particle i rises by `Rise(draws[3i])` and, if that takes it
     * above the ceiling, restarts on the floor at x, z drawn from draws 3i + 1
     * and 3i + 2. The colours are left alone.
     */
    method Tick(draws: seq<real>)
      requires Valid()
      requires |draws| == STRIDE * COUNT && AllDraws(draws)
      modifies positions
      ensures Valid()
      ensures forall i :: 0 <= i < COUNT ==>
        PointAt(positions[..], i) ==
          Advance(PointAt(old(positions[..]), i),
                  draws[STRIDE * i], draws[STRIDE * i + 1], draws[STRIDE * i + 2])
      ensures colors[..] == old(colors[..])
    {
      var i := 0;
      ghost var n := 0;
      while i < positions.Length
        invariant i == STRIDE * n && n <= COUNT
        invariant forall j :: 0 <= j < n ==>
          PointAt(positions[..], j) ==
            Advance(PointAt(old(positions[..]), j),
                    draws[STRIDE * j], draws[STRIDE * j + 1], draws[STRIDE * j + 2])
        invariant forall k :: i <= k < positions.Length ==> positions[k] == old(positions[k])
      {
        ghost var p := PointAt(positions[..], n);
        positions[i + 1] := positions[i + 1] + Rise(draws[i]);
        if positions[i + 1] > CEILING {
          positions[i + 1] := 0.0;
          positions[i] := Spread(draws[i + 1]);
          positions[i + 2] := Spread(draws[i + 2]);
        }
        assert PointAt(positions[..], n) == Advance(p, draws[i], draws[i + 1], draws[i + 2]);
        i := i + STRIDE;
        n := n + 1;
      }
      assert forall j :: 0 <= j < COUNT ==> InPlume(PointAt(old(positions[..]), j));
    }
  }
}
