/** The procedural planet: a height field over a latitude × longitude grid,
    made of fractal noise and craters, and the surface radius and normal it
    gives in any direction. */
module Planets {
  import opened RealMath
  import opened Vectors
  import opened Options
  import Rows

  /** Base radius, grid size and the fraction of the radius a height of ±1
      moves the surface by. */
  datatype PlanetConfig = PlanetConfig(baseRadius: real, latSteps: nat, lonSteps: nat, heightScale: real)

  const DefaultConfig: PlanetConfig := PlanetConfig(2.0, 180, 360, 0.25)

  /** Number of noise octaves. */
  const Octaves: nat := 4

  /** `1 + 0.5 + 0.25 + 0.125`, the sum of the octave amplitudes. */
  const AmplitudeSum: real := 1.875

  /** One crater: centre latitude and longitude, angular radius and (negative)
      depth. */
  datatype Crater = Crater(centerLat: real, centerLon: real, radius: real, depth: real)

  /** The random draws `generate` consumes: a latitude and a longitude phase
      per octave, then the craters. */
  datatype Draws = Draws(phases: seq<(real, real)>, craters: seq<Crater>)

  /** The ranges the draws come from: phases uniform in [0, 2π), between 12
      and 23 craters, centres on the sphere, radii in [0.05, 0.18) and depths
      in [-0.5, -0.1). */
  predicate WellFormed(d: Draws)
  {
    && |d.phases| == Octaves
    && (forall k :: 0 <= k < Octaves ==> 0.0 <= d.phases[k].0 < Tau && 0.0 <= d.phases[k].1 < Tau)
    && 12 <= |d.craters| < 24
    && forall c :: c in d.craters ==>
         && -Pi / 2.0 <= c.centerLat < Pi / 2.0
         && 0.0 <= c.centerLon < Tau
         && 0.05 <= c.radius < 0.18
         && -0.5 <= c.depth < -0.1
  }

  // The grid.

  /** Latitude of row `i`: `L` evenly spaced values from -π/2 to π/2
      (`linspace`, which gives just -π/2 for a single row). */
  function LatAt(i: nat, L: nat): real
  {
    if L <= 1 then -Pi / 2.0 else -Pi / 2.0 + i as real * (Pi / (L - 1) as real)
  }

  /** Longitude of column `j`: `N` evenly spaced values from 0, excluding 2π. */
  function LonAt(j: nat, N: nat): real
  {
    if N == 0 then 0.0 else j as real * (Tau / N as real)
  }

  /** The latitude and longitude axes of the grid: the latitudes run from the
      south pole to the north pole, the longitudes cover one turn. */
  function PolarGrid(config: PlanetConfig): (axes: (seq<real>, seq<real>))
    ensures |axes.0| == config.latSteps && |axes.1| == config.lonSteps
    ensures forall i :: 0 <= i < |axes.0| ==> -Pi / 2.0 <= axes.0[i] <= Pi / 2.0
    ensures 1 <= |axes.0| ==> axes.0[0] == -Pi / 2.0
    ensures 2 <= |axes.0| ==> axes.0[|axes.0| - 1] == Pi / 2.0
    ensures 1 <= |axes.1| ==> axes.1[0] == 0.0
    ensures forall j :: 0 <= j < |axes.1| ==> 0.0 <= axes.1[j] < Tau
    ensures forall i :: 0 <= i < |axes.0| ==> axes.0[i] == LatAt(i, config.latSteps)
    ensures forall j :: 0 <= j < |axes.1| ==> axes.1[j] == LonAt(j, config.lonSteps)
  {
    var lats := seq(config.latSteps, i requires 0 <= i => LatAt(i, config.latSteps));
    var lons := seq(config.lonSteps, j requires 0 <= j => LonAt(j, config.lonSteps));
    forall i | 0 <= i < |lats|
      ensures -Pi / 2.0 <= lats[i] <= Pi / 2.0
    {
      LatInRange(i, config.latSteps);
    }
    forall j | 0 <= j < |lons|
      ensures 0.0 <= lons[j] < Tau
    {
      LonInRange(j, config.lonSteps);
    }
    (lats, lons)
  }

  lemma LatInRange(i: nat, L: nat)
    requires i < L
    ensures -Pi / 2.0 <= LatAt(i, L) <= Pi / 2.0
  {
    if 1 < L {
      var step := Pi / (L - 1) as real;
      assert (L - 1) as real * step == Pi;
      ScaleMonotone(step, i as real, (L - 1) as real);
      MulNonneg(i as real, step);
    }
  }

  lemma LonInRange(j: nat, N: nat)
    requires j < N
    ensures 0.0 <= LonAt(j, N) < Tau
  {
    var step := Tau / N as real;
    assert N as real * step == Tau;
    ScaleStrict(step, j as real, N as real);
    MulNonneg(j as real, step);
  }

  // Fractal noise.

  /** Frequency of octave `k`: 1, doubled per octave. */
  function Freq(k: nat): real
  {
    if k == 0 then 1.0 else Freq(k - 1) * 2.0
  }

  /** Amplitude of octave `k`: 1, halved per octave. */
  function Amp(k: nat): (a: real)
    ensures 0.0 < a
  {
    if k == 0 then 1.0 else Amp(k - 1) * 0.5
  }

  /** The wave of one octave at a point. */
  function Wave(m: Elementary, lat: real, lon: real, phase: (real, real), freq: real): real
  {
    m.sin(lat * freq + phase.0) * m.cos(lon * freq + phase.1)
  }

  /** Octave `k`: its wave at its frequency, weighted by its amplitude. */
  function Octave(m: Elementary, lat: real, lon: real, phases: seq<(real, real)>, k: nat): real
    requires k < |phases|
  {
    Amp(k) * Wave(m, lat, lon, phases[k], Freq(k))
  }

  /** The sum of the first `k` octaves. */
  function FbmSum(m: Elementary, lat: real, lon: real, phases: seq<(real, real)>, k: nat): real
    requires k <= |phases|
  {
    if k == 0 then 0.0
    else FbmSum(m, lat, lon, phases, k - 1) + Octave(m, lat, lon, phases, k - 1)
  }

  /** The normalised noise value at a point. */
  function FbmValue(m: Elementary, lat: real, lon: real, phases: seq<(real, real)>): real
    requires |phases| == Octaves
  {
    FbmSum(m, lat, lon, phases, |phases|) / AmplitudeSum
  }

  /** The octave loop at one grid point: each pass adds the amplitude times
      the wave, doubles the frequency and halves the amplitude; the total is
      divided by the sum of the amplitudes. */
  method FbmNoise(m: Elementary, lat: real, lon: real, phases: seq<(real, real)>) returns (total: real)
    requires |phases| == Octaves
    ensures total == FbmValue(m, lat, lon, phases)
  {
    var freq, amplitude := 1.0, 1.0;
    total := 0.0;
    var k := 0;
    while k < Octaves
      invariant 0 <= k <= Octaves
      invariant freq == Freq(k) && amplitude == Amp(k)
      invariant total == FbmSum(m, lat, lon, phases, k)
    {
      total := total + amplitude * Wave(m, lat, lon, phases[k], freq);
      freq := freq * 2.0;
      amplitude := amplitude * 0.5;
      k := k + 1;
    }
    total := total / (1.0 + 0.5 + 0.25 + 0.125);
  }

  /** Each octave's wave lies in [-1, 1]. */
  lemma WaveBounded(m: Elementary, lat: real, lon: real, phase: (real, real), freq: real)
    requires Lawful(m)
    ensures -1.0 <= Wave(m, lat, lon, phase, freq) <= 1.0
  {
    SinCosBounded(m, lat * freq + phase.0);
    SinCosBounded(m, lon * freq + phase.1);
    UnitProduct(m.sin(lat * freq + phase.0), m.cos(lon * freq + phase.1));
  }

  /** Octave `k` is at most its amplitude in magnitude. */
  lemma OctaveBounded(m: Elementary, lat: real, lon: real, phases: seq<(real, real)>, k: nat)
    requires Lawful(m) && k < |phases|
    ensures -Amp(k) <= Octave(m, lat, lon, phases, k) <= Amp(k)
  {
    var w := Wave(m, lat, lon, phases[k], Freq(k));
    WaveBounded(m, lat, lon, phases[k], Freq(k));
    assert -1.0 <= w <= 1.0;
    var a := Amp(k);
    assert 0.0 < a;
    UnitScale(a, w);
    assert -a <= a * w <= a;
    assert Octave(m, lat, lon, phases, k) == a * w;
  }

  /** The first `k` octaves add up to at most `2 - 2·Amp(k)` in magnitude, the sum of their amplitudes. */
  lemma {:induction false} FbmSumBounded(m: Elementary, lat: real, lon: real, phases: seq<(real, real)>, k: nat)
    requires Lawful(m) && k <= |phases|
    ensures -(2.0 - 2.0 * Amp(k)) <= FbmSum(m, lat, lon, phases, k) <= 2.0 - 2.0 * Amp(k)
  {
    if k > 0 {
      FbmSumBounded(m, lat, lon, phases, k - 1);
      OctaveBounded(m, lat, lon, phases, k - 1);
      var s, a, o := FbmSum(m, lat, lon, phases, k - 1), Amp(k - 1), Octave(m, lat, lon, phases, k - 1);
      assert FbmSum(m, lat, lon, phases, k) == s + o;
      assert Amp(k) == a * 0.5;
      OctaveStep(s, a, o);
    }
  }

  /** Adding a term of magnitude at most `a` to a sum bounded by `2 - 2a`
      gives a sum bounded by `2 - a`. */
  lemma OctaveStep(s: real, a: real, p: real)
    requires -(2.0 - 2.0 * a) <= s <= 2.0 - 2.0 * a
    requires -a <= p <= a
    ensures -(2.0 - 2.0 * (a * 0.5)) <= s + p <= 2.0 - 2.0 * (a * 0.5)
  {
  }

  /** The normalised noise lies in [-1, 1]. */
  lemma FbmBounded(m: Elementary, lat: real, lon: real, phases: seq<(real, real)>)
    requires Lawful(m) && |phases| == Octaves
    ensures -1.0 <= FbmValue(m, lat, lon, phases) <= 1.0
  {
    FbmSumBounded(m, lat, lon, phases, Octaves);
    assert Amp(Octaves) == 0.0625;
  }

  // Craters.

  /** Haversine angular distance between a grid point and a crater centre. */
  function AngularDistance(m: Elementary, lat: real, lon: real, centerLat: real, centerLon: real): real
  {
    2.0 * m.atan2(m.sqrt(Haversine(m, lat, lon, centerLat, centerLon)), m.sqrt(1.0 - Haversine(m, lat, lon, centerLat, centerLon) + 0.000001))
  }

  /** The haversine term `sin²(Δlat/2) + cos(lat)·cos(centerLat)·sin²(Δlon/2)`. */
  function Haversine(m: Elementary, lat: real, lon: real, centerLat: real, centerLon: real): real
  {
    Sq(m.sin((lat - centerLat) / 2.0)) + m.cos(lat) * m.cos(centerLat) * Sq(m.sin((lon - centerLon) / 2.0))
  }

  /** Between latitudes on the sphere the angular distance is in [0, 2π]:
      the haversine term is then non-negative, so its square root is. */
  lemma AngularDistanceBounded(m: Elementary, lat: real, lon: real, centerLat: real, centerLon: real)
    requires Lawful(m) && TrigLawful(m)
    requires -Pi / 2.0 <= lat <= Pi / 2.0 && -Pi / 2.0 <= centerLat <= Pi / 2.0
    ensures 0.0 <= AngularDistance(m, lat, lon, centerLat, centerLon) <= Tau
  {
    var a := Haversine(m, lat, lon, centerLat, centerLon);
    MulNonneg(m.cos(lat), m.cos(centerLat));
    MulNonneg(m.cos(lat) * m.cos(centerLat), Sq(m.sin((lon - centerLon) / 2.0)));
    SqSign(m.sin((lat - centerLat) / 2.0));
    assert 0.0 <= a;
    assert 0.0 <= m.sqrt(a);
  }

  /** A crater's centre is at angular distance zero from itself. */
  lemma CentreDistanceZero(m: Elementary, lat: real, lon: real)
    requires Lawful(m) && TrigLawful(m)
    ensures AngularDistance(m, lat, lon, lat, lon) == 0.0
  {
    assert (lat - lat) / 2.0 == 0.0 && (lon - lon) / 2.0 == 0.0;
    assert Haversine(m, lat, lon, lat, lon) == 0.0;
    SqrtZero(m);
    SqrtPositive(m, 1.0 + 0.000001);
  }

  /** The Gaussian dent one crater makes at a point. */
  function Bump(m: Elementary, lat: real, lon: real, c: Crater): real
    requires c.radius != 0.0
  {
    SqSign(c.radius);
    var dist := AngularDistance(m, lat, lon, c.centerLat, c.centerLon);
    c.depth * m.exp(-Sq(dist) / (2.0 * Sq(c.radius)))
  }

  /** The running minimum of zero and the first `k` craters' dents. It never
      raises the surface. */
  function CraterFloor(m: Elementary, lat: real, lon: real, cs: seq<Crater>, k: nat): (r: real)
    requires k <= |cs| && forall c :: c in cs ==> c.radius != 0.0
    ensures r <= 0.0
  {
    if k == 0 then 0.0
    else Min(CraterFloor(m, lat, lon, cs, k - 1), Bump(m, lat, lon, cs[k - 1]))
  }

  /** The crater floor is the deepest of the dents, not their sum: it is at
      most every one of the first `k` dents, and it is zero or one of them. */
  lemma {:induction false} CraterFloorIsMinimum(m: Elementary, lat: real, lon: real, cs: seq<Crater>, k: nat)
    requires k <= |cs| && forall c :: c in cs ==> c.radius != 0.0
    ensures forall q :: 0 <= q < k ==> CraterFloor(m, lat, lon, cs, k) <= Bump(m, lat, lon, cs[q])
    ensures CraterFloor(m, lat, lon, cs, k) == 0.0 || exists q :: 0 <= q < k && CraterFloor(m, lat, lon, cs, k) == Bump(m, lat, lon, cs[q])
  {
    if k > 0 {
      CraterFloorIsMinimum(m, lat, lon, cs, k - 1);
      var prev, b := CraterFloor(m, lat, lon, cs, k - 1), Bump(m, lat, lon, cs[k - 1]);
      var floor := CraterFloor(m, lat, lon, cs, k);
      assert floor == Min(prev, b);
      assert floor <= prev && floor <= b;
      if b < prev {
        assert floor == b;
      } else {
        assert floor == prev;
      }
    }
  }

  /** The crater loop at one grid point: start from zero and keep the
      element-wise minimum with each crater's dent. */
  method CraterField(m: Elementary, lat: real, lon: real, cs: seq<Crater>) returns (craters: real)
    requires forall c :: c in cs ==> c.radius != 0.0
    ensures craters == CraterFloor(m, lat, lon, cs, |cs|)
  {
    craters := 0.0;
    var k := 0;
    while k < |cs|
      invariant 0 <= k <= |cs|
      invariant craters == CraterFloor(m, lat, lon, cs, k)
    {
      var crater := Bump(m, lat, lon, cs[k]);
      assert CraterFloor(m, lat, lon, cs, k + 1) == Min(craters, crater);
      craters := Min(craters, crater);
      k := k + 1;
    }
  }

  /** The height of one grid cell: 70% noise plus 30% craters, clipped to
      [-1, 1]. */
  function CellHeight(m: Elementary, draws: Draws, lat: real, lon: real): (h: real)
    requires WellFormed(draws)
    ensures -1.0 <= h <= 1.0
  {
    Clip(FbmValue(m, lat, lon, draws.phases) * 0.7 + CraterFloor(m, lat, lon, draws.craters, |draws.craters|) * 0.3, -1.0, 1.0)
  }

  /** Craters only ever lower the surface and the noise is at most one, so a
      height never exceeds 0.7: the upper clip at 1 never applies. */
  lemma CellHeightAtMost(m: Elementary, draws: Draws, lat: real, lon: real)
    requires Lawful(m) && WellFormed(draws)
    ensures CellHeight(m, draws, lat, lon) <= 0.7
  {
    FbmBounded(m, lat, lon, draws.phases);
  }

  // Looking up the grid from a direction.

  /** The polar angle θ in [0, π] of a direction, measured from the +z axis. */
  function Colatitude(m: Elementary, d: Vec3): (theta: real)
    requires Lawful(m) && d != Zero
    ensures 0.0 <= theta <= Pi
  {
    m.acos(Clip(d.z / Norm(m, d), -1.0, 1.0))
  }

  /** The azimuth φ in [0, 2π) of a direction. */
  function Azimuth(m: Elementary, d: Vec3): (phi: real)
    ensures 0.0 <= phi < Tau
  {
    WrapAngle(m.atan2(d.y, d.x))
  }

  /** The fractional row `θ/π · (L - 1)`, in [0, L - 1]. */
  function LatCoord(theta: real, L: nat): (x: real)
    requires 0.0 <= theta <= Pi && 1 <= L
    ensures 0.0 <= x <= (L - 1) as real
  {
    var f := theta / Pi;
    MulNonneg(f, (L - 1) as real);
    ScaleMonotone((L - 1) as real, f, 1.0);
    f * (L - 1) as real
  }

  /** The fractional column `φ/2π · N`, in [0, N). */
  function LonCoord(phi: real, N: nat): (y: real)
    requires 0.0 <= phi < Tau && 1 <= N
    ensures 0.0 <= y < N as real
  {
    var f := phi / Tau;
    MulNonneg(f, N as real);
    ScaleStrict(N as real, f, 1.0);
    f * N as real
  }

  /** The row `radius_at_direction` reads: the truncated fractional row, a
      valid row index. */
  function LatIndex(theta: real, L: nat): (i: nat)
    requires 0.0 <= theta <= Pi && 1 <= L
    ensures i < L
    ensures i as real <= LatCoord(theta, L) < i as real + 1.0
  {
    Trunc(LatCoord(theta, L))
  }

  /** The column `radius_at_direction` reads: the truncated fractional column
      modulo `N`, a valid column index (the modulo changes nothing). */
  function LonIndex(phi: real, N: nat): (j: nat)
    requires 0.0 <= phi < Tau && 1 <= N
    ensures j < N
    ensures j == Trunc(LonCoord(phi, N))
  {
    Trunc(LonCoord(phi, N)) % N
  }

  /** The four grid corners around a fractional position and the weights
      within the cell. */
  datatype Cell = Cell(lat0: nat, lat1: nat, lon0: nat, lon1: nat, u: real, v: real)

  /** The cell `normal_at_direction` interpolates in: the lower row and
      column by flooring, the next row clamped to the last one, the next
      column wrapping around, and the weights the fractional parts. */
  function BilinearCell(lat: real, lon: real, L: nat, N: nat): (c: Cell)
    requires 1 <= L && 1 <= N
    requires 0.0 <= lat <= (L - 1) as real && 0.0 <= lon < N as real
    ensures c.lat0 < L && c.lat1 < L && c.lon0 < N && c.lon1 < N
    ensures c.lat0 <= c.lat1 <= c.lat0 + 1 && (c.lat1 == c.lat0 <==> c.lat0 == L - 1)
    ensures c.lon1 == (c.lon0 + 1) % N
    ensures c.lat0 as real + c.u == lat && c.lon0 as real + c.v == lon
    ensures 0.0 <= c.u < 1.0 && 0.0 <= c.v < 1.0
  {
    var lat0, lon0 := lat.Floor, lon.Floor;
    var lat1 := if lat0 + 1 < L - 1 then lat0 + 1 else L - 1;
    Cell(lat0, lat1, lon0, (lon0 + 1) % N, lat - lat0 as real, lon - lon0 as real)
  }

  class Planet {
    const config: PlanetConfig
    var heights: array2<real>

    /** The height field has one cell per grid point. */
    predicate Shaped()
      reads this
    {
      heights.Length0 == config.latSteps && heights.Length1 == config.lonSteps
    }

    /** The height field is shaped to the grid and has at least one row and
        one column, so a direction can be looked up in it. */
    predicate Sampleable()
      reads this
    {
      Shaped() && 1 <= config.latSteps && 1 <= config.lonSteps
    }

    /** The height field is shaped to the grid and every height is in
        [-1, 1]. */
    predicate Valid()
      reads this, heights
    {
      && Shaped()
      && forall i, j :: 0 <= i < heights.Length0 && 0 <= j < heights.Length1 ==> -1.0 <= heights[i, j] <= 1.0
    }

    /** A flat planet with the given configuration, or the default one. */
    constructor (config: Option<PlanetConfig>)
      ensures this.config == (if config.Some? then config.value else DefaultConfig)
      ensures Valid() && fresh(heights)
      ensures forall i, j :: 0 <= i < heights.Length0 && 0 <= j < heights.Length1 ==> heights[i, j] == 0.0
    {
      var c := if config.Some? then config.value else DefaultConfig;
      this.config := c;
      heights := new real[c.latSteps, c.lonSteps]((i, j) => 0.0);
    }

    /** Replace the height field by a new one built from the draws: each cell
        is the clipped mix of noise and craters at its grid point. */
    method Generate(m: Elementary, draws: Draws)
      requires WellFormed(draws)
      modifies this
      ensures fresh(heights) && Valid()
      ensures forall i, j :: 0 <= i < heights.Length0 && 0 <= j < heights.Length1 ==>
        heights[i, j] == CellHeight(m, draws, LatAt(i, config.latSteps), LonAt(j, config.lonSteps))
    {
      var axes := PolarGrid(config);
      var lats, lons := axes.0, axes.1;
      var h := new real[config.latSteps, config.lonSteps];
      var i := 0;
      while i < h.Length0
        invariant 0 <= i <= h.Length0
        invariant forall i', j :: 0 <= i' < i && 0 <= j < h.Length1 ==> h[i', j] == CellHeight(m, draws, lats[i'], lons[j])
      {
        FillRow(m, draws, h, i, lats[i], lons);
        i := i + 1;
      }
      heights := h;
    }

    /** A copy of the height field: equal contents, but a fresh array, so
        writing to it leaves the planet unchanged. */
    method HeightMap() returns (copy: array2<real>)
      ensures fresh(copy)
      ensures copy.Length0 == heights.Length0 && copy.Length1 == heights.Length1
      ensures forall i, j :: 0 <= i < copy.Length0 && 0 <= j < copy.Length1 ==> copy[i, j] == heights[i, j]
    {
      var h := heights;
      copy := new real[h.Length0, h.Length1]((i, j) reads h =>
        if 0 <= i < h.Length0 && 0 <= j < h.Length1 then h[i, j] else 0.0);
    }

    /** The height field as a value, read by the direction lookups: the
        configuration and the heights row by row. A shaped, non-empty height
        field gives a field the lookups accept, and a valid one a bounded
        field. */
    function Field(): (f: HeightField)
      reads this, heights
      ensures f.config == config && |f.rows| == heights.Length0
      ensures forall i :: 0 <= i < |f.rows| ==> |f.rows[i]| == heights.Length1
      ensures forall i, j :: 0 <= i < heights.Length0 && 0 <= j < heights.Length1 ==> f.rows[i][j] == heights[i, j]
      ensures Sampleable() ==> FieldShaped(f)
      ensures Valid() ==> FieldBounded(f)
    {
      var h := heights;
      HeightField(config, seq(h.Length0, i reads h =>
        seq(h.Length1, j reads h => if 0 <= i < h.Length0 && 0 <= j < h.Length1 then h[i, j] else 0.0)))
    }
  }

  /** A planet's height field as a value: its configuration and its heights,
      `rows[i][j]` at latitude index `i` and longitude index `j`. */
  datatype HeightField = HeightField(config: PlanetConfig, rows: seq<seq<real>>)

  /** The heights form a `lat_steps × lon_steps` grid with at least one row
      and one column. */
  predicate FieldShaped(f: HeightField)
  {
    && 1 <= f.config.latSteps && 1 <= f.config.lonSteps
    && |f.rows| == f.config.latSteps
    && forall i :: 0 <= i < |f.rows| ==> |f.rows[i]| == f.config.lonSteps
  }

  /** Every height is in [-1, 1]. */
  predicate FieldBounded(f: HeightField)
  {
    forall i, j :: 0 <= i < |f.rows| && 0 <= j < |f.rows[i]| ==> -1.0 <= f.rows[i][j] <= 1.0
  }

  /** The surface radius in a direction: the height at the grid point found
      by truncating the direction's fractional row and column scales the
      base radius by `1 + height_scale · height`. */
  function SurfaceRadius(m: Elementary, f: HeightField, d: Vec3): real
    requires Lawful(m) && d != Zero && FieldShaped(f)
  {
    var i := LatIndex(Colatitude(m, d), f.config.latSteps);
    var j := LonIndex(Azimuth(m, d), f.config.lonSteps);
    f.config.baseRadius * (1.0 + f.config.heightScale * f.rows[i][j])
  }

  /** `radius_at_direction` as a function value, as the renderer's marcher
      consumes it. */
  function RadiusOf(m: Elementary, f: HeightField): Vec3 -> real
    requires Lawful(m) && FieldShaped(f)
  {
    d => RadiusAt(m, f, d)
  }

  /** The surface radius in every non-zero direction; 0 for the zero
      direction, which the marcher never looks up (it nudges past the
      centre first). */
  function RadiusAt(m: Elementary, f: HeightField, d: Vec3): real
    requires Lawful(m) && FieldShaped(f)
  {
    if d == Zero then 0.0 else SurfaceRadius(m, f, d)
  }

  /** With every height in [-1, 1], the surface radius stays within
      `height_scale` of the base radius, relatively. */
  lemma SurfaceRadiusBounds(m: Elementary, f: HeightField, d: Vec3)
    requires Lawful(m) && d != Zero && FieldShaped(f) && FieldBounded(f)
    requires 0.0 <= f.config.baseRadius && 0.0 <= f.config.heightScale
    ensures f.config.baseRadius * (1.0 - f.config.heightScale) <= SurfaceRadius(m, f, d)
    ensures SurfaceRadius(m, f, d) <= f.config.baseRadius * (1.0 + f.config.heightScale)
  {
    var i := LatIndex(Colatitude(m, d), f.config.latSteps);
    var j := LonIndex(Azimuth(m, d), f.config.lonSteps);
    var h := f.rows[i][j];
    assert -1.0 <= h <= 1.0;
    assert SurfaceRadius(m, f, d) == f.config.baseRadius * (1.0 + f.config.heightScale * h);
    RadiusBounds(f.config.baseRadius, f.config.heightScale, h);
  }

  /** The bump-mapped surface normal in a direction: the radial direction
      tilted against the height gradient of the surrounding grid cell, then
      normalised. It is a unit vector (or zero where the tilt cancels the
      radial direction), and on a flat planet it is the radial direction. */
  function SurfaceNormal(m: Elementary, f: HeightField, d: Vec3): (n: Vec3)
    requires Lawful(m) && d != Zero && FieldShaped(f)
    ensures n == Zero || Dot(n, n) == 1.0
    ensures f.config.heightScale == 0.0 ==> n == Normalize(m, d)
  {
    var L, N := f.config.latSteps, f.config.lonSteps;
    var c := BilinearCell(LatCoord(Colatitude(m, d), L), LonCoord(Azimuth(m, d), N), L, N);
    var h00, h10 := f.rows[c.lat0][c.lon0], f.rows[c.lat1][c.lon0];
    var h01, h11 := f.rows[c.lat0][c.lon1], f.rows[c.lat1][c.lon1];
    var dhDlat := (1.0 - c.v) * (h10 - h00) + c.v * (h11 - h01);
    var dhDlon := (1.0 - c.u) * (h01 - h00) + c.u * (h11 - h10);
    Tilt(m, Normalize(m, d), dhDlat, dhDlon, f.config.heightScale)
  }

  /** One pass of the outer grid loop: compute the heights of row `i`, at
      latitude `lat`, then store them, leaving the other rows alone. */
  method FillRow(m: Elementary, draws: Draws, h: array2<real>, i: nat, lat: real, lons: seq<real>)
    requires WellFormed(draws) && i < h.Length0 && |lons| == h.Length1
    modifies h
    ensures forall j :: 0 <= j < h.Length1 ==> h[i, j] == CellHeight(m, draws, lat, lons[j])
    ensures forall r, c :: 0 <= r < h.Length0 && 0 <= c < h.Length1 && r != i ==> h[r, c] == old(h[r, c])
  {
    var row := RowHeights(m, draws, lat, lons);
    Rows.CollectPointwise(HeightAlong(m, draws, lat), lons, |lons|);
    Rows.StoreRow(h, i, row);
    forall j | 0 <= j < h.Length1
      ensures h[i, j] == CellHeight(m, draws, lat, lons[j])
    {
      assert h[i, j] == row[j] == HeightAlong(m, draws, lat)(lons[j]);
    }
  }

  /** The heights along one latitude, column by column, in order. */
  method RowHeights(m: Elementary, draws: Draws, lat: real, lons: seq<real>) returns (row: seq<real>)
    requires WellFormed(draws)
    ensures row == Rows.Collect(HeightAlong(m, draws, lat), lons, |lons|)
  {
    ghost var cell := HeightAlong(m, draws, lat);
    row := [];
    var j := 0;
    while j < |lons|
      invariant 0 <= j <= |lons|
      invariant row == Rows.Collect(cell, lons, j)
    {
      var height := ComputeCell(m, draws, lat, lons[j]);
      assert height == cell(lons[j]);
      row := row + [height];
      j := j + 1;
    }
  }

  /** Proof helper for the grid loop, not an operation of the planet:
      `CellHeight` along one latitude as a function of the longitude, so that
      a row of heights can be specified with `Rows.Collect`. */
  function HeightAlong(m: Elementary, draws: Draws, lat: real): (cell: real --> real)
    requires WellFormed(draws)
    ensures forall lon :: cell.requires(lon)
    ensures forall lon :: cell(lon) == CellHeight(m, draws, lat, lon)
  {
    lon requires WellFormed(draws) => CellHeight(m, draws, lat, lon)
  }

  /** The body of the grid loop at one point: run the octave loop and the
      crater loop, mix 70/30 and clip. */
  method ComputeCell(m: Elementary, draws: Draws, lat: real, lon: real) returns (height: real)
    requires WellFormed(draws)
    ensures height == CellHeight(m, draws, lat, lon)
  {
    var baseNoise := FbmNoise(m, lat, lon, draws.phases);
    var craterNoise := CraterField(m, lat, lon, draws.craters);
    height := Clip(baseNoise * 0.7 + craterNoise * 0.3, -1.0, 1.0);
  }

  /** Tilting a unit normal against a height gradient: subtract the gradient
      along the horizontal tangent and along the tangent orthogonal to it,
      then normalise. */
  function Tilt(m: Elementary, normal: Vec3, dhDlat: real, dhDlon: real, heightScale: real): (n: Vec3)
    requires Lawful(m)
    ensures n == Zero || Dot(n, n) == 1.0
    ensures heightScale == 0.0 && Dot(normal, normal) == 1.0 ==> n == normal
  {
    var flat := Vec3(normal.x, normal.y, 0.0);
    var tangentLat := Normalize(m, if Norm(m, flat) < 0.00001 then Vec3(1.0, 0.0, 0.0) else flat);
    var tangentLon := Cross(normal, tangentLat);
    var n1 := Sub(normal, Scale(Scale(tangentLat, dhDlat), heightScale));
    var n2 := Sub(n1, Scale(Scale(tangentLon, dhDlon), heightScale));
    if heightScale == 0.0 && Dot(normal, normal) == 1.0 then
      UntiltedNormal(normal, tangentLat, tangentLon, dhDlat, dhDlon);
      NormalizeUnit(m, normal);
      Normalize(m, n2)
    else
      Normalize(m, n2)
  }

  /** With a zero height scale both tangent corrections vanish. */
  lemma UntiltedNormal(normal: Vec3, tangentLat: Vec3, tangentLon: Vec3, dhDlat: real, dhDlon: real)
    ensures Sub(Sub(normal, Scale(Scale(tangentLat, dhDlat), 0.0)), Scale(Scale(tangentLon, dhDlon), 0.0)) == normal
  {
  }

  /** `b·(1 + s·h)` lies in `[b·(1 - s), b·(1 + s)]` for `h` in [-1, 1] and
      non-negative `b` and `s`. */
  lemma RadiusBounds(b: real, s: real, h: real)
    requires 0.0 <= b && 0.0 <= s && -1.0 <= h <= 1.0
    ensures b * (1.0 - s) <= b * (1.0 + s * h) <= b * (1.0 + s)
  {
    ScaleMonotone(s, h, 1.0);
    ScaleMonotone(s, -1.0, h);
    ScaleMonotone(b, 1.0 - s, 1.0 + s * h);
    ScaleMonotone(b, 1.0 + s * h, 1.0 + s);
  }
}
