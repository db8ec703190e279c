// The scrolling corridor: integer samples (x, groundY, ceilingY) ten pixels
// apart, shifted left every tick, dropped past the left margin and
// regenerated at the right edge from a three-sine noise function.

module Terrains {
  import opened CollisionDetector
  import opened Sine

  /** Horizontal distance between consecutive samples. */
  const SPACING: int := 10
  /** Samples whose x falls below this are dropped from the front. */
  const DROP_X: int := -20
  /** Samples are appended until the last one reaches screenWidth + MARGIN. */
  const MARGIN: int := 100

  datatype TerrainPoint = TerrainPoint(x: int, groundY: int, ceilingY: int)

  /** The height generator of one session: std::sin, the random seed drawn at
      construction or reset, and the screen height. */
  datatype HeightField = HeightField(sin: real -> real, seed: int, screenHeight: int)
  {
    /** Three sine terms at different spatial frequencies. */
    function Noise(at: int): (n: real)
      ensures SineBounded(sin) ==> -160.0 <= n <= 160.0
    {
      var t := at as real;
      sin(t * 0.01) * 50.0 + sin(t * 0.02) * 30.0 + sin(t * 0.005) * 80.0
    }

    /** generateHeight: the ceiling hangs near the top of the screen, the
        ground lies near the bottom, both following the same noise sample. */
    function Height(x: int, isCeiling: bool): (h: int)
      ensures SineBounded(sin) && isCeiling ==> 32 <= h <= 128
      ensures SineBounded(sin) && !isCeiling ==> screenHeight - 168 <= h <= screenHeight - 72
    {
      var n := Noise(x + seed);
      if isCeiling then Trunc(80.0 + n * 0.3)
      else Trunc(screenHeight as real - 120.0 - n * 0.3)
    }

    /** A fresh sample at x. */
    function Sample(x: int): TerrainPoint
    {
      TerrainPoint(x, Height(x, false), Height(x, true))
    }
  }

  /** Whatever the seed, the corridor never narrows below screenHeight - 296
      (424 pixels on a 720-pixel screen). */
  lemma GapNeverCloses(hf: HeightField, x: int)
    requires SineBounded(hf.sin)
    ensures hf.Height(x, false) - hf.Height(x, true) >= hf.screenHeight - 296
  {
  }

  function Last(ps: seq<TerrainPoint>): TerrainPoint
    requires |ps| > 0
  {
    ps[|ps| - 1]
  }

  /** Samples are exactly SPACING apart and increasing in x. */
  ghost predicate Spaced(ps: seq<TerrainPoint>)
  {
    forall i, j :: 0 <= i <= j < |ps| ==> ps[j].x - ps[i].x == SPACING * (j - i)
  }

  /** What the buffer keeps true between ticks: spaced, non-empty, starting no
      further left than the drop line, and reaching the right margin up to
      one spacing. */
  ghost predicate Covering(ps: seq<TerrainPoint>, screenWidth: int)
  {
    Spaced(ps) && |ps| > 0 && ps[0].x >= DROP_X && Last(ps).x >= screenWidth + MARGIN - SPACING
  }

  // ---------------------------------------------------------------------
  // Initial generation

  /** Samples at from, from + 10, ... up to the last one below limit. */
  function Samples(from: int, limit: int, hf: HeightField): seq<TerrainPoint>
    decreases limit - from
  {
    if from >= limit then [] else [hf.Sample(from)] + Samples(from + SPACING, limit, hf)
  }

  lemma {:induction false} SamplesShape(from: int, limit: int, hf: HeightField)
    ensures var r := Samples(from, limit, hf);
      (|r| == 0 <==> from >= limit) &&
      (forall k :: 0 <= k < |r| ==> r[k] == hf.Sample(from + SPACING * k)) &&
      (|r| > 0 ==> r[|r| - 1].x < limit <= r[|r| - 1].x + SPACING)
    decreases limit - from
  {
    if from < limit {
      SamplesShape(from + SPACING, limit, hf);
      var r := Samples(from, limit, hf);
      var rest := Samples(from + SPACING, limit, hf);
      assert r == [hf.Sample(from)] + rest;
      forall k | 0 <= k < |r|
        ensures r[k] == hf.Sample(from + SPACING * k)
      {
        if k > 0 {
          assert r[k] == rest[k - 1];
        }
      }
    }
  }

  /** The buffer built by the constructor and by reset. */
  function InitialPoints(hf: HeightField, screenWidth: int): (ps: seq<TerrainPoint>)
    ensures forall k :: 0 <= k < |ps| ==> ps[k] == hf.Sample(SPACING * k)
    ensures |ps| > 0 <==> screenWidth + MARGIN > 0
    ensures |ps| > 0 ==> Last(ps).x < screenWidth + MARGIN <= Last(ps).x + SPACING
    ensures screenWidth + MARGIN > 0 ==> Covering(ps, screenWidth)
  {
    InitialShape(hf, screenWidth);
    Samples(0, screenWidth + MARGIN, hf)
  }

  lemma InitialShape(hf: HeightField, screenWidth: int)
    ensures var ps := Samples(0, screenWidth + MARGIN, hf);
      (forall k :: 0 <= k < |ps| ==> ps[k] == hf.Sample(SPACING * k)) &&
      (|ps| > 0 <==> screenWidth + MARGIN > 0) &&
      (|ps| > 0 ==> Last(ps).x < screenWidth + MARGIN <= Last(ps).x + SPACING) &&
      (screenWidth + MARGIN > 0 ==> Covering(ps, screenWidth))
  {
    var ps := Samples(0, screenWidth + MARGIN, hf);
    SamplesShape(0, screenWidth + MARGIN, hf);
    assert forall k :: 0 <= k < |ps| ==> ps[k] == hf.Sample(SPACING * k);
    forall i, j | 0 <= i <= j < |ps|
      ensures ps[j].x - ps[i].x == SPACING * (j - i)
    {
      assert ps[j].x == SPACING * j && ps[i].x == SPACING * i;
    }
  }

  /** The generation loop of the constructor and of reset. */
  method GeneratePoints(hf: HeightField, screenWidth: int) returns (ps: seq<TerrainPoint>)
    ensures ps == InitialPoints(hf, screenWidth)
  {
    ps := [];
    var i := 0;
    while i < screenWidth + MARGIN
      invariant ps + Samples(i, screenWidth + MARGIN, hf) == Samples(0, screenWidth + MARGIN, hf)
      decreases screenWidth + MARGIN - i
    {
      assert Samples(i, screenWidth + MARGIN, hf) == [hf.Sample(i)] + Samples(i + SPACING, screenWidth + MARGIN, hf);
      ps := ps + [hf.Sample(i)];
      i := i + SPACING;
    }
    assert Samples(i, screenWidth + MARGIN, hf) == [];
  }

  // ---------------------------------------------------------------------
  // Scrolling

  /** Every sample moved left by speed. */
  function Shifted(ps: seq<TerrainPoint>, speed: int): (r: seq<TerrainPoint>)
    ensures |r| == |ps|
    ensures forall i :: 0 <= i < |ps| ==> r[i] == ps[i].(x := ps[i].x - speed)
  {
    seq(|ps|, i requires 0 <= i < |ps| => ps[i].(x := ps[i].x - speed))
  }

  /** The front samples left of the drop line removed. */
  function DropLeft(ps: seq<TerrainPoint>): (r: seq<TerrainPoint>)
    ensures |r| <= |ps|
    ensures |r| > 0 ==> r[0].x >= DROP_X
  {
    if |ps| > 0 && ps[0].x < DROP_X then DropLeft(ps[1..]) else ps
  }

  /** Samples appended one spacing after the last until the right margin is reached. */
  function Refill(ps: seq<TerrainPoint>, hf: HeightField, screenWidth: int): (r: seq<TerrainPoint>)
    requires |ps| > 0
    ensures |r| >= |ps| && r[..|ps|] == ps
    ensures Last(r).x >= screenWidth + MARGIN
    decreases screenWidth + MARGIN - Last(ps).x
  {
    if Last(ps).x >= screenWidth + MARGIN then ps
    else Refill(ps + [hf.Sample(Last(ps).x + SPACING)], hf, screenWidth)
  }

  /** DropLeft removes a prefix, every sample of which was left of the drop
      line, and what remains starts at or right of it. */
  lemma {:induction false} DropLeftSuffix(ps: seq<TerrainPoint>)
    ensures var r := DropLeft(ps);
      |r| <= |ps| && r == ps[|ps| - |r|..] &&
      (forall i :: 0 <= i < |ps| - |r| ==> ps[i].x < DROP_X) &&
      (|r| > 0 ==> r[0].x >= DROP_X)
  {
    if |ps| > 0 && ps[0].x < DROP_X {
      DropLeftSuffix(ps[1..]);
      var r := DropLeft(ps);
      assert r == DropLeft(ps[1..]);
      assert ps[1..][|ps| - 1 - |r|..] == ps[|ps| - |r|..];
      forall i | 0 <= i < |ps| - |r|
        ensures ps[i].x < DROP_X
      {
        if i > 0 {
          assert ps[i] == ps[1..][i - 1];
        }
      }
    }
  }

  /** Refill keeps what it was given as a prefix and appends fresh samples,
      each one spacing after its predecessor and generated at its own x,
      which stays below screenWidth + MARGIN + SPACING; the result reaches
      the right margin. */
  lemma {:induction false} RefillGrows(ps: seq<TerrainPoint>, hf: HeightField, screenWidth: int)
    requires |ps| > 0
    ensures var r := Refill(ps, hf, screenWidth);
      |r| >= |ps| && r[..|ps|] == ps &&
      Last(r).x >= screenWidth + MARGIN &&
      (Last(ps).x >= screenWidth + MARGIN ==> r == ps) &&
      (forall k :: |ps| <= k < |r| ==>
        r[k] == hf.Sample(r[k].x) && r[k].x == r[k - 1].x + SPACING &&
        r[k].x < screenWidth + MARGIN + SPACING)
    decreases screenWidth + MARGIN - Last(ps).x
  {
    if Last(ps).x < screenWidth + MARGIN {
      var next := ps + [hf.Sample(Last(ps).x + SPACING)];
      RefillGrows(next, hf, screenWidth);
      var r := Refill(ps, hf, screenWidth);
      assert r == Refill(next, hf, screenWidth);
      assert r[..|next|][..|ps|] == r[..|ps|];
      assert r[|ps|] == next[|ps|];
    }
  }

  lemma ShiftedSpaced(ps: seq<TerrainPoint>, speed: int)
    requires Spaced(ps)
    ensures Spaced(Shifted(ps, speed))
  {
  }

  lemma SuffixSpaced(ps: seq<TerrainPoint>, n: nat)
    requires Spaced(ps) && n <= |ps|
    ensures Spaced(ps[n..])
  {
    forall i, j | 0 <= i <= j < |ps| - n
      ensures ps[n..][j].x - ps[n..][i].x == SPACING * (j - i)
    {
      assert ps[n..][j] == ps[n + j] && ps[n..][i] == ps[n + i];
    }
  }

  lemma {:induction false} RefillSpaced(ps: seq<TerrainPoint>, hf: HeightField, screenWidth: int)
    requires |ps| > 0 && Spaced(ps)
    ensures Spaced(Refill(ps, hf, screenWidth))
    decreases screenWidth + MARGIN - Last(ps).x
  {
    if Last(ps).x < screenWidth + MARGIN {
      var next := ps + [hf.Sample(Last(ps).x + SPACING)];
      forall i, j | 0 <= i <= j < |next|
        ensures next[j].x - next[i].x == SPACING * (j - i)
      {
        if j == |ps| && i < |ps| {
          assert ps[|ps| - 1].x - ps[i].x == SPACING * (|ps| - 1 - i);
        }
      }
      RefillSpaced(next, hf, screenWidth);
    }
  }

  lemma ScrollKeepsSpacing(ps: seq<TerrainPoint>, speed: int, hf: HeightField, screenWidth: int)
    requires DropLeft(Shifted(ps, speed)) != []
    ensures Spaced(ps) ==> Spaced(Refill(DropLeft(Shifted(ps, speed)), hf, screenWidth))
  {
    if Spaced(ps) {
      var shifted := Shifted(ps, speed);
      var kept := DropLeft(shifted);
      DropLeftSuffix(shifted);
      ShiftedSpaced(ps, speed);
      SuffixSpaced(shifted, |shifted| - |kept|);
      RefillSpaced(kept, hf, screenWidth);
    }
  }

  /** The samples that survive the drop are the old ones moved left by
      exactly speed, with their heights; the dropped ones had moved past the
      drop line. */
  lemma DropShifted(ps: seq<TerrainPoint>, speed: int)
    ensures var kept := DropLeft(Shifted(ps, speed));
      var n := |ps| - |kept|;
      0 <= n <= |ps| &&
      (forall i :: 0 <= i < n ==> ps[i].x - speed < DROP_X) &&
      (forall i :: n <= i < |ps| ==> kept[i - n] == ps[i].(x := ps[i].x - speed))
  {
    var shifted := Shifted(ps, speed);
    var kept := DropLeft(shifted);
    DropLeftSuffix(shifted);
    var n := |ps| - |kept|;
    forall i | n <= i < |ps|
      ensures kept[i - n] == ps[i].(x := ps[i].x - speed)
    {
      assert kept[i - n] == shifted[i];
    }
    forall i | 0 <= i < n
      ensures ps[i].x - speed < DROP_X
    {
      assert shifted[i].x < DROP_X;
    }
  }

  /** Refill leaves its input in place as a prefix. */
  lemma RefillPrefix(ps: seq<TerrainPoint>, hf: HeightField, screenWidth: int)
    requires |ps| > 0
    ensures var r := Refill(ps, hf, screenWidth);
      |r| >= |ps| && forall j :: 0 <= j < |ps| ==> r[j] == ps[j]
  {
    RefillGrows(ps, hf, screenWidth);
    var r := Refill(ps, hf, screenWidth);
    forall j | 0 <= j < |ps|
      ensures r[j] == ps[j]
    {
      assert r[j] == r[..|ps|][j];
    }
  }

  lemma ScrollShiftsSurvivors(ps: seq<TerrainPoint>, speed: int, hf: HeightField, screenWidth: int)
    requires DropLeft(Shifted(ps, speed)) != []
    ensures var kept := DropLeft(Shifted(ps, speed));
      var r := Refill(kept, hf, screenWidth);
      var n := |ps| - |kept|;
      0 <= n < |ps| && |r| >= |kept| &&
      (forall i :: 0 <= i < n ==> ps[i].x - speed < DROP_X) &&
      (forall i :: n <= i < |ps| ==> r[i - n] == ps[i].(x := ps[i].x - speed))
  {
    var kept := DropLeft(Shifted(ps, speed));
    DropShifted(ps, speed);
    RefillPrefix(kept, hf, screenWidth);
  }

  /** One tick of Terrain::update: shift, drop past the left margin, refill to
      the right margin. The source reads the last sample unchecked after the
      drop, so the dropped buffer must not be empty. */
  function Scrolled(ps: seq<TerrainPoint>, speed: int, hf: HeightField, screenWidth: int): (r: seq<TerrainPoint>)
    requires DropLeft(Shifted(ps, speed)) != []
    ensures |r| > 0 && r[0].x >= DROP_X && Last(r).x >= screenWidth + MARGIN
    ensures Spaced(ps) ==> Covering(r, screenWidth)
    ensures var n := |ps| - |DropLeft(Shifted(ps, speed))|;
      0 <= n < |ps| && |r| >= |ps| - n &&
      (forall i :: 0 <= i < n ==> ps[i].x - speed < DROP_X) &&
      (forall i :: n <= i < |ps| ==> r[i - n] == ps[i].(x := ps[i].x - speed)) &&
      (forall k :: |ps| - n <= k < |r| ==> r[k] == hf.Sample(r[k].x) && r[k].x < screenWidth + MARGIN + SPACING)
  {
    var kept := DropLeft(Shifted(ps, speed));
    DropLeftSuffix(Shifted(ps, speed));
    RefillGrows(kept, hf, screenWidth);
    ScrollKeepsSpacing(ps, speed, hf, screenWidth);
    ScrollShiftsSurvivors(ps, speed, hf, screenWidth);
    Refill(kept, hf, screenWidth)
  }

  /** The shifting loop of Terrain::update. */
  method ShiftAll(ps: seq<TerrainPoint>, speed: int) returns (r: seq<TerrainPoint>)
    ensures r == Shifted(ps, speed)
  {
    r := ps;
    for i := 0 to |r|
      invariant |r| == |ps|
      invariant forall k :: 0 <= k < i ==> r[k] == ps[k].(x := ps[k].x - speed)
      invariant forall k :: i <= k < |r| ==> r[k] == ps[k]
    {
      r := r[i := r[i].(x := r[i].x - speed)];
    }
  }

  /** The erase-from-front loop of Terrain::update. */
  method DropFront(ps: seq<TerrainPoint>) returns (r: seq<TerrainPoint>)
    ensures r == DropLeft(ps)
  {
    r := ps;
    while |r| > 0 && r[0].x < DROP_X
      invariant DropLeft(r) == DropLeft(ps)
      decreases |r|
    {
      r := r[1..];
    }
  }

  /** The append loop of Terrain::update. */
  method RefillTo(ps: seq<TerrainPoint>, hf: HeightField, screenWidth: int) returns (r: seq<TerrainPoint>)
    requires |ps| > 0
    ensures r == Refill(ps, hf, screenWidth)
  {
    r := ps;
    while Last(r).x < screenWidth + MARGIN
      invariant |r| > 0
      invariant Refill(r, hf, screenWidth) == Refill(ps, hf, screenWidth)
      decreases screenWidth + MARGIN - Last(r).x
    {
      var newPoint := TerrainPoint(Last(r).x + SPACING, 0, 0);
      newPoint := newPoint.(groundY := hf.Height(newPoint.x, false));
      newPoint := newPoint.(ceilingY := hf.Height(newPoint.x, true));
      r := r + [newPoint];
    }
  }

  /** A covering buffer can always be scrolled at a speed that does not
      exceed screenWidth + 110. */
  lemma CoveringCanScroll(ps: seq<TerrainPoint>, screenWidth: int, speed: int)
    requires Covering(ps, screenWidth) && speed <= screenWidth + MARGIN - SPACING - DROP_X
    ensures DropLeft(Shifted(ps, speed)) != []
  {
    var shifted := Shifted(ps, speed);
    DropLeftSuffix(shifted);
    assert shifted[|ps| - 1].x >= DROP_X;
  }

  // ---------------------------------------------------------------------
  // Collision

  /** The sample lies in the box's horizontal span (inclusive) and the box
      touches or crosses its ceiling or its ground. */
  predicate Blocks(p: TerrainPoint, b: Rect)
  {
    b.x <= p.x <= b.x + b.w && (b.y <= p.ceilingY || b.y + b.h >= p.groundY)
  }

  predicate Collides(ps: seq<TerrainPoint>, b: Rect): (c: bool)
    ensures ps == [] ==> !c
    ensures ps != [] ==> (c <==> Blocks(ps[0], b) || Collides(ps[1..], b))
  {
    exists i :: 0 <= i < |ps| && Blocks(ps[i], b)
  }

  /** A box whose span covers no sample never collides, however high or low. */
  lemma UncoveredBoxIsSafe(ps: seq<TerrainPoint>, b: Rect)
    requires forall i :: 0 <= i < |ps| ==> !(b.x <= ps[i].x <= b.x + b.w)
    ensures !Collides(ps, b)
  {
  }

  /** A box strictly between ceiling and ground at every sample it covers
      does not collide. */
  lemma BoxInGapIsSafe(ps: seq<TerrainPoint>, b: Rect)
    requires forall i :: 0 <= i < |ps| && b.x <= ps[i].x <= b.x + b.w ==>
      ps[i].ceilingY < b.y && b.y + b.h < ps[i].groundY
    ensures !Collides(ps, b)
  {
  }

  /** A box reaching a covered sample's ceiling collides. */
  lemma CeilingContactCollides(ps: seq<TerrainPoint>, b: Rect, i: int)
    requires 0 <= i < |ps| && b.x <= ps[i].x <= b.x + b.w && b.y <= ps[i].ceilingY
    ensures Collides(ps, b)
  {
  }

  // ---------------------------------------------------------------------
  // The terrain object

  class Terrain {
    var points: seq<TerrainPoint>
    const scrollSpeed: int
    const screenWidth: int
    const screenHeight: int
    var seed: int
    const sin: real -> real

    function Field(): HeightField
      reads this
    {
      HeightField(sin, seed, screenHeight)
    }

    ghost predicate Valid()
      reads this
    {
      Spaced(points) &&
      (|points| > 0 ==> points[0].x >= DROP_X && Last(points).x >= screenWidth + MARGIN - SPACING)
    }

    /** The seed is the first rand() value after the constructor reseeds. */
    constructor (width: int, height: int, speed: int, firstRand: int, sine: real -> real)
      ensures Valid()
      ensures scrollSpeed == speed && screenWidth == width && screenHeight == height
      ensures seed == firstRand && sin == sine
      ensures points == InitialPoints(HeightField(sine, firstRand, height), width)
    {
      scrollSpeed, screenWidth, screenHeight := speed, width, height;
      seed, sin := firstRand, sine;
      var initial := GeneratePoints(HeightField(sine, firstRand, height), width);
      points := initial;
    }

    method Reset(newSeed: int)
      modifies this
      ensures Valid() && seed == newSeed
      ensures points == InitialPoints(Field(), screenWidth)
    {
      points := [];
      seed := newSeed;
      points := GeneratePoints(Field(), screenWidth);
    }

    /** Terrain::update: shift, drop, refill. */
    method Update()
      requires DropLeft(Shifted(points, scrollSpeed)) != []
      modifies this
      ensures old(Valid()) ==> Valid()
      ensures seed == old(seed)
      ensures points == Scrolled(old(points), scrollSpeed, Field(), screenWidth)
    {
      var ps := ShiftAll(points, scrollSpeed);
      ps := DropFront(ps);
      ps := RefillTo(ps, Field(), screenWidth);
      assert ps == Scrolled(points, scrollSpeed, Field(), screenWidth);
      points := ps;
    }

    method CheckCollision(bounds: Rect) returns (hit: bool)
      ensures hit == Collides(points, bounds)
    {
      for i := 0 to |points|
        invariant forall k :: 0 <= k < i ==> !Blocks(points[k], bounds)
      {
        var point := points[i];
        if point.x >= bounds.x && point.x <= bounds.x + bounds.w {
          if bounds.y <= point.ceilingY {
            return true;
          }
          if bounds.y + bounds.h >= point.groundY {
            return true;
          }
        }
      }
      return false;
    }
  }
}
