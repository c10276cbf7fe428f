// A straight line of pixels, drawn with integers only.
module Lines {

  // Steps taken along each axis.
  datatype Offset = Offset(a: nat, b: nat)

  function Clamp(v: int, limit: nat): (r: nat)
    requires limit > 0
    ensures r < limit && (0 <= v < limit ==> r == v)
  {
    if v < 0 then 0 else if v >= limit then limit - 1 else v
  }

  function Abs(v: int): nat {
    if v < 0 then -v else v
  }

  function Max(a: nat, b: nat): nat {
    if a < b then b else a
  }

  function Sign(from: int, to: int): int {
    if from < to then 1 else -1
  }

  // n steps from one coordinate towards another.
  function Toward(from: nat, to: nat, n: nat): int {
    if from < to then from + n else from - n
  }

  // How far, twice, a pixel lies off the line through (0, 0) and (dx, dy), scaled by the longer side.
  function Deviation(dx: nat, dy: nat, p: Offset): int {
    2 * (dx * p.b - dy * p.a)
  }

  // Within half a pixel of the line, across the longer side.
  predicate Close(dx: nat, dy: nat, p: Offset) {
    Abs(Deviation(dx, dy, p)) <= Max(dx, dy)
  }

  predicate InBox(dx: nat, dy: nat, p: Offset) {
    p.a <= dx && p.b <= dy
  }

  // The pixel's number along the line.
  function Progress(dx: nat, dy: nat, p: Offset): nat {
    if dx >= dy then p.a else p.b
  }

  function Next(dx: nat, dy: nat, err: int, p: Offset): Offset {
    Offset(p.a + (if 2 * err + dy >= 0 then 1 else 0), p.b + (if 2 * err <= dx then 1 else 0))
  }

  lemma Distribute(x: nat, y: nat)
    ensures x * (y + 1) == x * y + x
  {
  }

  lemma Monotone(x: nat, y: nat, z: nat)
    requires y <= z
    ensures x * y <= x * z
  {
  }

  lemma DeviationSteps(dx: nat, dy: nat, p: Offset)
    ensures Deviation(dx, dy, Offset(p.a + 1, p.b)) == Deviation(dx, dy, p) - 2 * dy
    ensures Deviation(dx, dy, Offset(p.a, p.b + 1)) == Deviation(dx, dy, p) + 2 * dx
    ensures Deviation(dx, dy, Offset(p.a + 1, p.b + 1)) == Deviation(dx, dy, p) + 2 * dx - 2 * dy
  {
    Distribute(dx, p.b);
    Distribute(dy, p.a);
  }

  // A pixel close to the line and within the longer side is within the shorter one, and is the end of the
  // line if it is at the end of the longer side.
  lemma ShortSide(long: nat, short: nat, along: nat, across: nat)
    requires long > 0 && along <= long && Abs(2 * (long * across - short * along)) <= long
    ensures across <= short && (along == long ==> across == short)
  {
    Monotone(short, along, long);
    if across > short {
      Monotone(long, short + 1, across);
      Distribute(long, short);
    }
    if across < short {
      Monotone(long, across + 1, short);
      Distribute(long, across);
    }
  }

  lemma CloseIsInside(dx: nat, dy: nat, p: Offset)
    requires Close(dx, dy, p) && Max(dx, dy) > 0 && Progress(dx, dy, p) <= Max(dx, dy)
    ensures InBox(dx, dy, p) && (Progress(dx, dy, p) == Max(dx, dy) ==> p == Offset(dx, dy))
  {
    if dx >= dy {
      ShortSide(dx, dy, p.a, p.b);
    } else {
      assert Abs(2 * (dy * p.a - dx * p.b)) == Abs(2 * (dx * p.b - dy * p.a));
      ShortSide(dy, dx, p.b, p.a);
    }
  }

  // One step of the loop: along the longer side always, along the shorter one when that is nearer.
  lemma StepIsClose(dx: nat, dy: nat, p: Offset, err: int)
    requires 2 * err == Deviation(dx, dy, p) + 2 * dx - 2 * dy && Close(dx, dy, p) && InBox(dx, dy, p) && p != Offset(dx, dy)
    ensures var q := Next(dx, dy, err, p);
            && Close(dx, dy, q) && InBox(dx, dy, q) && Progress(dx, dy, q) == Progress(dx, dy, p) + 1
            && 2 * (err - (if 2 * err + dy >= 0 then dy else 0) + (if 2 * err <= dx then dx else 0)) == Deviation(dx, dy, q) + 2 * dx - 2 * dy
  {
    DeviationSteps(dx, dy, p);
    CloseIsInside(dx, dy, p);
    hide Deviation;
    var q := Next(dx, dy, err, p);
    assert Close(dx, dy, q);
    CloseIsInside(dx, dy, q);
  }

  // The place of the pixel at an offset from one end towards the other.
  function Pixel(x0: nat, y0: nat, x1: nat, y1: nat, width: nat, p: Offset): int {
    Toward(y0, y1, p.b) * width + Toward(x0, x1, p.a)
  }

  // The offset lies between the two ends, inside the picture.
  lemma InPicture(width: nat, height: nat, x0: nat, y0: nat, x1: nat, y1: nat, p: Offset)
    requires x0 < width && x1 < width && y0 < height && y1 < height && InBox(Abs(x1 - x0), Abs(y1 - y0), p)
    ensures 0 <= Toward(x0, x1, p.a) < width && 0 <= Toward(y0, y1, p.b) < height
    ensures 0 <= Pixel(x0, y0, x1, y1, width, p) < width * height
    ensures Toward(x0, x1, p.a) == x1 && Toward(y0, y1, p.b) == y1 <==> p == Offset(Abs(x1 - x0), Abs(y1 - y0))
  {
    InRow(Toward(x0, x1, p.a), Toward(y0, y1, p.b), width, height);
  }

  lemma InRow(x: nat, y: nat, width: nat, height: nat)
    requires x < width && y < height
    ensures 0 <= y * width + x < width * height
  {
    Monotone(width, y + 1, height);
    Distribute(width, y);
  }

  // Consecutive steps from the start, each close to the line.
  ghost predicate Plotted(dx: nat, dy: nat, plots: seq<Offset>) {
    && (|plots| > 0 ==> plots[0] == Offset(0, 0))
    && (forall i: nat | i < |plots| :: Close(dx, dy, plots[i]) && InBox(dx, dy, plots[i]) && Progress(dx, dy, plots[i]) == i)
    && (forall i: nat | 0 < i < |plots| :: Follows(plots[i - 1], plots[i]))
  }

  predicate Follows(p: Offset, q: Offset) {
    p.a <= q.a <= p.a + 1 && p.b <= q.b <= p.b + 1
  }

  // Exactly the pixels plotted are coloured.
  ghost predicate Coloured(before: seq<bv32>, after: seq<bv32>, pixels: seq<int>, color: bv32) {
    && |after| == |before|
    && forall j: nat | j < |after| :: after[j] == if j in pixels then color else before[j]
  }

  ghost function Pixels(x0: nat, y0: nat, x1: nat, y1: nat, width: nat, plots: seq<Offset>): (r: seq<int>)
    ensures |r| == |plots| && forall i | 0 <= i < |r| :: r[i] == Pixel(x0, y0, x1, y1, width, plots[i])
  {
    if plots == [] then []
    else Pixels(x0, y0, x1, y1, width, plots[..|plots| - 1]) + [Pixel(x0, y0, x1, y1, width, plots[|plots| - 1])]
  }

  // The line is there: one pixel for each step along the longer side, from one end to the other.
  ghost predicate Drawn(before: seq<bv32>, after: seq<bv32>, width: nat, x0: nat, y0: nat, x1: nat, y1: nat, color: bv32, plots: seq<Offset>) {
    && |plots| == Max(Abs(x1 - x0), Abs(y1 - y0)) + 1
    && plots[|plots| - 1] == Offset(Abs(x1 - x0), Abs(y1 - y0))
    && Plotted(Abs(x1 - x0), Abs(y1 - y0), plots)
    && Coloured(before, after, Pixels(x0, y0, x1, y1, width, plots), color)
  }

  lemma ColourOne(before: seq<bv32>, after: seq<bv32>, pixels: seq<int>, color: bv32, at: nat)
    requires Coloured(before, after, pixels, color) && at < |after|
    ensures Coloured(before, after[at := color], pixels + [at], color)
  {
  }

  lemma PixelsMore(x0: nat, y0: nat, x1: nat, y1: nat, width: nat, plots: seq<Offset>, p: Offset)
    ensures Pixels(x0, y0, x1, y1, width, plots + [p]) == Pixels(x0, y0, x1, y1, width, plots) + [Pixel(x0, y0, x1, y1, width, p)]
  {
    assert (plots + [p])[..|plots|] == plots;
  }

  lemma PlotMore(dx: nat, dy: nat, plots: seq<Offset>, p: Offset, q: Offset)
    requires Plotted(dx, dy, plots + [p]) && Close(dx, dy, q) && InBox(dx, dy, q)
    requires Progress(dx, dy, q) == Progress(dx, dy, p) + 1 && Follows(p, q)
    ensures Plotted(dx, dy, plots + [p] + [q])
  {
    hide Close, InBox, Follows, Progress;
    var before, after := plots + [p], plots + [p] + [q];
    assert before[|plots|] == p && after[|plots|] == p;
    forall i: nat | 0 < i < |after| ensures Follows(after[i - 1], after[i]) {
      assert i < |before| ==> after[i] == before[i] && after[i - 1] == before[i - 1];
    }
  }

  // The loop of lib_rgl_line, between two pixels of the picture.
  method Trace(bench: array<bv32>, width: nat, height: nat, fromX: nat, fromY: nat, x1: nat, y1: nat, color: bv32)
    returns (ghost plots: seq<Offset>)
    requires bench.Length == width * height && fromX < width && fromY < height && x1 < width && y1 < height
    modifies bench
    ensures Drawn(old(bench[..]), bench[..], width, fromX, fromY, x1, y1, color, plots)
  {
    hide Close, Plotted, Coloured, Deviation, Pixels, Follows, InBox, Progress;
    var x0: int, y0: int := fromX, fromY;
    var dx, sx := Abs(x1 - x0), Sign(x0, x1);
    var dy: int, sy := -(Abs(y1 - y0) as int), Sign(y0, y1);
    var err := dx + dy;
    ghost var p, ey: nat := Offset(0, 0), -dy;
    LineStarts(dx, ey, bench[..], color, fromX, fromY, x1, y1, width);
    plots := [];
    while true
      invariant InBox(dx, ey, p) && Close(dx, ey, p) && 2 * err == Deviation(dx, ey, p) + 2 * dx - 2 * ey
      invariant x0 == Toward(fromX, x1, p.a) && y0 == Toward(fromY, y1, p.b)
      invariant Plotted(dx, ey, plots + [p])
      invariant Coloured(old(bench[..]), bench[..], Pixels(fromX, fromY, x1, y1, width, plots), color)
      decreases Max(dx, ey) - Progress(dx, ey, p)
    {
      InPicture(width, height, fromX, fromY, x1, y1, p);
      ColourOne(old(bench[..]), bench[..], Pixels(fromX, fromY, x1, y1, width, plots), color, y0 * width + x0);
      PixelsMore(fromX, fromY, x1, y1, width, plots, p);
      bench[y0 * width + x0] := color;
      if x0 == x1 && y0 == y1 {
        plots := plots + [p];
        LastPlot(dx, ey, plots, p);
        return;
      }
      StepIsClose(dx, ey, p, err);
      ghost var q := Next(dx, ey, err, p);
      PlotMore(dx, ey, plots, p, q) by { NextFollows(dx, ey, err, p); }
      InsideProgress(dx, ey, q);
      plots := plots + [p];
      var e2 := 2 * err;
      if e2 >= dy { err, x0 := err + dy, x0 + sx; }
      if e2 <= dx { err, y0 := err + dx, y0 + sy; }
      p := q;
    }
  }

  // lib_rgl_line: clamps both ends into the picture and colours one pixel for each step along the longer
  // side, both ends included: each the nearest to the line across that side, and no other pixel.
  method Line(bench: array<bv32>, width: nat, height: nat, startX: int, startY: int, endX: int, endY: int, color: bv32)
    returns (ghost plots: seq<Offset>)
    requires width > 0 && height > 0 && bench.Length == width * height
    modifies bench
    ensures Drawn(old(bench[..]), bench[..], width, Clamp(startX, width), Clamp(startY, height), Clamp(endX, width), Clamp(endY, height), color, plots)
  {
    hide Drawn;
    var x0, y0, x1, y1 := startX, startY, endX, endY;
    if x0 < 0 { x0 := 0; }
    if y0 < 0 { y0 := 0; }
    if x1 < 0 { x1 := 0; }
    if y1 < 0 { y1 := 0; }
    if x0 >= width { x0 := width - 1; }
    if y0 >= height { y0 := height - 1; }
    if x1 >= width { x1 := width - 1; }
    if y1 >= height { y1 := height - 1; }
    plots := Trace(bench, width, height, x0, y0, x1, y1, color);
  }

  lemma LineStarts(dx: nat, dy: nat, bench: seq<bv32>, color: bv32, x0: nat, y0: nat, x1: nat, y1: nat, width: nat)
    ensures InBox(dx, dy, Offset(0, 0)) && Close(dx, dy, Offset(0, 0)) && Deviation(dx, dy, Offset(0, 0)) == 0
    ensures Plotted(dx, dy, [] + [Offset(0, 0)]) && Coloured(bench, bench, Pixels(x0, y0, x1, y1, width, []), color)
  {
  }

  lemma NextFollows(dx: nat, dy: nat, err: int, p: Offset)
    ensures Follows(p, Next(dx, dy, err, p))
  {
  }

  lemma InsideProgress(dx: nat, dy: nat, p: Offset)
    requires InBox(dx, dy, p)
    ensures Progress(dx, dy, p) <= Max(dx, dy)
  {
  }

  lemma LastPlot(dx: nat, dy: nat, plots: seq<Offset>, p: Offset)
    requires |plots| > 0 && plots[|plots| - 1] == p && Plotted(dx, dy, plots) && p == Offset(dx, dy)
    ensures |plots| == Max(dx, dy) + 1
  {
  }
}
