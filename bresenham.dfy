/**
  The integer line walk of `drawLine` (src/main.cpp), the all-octant form
  of Bresenham's algorithm with one error term. The walk is described by how
  many steps it has taken along each axis: `px` steps of `sx` in x and `py`
  steps of `sy` in y. With `dx = |x1 - x0|` and `dy = -|y1 - y0|` as in the
  source, the error term is always `dx * (py + 1) + dy * (px + 1)`, and the
  counts never pass `dx` and `-dy`; that is what makes the loop stop at the
  far endpoint.
 */
module Bresenham {
  import opened Numeric

  function Abs(n: int): nat
  {
    if n < 0 then -n else n
  }

  /** The integer endpoints after the `(int)` casts. */
  datatype Line = Line(x0: int, y0: int, x1: int, y1: int)

  /** `dx = abs(ix1 - ix0)`, and `-dy = abs(iy1 - iy0)`. */
  function Dx(l: Line): nat { Abs(l.x1 - l.x0) }
  function Dd(l: Line): nat { Abs(l.y1 - l.y0) }
  function Dy(l: Line): int { -(Dd(l) as int) }
  function Sx(l: Line): int { if l.x0 < l.x1 then 1 else -1 }
  function Sy(l: Line): int { if l.y0 < l.y1 then 1 else -1 }

  /** The state of the loop after `px` x-steps and `py` y-steps. */
  datatype Cursor = Cursor(px: int, py: int, err: int)

  ghost predicate Reachable(l: Line, c: Cursor)
  {
    0 <= c.px <= Dx(l) && 0 <= c.py <= Dd(l) &&
    c.err == Dx(l) * (c.py + 1) - Dd(l) * (c.px + 1)
  }

  function Initial(l: Line): Cursor
  {
    Cursor(0, 0, Dx(l) + Dy(l))
  }

  /** The pixel the cursor stands on. */
  function Here(l: Line, c: Cursor): (int, int)
  {
    (l.x0 + Sx(l) * c.px, l.y0 + Sy(l) * c.py)
  }

  predicate Finished(l: Line, c: Cursor)
  {
    c.px == Dx(l) && c.py == Dd(l)
  }

  /** One pass of the loop body after the pixel is drawn. */
  function Step(l: Line, c: Cursor): Cursor
  {
    var e2 := 2 * c.err;
    var c1 := if e2 >= Dy(l) then Cursor(c.px + 1, c.py, c.err + Dy(l)) else c;
    if e2 <= Dx(l) then Cursor(c1.px, c1.py + 1, c1.err + Dx(l)) else c1
  }

  lemma InitialReachable(l: Line)
    ensures Reachable(l, Initial(l))
  {
  }

  /** The loop's exit test `ix0 == ix1 && iy0 == iy1` is exactly `Finished`. */
  lemma ExitTest(l: Line, c: Cursor)
    requires Reachable(l, c)
    ensures Here(l, c) == (l.x1, l.y1) <==> Finished(l, c)
  {
  }

  /** A step from an unfinished reachable state stays reachable, moves each
      count by 0 or 1, and moves at least one of them. */
  lemma StepProgress(l: Line, c: Cursor)
    requires Reachable(l, c) && !Finished(l, c)
    ensures var n := Step(l, c);
      Reachable(l, n) &&
      (n.px == c.px || n.px == c.px + 1) && (n.py == c.py || n.py == c.py + 1) &&
      (n.px, n.py) != (c.px, c.py)
  {
    var dx, dd := Dx(l) as int, Dd(l) as int;
    var e2 := 2 * c.err;
    if c.px == dx {
      NoStepPastEnd(dx, dd, c.py, c.err);
    }
    if c.py == dd {
      assert -c.err == dd * (c.px + 1) - dx * (dd + 1);
      NoStepPastEnd(dd, dx, c.px, -c.err);
    }
    var xs, ys := e2 >= -dd, e2 <= dx;
    assert xs || ys;
    var px', py' := c.px + (if xs then 1 else 0), c.py + (if ys then 1 else 0);
    ErrorTerm(dx, dd, c.px, c.py, px', py');
    var n := Step(l, c);
    assert n.px == px' && n.py == py';
  }

  /** The source's loop body: from the pixel `(x, y)` and error `err` of an
      unfinished state `c`, the two conditional steps lead to `(x', y')` and
      `err'`, which are the pixel and error of `Step(l, c)`; that state is
      reachable and closer to the end, and the walk from `c` is `(x, y)`
      followed by the walk from it. */
  lemma SourceStep(l: Line, c: Cursor, x: int, y: int, err: int, x': int, y': int, err': int)
    requires Reachable(l, c) && !Finished(l, c) && Here(l, c) == (x, y) && c.err == err
    requires x' == (if 2 * err >= Dy(l) then x + Sx(l) else x)
    requires y' == (if 2 * err <= Dx(l) then y + Sy(l) else y)
    requires err' == err + (if 2 * err >= Dy(l) then Dy(l) else 0) + (if 2 * err <= Dx(l) then Dx(l) else 0)
    ensures var n := Step(l, c);
      Reachable(l, n) && Here(l, n) == (x', y') && n.err == err' &&
      (Dx(l) - n.px) + (Dd(l) - n.py) < (Dx(l) - c.px) + (Dd(l) - c.py) &&
      Plotted(l, c) == [(x, y)] + Plotted(l, n)
  {
    StepProgress(l, c);
    var n := Step(l, c);
    if 2 * err >= Dy(l) {
      assert Sx(l) * n.px == Sx(l) * c.px + Sx(l);
    }
    if 2 * err <= Dx(l) {
      assert Sy(l) * n.py == Sy(l) * c.py + Sy(l);
    }
  }

  /** The loop's ghost bookkeeping across one pass: with `drawn` the pixels
      drawn before `(x, y)`, the line is `drawn`, then `(x, y)`, then the
      walk from the next state. */
  lemma Advance(l: Line, c: Cursor, drawn: seq<(int, int)>, x: int, y: int, err: int, x': int, y': int, err': int)
    requires Reachable(l, c) && !Finished(l, c) && Here(l, c) == (x, y) && c.err == err
    requires Points(l) == drawn + Plotted(l, c)
    requires x' == (if 2 * err >= Dy(l) then x + Sx(l) else x)
    requires y' == (if 2 * err <= Dx(l) then y + Sy(l) else y)
    requires err' == err + (if 2 * err >= Dy(l) then Dy(l) else 0) + (if 2 * err <= Dx(l) then Dx(l) else 0)
    ensures var n := Step(l, c);
      Reachable(l, n) && Here(l, n) == (x', y') && n.err == err' &&
      (Dx(l) - n.px) + (Dd(l) - n.py) < (Dx(l) - c.px) + (Dd(l) - c.py) &&
      Points(l) == (drawn + [(x, y)]) + Plotted(l, n)
  {
    SourceStep(l, c, x, y, err, x', y', err');
  }

  /** On the last pixel the whole line has been drawn. */
  lemma Completed(l: Line, c: Cursor, drawn: seq<(int, int)>)
    requires Reachable(l, c) && Finished(l, c)
    requires Points(l) == drawn + Plotted(l, c)
    ensures Points(l) == drawn + [Here(l, c)]
  {
  }

  /** Once one count has reached its end, the walk does not step that way
      again: with `px == dx` and `py < dd`, `2 * err < -dd`. */
  lemma NoStepPastEnd(dx: int, dd: int, py: int, err: int)
    requires 0 <= dx && 0 <= py < dd
    requires err == dx * (py + 1) - dd * (dx + 1)
    ensures 2 * err < -dd
  {
    MulMono(dd, py + 1, dx);
    var a := dx * (py + 1);
    assert a <= dd * dx;
    assert dd * (dx + 1) == dd * dx + dd;
  }

  /** The error term after a step is the formula at the new counts. */
  lemma ErrorTerm(dx: int, dd: int, px: int, py: int, px': int, py': int)
    requires px' == px || px' == px + 1
    requires py' == py || py' == py + 1
    ensures dx * (py' + 1) - dd * (px' + 1) ==
      dx * (py + 1) - dd * (px + 1) + (if py' == py then 0 else dx) - (if px' == px then 0 else dd)
  {
    if py' == py + 1 { assert dx * (py' + 1) == dx * (py + 1) + dx; }
    if px' == px + 1 { assert dd * (px' + 1) == dd * (px + 1) + dd; }
  }

  /** The pixels `drawLine` draws from cursor `c` on, in order. */
  ghost function Plotted(l: Line, c: Cursor): seq<(int, int)>
    requires Reachable(l, c)
    decreases (Dx(l) - c.px) + (Dd(l) - c.py)
  {
    if Finished(l, c) then [Here(l, c)]
    else
      StepProgress(l, c);
      [Here(l, c)] + Plotted(l, Step(l, c))
  }

  /** Every pixel of the line, first to last. */
  ghost function Points(l: Line): seq<(int, int)>
  {
    InitialReachable(l);
    Plotted(l, Initial(l))
  }

  /** The walk ends on the far endpoint. */
  lemma {:induction false} PlottedEndsAtEndpoint(l: Line, c: Cursor)
    requires Reachable(l, c)
    ensures |Plotted(l, c)| >= 1 && Plotted(l, c)[0] == Here(l, c)
    ensures Plotted(l, c)[|Plotted(l, c)| - 1] == (l.x1, l.y1)
    decreases (Dx(l) - c.px) + (Dd(l) - c.py)
  {
    if Finished(l, c) {
      ExitTest(l, c);
    } else {
      StepProgress(l, c);
      PlottedEndsAtEndpoint(l, Step(l, c));
    }
  }

  /** `drawLine` plots `(ix0, iy0)` first and `(ix1, iy1)` last. */
  lemma PointsEndpoints(l: Line)
    ensures |Points(l)| >= 1
    ensures Points(l)[0] == (l.x0, l.y0)
    ensures Points(l)[|Points(l)| - 1] == (l.x1, l.y1)
  {
    InitialReachable(l);
    PlottedEndsAtEndpoint(l, Initial(l));
  }

  /** Consecutive pixels are neighbours: each coordinate moves by 0 or by
      its step direction, and the pixel always changes. */
  ghost predicate Neighbours(l: Line, p: (int, int), q: (int, int))
  {
    (q.0 == p.0 || q.0 == p.0 + Sx(l)) && (q.1 == p.1 || q.1 == p.1 + Sy(l)) && p != q
  }

  /** One step moves to a neighbouring pixel. */
  lemma StepNeighbours(l: Line, c: Cursor)
    requires Reachable(l, c) && !Finished(l, c)
    ensures Neighbours(l, Here(l, c), Here(l, Step(l, c)))
  {
    StepProgress(l, c);
    var n := Step(l, c);
    assert Sx(l) == 1 || Sx(l) == -1;
    assert Sy(l) == 1 || Sy(l) == -1;
    assert n.px == c.px ==> Sx(l) * n.px == Sx(l) * c.px;
    assert n.px == c.px + 1 ==> Sx(l) * n.px == Sx(l) * c.px + Sx(l);
    assert n.py == c.py ==> Sy(l) * n.py == Sy(l) * c.py;
    assert n.py == c.py + 1 ==> Sy(l) * n.py == Sy(l) * c.py + Sy(l);
  }

  lemma {:induction false} PlottedAdjacent(l: Line, c: Cursor, i: int)
    requires Reachable(l, c)
    requires 0 <= i < |Plotted(l, c)| - 1
    ensures Neighbours(l, Plotted(l, c)[i], Plotted(l, c)[i + 1])
    decreases (Dx(l) - c.px) + (Dd(l) - c.py)
  {
    assert !Finished(l, c);
    StepProgress(l, c);
    var n := Step(l, c);
    PlottedEndsAtEndpoint(l, n);
    assert Plotted(l, c) == [Here(l, c)] + Plotted(l, n);
    if i > 0 {
      PlottedAdjacent(l, n, i - 1);
    } else {
      StepNeighbours(l, c);
    }
  }

  lemma PointsAdjacent(l: Line, i: int)
    requires 0 <= i < |Points(l)| - 1
    ensures Neighbours(l, Points(l)[i], Points(l)[i + 1])
  {
    InitialReachable(l);
    PlottedAdjacent(l, Initial(l), i);
  }

  /** The walk plots at least `max(dx, -dy) + 1` and at most `dx - dy + 1` pixels. */
  lemma {:induction false} PlottedLength(l: Line, c: Cursor)
    requires Reachable(l, c)
    ensures |Plotted(l, c)| <= (Dx(l) - c.px) + (Dd(l) - c.py) + 1
    ensures |Plotted(l, c)| >= Dx(l) - c.px + 1 && |Plotted(l, c)| >= Dd(l) - c.py + 1
    decreases (Dx(l) - c.px) + (Dd(l) - c.py)
  {
    if !Finished(l, c) {
      StepProgress(l, c);
      PlottedLength(l, Step(l, c));
    }
  }

  lemma PointsLength(l: Line)
    ensures Dx(l) + 1 <= |Points(l)| && Abs(l.y1 - l.y0) + 1 <= |Points(l)|
    ensures |Points(l)| <= Dx(l) + Abs(l.y1 - l.y0) + 1
  {
    InitialReachable(l);
    PlottedLength(l, Initial(l));
  }
}
