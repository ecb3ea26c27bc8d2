/**
 * The second `Window`: index maps computed over an index grid that holds, for
 * every cell of the dilated and zero-padded input plane, the flat index of the
 * original input element it carries, or nothing for an inserted or padding cell.
 * `OutputToInput` lists the taps of every window; `InputToOutput` groups the
 * outputs by the original input position they read.
 */
module NewWindows {
  import opened Arith
  import opened Wrappers
  import W = Windows

  /** Original input plane, kernel, stride, padding and input dilation. */
  datatype Grid = Grid(height0: nat, width0: nat, kernelHeight: nat, kernelWidth: nat,
                       stride: nat, padding: nat, dilation: nat)
  {
    /** Distance between neighbouring original elements; a dilation of 0 or 1 inserts nothing. */
    function Spread(): nat
    {
      if dilation > 1 then dilation else 1
    }

    function Height(): nat
      requires height0 > 0
    {
      (height0 - 1) * Spread() + 1 + 2 * padding
    }

    function Width(): nat
      requires width0 > 0
    {
      (width0 - 1) * Spread() + 1 + 2 * padding
    }

    /** A non-empty input, a positive stride and a kernel that fits the grid. */
    predicate Fits()
    {
      height0 > 0 && width0 > 0 && stride > 0 && kernelHeight <= Height() && kernelWidth <= Width()
    }

    function OutputHeight(): nat
      requires Fits()
    {
      (Height() - kernelHeight) / stride + 1
    }

    function OutputWidth(): nat
      requires Fits()
    {
      (Width() - kernelWidth) / stride + 1
    }

    function Outputs(): nat
      requires Fits()
    {
      OutputHeight() * OutputWidth()
    }

    function KernelSize(): nat
    {
      kernelHeight * kernelWidth
    }

    function InputSize(): nat
    {
      height0 * width0
    }

    /** The original flat index held by grid cell (`row`, `col`), if any. */
    function Cell(row: nat, col: nat): Option<nat>
      requires Fits()
    {
      var r, c := row - padding, col - padding;
      if 0 <= r && 0 <= c && r % Spread() == 0 && c % Spread() == 0 && r / Spread() < height0 && c / Spread() < width0
      then Some((r / Spread()) * width0 + c / Spread())
      else None
    }

    /** The geometry of the first `Window` with the same input, kernel, stride and padding. */
    function Plain(): W.Geometry
    {
      W.Geometry(height0, width0, kernelHeight, kernelWidth, stride, padding)
    }
  }

  /** The index grid in row-major order. */
  function IndexGrid(g: Grid): (r: seq<Option<nat>>)
    requires g.Fits()
    ensures |r| == g.Height() * g.Width()
  {
    seq(g.Height() * g.Width(), k requires 0 <= k => g.Cell(k / g.Width(), k % g.Width()))
  }

  lemma IndexGridAt(g: Grid, row: nat, col: nat)
    requires g.Fits() && row < g.Height() && col < g.Width()
    ensures 0 <= row * g.Width() + col < |IndexGrid(g)|
    ensures IndexGrid(g)[row * g.Width() + col] == g.Cell(row, col)
  {
    FlatBound(row, col, g.Height(), g.Width());
    DivModUnique(row, col, g.Width());
  }

  /** Every original element appears in the grid, at the cell its position is spread and shifted to. */
  lemma CellOfInput(g: Grid, a: nat, b: nat)
    requires g.Fits() && a < g.height0 && b < g.width0
    ensures g.Cell(a * g.Spread() + g.padding, b * g.Spread() + g.padding) == Some(a * g.width0 + b)
  {
    DivModUnique(a, 0, g.Spread());
    DivModUnique(b, 0, g.Spread());
  }

  /** Grid row of the top edge of window `o`. */
  function Top(g: Grid, o: nat): nat
    requires g.Fits()
  {
    MulMonotone(0, o / g.OutputWidth(), g.stride);
    (o / g.OutputWidth()) * g.stride
  }

  /** Grid column of the left edge of window `o`. */
  function Left(g: Grid, o: nat): nat
    requires g.Fits()
  {
    MulMonotone(0, o % g.OutputWidth(), g.stride);
    (o % g.OutputWidth()) * g.stride
  }

  /** The tap of kernel position `t` of window `o`; none when that cell holds no original element. */
  function TapAt(g: Grid, o: nat, t: nat): seq<W.Tap>
    requires g.Fits() && t < g.KernelSize()
  {
    W.KernelWidthPositive(g.Plain(), t);
    TapOfCell(g.Cell(Top(g, o) + t / g.kernelWidth, Left(g, o) + t % g.kernelWidth), t)
  }

  /** The tap a grid cell contributes at kernel position `t`: none for an inserted or padding cell. */
  function TapOfCell(cell: Option<nat>, t: nat): seq<W.Tap>
  {
    match cell
    case Some(v) => [W.Tap(v, t)]
    case None => []
  }

  function WindowTaps(g: Grid, o: nat, t: nat): seq<W.Tap>
    requires g.Fits() && t <= g.KernelSize()
  {
    if t == 0 then [] else WindowTaps(g, o, t - 1) + TapAt(g, o, t - 1)
  }

  function TapsOf(g: Grid, o: nat): seq<W.Tap>
    requires g.Fits()
  {
    WindowTaps(g, o, g.KernelSize())
  }

  function TapsBefore(g: Grid, o: nat): seq<W.Tap>
    requires g.Fits()
  {
    if o == 0 then [] else TapsBefore(g, o - 1) + TapsOf(g, o - 1)
  }

  function Starts(g: Grid, o: nat): (r: seq<nat>)
    requires g.Fits()
    ensures |r| == o
  {
    seq(o, k requires 0 <= k < o => |TapsBefore(g, k)|)
  }

  lemma StartsSnoc(g: Grid, o: nat)
    requires g.Fits()
    ensures Starts(g, o + 1) == Starts(g, o) + [|TapsBefore(g, o)|]
  {
  }

  /** Kernel position (`x`, `y`) of window `o` reads grid cell (`i + x`, `j + y`), where (`i`, `j`) is the window's corner. */
  lemma TapAtCell(g: Grid, o: nat, x: nat, y: nat)
    requires g.Fits() && x < g.kernelHeight && y < g.kernelWidth
    ensures x * g.kernelWidth + y < g.KernelSize()
    ensures TapAt(g, o, x * g.kernelWidth + y) == TapOfCell(g.Cell(Top(g, o) + x, Left(g, o) + y), x * g.kernelWidth + y)
  {
    assert (x + 1) * g.kernelWidth == x * g.kernelWidth + g.kernelWidth;
    MulMonotone(x + 1, g.kernelHeight, g.kernelWidth);
    DivModUnique(x, y, g.kernelWidth);
  }

  /** Window (`oi`, `oj`) of the output grid is output `oi * OutputWidth() + oj`. */
  lemma WindowOrigin(g: Grid, oi: nat, oj: nat)
    requires g.Fits() && oi < g.OutputHeight() && oj < g.OutputWidth()
    ensures oi * g.OutputWidth() + oj < g.Outputs()
    ensures (oi * g.OutputWidth() + oj) / g.OutputWidth() == oi
    ensures (oi * g.OutputWidth() + oj) % g.OutputWidth() == oj
  {
    DivModUnique(oi, oj, g.OutputWidth());
    BlockStep(oi, g.OutputHeight(), g.OutputWidth());
  }

  /** Every tap of the first `t` kernel positions is the tap of its own kernel position. */
  lemma {:induction false} TapProvenance(g: Grid, o: nat, t: nat)
    requires g.Fits() && t <= g.KernelSize()
    ensures forall x :: x in WindowTaps(g, o, t) ==> x.kernel < t && TapAt(g, o, x.kernel) == [x]
  {
    if t > 0 {
      TapProvenance(g, o, t - 1);
    }
  }

  /** Kernel positions strictly increase within a window. */
  lemma {:induction false} KernelsIncreasing(g: Grid, o: nat, t: nat)
    requires g.Fits() && t <= g.KernelSize()
    ensures W.StrictlyIncreasing(W.Kernels(WindowTaps(g, o, t)))
  {
    if t > 0 {
      KernelsIncreasing(g, o, t - 1);
      TapProvenance(g, o, t - 1);
      var prev := WindowTaps(g, o, t - 1);
      W.ProjectConcat(prev, TapAt(g, o, t - 1));
      assert forall a :: 0 <= a < |prev| ==> W.Kernels(prev)[a] < t - 1 by {
        forall a | 0 <= a < |prev| ensures W.Kernels(prev)[a] < t - 1 {
          assert prev[a] in prev;
        }
      }
    }
  }

  /** Every recorded map entry is an original input position and every kernel entry a kernel position. */
  lemma TapBounds(g: Grid, o: nat)
    requires g.Fits()
    ensures forall x :: x in TapsOf(g, o) ==> x.input < g.InputSize() && x.kernel < g.KernelSize()
  {
    TapProvenance(g, o, g.KernelSize());
    forall x | x in TapsOf(g, o) ensures x.input < g.InputSize() {
      W.KernelWidthPositive(g.Plain(), x.kernel);
      var row := Top(g, o) + x.kernel / g.kernelWidth;
      var col := Left(g, o) + x.kernel % g.kernelWidth;
      var r, c := row - g.padding, col - g.padding;
      assert g.Cell(row, col) == Some(x.input);
      FlatBound(r / g.Spread(), c / g.Spread(), g.height0, g.width0);
    }
  }

  /** Every tap recorded before window `o` is an original input position and a kernel position. */
  lemma {:induction false} TapsBeforeBounds(g: Grid, o: nat)
    requires g.Fits()
    ensures forall x :: x in TapsBefore(g, o) ==> x.input < g.InputSize() && x.kernel < g.KernelSize()
  {
    if o > 0 {
      TapsBeforeBounds(g, o - 1);
      TapBounds(g, o - 1);
    }
  }

  lemma {:induction false} TapsBeforePrefix(g: Grid, a: nat, b: nat)
    requires g.Fits() && a <= b
    ensures TapsBefore(g, a) <= TapsBefore(g, b)
    decreases b
  {
    if a < b {
      TapsBeforePrefix(g, a, b - 1);
    }
  }

  /** Window `o` occupies positions `Starts[o]` up to `Starts[o + 1]` of the tap lists. */
  lemma WindowSlice(g: Grid, o: nat, count: nat)
    requires g.Fits() && o < count
    ensures |TapsBefore(g, o)| <= |TapsBefore(g, o + 1)| <= |TapsBefore(g, count)|
    ensures TapsBefore(g, count)[|TapsBefore(g, o)|..|TapsBefore(g, o + 1)|] == TapsOf(g, o)
  {
    TapsBeforePrefix(g, o + 1, count);
  }

  /** The window starts begin at zero and never decrease; the final entry is the total number of taps. */
  lemma StartsMonotone(g: Grid, count: nat)
    requires g.Fits()
    ensures var idx := Starts(g, count) + [|TapsBefore(g, count)|];
      idx[0] == 0 && forall a, b :: 0 <= a <= b < |idx| ==> idx[a] <= idx[b]
  {
    var idx := Starts(g, count) + [|TapsBefore(g, count)|];
    forall a, b | 0 <= a <= b < |idx| ensures idx[a] <= idx[b] {
      TapsBeforePrefix(g, a, b);
    }
  }

  /** Without dilation the grid is the padded plane of the first `Window`, with the same output shape. */
  lemma PlainFits(g: Grid)
    requires g.Fits() && g.dilation <= 1
    ensures g.Height() == g.height0 + 2 * g.padding && g.Width() == g.width0 + 2 * g.padding
    ensures g.Plain().Fits() && g.Plain().OutputWidth() == g.OutputWidth() && g.Plain().OutputHeight() == g.OutputHeight()
  {
  }

  /** Without dilation the grid reads the same taps as the first `Window`. */
  lemma PlainTapAt(g: Grid, o: nat, t: nat)
    requires g.Fits() && g.dilation <= 1 && t < g.KernelSize()
    ensures g.Plain().Fits() && g.Plain().OutputWidth() == g.OutputWidth() && g.Plain().OutputHeight() == g.OutputHeight()
    ensures TapAt(g, o, t) == W.TapAt(g.Plain(), o, t)
  {
    var p := g.Plain();
    W.KernelWidthPositive(p, t);
    PlainFits(g);
    var row := Top(g, o) + t / g.kernelWidth;
    var col := Left(g, o) + t % g.kernelWidth;
    assert W.TapRow(p, o, t) == row - g.padding && W.TapColumn(p, o, t) == col - g.padding;
  }

  lemma {:induction false} PlainWindowTaps(g: Grid, o: nat, t: nat)
    requires g.Fits() && g.dilation <= 1 && t <= g.KernelSize()
    ensures g.Plain().Fits() && WindowTaps(g, o, t) == W.WindowTaps(g.Plain(), o, t)
  {
    PlainFits(g);
    if t > 0 {
      PlainWindowTaps(g, o, t - 1);
      PlainTapAt(g, o, t - 1);
    }
  }

  /** Without dilation, `OutputToInput` lists exactly the taps of `Windows.Window.Forward`. */
  lemma {:induction false} PlainTapsBefore(g: Grid, o: nat)
    requires g.Fits() && g.dilation <= 1
    ensures g.Plain().Fits() && TapsBefore(g, o) == W.TapsBefore(g.Plain(), o)
  {
    PlainFits(g);
    if o > 0 {
      PlainTapsBefore(g, o - 1);
      PlainWindowTaps(g, o - 1, g.KernelSize());
    }
  }

  /** Every window lies inside the grid. */
  lemma WindowInside(g: Grid, o: nat)
    requires g.Fits() && o < g.Outputs()
    ensures Top(g, o) + g.kernelHeight <= g.Height() && Left(g, o) + g.kernelWidth <= g.Width()
  {
    DivBound(o, g.OutputHeight(), g.OutputWidth());
    StepCount(o / g.OutputWidth(), g.stride, g.Height() - g.kernelHeight);
    StepCount(o % g.OutputWidth(), g.stride, g.Width() - g.kernelWidth);
  }

  class Window {
    var initialized: bool
    var outputHeight: nat
    var outputWidth: nat
    var mapWindow: seq<nat>
    var kernelWindow: seq<nat>
    var windowIdx: seq<nat>

    constructor ()
      ensures !initialized && mapWindow == [] && kernelWindow == [] && windowIdx == []
    {
      initialized := false;
      outputHeight, outputWidth := 0, 0;
      mapWindow, kernelWindow, windowIdx := [], [], [];
    }

    /**
     * Output to input map over the dilated, padded index grid: window after
     * window, the original input positions under the kernel (inserted and
     * padding cells skipped) with their kernel positions, and where each
     * window starts, followed by the total number of taps.
     */
    method OutputToInput(height0: nat, width0: nat, kernelHeight: nat, kernelWidth: nat,
                         stride: nat, padding: nat, dilation: nat)
      requires Grid(height0, width0, kernelHeight, kernelWidth, stride, padding, dilation).Fits()
      modifies this
      ensures var g := Grid(height0, width0, kernelHeight, kernelWidth, stride, padding, dilation);
        initialized && outputHeight == g.OutputHeight() && outputWidth == g.OutputWidth() &&
        mapWindow == W.Inputs(TapsBefore(g, g.Outputs())) &&
        kernelWindow == W.Kernels(TapsBefore(g, g.Outputs())) &&
        windowIdx == Starts(g, g.Outputs()) + [|TapsBefore(g, g.Outputs())|]
    {
      var g := Grid(height0, width0, kernelHeight, kernelWidth, stride, padding, dilation);
      var grid := IndexGrid(g);
      var iend, jend := g.Height() - kernelHeight, g.Width() - kernelWidth;
      var oh, ow := iend / stride + 1, jend / stride + 1;
      assert oh == g.OutputHeight() && ow == g.OutputWidth();
      var mapW, kernelW, idx := [], [], [];
      var size := 0;
      ghost var o, oi := 0, 0;
      var i := 0;
      while i <= iend
        invariant 0 <= oi <= oh && i == oi * stride && o == oi * ow
        invariant mapW == W.Inputs(TapsBefore(g, o)) && kernelW == W.Kernels(TapsBefore(g, o))
        invariant size == |mapW| && idx == Starts(g, o)
        decreases iend - i
      {
        StepCount(oi, stride, iend);
        mapW, kernelW, idx := CollectOutputRow(g, grid, oi, i, o, mapW, kernelW, idx);
        size := |mapW|;
        o := o + ow;
        assert o == (oi + 1) * ow by { assert (oi + 1) * ow == oi * ow + ow; }
        assert (oi + 1) * stride == oi * stride + stride;
        oi := oi + 1;
        i := i + stride;
      }
      StepCount(oi, stride, iend);
      idx := idx + [size];
      outputHeight, outputWidth := oh, ow;
      mapWindow, kernelWindow, windowIdx := mapW, kernelW, idx;
      initialized := true;
    }

    /**
     * Input to output map over the padded (never dilated) index grid: for
     * every input position the outputs whose window covers it, and for every
     * kernel position the outputs whose window has an input there; the same
     * lists as `Windows.Window.Backward` for the same geometry.
     */
    method InputToOutput(height0: nat, width0: nat, kernelHeight: nat, kernelWidth: nat, stride: nat, padding: nat)
      requires Grid(height0, width0, kernelHeight, kernelWidth, stride, padding, 1).Fits()
      requires kernelHeight * kernelWidth <= height0 * width0
      modifies this
      ensures var pg := W.Geometry(height0, width0, kernelHeight, kernelWidth, stride, padding);
        var groups := W.MapGroups(pg, pg.Outputs());
        pg.Fits() && initialized && outputHeight == pg.OutputHeight() && outputWidth == pg.OutputWidth() &&
        mapWindow == W.Flatten(groups, pg.InputSize()) &&
        kernelWindow == W.Flatten(W.KernelGroups(pg, pg.Outputs()), pg.InputSize()) &&
        windowIdx == W.GroupStarts(groups, pg.InputSize()) + [|W.Flatten(groups, pg.InputSize())|]
    {
      var g := Grid(height0, width0, kernelHeight, kernelWidth, stride, padding, 1);
      PlainFits(g);
      var grid := IndexGrid(g);
      var oh, ow := (g.Height() - kernelHeight) / stride + 1, (g.Width() - kernelWidth) / stride + 1;
      assert oh == g.OutputHeight() && ow == g.OutputWidth();
      var tempMap, tempKernel := GroupWindows(g, grid);
      var size := W.TotalSize(tempMap);
      var mapW, kernelW, idx := W.Concatenate(tempMap, tempKernel, size);
      outputHeight, outputWidth := oh, ow;
      mapWindow, kernelWindow, windowIdx := mapW, kernelW, idx;
      initialized := true;
    }
  }

  /** Window `o` appends its taps to the lists and its start to the starts. */
  lemma WindowStep(g: Grid, o: nat)
    requires g.Fits()
    ensures W.Inputs(TapsBefore(g, o + 1)) == W.Inputs(TapsBefore(g, o)) + W.Inputs(TapsOf(g, o))
    ensures W.Kernels(TapsBefore(g, o + 1)) == W.Kernels(TapsBefore(g, o)) + W.Kernels(TapsOf(g, o))
    ensures Starts(g, o + 1) == Starts(g, o) + [|W.Inputs(TapsBefore(g, o))|]
  {
    StartsSnoc(g, o);
    W.ProjectConcat(TapsBefore(g, o), TapsOf(g, o));
  }

  /** The windows of output row `oi`, left to right: each window's start recorded, then its taps appended. */
  method CollectOutputRow(g: Grid, grid: seq<Option<nat>>, ghost oi: nat, i: nat, ghost o: nat,
                          mapW: seq<nat>, kernelW: seq<nat>, idx: seq<nat>)
    returns (mapW': seq<nat>, kernelW': seq<nat>, idx': seq<nat>)
    requires g.Fits() && grid == IndexGrid(g) && oi < g.OutputHeight() && i == oi * g.stride && o == oi * g.OutputWidth()
    requires mapW == W.Inputs(TapsBefore(g, o)) && kernelW == W.Kernels(TapsBefore(g, o)) && idx == Starts(g, o)
    ensures mapW' == W.Inputs(TapsBefore(g, o + g.OutputWidth())) && kernelW' == W.Kernels(TapsBefore(g, o + g.OutputWidth()))
    ensures idx' == Starts(g, o + g.OutputWidth())
  {
    var jend, ow := g.Width() - g.kernelWidth, g.OutputWidth();
    mapW', kernelW', idx' := mapW, kernelW, idx;
    ghost var oj: nat := 0;
    var j := 0;
    while j <= jend
      invariant oj <= ow && j == oj * g.stride
      invariant mapW' == W.Inputs(TapsBefore(g, o + oj)) && kernelW' == W.Kernels(TapsBefore(g, o + oj))
      invariant idx' == Starts(g, o + oj)
      decreases jend - j
    {
      StepCount(oj, g.stride, jend);
      WindowOrigin(g, oi, oj);
      ghost var n := o + oj;
      WindowStep(g, n);
      idx' := idx' + [|mapW'|];
      mapW', kernelW' := CollectTaps(g, grid, n, i, j, mapW', kernelW');
      assert mapW' == W.Inputs(TapsBefore(g, n + 1)) && kernelW' == W.Kernels(TapsBefore(g, n + 1));
      assert (oj + 1) * g.stride == oj * g.stride + g.stride;
      oj := oj + 1;
      j := j + g.stride;
    }
    StepCount(oj, g.stride, jend);
  }

  /** The two kernel loops of `Window.OutputToInput` for window `o`, whose top-left grid cell is (`i`, `j`). */
  method CollectTaps(g: Grid, grid: seq<Option<nat>>, ghost o: nat, i: nat, j: nat, mapW: seq<nat>, kernelW: seq<nat>)
    returns (mapW': seq<nat>, kernelW': seq<nat>)
    requires g.Fits() && grid == IndexGrid(g) && o < g.Outputs() && i == Top(g, o) && j == Left(g, o)
    ensures mapW' == mapW + W.Inputs(TapsOf(g, o)) && kernelW' == kernelW + W.Kernels(TapsOf(g, o))
  {
    mapW', kernelW' := mapW, kernelW;
    ghost var rowStart: nat := 0;
    var m, x := i, 0;
    while x < g.kernelHeight
      invariant m == i + x && x <= g.kernelHeight && rowStart == x * g.kernelWidth
      invariant rowStart <= g.KernelSize()
      invariant mapW' == mapW + W.Inputs(WindowTaps(g, o, rowStart))
      invariant kernelW' == kernelW + W.Kernels(WindowTaps(g, o, rowStart))
    {
      assert (x + 1) * g.kernelWidth == rowStart + g.kernelWidth;
      MulMonotone(x + 1, g.kernelHeight, g.kernelWidth);
      mapW', kernelW' := CollectRow(g, grid, o, x, rowStart, i, j, m, mapW, kernelW, mapW', kernelW');
      rowStart := rowStart + g.kernelWidth;
      m, x := m + 1, x + 1;
    }
  }

  /** The inner kernel loop of `Window.OutputToInput`: kernel row `x` of window `o`, over grid row `m`. */
  method CollectRow(g: Grid, grid: seq<Option<nat>>, ghost o: nat, x: nat, ghost rowStart: nat, i: nat, j: nat, m: nat,
                    ghost mapW: seq<nat>, ghost kernelW: seq<nat>, rowMap: seq<nat>, rowKernel: seq<nat>)
    returns (mapW': seq<nat>, kernelW': seq<nat>)
    requires g.Fits() && grid == IndexGrid(g) && o < g.Outputs() && i == Top(g, o) && j == Left(g, o)
    requires x < g.kernelHeight && m == i + x && rowStart == x * g.kernelWidth && rowStart + g.kernelWidth <= g.KernelSize()
    requires rowMap == mapW + W.Inputs(WindowTaps(g, o, rowStart))
    requires rowKernel == kernelW + W.Kernels(WindowTaps(g, o, rowStart))
    ensures mapW' == mapW + W.Inputs(WindowTaps(g, o, rowStart + g.kernelWidth))
    ensures kernelW' == kernelW + W.Kernels(WindowTaps(g, o, rowStart + g.kernelWidth))
  {
    mapW', kernelW' := rowMap, rowKernel;
    ghost var taps := WindowTaps(g, o, rowStart);
    WindowInside(g, o);
    var n, y := j, 0;
    while y < g.kernelWidth
      invariant n == j + y && y <= g.kernelWidth
      invariant taps == WindowTaps(g, o, rowStart + y)
      invariant mapW' == mapW + W.Inputs(taps)
      invariant kernelW' == kernelW + W.Kernels(taps)
    {
      TapAtCell(g, o, x, y);
      assert m < g.Height() && n < g.Width();
      IndexGridAt(g, m, n);
      var index := m * g.Width() + n;
      assert 0 <= index < |grid|;
      var k := x * g.kernelWidth + y;
      ghost var step := TapAt(g, o, k);
      W.ProjectConcat(taps, step);
      if grid[index].Some? {
        assert step == [W.Tap(grid[index].value, k)];
        W.ProjectTap(W.Tap(grid[index].value, k));
        mapW' := mapW' + [grid[index].value];
        kernelW' := kernelW' + [k];
      } else {
        assert step == [];
      }
      taps := taps + step;
      n, y := n + 1, y + 1;
    }
  }

  /** The window loops of `Window.InputToOutput`: every tap of every window recorded in the temporary groups. */
  method GroupWindows(g: Grid, grid: seq<Option<nat>>) returns (tempMap: seq<seq<nat>>, tempKernel: seq<seq<nat>>)
    requires g.Fits() && g.dilation == 1 && grid == IndexGrid(g) && g.KernelSize() <= g.InputSize()
    ensures g.Plain().Fits()
    ensures tempMap == W.MapGroups(g.Plain(), g.Outputs()) && tempKernel == W.KernelGroups(g.Plain(), g.Outputs())
  {
    ghost var pg := g.Plain();
    PlainFits(g);
    var iend, jend := g.Height() - g.kernelHeight, g.Width() - g.kernelWidth;
    var oh, ow := iend / g.stride + 1, jend / g.stride + 1;
    tempMap := seq(g.height0 * g.width0, _ => []);
    tempKernel := seq(g.height0 * g.width0, _ => []);
    var outputIdx := 0;
    ghost var oi := 0;
    W.GroupedStart(pg);
    var i := 0;
    while i <= iend
      invariant 0 <= oi <= oh && i == oi * g.stride && outputIdx == oi * ow
      invariant tempMap == W.PartialMapGroups(pg, outputIdx, 0) && tempKernel == W.PartialKernelGroups(pg, outputIdx, 0)
      decreases iend - i
    {
      StepCount(oi, g.stride, iend);
      var j := 0;
      ghost var oj, rowBase := 0, outputIdx;
      while j <= jend
        invariant 0 <= oj <= ow && j == oj * g.stride && rowBase == oi * ow && outputIdx == rowBase + oj
        invariant tempMap == W.PartialMapGroups(pg, outputIdx, 0) && tempKernel == W.PartialKernelGroups(pg, outputIdx, 0)
        decreases jend - j
      {
        StepCount(oj, g.stride, jend);
        WindowOrigin(g, oi, oj);
        tempMap, tempKernel := GroupWindow(g, grid, outputIdx, i, j, tempMap, tempKernel);
        outputIdx := outputIdx + 1;
        assert (oj + 1) * g.stride == oj * g.stride + g.stride;
        oj := oj + 1;
        j := j + g.stride;
      }
      StepCount(oj, g.stride, jend);
      assert outputIdx == (oi + 1) * ow by { assert (oi + 1) * ow == oi * ow + ow; }
      assert (oi + 1) * g.stride == oi * g.stride + g.stride;
      oi := oi + 1;
      i := i + g.stride;
    }
    StepCount(oi, g.stride, iend);
    W.GroupedDone(pg, outputIdx);
  }

  /** The two kernel loops of `Window.InputToOutput` for window `o`, whose top-left grid cell is (`i`, `j`). */
  method GroupWindow(g: Grid, grid: seq<Option<nat>>, o: nat, i: nat, j: nat,
                     tempMap: seq<seq<nat>>, tempKernel: seq<seq<nat>>)
    returns (tempMap': seq<seq<nat>>, tempKernel': seq<seq<nat>>)
    requires g.Fits() && g.dilation == 1 && grid == IndexGrid(g) && g.KernelSize() <= g.InputSize()
    requires o < g.Outputs() && i == Top(g, o) && j == Left(g, o) && g.Plain().Fits()
    requires tempMap == W.PartialMapGroups(g.Plain(), o, 0) && tempKernel == W.PartialKernelGroups(g.Plain(), o, 0)
    ensures tempMap' == W.PartialMapGroups(g.Plain(), o + 1, 0) && tempKernel' == W.PartialKernelGroups(g.Plain(), o + 1, 0)
  {
    tempMap', tempKernel' := tempMap, tempKernel;
    ghost var rowStart: nat := 0;
    var m, x := i, 0;
    while x < g.kernelHeight
      invariant m == i + x && x <= g.kernelHeight && rowStart == x * g.kernelWidth
      invariant rowStart <= g.KernelSize()
      invariant tempMap' == W.PartialMapGroups(g.Plain(), o, rowStart)
      invariant tempKernel' == W.PartialKernelGroups(g.Plain(), o, rowStart)
    {
      assert (x + 1) * g.kernelWidth == rowStart + g.kernelWidth;
      MulMonotone(x + 1, g.kernelHeight, g.kernelWidth);
      tempMap', tempKernel' := GroupRow(g, grid, o, x, rowStart, i, j, m, tempMap', tempKernel');
      rowStart := rowStart + g.kernelWidth;
      m, x := m + 1, x + 1;
    }
    W.GroupedNext(g.Plain(), o);
  }

  /** The inner kernel loop of `Window.InputToOutput`: kernel row `x` of window `o`, over grid row `m`. */
  method GroupRow(g: Grid, grid: seq<Option<nat>>, o: nat, x: nat, ghost rowStart: nat, i: nat, j: nat, m: nat,
                  tempMap: seq<seq<nat>>, tempKernel: seq<seq<nat>>)
    returns (tempMap': seq<seq<nat>>, tempKernel': seq<seq<nat>>)
    requires g.Fits() && g.dilation == 1 && grid == IndexGrid(g) && g.KernelSize() <= g.InputSize()
    requires o < g.Outputs() && i == Top(g, o) && j == Left(g, o) && g.Plain().Fits()
    requires x < g.kernelHeight && m == i + x && rowStart == x * g.kernelWidth && rowStart + g.kernelWidth <= g.KernelSize()
    requires tempMap == W.PartialMapGroups(g.Plain(), o, rowStart) && tempKernel == W.PartialKernelGroups(g.Plain(), o, rowStart)
    ensures tempMap' == W.PartialMapGroups(g.Plain(), o, rowStart + g.kernelWidth)
    ensures tempKernel' == W.PartialKernelGroups(g.Plain(), o, rowStart + g.kernelWidth)
  {
    tempMap', tempKernel' := tempMap, tempKernel;
    WindowInside(g, o);
    var n, y := j, 0;
    while y < g.kernelWidth
      invariant n == j + y && y <= g.kernelWidth
      invariant tempMap' == W.PartialMapGroups(g.Plain(), o, rowStart + y)
      invariant tempKernel' == W.PartialKernelGroups(g.Plain(), o, rowStart + y)
    {
      tempMap', tempKernel' := GroupTap(g, grid, o, x, y, rowStart, i, j, m, n, tempMap', tempKernel');
      n, y := n + 1, y + 1;
    }
  }

  /** One step of the inner kernel loop of `Window.InputToOutput`: kernel position (`x`, `y`) of window `o`. */
  method GroupTap(g: Grid, grid: seq<Option<nat>>, o: nat, x: nat, y: nat, ghost rowStart: nat, i: nat, j: nat, m: nat, n: nat,
                  tempMap: seq<seq<nat>>, tempKernel: seq<seq<nat>>)
    returns (tempMap': seq<seq<nat>>, tempKernel': seq<seq<nat>>)
    requires g.Fits() && g.dilation == 1 && grid == IndexGrid(g) && g.KernelSize() <= g.InputSize()
    requires o < g.Outputs() && i == Top(g, o) && j == Left(g, o) && g.Plain().Fits()
    requires x < g.kernelHeight && y < g.kernelWidth && m == i + x && n == j + y && rowStart == x * g.kernelWidth
    requires i + g.kernelHeight <= g.Height() && j + g.kernelWidth <= g.Width()
    requires rowStart + g.kernelWidth <= g.KernelSize()
    requires tempMap == W.PartialMapGroups(g.Plain(), o, rowStart + y)
    requires tempKernel == W.PartialKernelGroups(g.Plain(), o, rowStart + y)
    ensures tempMap' == W.PartialMapGroups(g.Plain(), o, rowStart + y + 1)
    ensures tempKernel' == W.PartialKernelGroups(g.Plain(), o, rowStart + y + 1)
  {
    ghost var pg := g.Plain();
    TapAtCell(g, o, x, y);
    assert m < g.Height() && n < g.Width();
    IndexGridAt(g, m, n);
    var index := m * g.Width() + n;
    assert 0 <= index < |grid|;
    var k := x * g.kernelWidth + y;
    assert k == rowStart + y;
    assert TapAt(g, o, k) == TapOfCell(grid[index], k);
    PlainTapAt(g, o, k);
    W.MapGroupsStep(pg, o, k);
    W.KernelGroupsStep(pg, o, k);
    if grid[index].Some? {
      var v := grid[index].value;
      assert W.TapAt(pg, o, k) == [W.Tap(v, k)];
      tempMap' := tempMap[v := tempMap[v] + [o]];
      tempKernel' := tempKernel[k := tempKernel[k] + [o]];
    } else {
      assert W.TapAt(pg, o, k) == [];
      tempMap', tempKernel' := tempMap, tempKernel;
    }
  }
}
