/**
 * Window: the precomputed index maps of a 2D sliding window over one input
 * plane. `Forward` lists, for every output position, the input positions
 * under the kernel and the kernel taps they meet; `Backward` lists, for
 * every input position, the output positions whose window covers it.
 */
module Windows {
  import opened Arith

  /** Input plane, kernel, stride and zero-padding of a sliding window. */
  datatype Geometry = Geometry(height: nat, width: nat, kernelHeight: nat, kernelWidth: nat, stride: nat, padding: nat)
  {
    /** The stride is positive and the kernel fits inside the padded input. */
    predicate Fits()
    {
      stride > 0 && kernelHeight <= height + 2 * padding && kernelWidth <= width + 2 * padding
    }

    function OutputHeight(): nat
      requires Fits()
    {
      (height + 2 * padding - kernelHeight) / stride + 1
    }

    function OutputWidth(): nat
      requires Fits()
    {
      (width + 2 * padding - kernelWidth) / stride + 1
    }

    function Outputs(): nat
      requires Fits()
    {
      OutputHeight() * OutputWidth()
    }

    function KernelSize(): nat
    {
      kernelHeight * kernelWidth
    }

    function InputSize(): nat
    {
      height * width
    }

    /** Input row of the top edge of window `o` (negative when it starts in the padding). */
    function Top(o: nat): int
      requires Fits()
    {
      (o / OutputWidth()) * stride - padding
    }

    /** Input column of the left edge of window `o`. */
    function Left(o: nat): int
      requires Fits()
    {
      (o % OutputWidth()) * stride - padding
    }
  }

  /** One overlap of a window with the input: flat input position and flat kernel position. */
  datatype Tap = Tap(input: nat, kernel: nat)

  function Inputs(taps: seq<Tap>): (r: seq<nat>)
    ensures |r| == |taps|
  {
    seq(|taps|, k requires 0 <= k < |taps| => taps[k].input)
  }

  /** Taking the input positions commutes with slicing the taps. */
  lemma InputsSlice(taps: seq<Tap>, lo: nat, hi: nat)
    requires lo <= hi <= |taps|
    ensures Inputs(taps)[lo..hi] == Inputs(taps[lo..hi])
  {
    var u, v := Inputs(taps)[lo..hi], Inputs(taps[lo..hi]);
    forall k | 0 <= k < hi - lo ensures u[k] == v[k] {
      assert u[k] == taps[lo + k].input;
    }
  }

  function Kernels(taps: seq<Tap>): (r: seq<nat>)
    ensures |r| == |taps|
  {
    seq(|taps|, k requires 0 <= k < |taps| => taps[k].kernel)
  }

  lemma ProjectConcat(a: seq<Tap>, b: seq<Tap>)
    ensures Inputs(a + b) == Inputs(a) + Inputs(b)
    ensures Kernels(a + b) == Kernels(a) + Kernels(b)
  {
    assert Inputs(a + b) == Inputs(a) + Inputs(b);
    assert Kernels(a + b) == Kernels(a) + Kernels(b);
  }

  lemma ProjectTap(x: Tap)
    ensures Inputs([x]) == [x.input] && Kernels([x]) == [x.kernel]
  {
  }

  lemma KernelWidthPositive(g: Geometry, t: nat)
    requires t < g.KernelSize()
    ensures g.kernelWidth > 0 && g.kernelHeight > 0
  {
  }

  /** Row of the input under kernel position `t` of window `o`. */
  function TapRow(g: Geometry, o: nat, t: nat): int
    requires g.Fits() && t < g.KernelSize()
  {
    KernelWidthPositive(g, t);
    g.Top(o) + t / g.kernelWidth
  }

  /** Column of the input under kernel position `t` of window `o`. */
  function TapColumn(g: Geometry, o: nat, t: nat): int
    requires g.Fits() && t < g.KernelSize()
  {
    KernelWidthPositive(g, t);
    g.Left(o) + t % g.kernelWidth
  }

  /** The tap of kernel position `t` of window `o`; none when that position lies on the padding. */
  function TapAt(g: Geometry, o: nat, t: nat): seq<Tap>
    requires g.Fits() && t < g.KernelSize()
  {
    var m, n := TapRow(g, o, t), TapColumn(g, o, t);
    if 0 <= m < g.height && 0 <= n < g.width then [Tap(m * g.width + n, t)] else []
  }

  /** Taps of window `o` for the first `t` kernel positions, in row-major kernel order. */
  function WindowTaps(g: Geometry, o: nat, t: nat): seq<Tap>
    requires g.Fits() && t <= g.KernelSize()
  {
    if t == 0 then [] else WindowTaps(g, o, t - 1) + TapAt(g, o, t - 1)
  }

  function TapsOf(g: Geometry, o: nat): seq<Tap>
    requires g.Fits()
  {
    WindowTaps(g, o, g.KernelSize())
  }

  /** Taps of all windows before `o`, window after window. */
  function TapsBefore(g: Geometry, o: nat): seq<Tap>
    requires g.Fits()
  {
    if o == 0 then [] else TapsBefore(g, o - 1) + TapsOf(g, o - 1)
  }

  /** Where each of the first `o` windows starts in the tap lists. */
  function Starts(g: Geometry, o: nat): (r: seq<nat>)
    requires g.Fits()
    ensures |r| == o
  {
    seq(o, k requires 0 <= k < o => |TapsBefore(g, k)|)
  }

  /** Input position `q` lies under window `o`. */
  predicate Covers(g: Geometry, o: nat, q: nat)
    requires g.Fits() && g.width > 0
  {
    var m, n := q / g.width, q % g.width;
    g.Top(o) <= m < g.Top(o) + g.kernelHeight && g.Left(o) <= n < g.Left(o) + g.kernelWidth
  }

  /** Outputs before `o` whose taps include input position `q`, ascending. */
  function CoveringOutputs(g: Geometry, q: nat, o: nat): seq<nat>
    requires g.Fits()
  {
    if o == 0 then [] else CoveringOutputs(g, q, o - 1) + (if q in Inputs(TapsOf(g, o - 1)) then [o - 1] else [])
  }

  /** Outputs before `o` whose kernel position `k` lies on the input, ascending. */
  function KernelUsers(g: Geometry, k: nat, o: nat): seq<nat>
    requires g.Fits()
  {
    if o == 0 then []
    else KernelUsers(g, k, o - 1) + (if k < g.KernelSize() && TapAt(g, o - 1, k) != [] then [o - 1] else [])
  }

  /** Backward groups of the first `count` outputs: one list per input position. */
  function MapGroups(g: Geometry, count: nat): (r: seq<seq<nat>>)
    requires g.Fits()
    ensures |r| == g.InputSize()
  {
    seq(g.InputSize(), q requires 0 <= q => CoveringOutputs(g, q, count))
  }

  /** Backward groups by kernel position, padded with empty groups up to the input size. */
  function KernelGroups(g: Geometry, count: nat): (r: seq<seq<nat>>)
    requires g.Fits()
    ensures |r| == g.InputSize()
  {
    seq(g.InputSize(), k requires 0 <= k => KernelUsers(g, k, count))
  }

  /** Concatenation of the first `count` groups. */
  function Flatten(groups: seq<seq<nat>>, count: nat): seq<nat>
    requires count <= |groups|
  {
    if count == 0 then [] else Flatten(groups, count - 1) + groups[count - 1]
  }

  /** Where each of the first `count` groups starts in their concatenation. */
  function GroupStarts(groups: seq<seq<nat>>, count: nat): (r: seq<nat>)
    requires count <= |groups|
    ensures |r| == count
  {
    seq(count, k requires 0 <= k < count => |Flatten(groups, k)|)
  }

  /** Kernel position (`r`, `c`) of window `o` lies over input row `Top(o) + r`, column `Left(o) + c`. */
  lemma TapAtCell(g: Geometry, o: nat, r: nat, c: nat)
    requires g.Fits() && r < g.kernelHeight && c < g.kernelWidth
    ensures r * g.kernelWidth + c < g.KernelSize() &&
      TapRow(g, o, r * g.kernelWidth + c) == g.Top(o) + r &&
      TapColumn(g, o, r * g.kernelWidth + c) == g.Left(o) + c
  {
    assert (r + 1) * g.kernelWidth == r * g.kernelWidth + g.kernelWidth;
    MulMonotone(r + 1, g.kernelHeight, g.kernelWidth);
    DivModUnique(r, c, g.kernelWidth);
  }

  /** Window (`oi`, `oj`) of the output grid is output `oi * OutputWidth() + oj`. */
  lemma WindowOrigin(g: Geometry, oi: nat, oj: nat)
    requires g.Fits() && oi < g.OutputHeight() && oj < g.OutputWidth()
    ensures oi * g.OutputWidth() + oj < g.Outputs()
    ensures g.Top(oi * g.OutputWidth() + oj) == oi * g.stride - g.padding
    ensures g.Left(oi * g.OutputWidth() + oj) == oj * g.stride - g.padding
  {
    DivModUnique(oi, oj, g.OutputWidth());
    BlockStep(oi, g.OutputHeight(), g.OutputWidth());
  }

  lemma StartsSnoc(g: Geometry, o: nat)
    requires g.Fits()
    ensures Starts(g, o + 1) == Starts(g, o) + [|TapsBefore(g, o)|]
  {
  }

  predicate StrictlyIncreasing(s: seq<nat>)
  {
    forall a, b :: 0 <= a < b < |s| ==> s[a] < s[b]
  }

  /** Every tap of the first `t` kernel positions is the tap of its own kernel position. */
  lemma {:induction false} TapProvenance(g: Geometry, o: nat, t: nat)
    requires g.Fits() && t <= g.KernelSize()
    ensures forall x :: x in WindowTaps(g, o, t) ==> x.kernel < t && TapAt(g, o, x.kernel) == [x]
  {
    if t > 0 {
      TapProvenance(g, o, t - 1);
    }
  }

  /** Kernel positions strictly increase within a window. */
  lemma {:induction false} KernelsIncreasing(g: Geometry, o: nat, t: nat)
    requires g.Fits() && t <= g.KernelSize()
    ensures StrictlyIncreasing(Kernels(WindowTaps(g, o, t)))
  {
    if t > 0 {
      KernelsIncreasing(g, o, t - 1);
      TapProvenance(g, o, t - 1);
      var prev := WindowTaps(g, o, t - 1);
      ProjectConcat(prev, TapAt(g, o, t - 1));
      assert forall a :: 0 <= a < |prev| ==> Kernels(prev)[a] < t - 1 by {
        forall a | 0 <= a < |prev| ensures Kernels(prev)[a] < t - 1 {
          assert prev[a] in prev;
        }
      }
    }
  }

  /** Two in-bounds taps of one window lie at increasing input positions, in kernel order. */
  lemma TapInputOrder(g: Geometry, o: nat, t1: nat, t2: nat)
    requires g.Fits() && t1 < t2 < g.KernelSize() && TapAt(g, o, t1) != [] && TapAt(g, o, t2) != []
    ensures TapAt(g, o, t1)[0].input < TapAt(g, o, t2)[0].input
  {
    KernelWidthPositive(g, t2);
    var kw := g.kernelWidth;
    var r1, c1, r2, c2 := t1 / kw, t1 % kw, t2 / kw, t2 % kw;
    DivOrder(t1, t2, kw);
    var m1, n1, m2, n2 := TapRow(g, o, t1), TapColumn(g, o, t1), TapRow(g, o, t2), TapColumn(g, o, t2);
    assert m1 == g.Top(o) + r1 && n1 == g.Left(o) + c1;
    assert m2 == g.Top(o) + r2 && n2 == g.Left(o) + c2;
    assert 0 <= m1 && 0 <= n1 < g.width && TapAt(g, o, t1)[0].input == m1 * g.width + n1;
    assert 0 <= m2 && 0 <= n2 < g.width && TapAt(g, o, t2)[0].input == m2 * g.width + n2;
    RowMajorLess(m1, n1, m2, n2, g.width);
  }

  /** Input positions strictly increase within a window, so no input appears twice in it. */
  lemma InputsIncreasing(g: Geometry, o: nat, t: nat)
    requires g.Fits() && t <= g.KernelSize()
    ensures StrictlyIncreasing(Inputs(WindowTaps(g, o, t)))
  {
    var taps := WindowTaps(g, o, t);
    KernelsIncreasing(g, o, t);
    TapProvenance(g, o, t);
    forall a, b | 0 <= a < b < |taps| ensures Inputs(taps)[a] < Inputs(taps)[b] {
      assert taps[a] in taps && taps[b] in taps;
      assert Kernels(taps)[a] < Kernels(taps)[b];
      TapInputOrder(g, o, taps[a].kernel, taps[b].kernel);
    }
  }

  /** Every map entry is a position of the input plane and every kernel entry a position of the kernel. */
  lemma TapBounds(g: Geometry, o: nat)
    requires g.Fits()
    ensures forall x :: x in TapsOf(g, o) ==> x.input < g.InputSize() && x.kernel < g.KernelSize()
  {
    TapProvenance(g, o, g.KernelSize());
    forall x | x in TapsOf(g, o) ensures x.input < g.InputSize() {
      FlatBound(TapRow(g, o, x.kernel), TapColumn(g, o, x.kernel), g.height, g.width);
    }
  }

  lemma {:induction false} TapsBeforeBounds(g: Geometry, o: nat)
    requires g.Fits()
    ensures forall x :: x in TapsBefore(g, o) ==> x.input < g.InputSize() && x.kernel < g.KernelSize()
  {
    if o > 0 {
      TapsBeforeBounds(g, o - 1);
      TapBounds(g, o - 1);
    }
  }

  /** Without padding every kernel position of every window lies on the input. */
  lemma NoPaddingTapInBounds(g: Geometry, o: nat, t: nat)
    requires g.Fits() && g.padding == 0 && o < g.Outputs() && t < g.KernelSize()
    ensures TapAt(g, o, t) != []
  {
    KernelWidthPositive(g, t);
    var ow := g.OutputWidth();
    DivBound(o, g.OutputHeight(), ow);
    DivBound(t, g.kernelHeight, g.kernelWidth);
    StepInRange(o / ow, g.stride, g.height - g.kernelHeight, t / g.kernelWidth, g.kernelHeight);
    StepInRange(o % ow, g.stride, g.width - g.kernelWidth, t % g.kernelWidth, g.kernelWidth);
  }

  lemma {:induction false} NoPaddingWindowTaps(g: Geometry, o: nat, t: nat)
    requires g.Fits() && g.padding == 0 && o < g.Outputs() && t <= g.KernelSize()
    ensures |WindowTaps(g, o, t)| == t
  {
    if t > 0 {
      NoPaddingWindowTaps(g, o, t - 1);
      NoPaddingTapInBounds(g, o, t - 1);
    }
  }

  /** Without padding every window has exactly `kernelHeight * kernelWidth` taps. */
  lemma NoPaddingFullWindows(g: Geometry, o: nat)
    requires g.Fits() && g.padding == 0 && o < g.Outputs()
    ensures |TapsOf(g, o)| == g.KernelSize()
  {
    NoPaddingWindowTaps(g, o, g.KernelSize());
  }

  /** The taps of the first `a` windows are a prefix of those of the first `b`. */
  lemma {:induction false} TapsBeforePrefix(g: Geometry, a: nat, b: nat)
    requires g.Fits() && a <= b
    ensures TapsBefore(g, a) <= TapsBefore(g, b)
    decreases b
  {
    if a < b {
      TapsBeforePrefix(g, a, b - 1);
    }
  }

  /** Window `o` occupies positions `Starts[o]` up to `Starts[o + 1]` of the tap lists. */
  lemma WindowSlice(g: Geometry, o: nat, count: nat)
    requires g.Fits() && o < count
    ensures |TapsBefore(g, o)| <= |TapsBefore(g, o + 1)| <= |TapsBefore(g, count)|
    ensures TapsBefore(g, count)[|TapsBefore(g, o)|..|TapsBefore(g, o + 1)|] == TapsOf(g, o)
  {
    TapsBeforePrefix(g, o + 1, count);
  }

  /** The window starts begin at zero and never decrease; the final entry is the total number of taps. */
  lemma StartsMonotone(g: Geometry, count: nat)
    requires g.Fits()
    ensures var idx := Starts(g, count) + [|TapsBefore(g, count)|];
      idx[0] == 0 && forall a, b :: 0 <= a <= b < |idx| ==> idx[a] <= idx[b]
  {
    var idx := Starts(g, count) + [|TapsBefore(g, count)|];
    forall a, b | 0 <= a <= b < |idx| ensures idx[a] <= idx[b] {
      TapsBeforePrefix(g, a, b);
    }
  }

  lemma MemberInputs(taps: seq<Tap>, x: Tap)
    requires x in taps
    ensures x.input in Inputs(taps)
  {
    var a :| 0 <= a < |taps| && taps[a] == x;
    assert Inputs(taps)[a] == x.input;
  }

  lemma {:induction false} WindowTapsPrefix(g: Geometry, o: nat, t1: nat, t2: nat)
    requires g.Fits() && t1 <= t2 <= g.KernelSize()
    ensures WindowTaps(g, o, t1) <= WindowTaps(g, o, t2)
    decreases t2
  {
    if t1 < t2 {
      WindowTapsPrefix(g, o, t1, t2 - 1);
    }
  }

  /** A tap of window `o` lies under that window. */
  lemma CoversTap(g: Geometry, o: nat, t: nat)
    requires g.Fits() && t < g.KernelSize() && TapAt(g, o, t) != []
    ensures g.width > 0 && Covers(g, o, TapAt(g, o, t)[0].input)
  {
    var m, n := TapRow(g, o, t), TapColumn(g, o, t);
    assert 0 <= m && 0 <= n < g.width && TapAt(g, o, t)[0].input == m * g.width + n;
    DivModUnique(m, n, g.width);
    KernelWidthPositive(g, t);
    DivBound(t, g.kernelHeight, g.kernelWidth);
  }

  /** An input position under window `o` is the input of one of its taps. */
  lemma TapOfCovered(g: Geometry, o: nat, q: nat)
    requires g.Fits() && q < g.InputSize() && Covers(g, o, q)
    ensures q in Inputs(TapsOf(g, o))
  {
    DivBound(q, g.height, g.width);
    var m, n := q / g.width, q % g.width;
    DivModSplit(q, g.width);
    var r, c := m - g.Top(o), n - g.Left(o);
    TapAtCell(g, o, r, c);
    var t := r * g.kernelWidth + c;
    assert TapRow(g, o, t) == m && TapColumn(g, o, t) == n;
    assert TapAt(g, o, t) == [Tap(q, t)];
    WindowTapsPrefix(g, o, t + 1, g.KernelSize());
    assert Tap(q, t) in WindowTaps(g, o, t + 1);
    MemberInputs(TapsOf(g, o), Tap(q, t));
  }

  /** An input position is among the taps of window `o` exactly when it lies under that window. */
  lemma CoversIff(g: Geometry, o: nat, q: nat)
    requires g.Fits() && q < g.InputSize()
    ensures q in Inputs(TapsOf(g, o)) <==> Covers(g, o, q)
  {
    var taps := TapsOf(g, o);
    if q in Inputs(taps) {
      var a :| 0 <= a < |taps| && Inputs(taps)[a] == q;
      TapProvenance(g, o, g.KernelSize());
      assert taps[a] in taps;
      CoversTap(g, o, taps[a].kernel);
    }
    if Covers(g, o, q) {
      TapOfCovered(g, o, q);
    }
  }

  /** Output `p` is listed for input `q` exactly when `p` is an earlier output whose taps include `q`. */
  lemma {:induction false} CoveringOutputsMember(g: Geometry, q: nat, count: nat, p: nat)
    requires g.Fits()
    ensures p in CoveringOutputs(g, q, count) <==> p < count && q in Inputs(TapsOf(g, p))
  {
    if count > 0 {
      CoveringOutputsMember(g, q, count - 1, p);
    }
  }

  /** Each backward group lists its outputs in strictly increasing order. */
  lemma {:induction false} CoveringOutputsIncreasing(g: Geometry, q: nat, count: nat)
    requires g.Fits()
    ensures StrictlyIncreasing(CoveringOutputs(g, q, count))
  {
    if count > 0 {
      var prev := CoveringOutputs(g, q, count - 1);
      CoveringOutputsIncreasing(g, q, count - 1);
      forall a | 0 <= a < |prev| ensures prev[a] < count - 1 {
        CoveringOutputsMember(g, q, count - 1, prev[a]);
      }
    }
  }

  /** Output `p` is listed for kernel position `k` exactly when that position of window `p` lies on the input. */
  lemma {:induction false} KernelUsersMember(g: Geometry, k: nat, count: nat, p: nat)
    requires g.Fits()
    ensures p in KernelUsers(g, k, count) <==> p < count && k < g.KernelSize() && TapAt(g, p, k) != []
  {
    if count > 0 {
      KernelUsersMember(g, k, count - 1, p);
    }
  }

  /** The input of tap `t` has not appeared earlier in the same window. */
  lemma TapFresh(g: Geometry, o: nat, t: nat)
    requires g.Fits() && t < g.KernelSize() && TapAt(g, o, t) != []
    ensures TapAt(g, o, t)[0].input !in Inputs(WindowTaps(g, o, t))
  {
    var taps := WindowTaps(g, o, t);
    TapProvenance(g, o, t);
    if TapAt(g, o, t)[0].input in Inputs(taps) {
      var a :| 0 <= a < |taps| && Inputs(taps)[a] == TapAt(g, o, t)[0].input;
      assert taps[a] in taps;
      TapInputOrder(g, o, taps[a].kernel, t);
    }
  }

  /**
   * Input-position groups of `Window.Backward` after the first `t` kernel positions of
   * window `o`: every earlier output, and window `o` for the inputs of its first `t` taps.
   */
  function PartialMapGroups(g: Geometry, o: nat, t: nat): (r: seq<seq<nat>>)
    requires g.Fits() && t <= g.KernelSize()
    ensures |r| == g.InputSize()
  {
    seq(g.InputSize(), q requires 0 <= q =>
      CoveringOutputs(g, q, o) + (if q in Inputs(WindowTaps(g, o, t)) then [o] else []))
  }

  /** Kernel-position groups of `Window.Backward` after the first `t` kernel positions of window `o`. */
  function PartialKernelGroups(g: Geometry, o: nat, t: nat): (r: seq<seq<nat>>)
    requires g.Fits() && t <= g.KernelSize()
    ensures |r| == g.InputSize()
  {
    seq(g.InputSize(), k requires 0 <= k =>
      KernelUsers(g, k, o) + (if k < t && TapAt(g, o, k) != [] then [o] else []))
  }

  /** Recording tap `t` of window `o` appends `o` to the group of its input position. */
  lemma MapGroupsStep(g: Geometry, o: nat, t: nat)
    requires g.Fits() && t < g.KernelSize()
    ensures TapAt(g, o, t) == [] ==> PartialMapGroups(g, o, t + 1) == PartialMapGroups(g, o, t)
    ensures TapAt(g, o, t) != [] ==>
      var q := TapAt(g, o, t)[0].input;
      var before := PartialMapGroups(g, o, t);
      q < g.InputSize() && PartialMapGroups(g, o, t + 1) == before[q := before[q] + [o]]
  {
    var before, after := PartialMapGroups(g, o, t), PartialMapGroups(g, o, t + 1);
    var taps := WindowTaps(g, o, t);
    ProjectConcat(taps, TapAt(g, o, t));
    if TapAt(g, o, t) == [] {
      assert Inputs(WindowTaps(g, o, t + 1)) == Inputs(taps);
      forall q | 0 <= q < g.InputSize() ensures after[q] == before[q] {
      }
    } else {
      var x := TapAt(g, o, t)[0];
      TapFresh(g, o, t);
      ProjectTap(x);
      FlatBound(TapRow(g, o, t), TapColumn(g, o, t), g.height, g.width);
      assert Inputs(WindowTaps(g, o, t + 1)) == Inputs(taps) + [x.input];
      forall q | 0 <= q < g.InputSize() ensures after[q] == before[x.input := before[x.input] + [o]][q] {
        if q == x.input {
          assert before[q] == CoveringOutputs(g, q, o);
          assert after[q] == CoveringOutputs(g, q, o) + [o];
        } else {
          assert q in Inputs(WindowTaps(g, o, t + 1)) <==> q in Inputs(taps);
        }
      }
    }
  }

  /** Recording tap `t` of window `o` appends `o` to the group of kernel position `t`. */
  lemma KernelGroupsStep(g: Geometry, o: nat, t: nat)
    requires g.Fits() && t < g.KernelSize() <= g.InputSize()
    ensures TapAt(g, o, t) == [] ==> PartialKernelGroups(g, o, t + 1) == PartialKernelGroups(g, o, t)
    ensures TapAt(g, o, t) != [] ==>
      var before := PartialKernelGroups(g, o, t);
      PartialKernelGroups(g, o, t + 1) == before[t := before[t] + [o]]
  {
    var before, after := PartialKernelGroups(g, o, t), PartialKernelGroups(g, o, t + 1);
    if TapAt(g, o, t) == [] {
      forall k | 0 <= k < g.InputSize() ensures after[k] == before[k] {
      }
    } else {
      forall k | 0 <= k < g.InputSize() ensures after[k] == before[t := before[t] + [o]][k] {
      }
    }
  }

  /** Once window `o` is complete, the groups are those of the first `o + 1` outputs. */
  lemma GroupedNext(g: Geometry, o: nat)
    requires g.Fits()
    ensures PartialMapGroups(g, o, g.KernelSize()) == PartialMapGroups(g, o + 1, 0)
    ensures PartialKernelGroups(g, o, g.KernelSize()) == PartialKernelGroups(g, o + 1, 0)
  {
    var m1, m2 := PartialMapGroups(g, o, g.KernelSize()), PartialMapGroups(g, o + 1, 0);
    var k1, k2 := PartialKernelGroups(g, o, g.KernelSize()), PartialKernelGroups(g, o + 1, 0);
    assert Inputs(WindowTaps(g, o + 1, 0)) == [];
    forall q | 0 <= q < g.InputSize() ensures m1[q] == m2[q] {
      assert m2[q] == CoveringOutputs(g, q, o + 1) + [];
    }
    forall k | 0 <= k < g.InputSize() ensures k1[k] == k2[k] {
      assert k2[k] == KernelUsers(g, k, o + 1) + [];
    }
  }

  lemma GroupedStart(g: Geometry)
    requires g.Fits()
    ensures PartialMapGroups(g, 0, 0) == seq(g.InputSize(), _ => [])
    ensures PartialKernelGroups(g, 0, 0) == seq(g.InputSize(), _ => [])
  {
  }

  lemma GroupedDone(g: Geometry, count: nat)
    requires g.Fits()
    ensures PartialMapGroups(g, count, 0) == MapGroups(g, count)
    ensures PartialKernelGroups(g, count, 0) == KernelGroups(g, count)
  {
    var m1, k1 := PartialMapGroups(g, count, 0), PartialKernelGroups(g, count, 0);
    assert Inputs(WindowTaps(g, count, 0)) == [];
    forall q | 0 <= q < g.InputSize() ensures m1[q] == MapGroups(g, count)[q] {
      assert m1[q] == CoveringOutputs(g, q, count) + [];
    }
    forall k | 0 <= k < g.InputSize() ensures k1[k] == KernelGroups(g, count)[k] {
      assert k1[k] == KernelUsers(g, k, count) + [];
    }
  }

  lemma {:induction false} FlattenPrefix(groups: seq<seq<nat>>, a: nat, b: nat)
    requires a <= b <= |groups|
    ensures Flatten(groups, a) <= Flatten(groups, b)
    decreases b
  {
    if a < b {
      FlattenPrefix(groups, a, b - 1);
    }
  }

  /** Group `q` occupies positions `GroupStarts[q]` up to `GroupStarts[q + 1]` of the concatenation. */
  lemma FlattenSlice(groups: seq<seq<nat>>, q: nat, count: nat)
    requires q < count <= |groups|
    ensures |Flatten(groups, q)| <= |Flatten(groups, q + 1)| <= |Flatten(groups, count)|
    ensures Flatten(groups, count)[|Flatten(groups, q)|..|Flatten(groups, q + 1)|] == groups[q]
  {
    FlattenPrefix(groups, q + 1, count);
  }

  lemma GroupStartsSnoc(groups: seq<seq<nat>>, count: nat)
    requires count < |groups|
    ensures GroupStarts(groups, count + 1) == GroupStarts(groups, count) + [|Flatten(groups, count)|]
  {
  }

  /**
   * A 1 by 1 input under a 3 by 3 kernel with padding 1: its single tap is at kernel
   * position 4, beyond the one kernel group sized by the input plane.
   */
  lemma KernelGroupsOverflow()
    ensures var g := Geometry(1, 1, 3, 3, 1, 1);
      g.Fits() && g.Outputs() == 1 && TapAt(g, 0, 4) == [Tap(0, 4)] && 4 >= g.InputSize()
  {
  }

  class Window {
    var initialized: bool
    var outputHeight: nat
    var outputWidth: nat
    var mapWindow: seq<nat>
    var kernelWindow: seq<nat>
    var windowIdx: seq<nat>

    constructor ()
      ensures !initialized && mapWindow == [] && kernelWindow == [] && windowIdx == []
    {
      initialized := false;
      outputHeight, outputWidth := 0, 0;
      mapWindow, kernelWindow, windowIdx := [], [], [];
    }

    /**
     * Output to input map: window after window, the input positions under
     * the kernel (padding skipped) with their kernel positions, and where
     * each window starts, followed by the total number of taps.
     */
    method Forward(inputHeight: nat, inputWidth: nat, kernelHeight: nat, kernelWidth: nat, stride: nat, padding: nat)
      requires Geometry(inputHeight, inputWidth, kernelHeight, kernelWidth, stride, padding).Fits()
      modifies this
      ensures var g := Geometry(inputHeight, inputWidth, kernelHeight, kernelWidth, stride, padding);
        initialized && outputHeight == g.OutputHeight() && outputWidth == g.OutputWidth() &&
        mapWindow == Inputs(TapsBefore(g, g.Outputs())) &&
        kernelWindow == Kernels(TapsBefore(g, g.Outputs())) &&
        windowIdx == Starts(g, g.Outputs()) + [|TapsBefore(g, g.Outputs())|]
    {
      ghost var g := Geometry(inputHeight, inputWidth, kernelHeight, kernelWidth, stride, padding);
      var oh := (inputHeight + 2 * padding - kernelHeight) / stride + 1;
      var ow := (inputWidth + 2 * padding - kernelWidth) / stride + 1;
      var mapW, kernelW, idx := [], [], [];
      var size := 0;
      ghost var o, oi := 0, 0;
      assert oh == g.OutputHeight() && ow == g.OutputWidth();
      var i: int := 0 - padding;
      while i <= inputHeight + padding - kernelHeight
        invariant 0 <= oi <= oh && i == oi * stride - padding && o == oi * ow
        invariant mapW == Inputs(TapsBefore(g, o)) && kernelW == Kernels(TapsBefore(g, o))
        invariant size == |mapW| && idx == Starts(g, o)
        decreases inputHeight + padding - kernelHeight - i
      {
        StepCount(oi, stride, inputHeight + 2 * padding - kernelHeight);
        var j: int := 0 - padding;
        ghost var oj, rowBase := 0, o;
        while j <= inputWidth + padding - kernelWidth
          invariant 0 <= oj <= ow && j == oj * stride - padding && rowBase == oi * ow && o == rowBase + oj
          invariant mapW == Inputs(TapsBefore(g, o)) && kernelW == Kernels(TapsBefore(g, o))
          invariant size == |mapW| && idx == Starts(g, o)
          decreases inputWidth + padding - kernelWidth - j
        {
          StepCount(oj, stride, inputWidth + 2 * padding - kernelWidth);
          WindowOrigin(g, oi, oj);
          StartsSnoc(g, o);
          idx := idx + [size];
          mapW, kernelW := OverlapTaps(g, o, inputHeight, inputWidth, kernelHeight, kernelWidth, i, j, mapW, kernelW);
          ProjectConcat(TapsBefore(g, o), TapsOf(g, o));
          size := |mapW|;
          o := o + 1;
          assert (oj + 1) * stride == oj * stride + stride;
          oj := oj + 1;
          j := j + stride;
        }
        StepCount(oj, stride, inputWidth + 2 * padding - kernelWidth);
        assert o == (oi + 1) * ow by { assert (oi + 1) * ow == oi * ow + ow; }
        assert (oi + 1) * stride == oi * stride + stride;
        oi := oi + 1;
        i := i + stride;
      }
      StepCount(oi, stride, inputHeight + 2 * padding - kernelHeight);
      assert oi == oh;
      assert o == g.Outputs();
      idx := idx + [size];
      outputHeight, outputWidth := oh, ow;
      mapWindow, kernelWindow, windowIdx := mapW, kernelW, idx;
      initialized := true;
    }

    /**
     * Input to output map: for every input position, the outputs whose window
     * covers it, and for every kernel position, the outputs whose window has
     * that position on the input; each list ascending, concatenated in
     * position order, with the start of each input position's group.
     */
    method Backward(inputHeight: nat, inputWidth: nat, kernelHeight: nat, kernelWidth: nat, stride: nat, padding: nat)
      requires Geometry(inputHeight, inputWidth, kernelHeight, kernelWidth, stride, padding).Fits()
      requires kernelHeight * kernelWidth <= inputHeight * inputWidth
      modifies this
      ensures var g := Geometry(inputHeight, inputWidth, kernelHeight, kernelWidth, stride, padding);
        var groups := MapGroups(g, g.Outputs());
        initialized && outputHeight == g.OutputHeight() && outputWidth == g.OutputWidth() &&
        mapWindow == Flatten(groups, g.InputSize()) &&
        kernelWindow == Flatten(KernelGroups(g, g.Outputs()), g.InputSize()) &&
        windowIdx == GroupStarts(groups, g.InputSize()) + [|Flatten(groups, g.InputSize())|]
    {
      ghost var g := Geometry(inputHeight, inputWidth, kernelHeight, kernelWidth, stride, padding);
      var oh := (inputHeight + 2 * padding - kernelHeight) / stride + 1;
      var ow := (inputWidth + 2 * padding - kernelWidth) / stride + 1;
      assert oh == g.OutputHeight() && ow == g.OutputWidth();
      var tempMap, tempKernel := GroupAll(g, inputHeight, inputWidth, kernelHeight, kernelWidth, stride, padding);
      var size := TotalSize(tempMap);
      var mapW, kernelW, idx := Concatenate(tempMap, tempKernel, size);
      outputHeight, outputWidth := oh, ow;
      mapWindow, kernelWindow, windowIdx := mapW, kernelW, idx;
      initialized := true;
    }
  }

  /** The two kernel loops of `Window.Forward` for window `o`, whose top-left corner is (`i`, `j`). */
  method OverlapTaps(ghost g: Geometry, ghost o: nat, height: nat, width: nat, kernelHeight: nat, kernelWidth: nat,
                     i: int, j: int, mapW: seq<nat>, kernelW: seq<nat>)
    returns (mapW': seq<nat>, kernelW': seq<nat>)
    requires g.Fits() && i == g.Top(o) && j == g.Left(o)
    requires height == g.height && width == g.width && kernelHeight == g.kernelHeight && kernelWidth == g.kernelWidth
    ensures mapW' == mapW + Inputs(TapsOf(g, o)) && kernelW' == kernelW + Kernels(TapsOf(g, o))
  {
    mapW', kernelW' := mapW, kernelW;
    ghost var r, rowStart: nat := 0, 0;
    var m := i;
    while m < i + kernelHeight
      invariant m == i + r && r <= kernelHeight && rowStart == r * kernelWidth
      invariant mapW' == mapW + Inputs(WindowTaps(g, o, rowStart))
      invariant kernelW' == kernelW + Kernels(WindowTaps(g, o, rowStart))
    {
      assert (r + 1) * kernelWidth == rowStart + kernelWidth;
      MulMonotone(r + 1, kernelHeight, kernelWidth);
      mapW', kernelW' := OverlapRow(g, o, r, rowStart, height, width, kernelWidth, i, j, m, mapW, kernelW, mapW', kernelW');
      r, rowStart := r + 1, rowStart + kernelWidth;
      m := m + 1;
    }
  }

  /** The inner kernel loop of `Window.Forward`: kernel row `r` of window `o`, over input row `m`. */
  method OverlapRow(ghost g: Geometry, ghost o: nat, ghost r: nat, ghost rowStart: nat, height: nat, width: nat, kernelWidth: nat,
                    i: int, j: int, m: int, ghost mapW: seq<nat>, ghost kernelW: seq<nat>, rowMap: seq<nat>, rowKernel: seq<nat>)
    returns (mapW': seq<nat>, kernelW': seq<nat>)
    requires g.Fits() && i == g.Top(o) && j == g.Left(o) && height == g.height && width == g.width && kernelWidth == g.kernelWidth
    requires r < g.kernelHeight && m == i + r && rowStart == r * kernelWidth && rowStart + kernelWidth <= g.KernelSize()
    requires rowMap == mapW + Inputs(WindowTaps(g, o, rowStart))
    requires rowKernel == kernelW + Kernels(WindowTaps(g, o, rowStart))
    ensures mapW' == mapW + Inputs(WindowTaps(g, o, rowStart + kernelWidth))
    ensures kernelW' == kernelW + Kernels(WindowTaps(g, o, rowStart + kernelWidth))
  {
    mapW', kernelW' := rowMap, rowKernel;
    ghost var taps := WindowTaps(g, o, rowStart);
    ghost var c: nat := 0;
    var n := j;
    while n < j + kernelWidth
      invariant n == j + c && c <= kernelWidth
      invariant taps == WindowTaps(g, o, rowStart + c)
      invariant mapW' == mapW + Inputs(taps)
      invariant kernelW' == kernelW + Kernels(taps)
    {
      ghost var t := rowStart + c;
      TapAtCell(g, o, r, c);
      var k := (m - i) * kernelWidth + (n - j);
      assert k == t by { assert m - i == r; }
      ghost var step := TapAt(g, o, t);
      ProjectConcat(taps, step);
      if m >= 0 && m < height && n >= 0 && n < width {
        MulMonotone(0, m, width);
        assert step == [Tap(m * width + n, k)];
        ProjectTap(Tap(m * width + n, k));
        mapW' := mapW' + [m * width + n];
        kernelW' := kernelW' + [k];
      } else {
        assert step == [];
      }
      taps := taps + step;
      c := c + 1;
      n := n + 1;
    }
  }

  /** The window loops of `Window.Backward`: every tap of every window recorded in the temporary groups. */
  method GroupAll(ghost g: Geometry, inputHeight: nat, inputWidth: nat, kernelHeight: nat, kernelWidth: nat,
                  stride: nat, padding: nat)
    returns (tempMap: seq<seq<nat>>, tempKernel: seq<seq<nat>>)
    requires g == Geometry(inputHeight, inputWidth, kernelHeight, kernelWidth, stride, padding)
    requires g.Fits() && g.KernelSize() <= g.InputSize()
    ensures tempMap == MapGroups(g, g.Outputs()) && tempKernel == KernelGroups(g, g.Outputs())
  {
    var oh := (inputHeight + 2 * padding - kernelHeight) / stride + 1;
    var ow := (inputWidth + 2 * padding - kernelWidth) / stride + 1;
    tempMap := seq(inputHeight * inputWidth, _ => []);
    tempKernel := seq(inputHeight * inputWidth, _ => []);
    var outputIdx := 0;
    ghost var oi := 0;
    assert oh == g.OutputHeight() && ow == g.OutputWidth();
    GroupedStart(g);
    var i: int := 0 - padding;
    while i <= inputHeight + padding - kernelHeight
      invariant 0 <= oi <= oh && i == oi * stride - padding && outputIdx == oi * ow
      invariant tempMap == PartialMapGroups(g, outputIdx, 0) && tempKernel == PartialKernelGroups(g, outputIdx, 0)
      decreases inputHeight + padding - kernelHeight - i
    {
      StepCount(oi, stride, inputHeight + 2 * padding - kernelHeight);
      var j: int := 0 - padding;
      ghost var oj, rowBase := 0, outputIdx;
      while j <= inputWidth + padding - kernelWidth
        invariant 0 <= oj <= ow && j == oj * stride - padding && rowBase == oi * ow && outputIdx == rowBase + oj
        invariant tempMap == PartialMapGroups(g, outputIdx, 0) && tempKernel == PartialKernelGroups(g, outputIdx, 0)
        decreases inputWidth + padding - kernelWidth - j
      {
        StepCount(oj, stride, inputWidth + 2 * padding - kernelWidth);
        WindowOrigin(g, oi, oj);
        tempMap, tempKernel := GroupTaps(g, outputIdx, inputHeight, inputWidth, kernelHeight, kernelWidth, i, j,
                                         tempMap, tempKernel);
        outputIdx := outputIdx + 1;
        assert (oj + 1) * stride == oj * stride + stride;
        oj := oj + 1;
        j := j + stride;
      }
      StepCount(oj, stride, inputWidth + 2 * padding - kernelWidth);
      assert outputIdx == (oi + 1) * ow by { assert (oi + 1) * ow == oi * ow + ow; }
      assert (oi + 1) * stride == oi * stride + stride;
      oi := oi + 1;
      i := i + stride;
    }
    StepCount(oi, stride, inputHeight + 2 * padding - kernelHeight);
    GroupedDone(g, outputIdx);
  }

  /** The two kernel loops of `Window.Backward` for window `o`, whose top-left corner is (`i`, `j`). */
  method GroupTaps(ghost g: Geometry, o: nat, height: nat, width: nat, kernelHeight: nat, kernelWidth: nat,
                   i: int, j: int, tempMap: seq<seq<nat>>, tempKernel: seq<seq<nat>>)
    returns (tempMap': seq<seq<nat>>, tempKernel': seq<seq<nat>>)
    requires g.Fits() && i == g.Top(o) && j == g.Left(o) && g.KernelSize() <= g.InputSize()
    requires height == g.height && width == g.width && kernelHeight == g.kernelHeight && kernelWidth == g.kernelWidth
    requires tempMap == PartialMapGroups(g, o, 0) && tempKernel == PartialKernelGroups(g, o, 0)
    ensures tempMap' == PartialMapGroups(g, o + 1, 0) && tempKernel' == PartialKernelGroups(g, o + 1, 0)
  {
    tempMap', tempKernel' := tempMap, tempKernel;
    ghost var r, rowStart: nat := 0, 0;
    var m := i;
    while m < i + kernelHeight
      invariant m == i + r && r <= kernelHeight && rowStart == r * kernelWidth
      invariant rowStart <= g.KernelSize()
      invariant tempMap' == PartialMapGroups(g, o, rowStart) && tempKernel' == PartialKernelGroups(g, o, rowStart)
    {
      assert (r + 1) * kernelWidth == rowStart + kernelWidth;
      MulMonotone(r + 1, kernelHeight, kernelWidth);
      tempMap', tempKernel' := GroupRow(g, o, r, rowStart, height, width, kernelWidth, i, j, m, tempMap', tempKernel');
      r, rowStart := r + 1, rowStart + kernelWidth;
      m := m + 1;
    }
    GroupedNext(g, o);
  }

  /** The inner kernel loop of `Window.Backward`: kernel row `r` of window `o`, over input row `m`. */
  method GroupRow(ghost g: Geometry, o: nat, ghost r: nat, ghost rowStart: nat, height: nat, width: nat, kernelWidth: nat,
                  i: int, j: int, m: int, tempMap: seq<seq<nat>>, tempKernel: seq<seq<nat>>)
    returns (tempMap': seq<seq<nat>>, tempKernel': seq<seq<nat>>)
    requires g.Fits() && i == g.Top(o) && j == g.Left(o) && height == g.height && width == g.width
    requires kernelWidth == g.kernelWidth && g.KernelSize() <= g.InputSize()
    requires r < g.kernelHeight && m == i + r && rowStart == r * kernelWidth && rowStart + kernelWidth <= g.KernelSize()
    requires tempMap == PartialMapGroups(g, o, rowStart) && tempKernel == PartialKernelGroups(g, o, rowStart)
    ensures tempMap' == PartialMapGroups(g, o, rowStart + kernelWidth)
    ensures tempKernel' == PartialKernelGroups(g, o, rowStart + kernelWidth)
  {
    tempMap', tempKernel' := tempMap, tempKernel;
    ghost var c: nat := 0;
    var n := j;
    while n < j + kernelWidth
      invariant n == j + c && c <= kernelWidth
      invariant tempMap' == PartialMapGroups(g, o, rowStart + c) && tempKernel' == PartialKernelGroups(g, o, rowStart + c)
    {
      tempMap', tempKernel' := GroupCell(g, o, r, c, rowStart, height, width, kernelWidth, i, j, m, n, tempMap', tempKernel');
      c := c + 1;
      n := n + 1;
    }
  }

  /** Total number of entries over all groups. */
  method TotalSize(groups: seq<seq<nat>>) returns (size: nat)
    ensures size == |Flatten(groups, |groups|)|
  {
    size := 0;
    var i := 0;
    while i < |groups|
      invariant 0 <= i <= |groups| && size == |Flatten(groups, i)|
    {
      size := size + |groups[i]|;
      i := i + 1;
    }
  }

  /** The concatenation loop of `Window.Backward`: both group lists in position order, with the map groups' starts. */
  method Concatenate(tempMap: seq<seq<nat>>, tempKernel: seq<seq<nat>>, size: nat)
    returns (mapW: seq<nat>, kernelW: seq<nat>, idx: seq<nat>)
    requires |tempKernel| == |tempMap| && size == |Flatten(tempMap, |tempMap|)|
    ensures mapW == Flatten(tempMap, |tempMap|) && kernelW == Flatten(tempKernel, |tempKernel|)
    ensures idx == GroupStarts(tempMap, |tempMap|) + [size]
  {
    mapW, kernelW, idx := [], [], [];
    var start := 0;
    var i := 0;
    while i < |tempMap|
      invariant 0 <= i <= |tempMap|
      invariant mapW == Flatten(tempMap, i) && kernelW == Flatten(tempKernel, i)
      invariant start == |mapW| && idx == GroupStarts(tempMap, i)
    {
      GroupStartsSnoc(tempMap, i);
      idx := idx + [start];
      start := start + |tempMap[i]|;
      mapW := mapW + tempMap[i];
      kernelW := kernelW + tempKernel[i];
      i := i + 1;
    }
    idx := idx + [size];
  }

  /** One step of the inner kernel loop of `Window.Backward`: kernel position (`r`, `c`) of window `o`. */
  method GroupCell(ghost g: Geometry, o: nat, ghost r: nat, ghost c: nat, ghost rowStart: nat,
                   height: nat, width: nat, kernelWidth: nat, i: int, j: int, m: int, n: int,
                   tempMap: seq<seq<nat>>, tempKernel: seq<seq<nat>>)
    returns (tempMap': seq<seq<nat>>, tempKernel': seq<seq<nat>>)
    requires g.Fits() && i == g.Top(o) && j == g.Left(o) && height == g.height && width == g.width
    requires kernelWidth == g.kernelWidth && g.KernelSize() <= g.InputSize()
    requires r < g.kernelHeight && c < kernelWidth && m == i + r && n == j + c && rowStart == r * kernelWidth
    requires rowStart + kernelWidth <= g.KernelSize()
    requires tempMap == PartialMapGroups(g, o, rowStart + c) && tempKernel == PartialKernelGroups(g, o, rowStart + c)
    ensures tempMap' == PartialMapGroups(g, o, rowStart + c + 1)
    ensures tempKernel' == PartialKernelGroups(g, o, rowStart + c + 1)
  {
    ghost var t := rowStart + c;
    TapAtCell(g, o, r, c);
    var k := (m - i) * kernelWidth + (n - j);
    assert k == t by { assert m - i == r; }
    MapGroupsStep(g, o, t);
    KernelGroupsStep(g, o, t);
    if m >= 0 && m < height && n >= 0 && n < width {
      MulMonotone(0, m, width);
      assert TapAt(g, o, t) == [Tap(m * width + n, k)];
      tempMap' := tempMap[m * width + n := tempMap[m * width + n] + [o]];
      tempKernel' := tempKernel[k := tempKernel[k] + [o]];
    } else {
      assert TapAt(g, o, t) == [];
      tempMap', tempKernel' := tempMap, tempKernel;
    }
  }
}
