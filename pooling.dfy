/**
 * What the pooling kernels read from a window: the list of positions
 * (`map_window`) and where each entry's span of it starts (`window_idx`).
 * For pooling forward the entries are outputs and the positions are input
 * positions under their window; for average-pooling backward the entries are
 * input positions and the positions are the outputs whose window covers them.
 */
module Pooling {
  import opened Arith
  import W = Windows
  import NW = NewWindows
  import C = Convolution

  datatype Lists = Lists(inputs: seq<nat>, starts: seq<nat>)
  {
    /** `outputs` entries, each with a span of positions below `plane`, the spans in order. */
    ghost predicate Fitting(outputs: nat, plane: nat)
    {
      |starts| == outputs + 1 && starts[outputs] <= |inputs| &&
      (forall a, b :: 0 <= a <= b <= outputs ==> starts[a] <= starts[b]) && C.Below(inputs, plane)
    }

    /** Entry `o` has a start and an end, in order, inside the positions. */
    predicate Spans(o: nat)
    {
      o + 1 < |starts| && starts[o] <= starts[o + 1] <= |inputs|
    }

    lemma FittingSpans(outputs: nat, plane: nat, o: nat)
      requires Fitting(outputs, plane) && o < outputs
      ensures Spans(o)
    {
      assert starts[o] <= starts[o + 1] <= starts[outputs];
    }

    /** The positions of entry `o`. */
    function InputsOf(o: nat): seq<nat>
      requires Spans(o)
    {
      inputs[starts[o]..starts[o + 1]]
    }
  }

  /** The lists a window object of the second kind holds. */
  function ListsOf(w: NW.Window): Lists
    reads w
  {
    Lists(w.mapWindow, w.windowIdx)
  }

  /** The lists `Window.OutputToInput` builds for a grid. */
  function ForwardLists(g: NW.Grid): Lists
    requires g.Fits()
  {
    var taps := NW.TapsBefore(g, g.Outputs());
    Lists(W.Inputs(taps), NW.Starts(g, g.Outputs()) + [|taps|])
  }

  /** The forward lists fit the grid, and output `o` gets exactly the input positions under window `o`. */
  lemma ForwardWindow(g: NW.Grid, o: nat)
    requires g.Fits()
    ensures ForwardLists(g).Fitting(g.Outputs(), g.InputSize())
    ensures o < g.Outputs() ==> ForwardLists(g).Spans(o) && ForwardLists(g).InputsOf(o) == W.Inputs(NW.TapsOf(g, o))
  {
    var n := g.Outputs();
    var taps := NW.TapsBefore(g, n);
    var l := ForwardLists(g);
    NW.StartsMonotone(g, n);
    NW.TapsBeforeBounds(g, n);
    forall x | x in l.inputs ensures x < g.InputSize() {
      var a :| 0 <= a < |l.inputs| && l.inputs[a] == x;
      assert taps[a] in taps;
    }
    if o < n {
      NW.WindowSlice(g, o, n);
      var lo, hi := |NW.TapsBefore(g, o)|, |NW.TapsBefore(g, o + 1)|;
      assert l.starts[o] == lo && l.starts[o + 1] == hi;
      W.InputsSlice(taps, lo, hi);
    }
  }

  /** The lists of `count` groups laid end to end, each group's span starting where the previous one ends. */
  function Concatenated(groups: seq<seq<nat>>, count: nat): Lists
    requires count <= |groups|
  {
    var flat := W.Flatten(groups, count);
    Lists(flat, W.GroupStarts(groups, count) + [|flat|])
  }

  /** The lists `Window.InputToOutput` builds: per input position, the outputs whose window covers it. */
  function BackwardLists(g: W.Geometry): Lists
    requires g.Fits()
  {
    Concatenated(W.MapGroups(g, g.Outputs()), g.InputSize())
  }

  /** Every position in the first `count` groups is below `bound` when every group's is. */
  lemma {:induction false} FlattenBelow(groups: seq<seq<nat>>, count: nat, bound: nat)
    requires count <= |groups| && forall q :: 0 <= q < count ==> C.Below(groups[q], bound)
    ensures C.Below(W.Flatten(groups, count), bound)
  {
    if count > 0 {
      FlattenBelow(groups, count - 1, bound);
      assert C.Below(groups[count - 1], bound);
    }
  }

  /** The backward lists fit the geometry: one span per input position, each listing outputs. */
  lemma BackwardListsFit(g: W.Geometry)
    requires g.Fits()
    ensures BackwardLists(g).Fitting(g.InputSize(), g.Outputs())
  {
    var n, size := g.Outputs(), g.InputSize();
    var groups := W.MapGroups(g, n);
    var l := BackwardLists(g);
    forall a, b | 0 <= a <= b <= size ensures l.starts[a] <= l.starts[b] {
      W.FlattenPrefix(groups, a, b);
    }
    forall p | 0 <= p < size ensures C.Below(groups[p], n) {
      forall x | x in groups[p] ensures x < n {
        W.CoveringOutputsMember(g, p, n, x);
      }
    }
    FlattenBelow(groups, size, n);
  }

  /** Entry `q` of the concatenated lists spans exactly group `q`. */
  lemma ConcatenatedSpan(groups: seq<seq<nat>>, count: nat, q: nat)
    requires q < count <= |groups|
    ensures Concatenated(groups, count).Spans(q) && Concatenated(groups, count).InputsOf(q) == groups[q]
  {
    var l := Concatenated(groups, count);
    W.FlattenSlice(groups, q, count);
    var lo, hi := |W.Flatten(groups, q)|, |W.Flatten(groups, q + 1)|;
    assert l.starts[q] == lo;
    assert l.starts[q + 1] == hi by {
      if q + 1 < count {
        assert W.GroupStarts(groups, count)[q + 1] == hi;
      }
    }
  }

  /** Input `q` gets exactly the outputs whose window covers it, ascending. */
  lemma BackwardGroup(g: W.Geometry, q: nat)
    requires g.Fits() && q < g.InputSize()
    ensures BackwardLists(g).Spans(q) && BackwardLists(g).InputsOf(q) == W.CoveringOutputs(g, q, g.Outputs())
  {
    ConcatenatedSpan(W.MapGroups(g, g.Outputs()), g.InputSize(), q);
  }
}
