/**
  Dense real-valued tensors of rank 2 and 3, as the style node sees them.

  A rank-2 tensor (a `Matrix`) is a sequence of rows that all share the
  tensor's last dimension, its `width`; the width is kept explicitly so that
  a tensor with no rows still has a feature size. A rank-3 tensor (an
  `Embedding`) is a sequence of groups of `depth` rows each, the shape the
  style encoder hands over before it is flattened.
 */
module Tensors {

  /** A row-major rank-2 tensor of shape [|rows|, width], before the shape check. */
  datatype Grid = Grid(width: nat, rows: seq<seq<real>>)
  {
    /** Every row has exactly `width` elements. */
    predicate Wf() {
      forall i :: 0 <= i < |rows| ==> |rows[i]| == width
    }
  }

  /** A well-shaped rank-2 tensor. */
  type Matrix = g: Grid | g.Wf() witness Grid(0, [])

  /** A row-major rank-3 tensor of shape [|groups|, depth, width], before the shape check. */
  datatype Cube = Cube(depth: nat, width: nat, groups: seq<seq<seq<real>>>)
  {
    /** Every group holds `depth` rows and every row `width` elements. */
    predicate Wf() {
      forall i :: 0 <= i < |groups| ==>
        |groups[i]| == depth && forall j :: 0 <= j < depth ==> |groups[i][j]| == width
    }
  }

  /** A well-shaped rank-3 tensor: the output of the style encoder. */
  type Embedding = c: Cube | c.Wf() witness Cube(0, 0, [])

  /** The groups' rows, one group after the other. */
  function Concat(groups: seq<seq<seq<real>>>): seq<seq<real>>
  {
    if groups == [] then [] else groups[0] + Concat(groups[1..])
  }

  /**
    Position of row j of group i once groups of `depth` rows are laid end to
    end: `depth` rows for each earlier group, then j.
   */
  function RowMajor(i: nat, j: nat, depth: nat): nat
  {
    if i == 0 then j else depth + RowMajor(i - 1, j, depth)
  }

  /** The row-major position is i * depth + j. */
  lemma {:induction false} RowMajorOffset(i: nat, j: nat, depth: nat)
    ensures RowMajor(i, j, depth) == i * depth + j
  {
    if i > 0 {
      RowMajorOffset(i - 1, j, depth);
    }
  }

  /** Concatenating groups of `depth` rows gives |groups| * depth rows. */
  lemma {:induction false} ConcatLength(groups: seq<seq<seq<real>>>, depth: nat)
    requires forall i :: 0 <= i < |groups| ==> |groups[i]| == depth
    ensures |Concat(groups)| == |groups| * depth
  {
    if groups != [] {
      ConcatLength(groups[1..], depth);
    }
  }

  /** Every concatenated row has the width that every group's rows have. */
  lemma {:induction false} ConcatRowsFrom(groups: seq<seq<seq<real>>>, width: nat)
    requires forall i, j :: 0 <= i < |groups| && 0 <= j < |groups[i]| ==> |groups[i][j]| == width
    ensures forall r :: 0 <= r < |Concat(groups)| ==> |Concat(groups)[r]| == width
  {
    if groups != [] {
      ConcatRowsFrom(groups[1..], width);
      assert Concat(groups) == groups[0] + Concat(groups[1..]);
    }
  }

  /** Row j of group i lands at the row-major position of (i, j) in the concatenation. */
  lemma {:induction false} ConcatAt(groups: seq<seq<seq<real>>>, depth: nat, i: nat, j: nat)
    requires forall g :: 0 <= g < |groups| ==> |groups[g]| == depth
    requires i < |groups| && j < depth
    ensures RowMajor(i, j, depth) < |Concat(groups)|
    ensures Concat(groups)[RowMajor(i, j, depth)] == groups[i][j]
  {
    assert Concat(groups) == groups[0] + Concat(groups[1..]);
    if i > 0 {
      ConcatAt(groups[1..], depth, i - 1, j);
    }
  }

  /** The concatenated groups of an embedding, laid out row-major. */
  lemma EmbeddingRows(e: Embedding)
    ensures |Concat(e.groups)| == |e.groups| * e.depth
    ensures forall r :: 0 <= r < |Concat(e.groups)| ==> |Concat(e.groups)[r]| == e.width
    ensures forall i, j :: 0 <= i < |e.groups| && 0 <= j < e.depth ==>
      RowMajor(i, j, e.depth) < |Concat(e.groups)| &&
      Concat(e.groups)[RowMajor(i, j, e.depth)] == e.groups[i][j]
  {
    ConcatLength(e.groups, e.depth);
    ConcatRowsFrom(e.groups, e.width);
    forall i, j | 0 <= i < |e.groups| && 0 <= j < e.depth
      ensures RowMajor(i, j, e.depth) < |Concat(e.groups)| &&
        Concat(e.groups)[RowMajor(i, j, e.depth)] == e.groups[i][j]
    {
      ConcatAt(e.groups, e.depth, i, j);
    }
  }

  /**
    `flatten(start_dim=0, end_dim=1)`: the two leading axes of an A x B x D
    embedding become one, giving A * B rows of width D in row-major order:
    row j of group i lands at `RowMajor(i, j, B)`, which `RowMajorOffset`
    shows is i * B + j.
   */
  function Flatten(e: Embedding): (m: Matrix)
    ensures m.width == e.width
    ensures |m.rows| == |e.groups| * e.depth
    ensures forall i, j :: 0 <= i < |e.groups| && 0 <= j < e.depth ==>
      RowMajor(i, j, e.depth) < |m.rows| && m.rows[RowMajor(i, j, e.depth)] == e.groups[i][j]
  {
    EmbeddingRows(e);
    Grid(e.width, Concat(e.groups))
  }
}
