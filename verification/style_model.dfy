/**
  The style-adjust node: the style embedding is flattened into rows, every
  row is split into its five bands, weighted and rejoined (`combined_cond`),
  and the weighted rows are appended to the token rows of every
  conditioning entry.
 */
module StyleModel {
  import opened Tensors
  import opened Bands

  /**
    One conditioning entry: the token rows of its single batch (the
    sequence axis is the row index, the feature axis the column index) and
    its metadata dictionary, whose values the node never inspects.
   */
  datatype Entry<V> = Entry(tokens: Matrix, meta: map<string, V>)

  /**
    Joining two tensors along the sequence axis needs equal feature sizes;
    `entry` is the position of the first entry whose feature size
    `entryWidth` differs from the style rows' `styleWidth`.
   */
  datatype Error = SizeMismatch(entry: nat, entryWidth: nat, styleWidth: nat)

  datatype Result<T> = Ok(value: T) | Err(error: Error)

  /** `combined_cond` row by row: every flattened row of the embedding, weighted by band. */
  function CombineRows(rows: seq<seq<real>>, w: Weights): (r: seq<seq<real>>)
    ensures |r| == |rows|
    ensures forall n :: 0 <= n < |rows| ==> |r[n]| == |rows[n]|
    ensures forall n, k :: 0 <= n < |rows| && 0 <= k < |rows[n]| ==>
      r[n][k] == Mul(rows[n][k], w.Of(BandOf(k, |rows[n]|)))
  {
    seq(|rows|, n requires 0 <= n < |rows| => CombineRow(rows[n], w))
  }

  /**
    `combined_cond`: the flattened style embedding with every element
    multiplied by the weight of the band its column lies in. It has one row
    per (group, row-in-group) pair of the embedding, in row-major order
    (row (i, j) at `RowMajor(i, j, B)`, that is i * B + j by `RowMajorOffset`),
    and the embedding's feature size.
   */
  function StyleCond(e: Embedding, w: Weights): (m: Matrix)
    ensures m.width == e.width
    ensures |m.rows| == |e.groups| * e.depth
    ensures forall i, j, k :: 0 <= i < |e.groups| && 0 <= j < e.depth && 0 <= k < e.width ==>
      RowMajor(i, j, e.depth) < |m.rows| &&
      m.rows[RowMajor(i, j, e.depth)][k] == Mul(e.groups[i][j][k], w.Of(BandOf(k, e.width)))
  {
    var f := Flatten(e);
    Grid(e.width, CombineRows(f.rows, w))
  }

  /** With every weight 1.0, `combined_cond` is the flattened embedding itself. */
  lemma {:induction false} UnitStyleCond(e: Embedding)
    ensures StyleCond(e, UnitWeights) == Flatten(e)
  {
    var f := Flatten(e);
    var m := StyleCond(e, UnitWeights);
    forall n | 0 <= n < |f.rows| ensures m.rows[n] == f.rows[n]
    {
      UnitWeightsIdentity(f.rows[n]);
    }
  }

  /**
    `apply_style` after `combined_cond` is built: a new list with one entry
    per conditioning entry, in order, whose token rows are the entry's rows
    followed by the style rows and whose metadata is a copy of the entry's.
    The first entry whose feature size differs from the embedding's stops
    the node with a size mismatch.
   */
  method ApplyStyle<V>(conditioning: seq<Entry<V>>, e: Embedding, w: Weights)
    returns (r: Result<seq<Entry<V>>>)
    ensures r.Ok? <==> forall n :: 0 <= n < |conditioning| ==> conditioning[n].tokens.width == e.width
    ensures r.Err? ==>
      var k := r.error.entry;
      && k < |conditioning|
      && conditioning[k].tokens.width != e.width
      && (forall n :: 0 <= n < k ==> conditioning[n].tokens.width == e.width)
      && r.error == SizeMismatch(k, conditioning[k].tokens.width, e.width)
    ensures r.Ok? ==> |r.value| == |conditioning|
    ensures r.Ok? ==> forall n :: 0 <= n < |conditioning| ==>
      && r.value[n].tokens.width == e.width
      && r.value[n].tokens.rows == conditioning[n].tokens.rows + StyleCond(e, w).rows
      && |r.value[n].tokens.rows| == |conditioning[n].tokens.rows| + |e.groups| * e.depth
      && r.value[n].meta == conditioning[n].meta
  {
    var cond := StyleCond(e, w);
    var c: seq<Entry<V>> := [];
    for n := 0 to |conditioning|
      invariant |c| == n
      invariant forall m :: 0 <= m < n ==> conditioning[m].tokens.width == e.width
      invariant forall m :: 0 <= m < n ==>
        && c[m].tokens.width == e.width
        && c[m].tokens.rows == conditioning[m].tokens.rows + cond.rows
        && c[m].meta == conditioning[m].meta
    {
      var t := conditioning[n];
      if t.tokens.width != cond.width {
        return Err(SizeMismatch(n, t.tokens.width, cond.width));
      }
      var tokens := Grid(cond.width, t.tokens.rows + cond.rows);
      assert tokens.Wf() by {
        forall q | 0 <= q < |tokens.rows| ensures |tokens.rows[q]| == cond.width
        {
          if q >= |t.tokens.rows| {
            assert tokens.rows[q] == cond.rows[q - |t.tokens.rows|];
          }
        }
      }
      c := c + [Entry(tokens, t.meta)];
    }
    r := Ok(c);
  }
}
