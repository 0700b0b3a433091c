/**
  The five semantic bands of a style feature row and their weighting.

  A row of width D is cut at multiples of `D / 5` into the bands style,
  color, content, structure and texture, in that order; texture runs to the
  end of the row and so takes the remainder of the division. Each band is
  scaled by its own weight and the bands are joined back in the same order.
 */
module Bands {

  datatype Band = Style | Color | Content | Structure | Texture

  /** `splits`: the width of every band but the last, for a row of width `d`. */
  function Splits(d: nat): nat
  {
    d / 5
  }

  /** First index of band `b` in a row of width `d`. */
  function Start(b: Band, d: nat): nat
  {
    var s := Splits(d);
    match b
    case Style => 0
    case Color => s
    case Content => 2 * s
    case Structure => 3 * s
    case Texture => 4 * s
  }

  /** One past the last index of band `b` in a row of width `d`; texture runs to the end. */
  function End(b: Band, d: nat): nat
  {
    var s := Splits(d);
    match b
    case Style => s
    case Color => 2 * s
    case Content => 3 * s
    case Structure => 4 * s
    case Texture => d
  }

  /**
    The band bounds tile [0, d): style starts at 0, each band ends where the
    next in the fixed order starts, texture ends at d, and no band runs
    backwards. The first four bands are `d / 5` wide and texture takes the
    rest, which is the whole row when d < 5.
   */
  lemma BandBounds(d: nat)
    ensures Start(Style, d) == 0
    ensures End(Style, d) == Start(Color, d)
    ensures End(Color, d) == Start(Content, d)
    ensures End(Content, d) == Start(Structure, d)
    ensures End(Structure, d) == Start(Texture, d)
    ensures End(Texture, d) == d
    ensures forall b :: Start(b, d) <= End(b, d) <= d
    ensures forall b :: b != Texture ==> End(b, d) - Start(b, d) == d / 5
    ensures End(Texture, d) - Start(Texture, d) == d - 4 * (d / 5)
    ensures d < 5 ==> forall b :: b != Texture ==> Start(b, d) == End(b, d)
    ensures d < 5 ==> Start(Texture, d) == 0
  {
  }

  /** The band that index `i` of a row of width `d` falls into. */
  function BandOf(i: nat, d: nat): (b: Band)
    requires i < d
    ensures Start(b, d) <= i < End(b, d)
  {
    var s := Splits(d);
    if i < s then Style
    else if i < 2 * s then Color
    else if i < 3 * s then Content
    else if i < 4 * s then Structure
    else Texture
  }

  /**
    The bands partition [0, d): an index lies in band `b` exactly when `b`
    is the band it falls into, so no index lies in two bands.
   */
  lemma BandsPartition(i: nat, d: nat, b: Band)
    requires i < d
    ensures Start(b, d) <= i < End(b, d) <==> b == BandOf(i, d)
  {
  }

  /** Band `b` lies inside a row of width `d`. */
  lemma BandInside(b: Band, d: nat)
    ensures Start(b, d) <= End(b, d) <= d
  {
  }

  /** The slice of `row` that band `b` covers. */
  function Slice(row: seq<real>, b: Band): seq<real>
  {
    BandInside(b, |row|);
    row[Start(b, |row|)..End(b, |row|)]
  }

  /** Element `o` of band `b` is element `Start + o` of the row. */
  lemma SliceAt(row: seq<real>, b: Band, o: nat)
    requires o < End(b, |row|) - Start(b, |row|)
    ensures |Slice(row, b)| == End(b, |row|) - Start(b, |row|)
    ensures Slice(row, b)[o] == row[Start(b, |row|) + o]
  {
    BandInside(b, |row|);
  }

  /** The five bands of one row, as the dictionary of slices keyed by band name. */
  datatype Features = Features(style: seq<real>, color: seq<real>, content: seq<real>,
                               structure: seq<real>, texture: seq<real>)
  {
    function Get(b: Band): seq<real>
    {
      match b
      case Style => style
      case Color => color
      case Content => content
      case Structure => structure
      case Texture => texture
    }
  }

  /** The five per-band weights; the node declares each with default 1.0 and range [0, 10]. */
  datatype Weights = Weights(style: real, color: real, content: real,
                             structure: real, texture: real)
  {
    function Of(b: Band): real
    {
      match b
      case Style => style
      case Color => color
      case Content => content
      case Structure => structure
      case Texture => texture
    }

    /** These weights with the weight of band `b` replaced by `k`. */
    function With(b: Band, k: real): (w: Weights)
      ensures w.Of(b) == k
      ensures forall b' :: b' != b ==> w.Of(b') == Of(b')
    {
      match b
      case Style => this.(style := k)
      case Color => this.(color := k)
      case Content => this.(content := k)
      case Structure => this.(structure := k)
      case Texture => this.(texture := k)
    }
  }

  /** The weights every input defaults to. */
  const UnitWeights := Weights(1.0, 1.0, 1.0, 1.0, 1.0)

  /** Cuts a row into its five bands; each band is as wide as its bounds say. */
  function Split(row: seq<real>): (f: Features)
    ensures Fits(f, |row|)
  {
    Features(Slice(row, Style), Slice(row, Color), Slice(row, Content),
             Slice(row, Structure), Slice(row, Texture))
  }

  /** Band `b` of the split row is the slice of band `b`. */
  lemma SplitGet(row: seq<real>, b: Band)
    ensures Split(row).Get(b) == Slice(row, b)
  {
    match b
    case Style =>
    case Color =>
    case Content =>
    case Structure =>
    case Texture =>
  }

  /** Product of one feature value with a weight (the elementwise `*` of a band and its scalar). */
  function Mul(x: real, k: real): real
  {
    x * k
  }

  /** Elementwise product of a band with a scalar weight: same length, each element times `k`. */
  function Scale(v: seq<real>, k: real): (r: seq<real>)
    ensures |r| == |v|
  {
    if v == [] then [] else [Mul(v[0], k)] + Scale(v[1..], k)
  }
  lemma {:induction false} ScaleAt(v: seq<real>, k: real, o: nat, x: real)
    requires o < |v| && v[o] == x
    ensures Scale(v, k)[o] == Mul(x, k)
  {
    if o > 0 { ScaleAt(v[1..], k, o - 1, x); }
  }

  /** Multiplies every band by its own weight. */
  function Weigh(f: Features, w: Weights): (r: Features)
    ensures |r.style| == |f.style| && |r.color| == |f.color| && |r.content| == |f.content|
    ensures |r.structure| == |f.structure| && |r.texture| == |f.texture|
  {
    Features(Scale(f.style, w.style), Scale(f.color, w.color), Scale(f.content, w.content),
             Scale(f.structure, w.structure), Scale(f.texture, w.texture))
  }

  /** Band `b` of the weighted bands is band `b` scaled by its weight. */
  lemma WeighGet(f: Features, w: Weights, b: Band)
    ensures Weigh(f, w).Get(b) == Scale(f.Get(b), w.Of(b))
  {
    match b
    case Style =>
    case Color =>
    case Content =>
    case Structure =>
    case Texture =>
  }

  /** Joins the five bands back along the feature axis, in the fixed order. */
  function Cat(f: Features): (r: seq<real>)
    ensures forall d :: Fits(f, d) ==> |r| == d
  {
    f.style + f.color + f.content + f.structure + f.texture
  }

  /** Every band of `f` is exactly as wide as that band of a row of width `d`. */
  predicate Fits(f: Features, d: nat)
  {
    && |f.style| == End(Style, d) - Start(Style, d)
    && |f.color| == End(Color, d) - Start(Color, d)
    && |f.content| == End(Content, d) - Start(Content, d)
    && |f.structure| == End(Structure, d) - Start(Structure, d)
    && |f.texture| == End(Texture, d) - Start(Texture, d)
  }

  /** Element `i` of the joined bands is element `i - Start` of the band that `i` falls into. */
  lemma CatAt(f: Features, d: nat, i: nat)
    requires Fits(f, d) && i < d
    ensures var b := BandOf(i, d);
      i - Start(b, d) < |f.Get(b)| && Cat(f)[i] == f.Get(b)[i - Start(b, d)]
  {
    var b := BandOf(i, d);
    match b
    case Style =>
    case Color =>
    case Content =>
    case Structure =>
    case Texture =>
  }

  /** Joining the five unweighted bands in order gives back the row. */
  lemma SplitCat(row: seq<real>)
    ensures Cat(Split(row)) == row
  {
    var d := |row|;
    forall i | 0 <= i < d ensures Cat(Split(row))[i] == row[i]
    {
      var b := BandOf(i, d);
      CatAt(Split(row), d, i);
      SplitGet(row, b);
      SliceAt(row, b, i - Start(b, d));
    }
  }

  /** Joined bands `g`, each band of which is the matching band of `f` scaled by its weight. */
  lemma ScaledCatAt(f: Features, g: Features, w: Weights, row: seq<real>, i: nat)
    requires Fits(f, |row|) && Fits(g, |row|) && Cat(f) == row && i < |row|
    requires g.Get(BandOf(i, |row|)) == Scale(f.Get(BandOf(i, |row|)), w.Of(BandOf(i, |row|)))
    ensures |Cat(g)| == |row|
    ensures Cat(g)[i] == Mul(row[i], w.Of(BandOf(i, |row|)))
  {
    var d := |row|;
    var b := BandOf(i, d);
    CatAt(f, d, i);
    CatAt(g, d, i);
    ScaleAt(f.Get(b), w.Of(b), i - Start(b, d), row[i]);
  }

  /** Weighing then joining multiplies element `i` of a row by the weight of its band. */
  lemma WeighCatAt(f: Features, w: Weights, row: seq<real>, i: nat)
    requires Fits(f, |row|) && Cat(f) == row && i < |row|
    ensures |Cat(Weigh(f, w))| == |row|
    ensures Cat(Weigh(f, w))[i] == Mul(row[i], w.Of(BandOf(i, |row|)))
  {
    WeighGet(f, w, BandOf(i, |row|));
    ScaledCatAt(f, Weigh(f, w), w, row, i);
  }

  /**
    Weighing the bands of a row and joining them keeps the row's width and
    multiplies every element by the weight of the band it lies in.
   */
  lemma WeighCat(f: Features, w: Weights, row: seq<real>)
    requires Fits(f, |row|) && Cat(f) == row
    ensures |Cat(Weigh(f, w))| == |row|
    ensures forall i {:trigger Cat(Weigh(f, w))[i]} :: 0 <= i < |row| ==>
      Cat(Weigh(f, w))[i] == Mul(row[i], w.Of(BandOf(i, |row|)))
  {
    forall i | 0 <= i < |row| ensures Cat(Weigh(f, w))[i] == Mul(row[i], w.Of(BandOf(i, |row|)))
    {
      WeighCatAt(f, w, row, i);
    }
  }

  /**
    One row of `combined_cond`: split, weigh and join. The row keeps its
    width, and every element is the input element times the weight of the
    band it lies in.
   */
  function CombineRow(row: seq<real>, w: Weights): (r: seq<real>)
    ensures |r| == |row|
    ensures forall i {:trigger r[i]} :: 0 <= i < |row| ==> r[i] == Mul(row[i], w.Of(BandOf(i, |row|)))
  {
    SplitCat(row);
    WeighCat(Split(row), w, row);
    Cat(Weigh(Split(row), w))
  }

  /**
    Element `i` of a combined row, for any names `x` and `k` the caller has
    for the input element and its band's weight.
   */
  lemma CombineRowAt(row: seq<real>, w: Weights, i: nat, x: real, k: real)
    requires i < |row| && x == row[i] && k == w.Of(BandOf(i, |row|))
    ensures CombineRow(row, w)[i] == Mul(x, k)
  {
  }

  /** With every weight 1.0 the combined row is the input row. */
  lemma UnitWeightsIdentity(row: seq<real>)
    ensures CombineRow(row, UnitWeights) == row
  {
    var r := CombineRow(row, UnitWeights);
    forall i | 0 <= i < |row| ensures r[i] == row[i]
    {
      assert UnitWeights.Of(BandOf(i, |row|)) == 1.0;
      CombineRowAt(row, UnitWeights, i, row[i], 1.0);
    }
  }

  /**
    Changing the weight of band `b` to `k` changes only the elements inside
    band `b`, which become the input element times `k`; every element
    outside band `b` is left as it was.
   */
  lemma WeightLocality(row: seq<real>, w: Weights, b: Band, k: real)
    ensures forall i :: 0 <= i < |row| && BandOf(i, |row|) != b ==>
      CombineRow(row, w.With(b, k))[i] == CombineRow(row, w)[i]
    ensures forall i :: 0 <= i < |row| && BandOf(i, |row|) == b ==>
      CombineRow(row, w.With(b, k))[i] == Mul(row[i], k)
  {
    var w' := w.With(b, k);
    forall i | 0 <= i < |row|
      ensures BandOf(i, |row|) != b ==> CombineRow(row, w')[i] == CombineRow(row, w)[i]
      ensures BandOf(i, |row|) == b ==> CombineRow(row, w')[i] == Mul(row[i], k)
    {
      var p := w.Of(BandOf(i, |row|));
      if BandOf(i, |row|) == b {
        CombineRowAt(row, w', i, row[i], k);
      } else {
        CombineRowAt(row, w, i, row[i], p);
        CombineRowAt(row, w', i, row[i], p);
      }
    }
  }
}
