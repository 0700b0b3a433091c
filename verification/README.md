# Flux style-adjust node, modelled in Dafny

This project models `StyleModelAdvancedApply.apply_style`, the ComfyUI node that
re-weights a Flux style embedding by semantic band before appending it to the
conditioning. The node works in four steps:

1. The style encoder's A x B x D embedding is flattened into A * B feature rows
   of width D (`Tensors.Flatten`).
2. Every row is cut into five contiguous bands: style, color, content, structure
   and texture. The cut points are multiples of `D // 5`, and texture takes the
   remainder (`Bands.Start`, `Bands.End`, `Bands.Split`).
3. Each band is multiplied by its own weight, and the bands are joined back in
   the same order (`Bands.Weigh`, `Bands.Cat`, `Bands.CombineRow`). All rows
   together form `combined_cond` (`StyleModel.StyleCond`).
4. Each conditioning entry gets a new token tensor: the entry's rows followed by
   `combined_cond`. The entry's metadata dictionary is copied
   (`StyleModel.ApplyStyle`).

The project has three modules:

- `Tensors` (tensors.dfy): rank-2 and rank-3 real tensors, and the flatten.
- `Bands` (bands.dfy): the band bounds, the split, the weighting and the join.
- `StyleModel` (style_model.dfy): `combined_cond`, and the loop that builds the
  new conditioning list. That loop is a method with loop invariants. The rest of
  the node is pure and is modelled with functions and lemmas.

Tensor elements are `real`. Multiplying an element by its band's weight is named
`Bands.Mul`.

When the feature size D is below 5, nodes.py does not reject the input. Every
cut point is then 0, so the first four bands are empty and texture is the whole
row. The model follows the code, and `Bands.BandBounds` states what the code
does.

## Model

| member | source | states |
|---|---|---|
| Tensors.Flatten | nodes.py:58 | Flattening the two leading axes keeps the feature size and gives `A * B` rows. Row `j` of group `i` lands at row-major position `RowMajor(i, j, B)`. |
| Tensors.ConcatLength | nodes.py:58 | Laying A groups of B rows end to end (`Concat`, the flatten's row order) gives `A * B` rows. |
| Tensors.ConcatAt | nodes.py:58 | In `Concat`, row `j` of group `i` is at position `RowMajor(i, j, B)`, inside the result. |
| Tensors.RowMajorOffset | nodes.py:58 | The row-major position of (i, j) is `i * B + j`. |
| Bands.BandBounds | nodes.py:62-71 | For the cut points `Start` and `End` of each band: style starts at 0. Each band ends where the next one in the fixed order starts. Texture ends at D, and no band runs backwards. The first four bands are `D // 5` wide and texture is `D - 4 * (D // 5)` wide. When D < 5 the first four bands are empty and texture starts at 0. |
| Bands.BandOf | nodes.py:62-71 | Every index of a row of width D lies inside the band that `BandOf` names. |
| Bands.BandsPartition | nodes.py:65-71 | An index lies in band `b` if and only if `b` is its `BandOf`, so no index lies in two bands. |
| Bands.SliceAt | nodes.py:66-70 | A band's slice is `End - Start` wide, and its element `o` is row element `Start + o`. |
| Bands.Split | nodes.py:65-71 | Cutting a row into its dictionary of five bands gives each band exactly the width its bounds `End - Start` say. |
| Bands.SplitGet | nodes.py:65-71 | Band `b` of the split row is the row's slice from `Start(b)` to `End(b)`. |
| Bands.Scale | nodes.py:75-79 | Multiplying a band by a scalar keeps its length. |
| Bands.ScaleAt | nodes.py:75-79 | Element `o` of a scaled band is the original element `o` times the scalar. |
| Bands.Weigh | nodes.py:74-80 | Weighting the bands keeps every band's width. |
| Bands.WeighGet | nodes.py:74-80 | Each weighted band is the same band scaled by its own weight. |
| Bands.Cat | nodes.py:83-89 | Joining five bands that have the band widths of a row of width D gives a row of width D. |
| Bands.CatAt | nodes.py:83-89 | Element `i` of the joined row is element `i - Start(b)` of band `b = BandOf(i, D)`. |
| Bands.SplitCat | nodes.py:65-89 | Joining the five unweighted bands in order gives back the original row. |
| Bands.WeighCat | nodes.py:74-89 | Weighing and joining keeps the row width, and multiplies element `i` by the weight of the band `i` lies in. |
| Bands.CombineRow | nodes.py:61-89 | A combined row is as wide as the input row. Each element is the input element times the weight of its band. |
| Bands.UnitWeightsIdentity | nodes.py:74-89 | With all five weights at their default 1.0, the combined row equals the input row. |
| Bands.WeightLocality | nodes.py:74-89 | Changing one band's weight to `k` leaves every element outside that band unchanged. Every element inside that band becomes the input element times `k`. |
| StyleModel.CombineRows | nodes.py:83-89 | Combining every flattened row keeps the row count and each row's width. Element `k` of row `n` is the input element times the weight of the band of column `k`. |
| StyleModel.StyleCond | nodes.py:58-89 | `combined_cond` has the embedding's feature size and `A * B` rows. Element `k` of row-major row (i, j) is embedding element `[i][j][k]` times the weight of the band of column `k`. |
| StyleModel.UnitStyleCond | nodes.py:53-89 | With the default weights, `combined_cond` is the flattened embedding itself. |
| StyleModel.ApplyStyle | nodes.py:92-97 | The node succeeds if and only if every entry has the embedding's feature size. Otherwise the error names the first mismatching entry and both sizes. On success the output has one entry per input entry, in order. Each output entry's rows are the input rows followed by `combined_cond`, so it grows by `A * B` rows. Its width is D and its metadata equals the input entry's. |

## Left out

- The style encoder (`style_model.get_cond` and its Redux image encoder, nodes.py:58) is foreign code. Its output is an input to the model: a well-shaped `Embedding`.
- The node's input schema (`INPUT_TYPES`, `RETURN_TYPES`, `FUNCTION` and `CATEGORY`, nodes.py:6-51) is declarations for the host application. The declared weight range [0, 10] is not a precondition, because `apply_style` never enforces it.
- `__init__.py` only registers the node with the host. It has no logic and is not part of this model.
- Floating-point arithmetic: elements and weights are exact reals. Rounding, NaN and infinities are not modelled.
- Torch device and dtype handling are not modelled.
- Each conditioning entry carries one batch of token rows. `torch.cat` would also fail on an entry whose batch size is not 1, and that failure is not modelled. The `unsqueeze` that adds the batch axis to `combined_cond` is implicit.
- `ApplyStyle`: the metadata copy is stated as equality of values. That the copy is a distinct dictionary, and that its values are shared with the original (a shallow copy), is not modelled.
