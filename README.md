# fyne-list in Dafny

A model of the two widgets of the `list` package for the Fyne GUI toolkit,
with proofs about their row operations and layout geometry.

- **List** (`list.go`, module `GroupedList` in `list.dfy`). This is a header object
  above a vertical box of rows. The box is shown either directly or inside a scroll
  container. The class `List` holds the rows as a `seq` that `Prepend`, `Append`,
  `Pop` and `Remove` reassign in place, and `GetRow` reads. The class `ListRenderer`
  lays the header and the content out by moving and resizing them. Its minimum size
  and its layout are specified by the pure functions `MinSize` and `StackLayout`.
- **Header** (`listheader.go`, module `ListHeader` in `listheader.dfy`). This is a
  row of label texts followed by a five-space margin text.
  - `Header.CreateRenderer` builds the texts in a loop.
  - `HeaderRenderer.MinSize` collects the measured widths into an array. It sorts
    the array in place (`SortInts`, the model of `sort.Ints`) and takes the last
    element.
  - `HeaderRenderer.Layout` moves and resizes each text in a loop. Its result is
    specified by the pure function `HeaderColumns`.
- **Canvas** (`canvas.dfy`). This holds the toolkit's integer `Size`, `Position`
  and `Max`. It also has `Quo`, which is Go's integer division truncating toward
  zero, and the canvas objects that a layout moves and resizes.

Sizes in this Fyne version are integers, so all arithmetic is integer
arithmetic. Go's `/` truncates toward zero, so the header layout divides with
`Canvas.Quo`. This is not Dafny's Euclidean `/`, and the layout needs no
assumption that the width is at least the margin width.

The toolkit's measurements are inputs to the model:

- The header's and the content's minimum sizes are parameters.
- Each text's measured minimum size comes from a parameter `measure: Text -> Size`.
- `theme.Padding()` is a parameter `padding`.

Two behaviours of the code that a reader might not expect:

- Only `Prepend` and `Append` request a redraw (list.go:43, 52). `Pop` and `Remove`
  do not. The ghost counter `redraws` records this.
- With zero labels, the header's `MinSize` reads `objects[1]` (listheader.go:64),
  but only the margin text exists, so the call is out of range. The model requires
  at least one label. `Layout` with zero labels skips its loop and never divides by
  zero. The model proves this: `Quo` requires a positive divisor, and the loop body
  is the only executable call of `Quo` in `Layout`.

## Model

| member | source | states |
|---|---|---|
| Canvas.Max | list.go:96 | The result is at least both arguments and equals one of them. |
| Canvas.Quo | listheader.go:76-78 | Go's truncating division. For a non-negative dividend the remainder `a - b*q` lies in `[0, b)`. For a negative dividend it lies in `(-b, 0]`. |
| GroupedList.List.constructor | list.go:22-26 | NewList: the header and rows are the given ones. The content is the newly made box itself, and no redraw has been requested. |
| GroupedList.List.WithScroller | list.go:32-36 | NewListWithScroller: the same, but the content is a new scroll container distinct from the box. |
| GroupedList.List.Prepend | list.go:40-45 | Rows become `[x] + old`, and the result is 0 with `rows[0] == x`. Every earlier row moves up one index. The header is unchanged and one redraw is requested. |
| GroupedList.List.Append | list.go:49-54 | Rows become `old + [x]`. The result is `|old|`, the new length minus one, and `rows[result] == x`. The earlier rows are unchanged, the header is unchanged, and one redraw is requested. |
| GroupedList.List.Pop | list.go:57-59 | Requires a non-empty list. Rows become `old[..|old|-1]`, so appending the popped row gives back the old rows. The header is unchanged and no redraw is requested. |
| GroupedList.List.GetRow | list.go:62-64 | Requires `0 <= i < |rows|`. Returns `rows[i]`, which is a member of the rows, and changes nothing. |
| GroupedList.List.Remove | list.go:67-69 | Requires `0 <= i < |rows|`. The length drops by one. Rows before `i` are unchanged and row `k >= i` is the old row `k+1`. Re-inserting the removed row at `i` gives back the old rows. The header is unchanged and no redraw is requested. |
| GroupedList.List.CreateRenderer | list.go:78-83 | The new renderer captures the current header and this list, and its objects are `[header, content]`. |
| GroupedList.MinSize | list.go:92-97 | Width is the larger of the two children's minimum widths: at least both and equal to one. Height minus padding minus header height is the content's minimum height. |
| GroupedList.StackLayout | list.go:99-107 | Header at (0,0) with the full width and its minimum height. Content at x = 0, starting `padding` below the header's bottom edge, with the full width. Header height + padding + content height is exactly the given height. |
| GroupedList.MinSizeSuffices | list.go:92-107 | At any size at least `MinSize`, the layout gives each child at least its minimum width, and the content at least its minimum height. At exactly the minimum height, the content gets exactly its minimum height. |
| GroupedList.ListRenderer.Layout | list.go:99-107 | After the call, the header's and the content's position and size are the `StackLayout` rectangles for the given size. Only those two objects are modified. |
| ListHeader.Header.constructor | listheader.go:24-28 | NewHeader keeps the given colour and labels. They are constants of the model, so no model operation changes them later. |
| ListHeader.Header.CreateRenderer | listheader.go:31-48 | Builds `|labels|+1` distinct new texts. Text `i` shows `labels[i]` in the header's colour. The last text is the margin `"     "`. |
| ListHeader.HeaderRenderer.Texts | listheader.go:37-45 | The texts shown, left to right, are the labels in constructor order followed by the margin text. |
| ListHeader.HeaderRenderer.MinSize | listheader.go:56-65 | Requires at least one label, because `objects[1]` is read. Width is `HeaderMinWidth` of the margin width and the label widths. Height is `objects[1]`'s measured height. |
| ListHeader.HeaderRenderer.Layout | listheader.go:67-82 | After the call, each text `i`'s position and size equal `HeaderColumns(size, M, N)[i]`, where M is the margin's measured width and N the number of labels. |
| ListHeader.SortInts | listheader.go:63 | Sorts the array in place: ascending, and a permutation of the old contents. |
| ListHeader.SeqMax | listheader.go:63-64 | The result is an element of the sequence and at least every element. |
| ListHeader.SortedLastIsMax | listheader.go:63-64 | For any sorted permutation of a non-empty sequence, the last element is that sequence's maximum. So sorting and taking the last element computes the maximum. |
| ListHeader.HeaderMinWidth | listheader.go:57-64 | The result is at least `4*M` and at least `3*w + M` for every label width `w`, and equals one of those. This is `3 * max(M, widths) + M`; the margin appearing twice among the candidates does not matter. |
| ListHeader.HeaderColumns | listheader.go:72-81 | There are labels + 1 rectangles. Every text sits at y = 0 and has the full height. |
| ListHeader.MarginPinnedRight | listheader.go:80-81 | For every number of labels, zero included, the margin is at (W−M, 0) with size (M, H). |
| ListHeader.ColumnsTile | listheader.go:72-79 | With at least one label: label 0 is at x = 0, every label is `(W−M)/N` wide, and label `i` is at `i*(W−M)/N`. Each label ends where the next one starts. |
| ListHeader.ColumnsStopAtMargin | listheader.go:72-81 | When W >= M, the column width is non-negative. The last label ends at or before the margin's x, and fewer than N units are left between them. |
| ListHeader.ColumnsDisjoint | listheader.go:72-79 | When W >= M, label `i` ends at or before label `j` starts, for every `i < j`. |
| ListHeader.MinWidthFitsUpToThreeLabels | listheader.go:56-79 | With 1 to 3 labels and a non-negative margin width, any width at least the minimum width gives every label a column at least as wide as its measured width. |
| ListHeader.FourLabelsMayNotFit | listheader.go:56-79 | With four labels 10 wide and a margin 5 wide, the minimum width is 35. At that width each column is only 7 wide, so the minimum size can be too small. |

## Left out

- Redraws. The model does not schedule them. `canvas.Refresh` (list.go:43, 52) is recorded only as the ghost counter `List.redraws`. The renderers' `Refresh` methods (list.go:117-122, listheader.go:92-97) re-run `Layout` at the widget's current size and then refresh the children. `Destroy` does nothing (list.go:124-125, listheader.go:99). Neither is a member of the model; `Layout` is.
- `BackgroundColor` (list.go:109-111, listheader.go:84-86) is a global theme lookup and is not modelled. `theme.Padding()` is the parameter `padding`.
- `Objects()` (list.go:113-115, listheader.go:88-90) is not a separate member. It only returns the renderer's `objects` field, which the model keeps as a constant.
- Text measurement, and the minimum sizes of the header, the box and the scroll container, are foreign layout and font code. They are inputs: a `measure` function and minimum-size parameters.
- `widget.BaseWidget`, `ExtendBaseWidget` and `List.MinSize` (list.go:72-75) are toolkit internals, and are not modelled.
- Scroll-container behaviour is not modelled. The content is an opaque canvas object that is either the box or a separate scroll container.
- Text style (bold) and trailing alignment (listheader.go:34-40) are not modelled. They are rendering attributes with no logic. The colour is kept as an opaque RGBA value.
- Go's shared backing arrays are not modelled. These are the aliasing in `Remove`'s `append` (list.go:68) and `Pop`'s reslice, and the variadic slices the constructors keep: `NewHeader`'s `labels` (listheader.go:25) and the rows passed through `NewVBox(children...)` (list.go:23, 33). A caller who passes an existing slice with `s...` can still change the labels or rows through it in Go; the model states only the resulting sequences of rows and labels.
- `HeaderRenderer.MinSize` collects widths with `append` in Go (listheader.go:57-62). The model fills an array of the final length in the same order, because only the candidates passed to the sort matter.
- ListHeader.SortInts: sorts by insertion. Go's `sort.Ints` uses a different algorithm, but the contract is the same (ascending, a permutation).
- Canvas.Quo: sizes are unbounded integers. The 64-bit wrap-around of Go's `int` is not modelled, because no realistic size overflows it.
- GroupedList.List.Pop: requires a non-empty list; the Go reslice at list.go:58 panics on an empty one, and that panic is outside the model's domain.
- GroupedList.List.GetRow: requires `0 <= i < |rows|`; the Go index at list.go:63 panics otherwise, and that panic is outside the model's domain.
- GroupedList.List.Remove: requires `0 <= i < |rows|`; the Go slicing at list.go:68 panics otherwise, and that panic is outside the model's domain.
- ListHeader.HeaderRenderer.MinSize: requires at least one label, because the Go code indexes `objects[1]` and panics with zero labels.
