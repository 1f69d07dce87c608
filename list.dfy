/** The grouped list widget: a header object above a vertical box of rows,
    the box shown either directly or inside a scroll container. */
module GroupedList {
  import opened Canvas

  /** The list widget. `rows` is the box's ordered children; `box` and
      `content` are fixed at construction (`content` is the box itself, or a
      scroll container wrapping it). */
  class List {
    var Header: CanvasObject
    const box: CanvasObject
    const content: CanvasObject
    const scrolls: bool
    var rows: seq<CanvasObject>
    /** How many redraws the row operations have requested of the canvas. */
    ghost var redraws: nat

    /** The header and the content are two different objects, so laying out
        one never moves the other. */
    ghost predicate Valid()
      reads this
    {
      Header != content
    }

    /** NewList: the rows are shown directly in the box. */
    constructor (header: CanvasObject, children: seq<CanvasObject>)
      ensures Valid()
      ensures Header == header && rows == children
      ensures fresh(box) && content == box && !scrolls
      ensures redraws == 0
    {
      var b := new CanvasObject();
      Header := header;
      box := b;
      content := b;
      scrolls := false;
      rows := children;
      redraws := 0;
    }

    /** NewListWithScroller: the box is wrapped in a scroll container. */
    constructor WithScroller(header: CanvasObject, children: seq<CanvasObject>)
      ensures Valid()
      ensures Header == header && rows == children
      ensures fresh(box) && fresh(content) && content != box && scrolls
      ensures redraws == 0
    {
      var b := new CanvasObject();
      var scroller := new CanvasObject();
      Header := header;
      box := b;
      content := scroller;
      scrolls := true;
      rows := children;
      redraws := 0;
    }

    /** Inserts `obj` as the first row and returns its index, 0; every
        earlier row moves down by one. */
    method Prepend(obj: CanvasObject) returns (index: int)
      modifies this
      ensures rows == [obj] + old(rows)
      ensures index == 0 && rows[index] == obj
      ensures forall k :: 0 <= k < |old(rows)| ==> rows[k + 1] == old(rows)[k]
      ensures Header == old(Header)
      ensures redraws == old(redraws) + 1
    {
      rows := [obj] + rows;
      redraws := redraws + 1;
      index := 0;
    }

    /** Adds `obj` as the last row and returns its index, the new length
        minus one; the earlier rows keep their indices. */
    method Append(obj: CanvasObject) returns (index: int)
      modifies this
      ensures index == |old(rows)| == |rows| - 1 && rows[index] == obj
      ensures rows == old(rows) + [obj]
      ensures rows[..index] == old(rows)
      ensures Header == old(Header)
      ensures redraws == old(redraws) + 1
    {
      rows := rows + [obj];
      redraws := redraws + 1;
      index := |rows| - 1;
    }

    /** Drops the last row; the source reslices without a check, so an empty
        list is outside its domain. No redraw is requested. */
    method Pop()
      requires |rows| > 0
      modifies this
      ensures rows == old(rows)[..|old(rows)| - 1]
      ensures old(rows) == rows + [old(rows)[|old(rows)| - 1]]
      ensures Header == old(Header)
      ensures redraws == old(redraws)
    {
      rows := rows[..|rows| - 1];
    }

    /** The row at index `i`; the source indexes without a check. */
    method GetRow(i: int) returns (row: CanvasObject)
      requires 0 <= i < |rows|
      ensures row == rows[i]
      ensures row in rows
    {
      row := rows[i];
    }

    /** Deletes the row at index `i`; the rows after it move up by one.
        No redraw is requested. */
    method Remove(i: int)
      requires 0 <= i < |rows|
      modifies this
      ensures |rows| == |old(rows)| - 1
      ensures forall k :: 0 <= k < i ==> rows[k] == old(rows)[k]
      ensures forall k :: i <= k < |rows| ==> rows[k] == old(rows)[k + 1]
      ensures old(rows) == rows[..i] + [old(rows)[i]] + rows[i..]
      ensures Header == old(Header)
      ensures redraws == old(redraws)
    {
      rows := rows[..i] + rows[i + 1..];
    }

    /** Links the list to a renderer that draws the current header above the
        content. */
    method CreateRenderer() returns (r: ListRenderer)
      requires Valid()
      ensures fresh(r) && r.Valid()
      ensures r.list == this && r.header == Header
      ensures r.objects == [Header, content]
    {
      r := new ListRenderer(Header, this);
    }
  }

  /** Where the renderer puts the header and the content. */
  datatype Placement = Placement(header: Rect, content: Rect)

  /** The renderer's minimum size, from the header's and the content's
      measured minimum sizes and the theme padding: wide enough for the wider
      child, tall enough for both stacked with the padding between them. */
  function MinSize(headerMin: Size, contentMin: Size, padding: int): (s: Size)
    ensures s.width >= headerMin.width && s.width >= contentMin.width
    ensures s.width == headerMin.width || s.width == contentMin.width
    ensures s.height - padding - headerMin.height == contentMin.height
  {
    Size(Max(headerMin.width, contentMin.width), headerMin.height + contentMin.height + padding)
  }

  /** The layout for a given size: the header across the top at its minimum
      height, the content below it after the padding, taking the rest. */
  function StackLayout(size: Size, headerHeight: int, padding: int): (p: Placement)
    ensures p.header.pos == Position(0, 0) && p.header.size.height == headerHeight
    ensures p.header.size.width == size.width && p.content.size.width == size.width
    ensures p.content.pos == Position(0, p.header.pos.y + p.header.size.height + padding)
    ensures p.header.size.height + padding + p.content.size.height == size.height
  {
    Placement(
      Rect(Position(0, 0), Size(size.width, headerHeight)),
      Rect(Position(0, headerHeight + padding), Size(size.width, size.height - headerHeight - padding)))
  }

  /** At any size at least the minimum size, the layout gives both children at
      least their own minimum size, and at exactly the minimum height the
      content gets exactly its minimum height. */
  lemma MinSizeSuffices(headerMin: Size, contentMin: Size, padding: int, size: Size)
    requires size.width >= MinSize(headerMin, contentMin, padding).width
    requires size.height >= MinSize(headerMin, contentMin, padding).height
    ensures StackLayout(size, headerMin.height, padding).header.size.width >= headerMin.width
    ensures StackLayout(size, headerMin.height, padding).content.size.width >= contentMin.width
    ensures StackLayout(size, headerMin.height, padding).content.size.height >= contentMin.height
    ensures size.height == MinSize(headerMin, contentMin, padding).height ==>
              StackLayout(size, headerMin.height, padding).content.size.height == contentMin.height
  {
  }

  /** The list's renderer: the header captured at creation and the list whose
      content it lays out. */
  class ListRenderer {
    const header: CanvasObject
    const objects: seq<CanvasObject>
    const list: List

    ghost predicate Valid()
    {
      objects == [header, list.content] && header != list.content
    }

    constructor (header: CanvasObject, list: List)
      requires header != list.content
      ensures Valid() && this.header == header && this.list == list
    {
      this.header := header;
      this.list := list;
      objects := [header, list.content];
    }

    /** Moves and resizes the header and the content to the stacked layout for
        `size`; nothing else changes. */
    method Layout(size: Size, headerMin: Size, padding: int)
      requires Valid()
      modifies header, list.content
      ensures header.Bounds() == StackLayout(size, headerMin.height, padding).header
      ensures list.content.Bounds() == StackLayout(size, headerMin.height, padding).content
    {
      var headerHeight := headerMin.height;
      header.Move(Position(0, 0));
      header.Resize(Size(size.width, headerHeight));
      list.content.Move(Position(0, headerHeight + padding));
      list.content.Resize(Size(size.width, size.height - headerHeight - padding));
    }
  }

  /** Two appends and a prepend, then the indices they return and the rows
      that GetRow, Remove and Pop leave behind. */
  method RowScenario(header: CanvasObject, x: CanvasObject, y: CanvasObject, z: CanvasObject)
  {
    var l := new List(header, []);
    var i := l.Append(x);
    assert i == 0;
    i := l.Append(y);
    assert i == 1;
    i := l.Prepend(z);
    assert i == 0;
    var row := l.GetRow(1);
    assert row == x;
    l.Remove(0);
    row := l.GetRow(0);
    assert row == x;
    l.Pop();
    assert l.rows == [x];
  }
}
