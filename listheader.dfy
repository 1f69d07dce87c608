/** The multi-column header widget: one bold text per label, laid out in
    equal columns left to right, followed by a blank margin text on the
    right. */
module ListHeader {
  import opened Canvas

  /** The text that reserves the right-hand margin: five spaces. */
  const MarginText: string := "     "

  /** The header widget. Its labels and colour are fixed at construction;
      there is no operation that changes them. */
  class Header {
    const labels: seq<string>
    const color: Color

    /** NewHeader. */
    constructor (color: Color, labels: seq<string>)
      ensures this.labels == labels && this.color == color
    {
      this.labels := labels;
      this.color := color;
    }

    /** Builds one text per label, in label order and in the header's colour,
        then the margin text last. */
    method CreateRenderer() returns (r: HeaderRenderer)
      ensures fresh(r) && r.Valid() && r.header == this
      ensures forall i :: 0 <= i < |r.objects| ==> fresh(r.objects[i])
    {
      var objects: seq<Text> := [];
      var i := 0;
      while i < |labels|
        invariant 0 <= i <= |labels| && |objects| == i
        invariant forall k :: 0 <= k < i ==> objects[k].text == labels[k] && objects[k].color == color
        invariant forall k :: 0 <= k < i ==> fresh(objects[k])
        invariant forall a, b :: 0 <= a < b < i ==> objects[a] != objects[b]
      {
        var obj := new Text(labels[i], color);
        objects := objects + [obj];
        i := i + 1;
      }
      var margin := new Text(MarginText, color);
      objects := objects + [margin];
      r := new HeaderRenderer(objects, margin, this);
    }
  }

  /** The header's renderer: the label texts followed by the margin text. */
  class HeaderRenderer {
    const objects: seq<Text>
    const margin: Text
    const header: Header

    /** One distinct text per label, showing that label in order and in the
        header's colour, and the margin text last. */
    ghost predicate Valid()
    {
      && |objects| == |header.labels| + 1
      && objects[|objects| - 1] == margin
      && margin.text == MarginText
      && margin.color == header.color
      && (forall i :: 0 <= i < |header.labels| ==> objects[i].text == header.labels[i])
      && (forall i :: 0 <= i < |objects| ==> objects[i].color == header.color)
      && (forall a, b :: 0 <= a < b < |objects| ==> objects[a] != objects[b])
    }

    constructor (objects: seq<Text>, margin: Text, header: Header)
      ensures this.objects == objects && this.margin == margin && this.header == header
    {
      this.objects := objects;
      this.margin := margin;
      this.header := header;
    }

    /** The texts shown, left to right. */
    function Texts(): (t: seq<string>)
      requires Valid()
      ensures t == header.labels + [MarginText]
    {
      seq(|objects|, i requires 0 <= i < |objects| => objects[i].text)
    }

    /** The minimum size, with `measure` giving each text's measured minimum
        size. The source reads the height of `objects[1]`, so at least one
        label is needed. */
    method MinSize(measure: Text -> Size) returns (s: Size)
      requires Valid()
      requires |objects| > 1
      ensures s.width == HeaderMinWidth(measure(margin).width, Widths(measure, objects[..|objects| - 1]))
      ensures s.height == measure(objects[1]).height
    {
      var n := |objects|;
      var minWidths := new int[n + 1];
      var marginWidth := measure(margin).width;
      minWidths[0] := marginWidth;
      var i := 0;
      while i < n
        invariant 0 <= i <= n
        invariant minWidths[..i + 1] == [marginWidth] + Widths(measure, objects[..i])
      {
        minWidths[i + 1] := measure(objects[i]).width;
        assert objects[..i + 1] == objects[..i] + [objects[i]];
        assert minWidths[..i + 2] == minWidths[..i + 1] + [minWidths[i + 1]];
        i := i + 1;
      }
      ghost var candidates := minWidths[..];
      assert objects[..n] == objects[..n - 1] + [margin];
      assert candidates == [marginWidth] + Widths(measure, objects[..n - 1]) + [marginWidth] by {
        assert minWidths[..] == minWidths[..n + 1];
      }
      SortInts(minWidths);
      SortedLastIsMax(candidates, minWidths[..]);
      s := Size(3 * minWidths[n] + marginWidth, measure(objects[1]).height);
    }

    /** Moves and resizes every text: the labels into equal columns across the
        width left of the margin, the margin at the right edge. */
    method Layout(size: Size, measure: Text -> Size)
      requires Valid()
      modifies objects
      ensures forall i :: 0 <= i < |objects| ==>
                objects[i].Bounds() == HeaderColumns(size, measure(margin).width, |objects| - 1)[i]
    {
      var numObj := |objects|;
      var marWidth := measure(margin).width;
      ghost var columns := HeaderColumns(size, marWidth, numObj - 1);
      var i := 0;
      while i < numObj - 1
        invariant 0 <= i <= numObj - 1
        invariant forall k :: 0 <= k < i ==> objects[k].Bounds() == columns[k]
      {
        if i == 0 {
          objects[i].Move(Position(0, 0));
        } else {
          objects[i].Move(Position(Quo(size.width - marWidth, numObj - 1) * i, 0));
        }
        objects[i].Resize(Size(Quo(size.width - marWidth, numObj - 1), size.height));
        i := i + 1;
      }
      objects[numObj - 1].Move(Position(size.width - marWidth, 0));
      objects[numObj - 1].Resize(Size(marWidth, size.height));
    }
  }

  /** The measured widths of `objs`, in order. */
  function Widths(measure: Text -> Size, objs: seq<Text>): (ws: seq<int>)
    ensures |ws| == |objs|
  {
    seq(|objs|, i requires 0 <= i < |objs| => measure(objs[i]).width)
  }

  /** The largest element of a non-empty sequence. */
  function SeqMax(s: seq<int>): (m: int)
    requires |s| > 0
    ensures m in s
    ensures forall x :: x in s ==> x <= m
  {
    if |s| == 1 then s[0]
    else
      assert s == [s[0]] + s[1..];
      Max(s[0], SeqMax(s[1..]))
  }

  predicate Sorted(s: seq<int>)
  {
    forall i, j :: 0 <= i < j < |s| ==> s[i] <= s[j]
  }

  /** `sort.Ints`: sorts the array in place into ascending order. */
  method SortInts(a: array<int>)
    modifies a
    ensures Sorted(a[..])
    ensures multiset(a[..]) == old(multiset(a[..]))
  {
    var i := 0;
    while i < a.Length
      invariant 0 <= i <= a.Length
      invariant forall k, l :: 0 <= k < l < i ==> a[k] <= a[l]
      invariant multiset(a[..]) == old(multiset(a[..]))
    {
      var j := i;
      while j > 0 && a[j - 1] > a[j]
        invariant 0 <= j <= i
        invariant forall k, l :: 0 <= k < l <= i && l != j ==> a[k] <= a[l]
        invariant 0 < j < i ==> a[j - 1] <= a[j + 1]
        invariant multiset(a[..]) == old(multiset(a[..]))
      {
        Swap(a, j - 1, j);
        j := j - 1;
      }
      i := i + 1;
    }
  }

  /** Exchanges two elements. */
  method Swap(a: array<int>, i: int, j: int)
    requires 0 <= i < j < a.Length
    modifies a
    ensures a[i] == old(a[j]) && a[j] == old(a[i])
    ensures forall k :: 0 <= k < a.Length && k != i && k != j ==> a[k] == old(a[k])
    ensures multiset(a[..]) == old(multiset(a[..]))
  {
    a[i], a[j] := a[j], a[i];
  }

  /** After sorting, the last element is the largest of the original
      elements. */
  lemma SortedLastIsMax(s: seq<int>, t: seq<int>)
    requires |s| > 0
    requires multiset(t) == multiset(s) && Sorted(t)
    ensures |t| == |s| && t[|t| - 1] == SeqMax(s)
  {
    assert |t| == |multiset(t)| == |multiset(s)| == |s|;
    var last := t[|t| - 1];
    assert last in multiset(t);
    assert last in s;
    var m := SeqMax(s);
    assert m in multiset(s);
    assert m in t;
  }

  /** The header's minimum width: three times the largest of the margin's
      width and every text's width, plus the margin width. The candidates
      hold the margin's width twice, first and again as the last text. */
  function HeaderMinWidth(marginWidth: int, labelWidths: seq<int>): (w: int)
    ensures w >= 4 * marginWidth
    ensures forall x :: x in labelWidths ==> w >= 3 * x + marginWidth
    ensures w == 4 * marginWidth || exists x :: x in labelWidths && w == 3 * x + marginWidth
  {
    var candidates := [marginWidth] + labelWidths + [marginWidth];
    assert forall x :: x in labelWidths ==> x in candidates;
    3 * SeqMax(candidates) + marginWidth
  }

  /** The x of column `i` when columns are `q` wide; the first column is
      pinned to 0. */
  function ColumnX(i: nat, q: int): int
  {
    if i == 0 then 0 else q * i
  }

  /** Where the layout puts the `labels` label texts and then the margin, for
      the given size and margin width. Columns are (W - M) / labels wide, with
      Go's truncating division. */
  function HeaderColumns(size: Size, marginWidth: int, labels: nat): (r: seq<Rect>)
    ensures |r| == labels + 1
    ensures forall i :: 0 <= i <= labels ==> r[i].pos.y == 0 && r[i].size.height == size.height
  {
    seq(labels + 1, i requires 0 <= i <= labels =>
      if i < labels then
        var q := Quo(size.width - marginWidth, labels);
        Rect(Position(ColumnX(i, q), 0), Size(q, size.height))
      else
        Rect(Position(size.width - marginWidth, 0), Size(marginWidth, size.height)))
  }

  /** The margin always sits at W - M with its own width, whatever the number
      of labels, zero included. */
  lemma MarginPinnedRight(size: Size, marginWidth: int, labels: nat)
    ensures HeaderColumns(size, marginWidth, labels)[labels]
            == Rect(Position(size.width - marginWidth, 0), Size(marginWidth, size.height))
  {
  }

  /** The label columns all have one width, start at 0 and follow each other
      without gap or overlap. */
  lemma ColumnsTile(size: Size, marginWidth: int, labels: nat)
    requires labels > 0
    ensures HeaderColumns(size, marginWidth, labels)[0].pos.x == 0
    ensures forall i :: 0 <= i < labels ==>
              HeaderColumns(size, marginWidth, labels)[i].size.width == Quo(size.width - marginWidth, labels)
    ensures forall i :: 0 <= i < labels ==>
              HeaderColumns(size, marginWidth, labels)[i].pos.x == i * Quo(size.width - marginWidth, labels)
    ensures forall i :: 0 <= i < labels - 1 ==>
              HeaderColumns(size, marginWidth, labels)[i].pos.x + HeaderColumns(size, marginWidth, labels)[i].size.width
              == HeaderColumns(size, marginWidth, labels)[i + 1].pos.x
  {
    var r := HeaderColumns(size, marginWidth, labels);
    var q := Quo(size.width - marginWidth, labels);
    forall i | 0 <= i < labels
      ensures r[i].pos.x == i * q
    {
      assert r[i].pos.x == ColumnX(i, q);
    }
    forall i | 0 <= i < labels - 1
      ensures r[i].pos.x + r[i].size.width == r[i + 1].pos.x
    {
      assert r[i].pos.x + q == i * q + q == (i + 1) * q;
    }
  }

  /** When the width leaves room for the margin, the last label ends at or
      before the margin's x and leaves less than one pixel per label unused. */
  lemma ColumnsStopAtMargin(size: Size, marginWidth: int, labels: nat)
    requires labels > 0 && size.width >= marginWidth
    ensures Quo(size.width - marginWidth, labels) >= 0
    ensures var r := HeaderColumns(size, marginWidth, labels);
            r[labels - 1].pos.x + r[labels - 1].size.width <= r[labels].pos.x
    ensures var r := HeaderColumns(size, marginWidth, labels);
            r[labels].pos.x - (r[labels - 1].pos.x + r[labels - 1].size.width) < labels
  {
    var r := HeaderColumns(size, marginWidth, labels);
    var q := Quo(size.width - marginWidth, labels);
    ColumnsTile(size, marginWidth, labels);
    assert r[labels - 1].pos.x + r[labels - 1].size.width == (labels - 1) * q + q == labels * q;
  }

  /** With room for the margin, no two label columns overlap. */
  lemma ColumnsDisjoint(size: Size, marginWidth: int, labels: nat, i: nat, j: nat)
    requires size.width >= marginWidth && i < j < labels
    ensures var r := HeaderColumns(size, marginWidth, labels);
            r[i].pos.x + r[i].size.width <= r[j].pos.x
  {
    var q := Quo(size.width - marginWidth, labels);
    ColumnsTile(size, marginWidth, labels);
    ColumnsStopAtMargin(size, marginWidth, labels);
    MulMonotone(q, i + 1, j);
  }

  lemma MulMonotone(q: int, a: int, b: int)
    requires q >= 0 && a <= b
    ensures a * q <= b * q
  {
  }

  /** With one to three labels, any width at least the minimum width gives
      every label a column at least as wide as its text. */
  lemma MinWidthFitsUpToThreeLabels(marginWidth: int, labelWidths: seq<int>, size: Size)
    requires 1 <= |labelWidths| <= 3 && marginWidth >= 0
    requires size.width >= HeaderMinWidth(marginWidth, labelWidths)
    ensures forall i :: 0 <= i < |labelWidths| ==>
              HeaderColumns(size, marginWidth, |labelWidths|)[i].size.width >= labelWidths[i]
  {
    var n := |labelWidths|;
    var cands := [marginWidth] + labelWidths + [marginWidth];
    var x := SeqMax(cands);
    assert cands[0] == marginWidth;
    assert x >= 0;
    var a := size.width - marginWidth;
    assert a >= 3 * x;
    var q := Quo(a, n);
    assert q >= x by {
      if n == 1 {
      } else if n == 2 {
      } else {
      }
    }
    forall i | 0 <= i < n
      ensures HeaderColumns(size, marginWidth, n)[i].size.width >= labelWidths[i]
    {
      assert cands[i + 1] == labelWidths[i] && cands[i + 1] in cands;
    }
  }

  /** With four labels the minimum width can be too narrow: four labels 10
      wide and a margin 5 wide give a minimum width of 35, where each column
      is only 7 wide. */
  lemma FourLabelsMayNotFit()
    ensures HeaderMinWidth(5, [10, 10, 10, 10]) == 35
    ensures HeaderColumns(Size(35, 20), 5, 4)[0].size.width == 7
  {
    var ws := [10, 10, 10, 10];
    assert forall x :: x in ws ==> x == 10;
    assert 10 in ws;
    assert Quo(30, 4) == 7;
  }

  /** A header with labels "A" and "B" laid out at 200 x 20: label A at x = 0,
      label B one column to the right, both (200 - M) / 2 wide, and the margin
      at 200 - M. */
  method TwoLabelScenario(measure: Text -> Size)
  {
    var h := new Header(Color(0, 0, 0, 255), ["A", "B"]);
    var r := h.CreateRenderer();
    r.Layout(Size(200, 20), measure);
    var m := measure(r.margin).width;
    var q := Quo(200 - m, 2);
    assert r.objects[0].Bounds() == Rect(Position(0, 0), Size(q, 20));
    assert r.objects[1].Bounds() == Rect(Position(q, 0), Size(q, 20));
    assert r.objects[2].Bounds() == Rect(Position(200 - m, 0), Size(m, 20));
  }
}
