/** The few host-toolkit primitives the two widgets lean on: integer sizes and
    positions, the toolkit's `Max`, Go's truncating integer division, and the
    canvas objects a renderer moves and resizes. */
module Canvas {

  /** A width and a height, in the toolkit's integer units. */
  datatype Size = Size(width: int, height: int)

  /** A position relative to the parent's top-left corner. */
  datatype Position = Position(x: int, y: int)

  /** Where an object ends up after a `Move` and a `Resize`. */
  datatype Rect = Rect(pos: Position, size: Size)

  /** An RGBA colour value, carried but never interpreted. */
  datatype Color = Color(r: int, g: int, b: int, a: int)

  /** The toolkit's `Max` on integers: the larger of the two. */
  function Max(a: int, b: int): (m: int)
    ensures m >= a && m >= b
    ensures m == a || m == b
  {
    if a > b then a else b
  }

  /** Go's `a / b` on `int`, which truncates toward zero (Dafny's `/` is
      Euclidean). Only positive divisors occur in the widgets. */
  function Quo(a: int, b: int): (q: int)
    requires b > 0
    ensures 0 <= a ==> 0 <= a - b * q < b
    ensures a < 0 ==> -b < a - b * q <= 0
  {
    if a >= 0 then a / b else -((-a) / b)
  }

  /** An opaque canvas object (a widget or container): only the position and
      size its parent assigns to it are modelled. */
  class CanvasObject {
    var pos: Position
    var size: Size

    constructor ()
      ensures pos == Position(0, 0) && size == Size(0, 0)
    {
      pos := Position(0, 0);
      size := Size(0, 0);
    }

    function Bounds(): Rect
      reads this
    {
      Rect(pos, size)
    }

    method Move(p: Position)
      modifies this
      ensures pos == p && size == old(size)
    {
      pos := p;
    }

    method Resize(s: Size)
      modifies this
      ensures size == s && pos == old(pos)
    {
      size := s;
    }
  }

  /** A piece of text on the canvas (`canvas.Text`): its string and colour are
      fixed when it is made; its position and size are set by a layout. */
  class Text {
    const text: string
    const color: Color
    var pos: Position
    var size: Size

    constructor (text: string, color: Color)
      ensures this.text == text && this.color == color
      ensures pos == Position(0, 0) && size == Size(0, 0)
    {
      this.text := text;
      this.color := color;
      pos := Position(0, 0);
      size := Size(0, 0);
    }

    function Bounds(): Rect
      reads this
    {
      Rect(pos, size)
    }

    method Move(p: Position)
      modifies this
      ensures pos == p && size == old(size)
    {
      pos := p;
    }

    method Resize(s: Size)
      modifies this
      ensures size == s && pos == old(pos)
    {
      size := s;
    }
  }
}
