/**
 * The geometry of a class box: its upper-left corner, width and height,
 * and the four anchor points derived from them where relationship edges attach.
 */
module Geometry {
  import opened JavaInt

  datatype AnchorType = UP | RIGHT | DOWN | LEFT

  /** A point of the drawing area (the model of `java.awt.Point`). */
  datatype Point = Point(x: Int32, y: Int32)

  /** A box given by its upper-left corner and its size. */
  datatype Box = Box(position: Point, width: Int32, height: Int32)

  /**
   * The anchor map of a box: UP at the middle of the top edge, RIGHT at the
   * middle of the right edge, DOWN at the middle of the bottom edge, LEFT at
   * the middle of the left edge, all in Java `int` arithmetic.
   */
  function AnchorsOf(position: Point, width: Int32, height: Int32): map<AnchorType, Point>
  {
    var x, y := position.x, position.y;
    map[UP := Point(Add(x, Half(width)), y),
        RIGHT := Point(Add(x, width), Add(y, Half(height))),
        DOWN := Point(Add(x, Half(width)), Add(y, height)),
        LEFT := Point(x, Add(y, Half(height)))]
  }

  /** Every anchor type has a point in an anchor map. */
  lemma AnchorsTotal(position: Point, width: Int32, height: Int32, k: AnchorType)
    ensures k in AnchorsOf(position, width, height)
  {
  }

  /**
   * The anchors lie on the box's edges: UP and DOWN share a column, LEFT and
   * RIGHT share a row, UP is on the top edge, DOWN on the bottom edge, LEFT
   * on the left edge and RIGHT on the right edge.
   */
  lemma AnchorsOnEdges(position: Point, width: Int32, height: Int32)
    ensures var a := AnchorsOf(position, width, height);
      && a[UP].y == position.y
      && a[DOWN].y == Add(position.y, height)
      && a[LEFT].x == position.x
      && a[RIGHT].x == Add(position.x, width)
      && a[UP].x == a[DOWN].x
      && a[LEFT].y == a[RIGHT].y
  {
  }

  /**
   * When the box's far corner fits in a Java `int`, nothing wraps and the
   * anchors are the plain midpoints; for a non-negative size the midpoint
   * offset is the floor of half the size.
   */
  lemma AnchorsWithoutOverflow(position: Point, width: Int32, height: Int32)
    requires MIN <= position.x + width <= MAX
    requires MIN <= position.y + height <= MAX
    ensures var a := AnchorsOf(position, width, height);
      && a[UP] == Point(position.x + Half(width), position.y)
      && a[RIGHT] == Point(position.x + width, position.y + Half(height))
      && a[DOWN] == Point(position.x + Half(width), position.y + height)
      && a[LEFT] == Point(position.x, position.y + Half(height))
    ensures 0 <= width ==> AnchorsOf(position, width, height)[UP].x == position.x + width / 2
    ensures 0 <= height ==> AnchorsOf(position, width, height)[LEFT].y == position.y + height / 2
  {
  }

  /** Reads a box back from its LEFT, UP, RIGHT and DOWN anchors. */
  function BoxFromAnchors(anchors: map<AnchorType, Point>): Box
    requires UP in anchors && RIGHT in anchors && DOWN in anchors && LEFT in anchors
  {
    Box(Point(anchors[LEFT].x, anchors[UP].y),
        Sub(anchors[RIGHT].x, anchors[LEFT].x),
        Sub(anchors[DOWN].y, anchors[UP].y))
  }

  /** The anchors determine the box exactly, wrap-around included. */
  lemma AnchorsDetermineBox(position: Point, width: Int32, height: Int32)
    ensures BoxFromAnchors(AnchorsOf(position, width, height)) == Box(position, width, height)
  {
  }

  /**
   * Java's `/` truncates toward zero: a box at the origin with width -3 has
   * its UP anchor at x = -1, where a flooring division would put it at -2.
   */
  lemma NegativeWidthTruncates()
    ensures AnchorsOf(Point(0, 0), -3, 4)[UP] == Point(-1, 0)
  {
  }

  /** The box at (50, 50), 40 wide and 20 high. */
  lemma MovedBoxAnchors()
    ensures AnchorsOf(Point(50, 50), 40, 20)
      == map[UP := Point(70, 50), RIGHT := Point(90, 60), DOWN := Point(70, 70), LEFT := Point(50, 60)]
  {
  }
}
