/** Layout arithmetic of a frame: the space left for text inside the
    border, the two text fields, their centres and the four border
    rectangles. All division is by a positive constant, where Python's
    floor division and Dafny's division agree. */
module Layout {

  /** Thickness of the border band, in pixels. */
  const EdgeWidth := 50

  /** Starting point sizes of the two text fields. */
  const LargeBaseSize := 200
  const SmallBaseSize := 100

  /** Vertical offset of each text centre from the middle of the window. */
  const TextOffset := 50

  /** A rectangle as drawn: left, top, width, height. */
  datatype Rect = Rect(x: int, y: int, w: int, h: int)

  /** A pixel position. */
  datatype Point = Point(x: int, y: int)

  predicate Contains(r: Rect, p: Point)
  {
    r.x <= p.x < r.x + r.w && r.y <= p.y < r.y + r.h
  }

  /** Length left for text between two opposite bands: the available width
      from the window width, the available height from its height. */
  function Available(length: int): int
  {
    length - 2 * EdgeWidth
  }

  /** Height bound of the large field: half the available height, rounded
      down (also when negative). */
  function LargeMaxHeight(screenHeight: int): (h: int)
    ensures 2 * h <= Available(screenHeight) < 2 * h + 2
  {
    Available(screenHeight) / 2
  }

  /** Height bound of the small field: a quarter of the available height,
      rounded down (also when negative). */
  function SmallMaxHeight(screenHeight: int): (h: int)
    ensures 4 * h <= Available(screenHeight) < 4 * h + 4
  {
    Available(screenHeight) / 4
  }

  /** The two fields' height bounds together never exceed the space. */
  lemma FieldsShareHeight(screenHeight: int)
    ensures LargeMaxHeight(screenHeight) + SmallMaxHeight(screenHeight) <= Available(screenHeight)
            || Available(screenHeight) < 0
  {
  }

  /** The border: top, bottom, left and right bands, each EdgeWidth thick. */
  function BorderRects(screenWidth: int, screenHeight: int): (rs: seq<Rect>)
    ensures |rs| == 4
    ensures forall i :: 0 <= i < 4 ==> rs[i].w == EdgeWidth || rs[i].h == EdgeWidth
  {
    [Rect(0, 0, screenWidth, EdgeWidth),
     Rect(0, screenHeight - EdgeWidth, screenWidth, EdgeWidth),
     Rect(0, 0, EdgeWidth, screenHeight),
     Rect(screenWidth - EdgeWidth, 0, EdgeWidth, screenHeight)]
  }

  /** The available width is the gap between the left and right border
      rectangles, the available height the gap between the top and bottom
      ones. */
  lemma AvailableBetweenBorders(screenWidth: int, screenHeight: int)
    ensures var rs := BorderRects(screenWidth, screenHeight);
      Available(screenWidth) == rs[3].x - (rs[2].x + rs[2].w)
      && Available(screenHeight) == rs[1].y - (rs[0].y + rs[0].h)
  {
  }

  predicate OnScreen(screenWidth: int, screenHeight: int, p: Point)
  {
    0 <= p.x < screenWidth && 0 <= p.y < screenHeight
  }

  /** Within EdgeWidth of some side of the window. */
  predicate InBand(screenWidth: int, screenHeight: int, p: Point)
  {
    p.x < EdgeWidth || p.x >= screenWidth - EdgeWidth || p.y < EdgeWidth || p.y >= screenHeight - EdgeWidth
  }

  /** The four rectangles paint exactly the pixels of the window that lie
      within EdgeWidth of a side. */
  lemma BorderIsBand(screenWidth: int, screenHeight: int, p: Point)
    requires OnScreen(screenWidth, screenHeight, p)
    ensures (exists i :: 0 <= i < 4 && Contains(BorderRects(screenWidth, screenHeight)[i], p))
            <==> InBand(screenWidth, screenHeight, p)
  {
    var rs := BorderRects(screenWidth, screenHeight);
    if InBand(screenWidth, screenHeight, p) {
      if p.y < EdgeWidth {
        assert Contains(rs[0], p);
      } else if p.y >= screenHeight - EdgeWidth {
        assert Contains(rs[1], p);
      } else if p.x < EdgeWidth {
        assert Contains(rs[2], p);
      } else {
        assert Contains(rs[3], p);
      }
    }
  }

  /** Left edge of a surface of width w placed with its centre at x = cx
      (half the width rounded down goes to the left). */
  function CenteredLeft(cx: int, w: nat): int
  {
    cx - w / 2
  }

  /** Centre of the large text: horizontally centred, above the middle. */
  function LargeTextCenter(screenWidth: int, screenHeight: int): (c: Point)
    ensures c.x == screenWidth / 2 && c.y < screenHeight / 2
    ensures 2 * c.x <= screenWidth < 2 * c.x + 2
  {
    Point(screenWidth / 2, screenHeight / 2 - TextOffset)
  }

  /** Centre of the small text: below the large text. */
  function SmallTextCenter(screenWidth: int, screenHeight: int): (c: Point)
    ensures c.x == LargeTextCenter(screenWidth, screenHeight).x
    ensures c.y == LargeTextCenter(screenWidth, screenHeight).y + 2 * TextOffset
  {
    Point(screenWidth / 2, screenHeight / 2 + TextOffset)
  }

  /** Any text no wider than the available width, centred horizontally,
      stays clear of the left and right bands. */
  lemma CenteredTextClearsSides(screenWidth: int, w: nat)
    requires w <= Available(screenWidth)
    ensures EdgeWidth <= CenteredLeft(screenWidth / 2, w)
    ensures CenteredLeft(screenWidth / 2, w) + w <= screenWidth - EdgeWidth
  {
  }

  /** Centre of the "FMS Connected" label: middle of the bottom band. */
  function LabelCenter(screenWidth: int, screenHeight: int): (c: Point)
    ensures var b := BorderRects(screenWidth, screenHeight)[1];
              c.x == b.x + b.w / 2 && c.y == b.y + b.h / 2
    ensures screenWidth > 0 && screenHeight >= EdgeWidth ==>
              Contains(BorderRects(screenWidth, screenHeight)[1], c)
  {
    Point(screenWidth / 2, screenHeight - EdgeWidth / 2)
  }
}
