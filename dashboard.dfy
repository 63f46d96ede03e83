/** One frame of the dashboard: what the main loop derives from a telemetry
    snapshot before drawing it. */
module Dashboard {
  import opened Color
  import opened FmsBorder
  import opened Flash
  import opened FontFit
  import opened Layout
  import Chimes

  /** The values read from telemetry in one frame (unpublished topics read
      as 0, "" or false). */
  datatype Snapshot = Snapshot(r: int, g: int, b: int,
                               largeText: string, smallText: string,
                               largeFlash: bool, smallFlash: bool,
                               fmsControlData: int,
                               chimes: Chimes.Triggers)

  /** Everything the frame draws, before rasterisation. */
  datatype View = View(canvas: Rgb, textColor: Rgb, edge: EdgeStyle, borders: seq<Rect>,
                       largeSize: int, smallSize: int,
                       largeVisible: bool, smallVisible: bool, showLabel: bool)

  /** The frame plan: canvas from the snapshot, inverted text colour, border
      from the control word, fitted font sizes within the border and the
      flash rule. */
  function PlanFrame(snap: Snapshot, screenWidth: int, screenHeight: int, elapsedMs: nat,
                     measure: (string, int) -> Extent): (v: View)
    ensures Invert(v.textColor) == v.canvas && v.canvas == Rgb(snap.r, snap.g, snap.b)
    ensures v.showLabel == v.edge.attached
    ensures v.showLabel <==> snap.fmsControlData in {48, 49, 51, 53}
    ensures MinFontSize <= v.largeSize <= LargeBaseSize && MinFontSize <= v.smallSize <= SmallBaseSize
    ensures FitsAt(measure, snap.largeText, Available(screenWidth), LargeMaxHeight(screenHeight), v.largeSize)
            || v.largeSize == MinFontSize
    ensures FitsAt(measure, snap.smallText, Available(screenWidth), SmallMaxHeight(screenHeight), v.smallSize)
            || v.smallSize == MinFontSize
    ensures !snap.largeFlash ==> v.largeVisible
    ensures !snap.smallFlash ==> v.smallVisible
    ensures v.edge == EdgeColor(snap.fmsControlData)
    ensures v.largeVisible == TextVisible(snap.largeFlash, elapsedMs)
    ensures v.smallVisible == TextVisible(snap.smallFlash, elapsedMs)
    ensures v.borders == BorderRects(screenWidth, screenHeight)
    ensures v.largeSize == FittedSize(measure, snap.largeText, Available(screenWidth), LargeMaxHeight(screenHeight), LargeBaseSize)
    ensures v.smallSize == FittedSize(measure, snap.smallText, Available(screenWidth), SmallMaxHeight(screenHeight), SmallBaseSize)
  {
    var canvas := Rgb(snap.r, snap.g, snap.b);
    InvertTwice(canvas);
    var edge := EdgeColor(snap.fmsControlData);
    View(canvas, InvertColor(snap.r, snap.g, snap.b), edge, BorderRects(screenWidth, screenHeight),
         FittedSize(measure, snap.largeText, Available(screenWidth), LargeMaxHeight(screenHeight), LargeBaseSize),
         FittedSize(measure, snap.smallText, Available(screenWidth), SmallMaxHeight(screenHeight), SmallBaseSize),
         TextVisible(snap.largeFlash, elapsedMs), TextVisible(snap.smallFlash, elapsedMs),
         edge.attached)
  }

  /** Green canvas, steady "AUTO", control word 51: magenta text that is
      always drawn, a blue border and the "FMS Connected" label. */
  lemma AutoAttachedFrame(screenWidth: int, screenHeight: int, elapsedMs: nat, measure: (string, int) -> Extent)
    ensures var v := PlanFrame(Snapshot(0, 255, 0, "AUTO", "", false, false, 51, Chimes.Triggers(false, false, false)),
                               screenWidth, screenHeight, elapsedMs, measure);
      v.canvas == Green && v.textColor == Rgb(255, 0, 255) && v.edge == EdgeStyle(Blue, true)
      && v.largeVisible && v.showLabel
  {
  }

  /** A window less than 100 pixels high leaves a negative height bound, so
      the program's unbounded search for the large font never stops; the
      corrected search settles on the floor size. */
  lemma ShortWindowNeverStops(measure: (string, int) -> Extent, text: string, screenWidth: int, fuel: nat)
    requires forall s :: measure(text, s).height >= 0
    ensures LargeMaxHeight(80) == -10
    ensures ScanAsWritten(measure, text, Available(screenWidth), LargeMaxHeight(80), LargeBaseSize, fuel).None?
    ensures FittedSize(measure, text, Available(screenWidth), LargeMaxHeight(80), LargeBaseSize) == MinFontSize
  {
  }
}
