/** Dynamic font fitting: count the point size down from a base size until
    the measured text fits a width and a height bound. Font measurement is
    outside the model and is passed in as a function from text and point
    size to the rendered extent. */
module FontFit {
  import opened Wrappers

  /** Rendered width and height of a text, in pixels. */
  datatype Extent = Extent(width: int, height: int)

  /** The smallest point size the corrected search will try. */
  const MinFontSize := 1

  predicate FitsAt(measure: (string, int) -> Extent, text: string, maxWidth: int, maxHeight: int, size: int)
  {
    var e := measure(text, size);
    e.width <= maxWidth && e.height <= maxHeight
  }

  // ----- The search as the program writes it: no lower bound -----

  /** The downward scan with no floor, cut off after `fuel` decrements:
      Some(size) when it stops within that many steps, None when it is
      still going. */
  function ScanAsWritten(measure: (string, int) -> Extent, text: string, maxWidth: int, maxHeight: int,
                         size: int, fuel: nat): (r: Option<int>)
    ensures r.Some? ==> FitsAt(measure, text, maxWidth, maxHeight, r.value) && size - fuel <= r.value <= size
    ensures r.Some? ==> forall s :: r.value < s <= size ==> !FitsAt(measure, text, maxWidth, maxHeight, s)
    decreases fuel
  {
    if FitsAt(measure, text, maxWidth, maxHeight, size) then Some(size)
    else if fuel == 0 then None
    else ScanAsWritten(measure, text, maxWidth, maxHeight, size - 1, fuel - 1)
  }

  /** When no point size at or below the start fits, the unbounded scan
      never stops, however many steps it is given. */
  lemma {:induction false} AsWrittenNeverStops(measure: (string, int) -> Extent, text: string, maxWidth: int,
                                               maxHeight: int, size: int, fuel: nat)
    requires forall s :: s <= size ==> !FitsAt(measure, text, maxWidth, maxHeight, s)
    ensures ScanAsWritten(measure, text, maxWidth, maxHeight, size, fuel) == None
    decreases fuel
  {
    if fuel > 0 {
      AsWrittenNeverStops(measure, text, maxWidth, maxHeight, size - 1, fuel - 1);
    }
  }

  /** When some size at or below the start fits, the unbounded scan stops
      within as many steps as it takes to reach that size. */
  lemma {:induction false} AsWrittenStops(measure: (string, int) -> Extent, text: string, maxWidth: int,
                                          maxHeight: int, size: int, s: int)
    requires s <= size && FitsAt(measure, text, maxWidth, maxHeight, s)
    ensures ScanAsWritten(measure, text, maxWidth, maxHeight, size, size - s).Some?
    decreases size - s
  {
    if !FitsAt(measure, text, maxWidth, maxHeight, size) {
      AsWrittenStops(measure, text, maxWidth, maxHeight, size - 1, s);
    }
  }

  /** A negative height bound is met by no text whose measured height is
      never negative, so the unbounded scan never stops for it. */
  lemma NegativeBoundNeverStops(measure: (string, int) -> Extent, text: string, maxWidth: int,
                                maxHeight: int, size: int, fuel: nat)
    requires maxHeight < 0
    requires forall s :: measure(text, s).height >= 0
    ensures ScanAsWritten(measure, text, maxWidth, maxHeight, size, fuel) == None
  {
  }

  // ----- The corrected search: stop at MinFontSize -----

  /** The size the search settles on: the largest size at most `base` that
      fits, or MinFontSize when none at or above MinFontSize does (best
      effort: the text may then overflow). A base already at or below the
      floor is kept. */
  function FittedSize(measure: (string, int) -> Extent, text: string, maxWidth: int, maxHeight: int,
                      base: int): (r: int)
    ensures r <= base
    ensures FitsAt(measure, text, maxWidth, maxHeight, base) ==> r == base
    ensures base >= MinFontSize ==> r >= MinFontSize
    ensures FitsAt(measure, text, maxWidth, maxHeight, r) || r == MinFontSize || base < MinFontSize
    ensures forall s :: r < s <= base ==> !FitsAt(measure, text, maxWidth, maxHeight, s)
    decreases base
  {
    if FitsAt(measure, text, maxWidth, maxHeight, base) || base <= MinFontSize then base
    else FittedSize(measure, text, maxWidth, maxHeight, base - 1)
  }

  /** The loop of the program with the floor added. */
  method DynamicFontSize(measure: (string, int) -> Extent, text: string, maxWidth: int, maxHeight: int,
                         base: int) returns (size: int)
    ensures size == FittedSize(measure, text, maxWidth, maxHeight, base)
  {
    size := base;
    var e := measure(text, size);
    while (e.width > maxWidth || e.height > maxHeight) && size > MinFontSize
      invariant e == measure(text, size)
      invariant FittedSize(measure, text, maxWidth, maxHeight, size) == FittedSize(measure, text, maxWidth, maxHeight, base)
      decreases size
    {
      size := size - 1;
      e := measure(text, size);
    }
  }

  /** Wherever the unbounded scan stops without going below the floor, the
      corrected search returns the same size: the floor changes no input on
      which the program finishes at size MinFontSize or above. */
  lemma {:induction false} FloorAgreesWithProgram(measure: (string, int) -> Extent, text: string, maxWidth: int,
                                                  maxHeight: int, base: int, fuel: nat)
    requires ScanAsWritten(measure, text, maxWidth, maxHeight, base, fuel).Some?
    requires ScanAsWritten(measure, text, maxWidth, maxHeight, base, fuel).value >= MinFontSize
    ensures FittedSize(measure, text, maxWidth, maxHeight, base)
            == ScanAsWritten(measure, text, maxWidth, maxHeight, base, fuel).value
    decreases fuel
  {
    if !FitsAt(measure, text, maxWidth, maxHeight, base) {
      FloorAgreesWithProgram(measure, text, maxWidth, maxHeight, base - 1, fuel - 1);
    }
  }

  /** When some size between the floor and the base fits, the program's
      loop finishes and the corrected search returns the size it finishes
      at. */
  lemma ProgramAgreesWithFloor(measure: (string, int) -> Extent, text: string, maxWidth: int,
                               maxHeight: int, base: int, s: int)
    requires MinFontSize <= s <= base && FitsAt(measure, text, maxWidth, maxHeight, s)
    ensures ScanAsWritten(measure, text, maxWidth, maxHeight, base, base - s).Some?
    ensures FittedSize(measure, text, maxWidth, maxHeight, base)
            == ScanAsWritten(measure, text, maxWidth, maxHeight, base, base - s).value
  {
    AsWrittenStops(measure, text, maxWidth, maxHeight, base, s);
    FloorAgreesWithProgram(measure, text, maxWidth, maxHeight, base, base - s);
  }

  /** A text that measures at least as large as another at every size never
      gets a larger font: longer text, smaller or equal size. */
  lemma FittedSizeMonotone(measure: (string, int) -> Extent, short: string, long: string, maxWidth: int,
                           maxHeight: int, base: int)
    requires base >= MinFontSize
    requires forall s :: measure(short, s).width <= measure(long, s).width
    requires forall s :: measure(short, s).height <= measure(long, s).height
    ensures FittedSize(measure, long, maxWidth, maxHeight, base) <= FittedSize(measure, short, maxWidth, maxHeight, base)
  {
  }
}
