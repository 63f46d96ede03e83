/** The border colour chosen from the match-control word (FMSControlData):
    a fixed table of eight codes, with grey for everything else. */
module FmsBorder {
  import opened Color
  import opened Wrappers

  const Red := Rgb(255, 0, 0)
  const Green := Rgb(0, 255, 0)
  const Blue := Rgb(0, 0, 255)
  const Yellow := Rgb(255, 255, 0)
  const Grey := Rgb(169, 169, 169)

  /** Codes reported while the field management system is attached. */
  const AttachedColors: map<int, Rgb> := map[48 := Red, 49 := Green, 51 := Blue, 53 := Yellow]

  /** Codes reported while it is not attached. */
  const NotAttachedColors: map<int, Rgb> := map[32 := Red, 33 := Green, 35 := Blue, 37 := Yellow]

  /** Border colour plus the "FMS attached" flag. */
  datatype EdgeStyle = EdgeStyle(color: Rgb, attached: bool)

  const Unknown := EdgeStyle(Grey, false)

  /** The table lookup: attached table first, then the not-attached one,
      otherwise grey and not attached. */
  function EdgeColor(code: int): (e: EdgeStyle)
    ensures e.attached <==> code in {48, 49, 51, 53}
    ensures InRange(e.color)
    ensures code !in {32, 33, 35, 37, 48, 49, 51, 53} ==> e == Unknown
    ensures code in {48, 32} ==> e.color == Red
    ensures code in {49, 33} ==> e.color == Green
    ensures code in {51, 35} ==> e.color == Blue
    ensures code in {53, 37} ==> e.color == Yellow
  {
    if code in AttachedColors then EdgeStyle(AttachedColors[code], true)
    else if code in NotAttachedColors then EdgeStyle(NotAttachedColors[code], false)
    else Unknown
  }

  // An independent reading of the same eight codes: the control word is
  // bit-packed as 32 (driver station present) + 16 (FMS attached) + the
  // phase bits (1 = enabled, 2 = autonomous, 4 = test).

  datatype Phase = Disabled | Teleop | Auto | Test

  datatype ControlWord = ControlWord(phase: Phase, fmsAttached: bool)

  function PhaseBits(p: Phase): int
  {
    match p
    case Disabled => 0
    case Teleop => 1
    case Auto => 3
    case Test => 5
  }

  function PhaseColor(p: Phase): Rgb
  {
    match p
    case Disabled => Red
    case Teleop => Green
    case Auto => Blue
    case Test => Yellow
  }

  function Encode(w: ControlWord): (code: int)
    ensures 32 <= code < 64
  {
    32 + (if w.fmsAttached then 16 else 0) + PhaseBits(w.phase)
  }

  /** Decodes a control word by its bits; None for any code outside the
      eight recognised combinations. */
  function Decode(code: int): (w: Option<ControlWord>)
    ensures w.Some? ==> 32 <= code < 64
  {
    if code < 32 || 64 <= code then None
    else
      var attached := code - 32 >= 16;
      var bits := (code - 32) % 16;
      if bits == 0 then Some(ControlWord(Disabled, attached))
      else if bits == 1 then Some(ControlWord(Teleop, attached))
      else if bits == 3 then Some(ControlWord(Auto, attached))
      else if bits == 5 then Some(ControlWord(Test, attached))
      else None
  }

  /** Decoding inverts encoding. */
  lemma DecodeEncode(w: ControlWord)
    ensures Decode(Encode(w)) == Some(w)
  {
  }

  /** Every code that decodes is the encoding of what it decodes to. */
  lemma EncodeDecode(code: int)
    ensures Decode(code).Some? ==> Encode(Decode(code).value) == code
  {
  }

  /** The table agrees with the bit reading on every integer: a recognised
      word gets its phase colour and its attached bit, anything else grey. */
  lemma EdgeColorByBits(code: int)
    ensures EdgeColor(code) == match Decode(code)
      case Some(w) => EdgeStyle(PhaseColor(w.phase), w.fmsAttached)
      case None => Unknown
  {
  }

  /** Each (phase, attached) pair has exactly one code in the table. */
  lemma OneCodePerState(c1: int, c2: int)
    requires Decode(c1).Some? && Decode(c1) == Decode(c2)
    ensures c1 == c2
  {
  }
}
