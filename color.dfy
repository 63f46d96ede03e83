/** Colours as the dashboard handles them: plain integer triples read from
    telemetry, and the per-channel inversion used for the text colour. */
module Color {

  /** An RGB triple. The channels are the integers read from telemetry; the
      program does not clamp them, so neither does the model. */
  datatype Rgb = Rgb(r: int, g: int, b: int)

  const MaxChannel := 255

  predicate ChannelInRange(c: int)
  {
    0 <= c <= MaxChannel
  }

  predicate InRange(c: Rgb)
  {
    ChannelInRange(c.r) && ChannelInRange(c.g) && ChannelInRange(c.b)
  }

  /** Distance between two channel values. */
  function Dist(x: int, y: int): nat
  {
    if x < y then y - x else x - y
  }

  /** One channel of the text colour. */
  function InvertChannel(c: int): int
  {
    MaxChannel - c
  }

  /** The text colour: every channel replaced by 255 minus its value.
      A channel stays in [0, 255] exactly when it started there, and no
      channel is ever left unchanged (255 is odd), so the text always
      differs from the canvas in every channel. */
  function InvertColor(r: int, g: int, b: int): (t: Rgb)
    ensures InRange(Rgb(r, g, b)) <==> InRange(t)
    ensures t.r != r && t.g != g && t.b != b
  {
    Rgb(InvertChannel(r), InvertChannel(g), InvertChannel(b))
  }

  /** InvertColor applied to a triple, for stating properties of colours
      as values. */
  function Invert(c: Rgb): Rgb
  {
    InvertColor(c.r, c.g, c.b)
  }

  /** Inverting twice gives back the original triple. */
  lemma InvertTwice(c: Rgb)
    ensures Invert(Invert(c)) == c
  {
  }

  /** Channel contrast between canvas and text is |255 - 2c|: at least 1
      everywhere, and exactly 1 only at the mid-points 127 and 128. */
  lemma InvertContrast(c: int)
    ensures Dist(InvertChannel(c), c) == Dist(MaxChannel, 2 * c)
    ensures Dist(InvertChannel(c), c) >= 1
    ensures Dist(InvertChannel(c), c) == 1 <==> c == 127 || c == 128
  {
  }
}
