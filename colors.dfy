/** color.py: custom colours built from RGB channels forced into [0, 255]. */
module Colors {
  /** A Drawing.Color by its alpha, red, green and blue channels. */
  datatype Color = Argb(alpha: int, red: int, green: int, blue: int)

  /** Every channel of `c` is a byte. */
  predicate InRange(c: Color) {
    0 <= c.alpha <= 255 && 0 <= c.red <= 255 && 0 <= c.green <= 255 && 0 <= c.blue <= 255
  }

  /** `max(0, min(255, v))`: one channel forced into the range a colour can hold. */
  function Clamp(v: int): (c: int)
    ensures 0 <= c <= 255
    ensures 0 <= v <= 255 ==> c == v
    ensures v < 0 ==> c == 0
    ensures v > 255 ==> c == 255
  {
    var upper := if 255 < v then 255 else v;
    if 0 < upper then upper else 0
  }

  /** `Color.rgb(r, g, b)`: an opaque colour from the clamped channels. */
  function Rgb(r: int, g: int, b: int): (c: Color)
    ensures InRange(c) && c.alpha == 255
    ensures c.red == Clamp(r) && c.green == Clamp(g) && c.blue == Clamp(b)
    ensures 0 <= r <= 255 && 0 <= g <= 255 && 0 <= b <= 255 ==> c == Argb(255, r, g, b)
  {
    Argb(255, Clamp(r), Clamp(g), Clamp(b))
  }

  /** Clamping an already clamped value returns it. */
  lemma ClampIdempotent(v: int)
    ensures Clamp(Clamp(v)) == Clamp(v)
  {
  }

  /** Clamping keeps the order of its inputs. */
  lemma ClampMonotone(v: int, w: int)
    requires v <= w
    ensures Clamp(v) <= Clamp(w)
  {
  }

  /** Rebuilding a colour from the channels `rgb` produced gives the same colour. */
  lemma RgbIdempotent(r: int, g: int, b: int)
    ensures var c := Rgb(r, g, b); Rgb(c.red, c.green, c.blue) == c
  {
  }

  /** Each channel is clamped on its own: changing the red input never
      changes the green or blue channel of the result. */
  lemma RgbChannelsIndependent(r1: int, r2: int, g: int, b: int)
    ensures Rgb(r1, g, b).green == Rgb(r2, g, b).green
    ensures Rgb(r1, g, b).blue == Rgb(r2, g, b).blue
    ensures Rgb(r1, g, b).red == Rgb(r1, 0, 0).red
  {
  }
}
