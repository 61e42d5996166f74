/** textinput.py: a text box whose font is rebuilt from family, size and style,
    and which sizes itself to its text unless it is multi-line. */
module TextInput {
  import opened Toolkit
  import opened Wrappers

  datatype FontStyle = Regular | Bold | Italic | Underline | Strikeout

  /** A Drawing.Font built from a family, an em size and a style. */
  datatype Font = Font(family: string, size: int, style: FontStyle)

  /** The fixed size of a multi-line text box. */
  const MultilineSize := Size(200, 100)

  /** Space added around the measured text of a single-line text box, in
      each dimension. */
  const Padding := 10

  /** The size `_adjust_size` gives a text box: the fixed multi-line size, or
      the measured text (`measured`, already truncated to whole pixels)
      padded in each dimension. */
  function FittedSize(multiline: bool, measured: Size): (s: Size)
    ensures multiline ==> s == MultilineSize
    ensures !multiline ==> s.width - measured.width == Padding && s.height - measured.height == Padding
  {
    if multiline then MultilineSize
    else Size(measured.width + Padding, measured.height + Padding)
  }

  /** A multi-line text box is the same size whatever text and font it
      shows; a single-line one is strictly larger than its measured text and
      grows with it. */
  lemma FittedSizeDependsOnText(measured: Size, other: Size)
    ensures FittedSize(true, measured) == FittedSize(true, other)
    ensures FittedSize(false, measured).width > measured.width
    ensures FittedSize(false, measured).height > measured.height
    ensures measured.width <= other.width && measured.height <= other.height ==>
      FittedSize(false, measured).width <= FittedSize(false, other).width &&
      FittedSize(false, measured).height <= FittedSize(false, other).height
  {
  }

  class TextInput {
    /** `_value`, `_font`, `_size` (the em size), `_style`, `_multiline`. */
    var value: string
    var family: string
    var fontSize: int
    var style: FontStyle
    var multiline: bool
    /** The text box's Text, Font, Multiline and Size. */
    var text: string
    var font: Font
    var multilineBox: bool
    var size: Size
    /** MeasureString on the text box's graphics, truncated to whole pixels. */
    const measure: (string, Font) -> Size

    /** The Font is built from the stored family, size and style; Multiline
        mirrors `_multiline`; the em size is positive. Text is not tied to
        `_value`: the user edits Text, and only the `value` setter writes both. */
    ghost predicate Valid()
      reads this
    {
      font == Font(family, fontSize, style) && multilineBox == multiline && fontSize > 0
    }

    /** `TextInput(value, font, style, text_color, location, size, multiline)`:
        builds the font, mirrors the text and flag, and fits the size. */
    constructor (measure: (string, Font) -> Size, value: string, family: string, style: FontStyle,
                 fontSize: int, multiline: bool)
      requires fontSize > 0
      ensures Valid()
      ensures this.measure == measure && this.value == value && this.family == family
      ensures this.style == style && this.fontSize == fontSize && this.multiline == multiline
      ensures text == value
      ensures size == FittedSize(multiline, measure(value, font))
    {
      this.measure := measure;
      this.value, this.family, this.style := value, family, style;
      this.fontSize, this.multiline := fontSize, multiline;
      font := Font(family, fontSize, style);
      text := value;
      multilineBox := multiline;
      size := MultilineSize;
      new;
      AdjustSize();
    }

    /** `_adjust_size`: 200 by 100 when multi-line, else the measured text
        plus 10 each way. */
    method AdjustSize()
      modifies this`size
      ensures size == FittedSize(multilineBox, measure(text, font))
    {
      size := FittedSize(multilineBox, measure(text, font));
    }

    /** `_update_font`: rebuilds the Font from family, size and style, then
        refits the size. */
    method UpdateFont()
      modifies this`font, this`size
      ensures font == Font(family, fontSize, style)
      ensures size == FittedSize(multilineBox, measure(text, font))
    {
      font := Font(family, fontSize, style);
      AdjustSize();
    }

    /** The `size` setter: a non-positive em size raises ValueError with
        nothing changed; a positive one is stored and the font rebuilt. */
    method SetSize(v: int) returns (r: Outcome)
      requires Valid()
      modifies this`fontSize, this`font, this`size
      ensures Valid()
      ensures r.Pass? <==> v > 0
      ensures r.Fail? ==> r.error == ValueError && unchanged(this)
      ensures r.Pass? ==> fontSize == v && font == Font(family, v, style)
      ensures r.Pass? ==> size == FittedSize(multilineBox, measure(text, font))
    {
      if v <= 0 {
        return Fail(ValueError);
      }
      fontSize := v;
      UpdateFont();
      r := Pass;
    }

    /** The `font` setter: stores the family and rebuilds the font. */
    method SetFamily(v: string)
      requires Valid()
      modifies this`family, this`font, this`size
      ensures Valid()
      ensures family == v && size == FittedSize(multilineBox, measure(text, font))
    {
      family := v;
      UpdateFont();
    }

    /** The `style` setter: stores the style and rebuilds the font. */
    method SetStyle(v: FontStyle)
      requires Valid()
      modifies this`style, this`font, this`size
      ensures Valid()
      ensures style == v && size == FittedSize(multilineBox, measure(text, font))
    {
      style := v;
      UpdateFont();
    }

    /** The `value` setter: writes `_value` and Text; the size is not refitted. */
    method SetValue(v: string)
      requires Valid()
      modifies this`value, this`text
      ensures Valid()
      ensures value == v && text == v
    {
      value := v;
      text := v;
    }

    /** The user typing into the box: Text changes, `_value` does not, so
        the `value` getter still returns what was last set. */
    method UserEdit(t: string)
      requires Valid()
      modifies this`text
      ensures Valid()
      ensures text == t && value == old(value)
    {
      text := t;
    }

    /** The `multiline` setter: mirrors the flag; the size is not refitted
        until the font next changes. */
    method SetMultiline(v: bool)
      requires Valid()
      modifies this`multiline, this`multilineBox
      ensures Valid()
      ensures multiline == v && multilineBox == v
    {
      multiline := v;
      multilineBox := v;
    }
  }
}
