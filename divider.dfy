/** divider.py: a panel that paints a horizontal or vertical line across its middle. */
module Divider {
  import opened Toolkit
  import opened Wrappers
  import opened Colors

  /** The rectangle handed to FillRectangle. */
  datatype Rect = Rect(x: int, y: int, width: int, height: int)

  const Horizontal: string := "horizontal"
  const Vertical: string := "vertical"

  /** A band of `thickness` starting at `start` is centred in `extent`: the gap
      after it equals the gap before it, or exceeds it by one pixel when the
      leftover space is odd. */
  predicate Centered(start: int, thickness: int, extent: int) {
    var before := start;
    var after := extent - (start + thickness);
    after == before || after == before + 1
  }

  /** What `_on_paint` fills on a panel of size `panel`: a full-width band of
      height `width` for 'horizontal', a full-height band of width `width` for
      'vertical', nothing for any other direction. Offsets use floor division. */
  function PaintRect(direction: string, width: int, panel: Size): (r: Option<Rect>)
    ensures r.Some? <==> direction == Horizontal || direction == Vertical
    ensures direction == Horizontal ==>
      r.Some? && r.value.x == 0 && r.value.width == panel.width && r.value.height == width &&
      Centered(r.value.y, width, panel.height)
    ensures direction == Vertical ==>
      r.Some? && r.value.y == 0 && r.value.height == panel.height && r.value.width == width &&
      Centered(r.value.x, width, panel.width)
  {
    if direction == Horizontal then Some(Rect(0, (panel.height - width) / 2, panel.width, width))
    else if direction == Vertical then Some(Rect((panel.width - width) / 2, 0, width, panel.height))
    else None
  }

  /** Centring pins the offset down: it is the floor of half the leftover space. */
  lemma CenteredUnique(start: int, thickness: int, extent: int)
    requires Centered(start, thickness, extent)
    ensures start == (extent - thickness) / 2
  {
  }

  /** A line no thicker than the panel stays inside it, in either direction. */
  lemma BandInsidePanel(direction: string, width: int, panel: Size)
    requires direction == Horizontal || direction == Vertical
    requires 0 <= width
    requires direction == Horizontal ==> width <= panel.height
    requires direction == Vertical ==> width <= panel.width
    ensures var r := PaintRect(direction, width, panel).value;
      0 <= r.x && r.x + r.width <= panel.width &&
      0 <= r.y && r.y + r.height <= panel.height
  {
    var r := PaintRect(direction, width, panel).value;
    if direction == Horizontal {
      assert Centered(r.y, width, panel.height);
    } else {
      assert Centered(r.x, width, panel.width);
    }
  }

  class Divider {
    var direction: string
    var width: int
    var color: Option<Color>
    /** `_location` and `_size`: what the `location` and `size` getters return. */
    var location: Point
    var size: Size
    /** The panel's Location and Size; painting reads `formSize`. */
    var formLocation: Point
    var formSize: Size
    var backColor: Option<Color>
    /** How many times a redraw has been requested with Invalidate. */
    var invalidations: nat

    /** `Divider(...)` when it returns: records the arguments without
        checking the direction, and writes the colour to BackColor, which
        only succeeds for a colour. */
    constructor (direction: string, width: int, color: Option<Color>, location: Point, size: Size)
      requires color.Some?
      ensures this.direction == direction && this.width == width && this.color == color
      ensures this.location == location && this.size == size
      ensures formLocation == location && formSize == size && backColor == color
      ensures invalidations == 0
    {
      this.direction, this.width, this.color := direction, width, color;
      this.location, this.size := location, size;
      formLocation, formSize, backColor := location, size, color;
      invalidations := 0;
    }

    /** The call `Divider(...)`: a colour of None makes the BackColor
        assignment raise TypeError and no divider is made; otherwise it is
        the constructor above. */
    static method Create(direction: string, width: int, color: Option<Color>, location: Point, size: Size)
      returns (r: Outcome, d: Divider?)
      ensures r.Pass? <==> color.Some?
      ensures r.Fail? ==> r.error == TypeError && d == null
      ensures r.Pass? ==> d != null && fresh(d)
      ensures d != null ==> d.direction == direction && d.width == width && d.color == color
      ensures d != null ==> d.location == location && d.size == size && d.formLocation == location
      ensures d != null ==> d.formSize == size && d.backColor == color && d.invalidations == 0
    {
      if color.None? {
        return Fail(TypeError), null;
      }
      d := new Divider(direction, width, color, location, size);
      r := Pass;
    }

    /** The `direction` setter: anything but 'horizontal' or 'vertical' raises
        ValueError and changes nothing; an accepted value is stored and a
        redraw requested. */
    method SetDirection(value: string) returns (r: Outcome)
      modifies this`direction, this`invalidations
      ensures r.Pass? <==> value == Horizontal || value == Vertical
      ensures r.Fail? ==> r.error == ValueError && direction == old(direction) && invalidations == old(invalidations)
      ensures r.Pass? ==> direction == value && invalidations == old(invalidations) + 1
      ensures r.Pass? ==> PaintRect(direction, width, formSize).Some?
    {
      if value != Horizontal && value != Vertical {
        return Fail(ValueError);
      }
      direction := value;
      invalidations := invalidations + 1;
      r := Pass;
    }

    /** The `width` setter. */
    method SetWidth(value: int)
      modifies this`width, this`invalidations
      ensures width == value && invalidations == old(invalidations) + 1
    {
      width := value;
      invalidations := invalidations + 1;
    }

    /** The `color` setter. */
    method SetColor(value: Option<Color>)
      modifies this`color, this`invalidations
      ensures color == value && invalidations == old(invalidations) + 1
    {
      color := value;
      invalidations := invalidations + 1;
    }

    /** The `location` setter: the getter then returns exactly `value`. */
    method SetLocation(value: Point)
      modifies this`location, this`formLocation
      ensures location == value && formLocation == value
    {
      location := value;
      formLocation := value;
    }

    /** The `size` setter: the getter then returns exactly `value`, and the
        panel takes that size. */
    method SetSize(value: Size)
      modifies this`size, this`formSize
      ensures size == value && formSize == value
    {
      size := value;
      formSize := value;
    }

    /** `_on_paint`: the rectangle filled with `color`. Making the brush
        raises TypeError when the colour is None, but only when there is a
        line to draw. */
    method Paint() returns (r: Outcome, fill: Option<Rect>)
      ensures r.Fail? <==> color.None? && (direction == Horizontal || direction == Vertical)
      ensures r.Fail? ==> r.error == TypeError && fill == None
      ensures r.Pass? ==> fill == PaintRect(direction, width, formSize)
      ensures fill.Some? <==> color.Some? && (direction == Horizontal || direction == Vertical)
    {
      var rect := PaintRect(direction, width, formSize);
      if rect.Some? && color.None? {
        return Fail(TypeError), None;
      }
      r, fill := Pass, rect;
    }
  }
}
