/** image.py: a picture box showing an image file, sized to the image unless
    a size was given, with an optional click callback. */
module Image {
  import opened Toolkit
  import opened Wrappers
  import opened Colors
  import opened Events

  /** A loaded Drawing.Image: only its dimensions matter here. */
  datatype Picture = Picture(width: int, height: int)

  function Dimensions(p: Picture): Size {
    Size(p.width, p.height)
  }

  /** Python truthiness of an image path: None and the empty string are falsy. */
  predicate PathGiven(path: Option<string>) {
    path.Some? && path.value != ""
  }

  /** `_size` after `_set_image` ends with `loaded` (None: the load raised):
      the image's dimensions are adopted only when no size is stored yet, and a
      failed load changes nothing. */
  function SizeAfterLoad(size: Option<Size>, loaded: Option<Picture>): (r: Option<Size>)
    ensures size.Some? || loaded.None? ==> r == size
    ensures size.None? && loaded.Some? ==> r == Some(Dimensions(loaded.value))
  {
    if size.None? && loaded.Some? then Some(Dimensions(loaded.value)) else size
  }

  /** `_size` after a series of loads. */
  function SizeAfterLoads(size: Option<Size>, loads: seq<Option<Picture>>): Option<Size>
    decreases |loads|
  {
    if |loads| == 0 then size else SizeAfterLoads(SizeAfterLoad(size, loads[0]), loads[1..])
  }

  /** The first load of a series that succeeded, if any. */
  function FirstLoaded(loads: seq<Option<Picture>>): (p: Option<Picture>)
    ensures p.Some? <==> exists i :: 0 <= i < |loads| && loads[i].Some?
  {
    if |loads| == 0 then None
    else if loads[0].Some? then loads[0]
    else
      var p := FirstLoaded(loads[1..]);
      assert forall i :: 1 <= i < |loads| ==> loads[i] == loads[1..][i - 1];
      p
  }

  /** A stored size is never changed by loading images, and without one the
      size becomes that of the first image that loads: later images, and
      failed loads, leave it alone. */
  lemma {:induction false} LoadsFixSize(size: Option<Size>, loads: seq<Option<Picture>>)
    decreases |loads|
    ensures SizeAfterLoads(size, loads) ==
      if size.Some? then size
      else if FirstLoaded(loads).Some? then Some(Dimensions(FirstLoaded(loads).value))
      else None
  {
    if |loads| > 0 {
      LoadsFixSize(SizeAfterLoad(size, loads[0]), loads[1..]);
    }
  }

  /** The control's Size after the constructor as written: a given size is
      only recorded, so the control keeps the toolkit's size unless no size
      was given and an image loaded. */
  function ConstructedSize(toolkitSize: Size, size: Option<Size>, loaded: Option<Picture>): (s: Size)
    ensures size.None? && loaded.Some? ==> s == Dimensions(loaded.value)
    ensures size.Some? || loaded.None? ==> s == toolkitSize
  {
    if size.None? && loaded.Some? then Dimensions(loaded.value) else toolkitSize
  }

  /** The control's Size when the constructor applies a given size, as the
      `size` setter does. */
  function IntendedConstructedSize(toolkitSize: Size, size: Option<Size>, loaded: Option<Picture>): (s: Size)
    ensures size.Some? ==> s == size.value
    ensures size.None? && loaded.Some? ==> s == Dimensions(loaded.value)
    ensures size.None? && loaded.None? ==> s == toolkitSize
  {
    if size.Some? then size.value else ConstructedSize(toolkitSize, size, loaded)
  }

  /** As written, the `size` getter and the control disagree after
      `ImageBox(image=p, size=(50, 50))` on a 100 by 50 picture box. */
  lemma GivenSizeNotApplied()
    ensures var given, loaded := Some(Size(50, 50)), Some(Picture(640, 480));
      SizeAfterLoad(given, loaded) == given &&
      ConstructedSize(Size(100, 50), given, loaded) != given.value
  {
  }

  /** Applying a given size, the control's Size is what the `size` getter
      reports whenever that is set, whatever loads. */
  lemma IntendedSizeMatchesGetter(toolkitSize: Size, size: Option<Size>, loaded: Option<Picture>)
    ensures SizeAfterLoad(size, loaded).Some? ==>
      IntendedConstructedSize(toolkitSize, size, loaded) == SizeAfterLoad(size, loaded).value
  {
  }

  class ImageBox {
    /** `_image_path`, `_size`, `_background_color`, `_location`, `_on_click`. */
    var imagePath: Option<string>
    var size: Option<Size>
    var background: Option<Color>
    var location: Option<Point>
    var onClick: Option<Callback>
    /** The picture box's Image, Size, Location and BackColor. */
    var image: Option<Picture>
    var formSize: Size
    var formLocation: Point
    var backColor: Option<Color>
    /** Subscriptions of `_handle_click` to the Click event. */
    var clickHandlers: nat
    /** What Image.FromFile yields for each path: None when it raises. */
    const disk: string -> Option<Picture>

    /** At most one click subscription, and exactly one while a callback is set. */
    ghost predicate Valid()
      reads this
    {
      clickHandlers == if onClick.Some? then 1 else 0
    }

    /** `ImageBox(image, size, background_color, location, on_click)`, on a
        picture box whose initial Size is `toolkitSize`. A given size is only
        recorded; an image is loaded when the path is truthy. */
    constructor (disk: string -> Option<Picture>, toolkitSize: Size, imagePath: Option<string>,
                 size: Option<Size>, background: Option<Color>, location: Option<Point>,
                 onClick: Option<Callback>)
      ensures Valid()
      ensures this.disk == disk && this.imagePath == imagePath && this.background == background
      ensures this.location == location && this.onClick == onClick && backColor == background
      ensures formLocation == if location.Some? then location.value else Point(0, 0)
      ensures image == if PathGiven(imagePath) then disk(imagePath.value) else None
      ensures this.size == SizeAfterLoad(size, image)
      ensures formSize == ConstructedSize(toolkitSize, size, image)
    {
      this.disk := disk;
      this.imagePath, this.size, this.background := imagePath, size, background;
      this.location, this.onClick := location, onClick;
      backColor := background;
      formLocation := if location.Some? then location.value else Point(0, 0);
      image := None;
      formSize := toolkitSize;
      clickHandlers := 0;
      new;
      if PathGiven(imagePath) {
        SetImage(imagePath.value);
      }
      if onClick.Some? {
        clickHandlers := clickHandlers + 1;
      }
    }

    /** `_set_image`: a successful load replaces Image and, when no size is
        stored, adopts the image's dimensions; a failed load clears Image. */
    method SetImage(path: string)
      modifies this`image, this`size, this`formSize
      ensures image == disk(path)
      ensures size == SizeAfterLoad(old(size), disk(path))
      ensures formSize == if old(size).None? && image.Some? then Dimensions(image.value) else old(formSize)
    {
      var loaded := disk(path);
      if loaded.Some? {
        image := loaded;
        if size.None? {
          size := Some(Dimensions(loaded.value));
          formSize := size.value;
        }
      } else {
        image := None;
      }
    }

    /** The `image_path` setter: loads a truthy path, clears Image otherwise. */
    method SetImagePath(value: Option<string>)
      modifies this`imagePath, this`image, this`size, this`formSize
      ensures imagePath == value
      ensures image == if PathGiven(value) then disk(value.value) else None
      ensures size == SizeAfterLoad(old(size), image)
      ensures formSize == if old(size).None? && image.Some? then Dimensions(image.value) else old(formSize)
    {
      imagePath := value;
      if PathGiven(value) {
        SetImage(value.value);
      } else {
        image := None;
      }
    }

    /** The `size` setter: a size is stored and applied; None resets to the
        image's own dimensions when there is an image, and does nothing
        otherwise. */
    method SetSize(value: Option<Size>)
      modifies this`size, this`formSize
      ensures value.Some? ==> size == value && formSize == value.value
      ensures value.None? && image.Some? ==>
        size == Some(Dimensions(image.value)) && formSize == Dimensions(image.value)
      ensures value.None? && image.None? ==> size == old(size) && formSize == old(formSize)
    {
      if value.Some? {
        size := value;
        formSize := value.value;
      } else if image.Some? {
        size := Some(Dimensions(image.value));
        formSize := size.value;
      }
    }

    /** The `background_color` setter: always stored, written to the picture
        box only when it is a colour. */
    method SetBackgroundColor(value: Option<Color>)
      modifies this`background, this`backColor
      ensures background == value
      ensures backColor == if value.Some? then value else old(backColor)
    {
      background := value;
      if value.Some? {
        backColor := value;
      }
    }

    /** The `on_click` setter: the handler is unsubscribed when a callback was
        set and subscribed again when the new one is set, so it stays attached
        at most once. */
    method SetOnClick(value: Option<Callback>)
      requires Valid()
      modifies this`onClick, this`clickHandlers
      ensures Valid()
      ensures onClick == value
      ensures clickHandlers == Resubscribe(old(clickHandlers), old(onClick), value)
    {
      if onClick.Some? {
        clickHandlers := Unsubscribe(clickHandlers);
      }
      onClick := value;
      if onClick.Some? {
        clickHandlers := clickHandlers + 1;
      }
    }

    /** A click: every subscription runs `_handle_click`, which calls the
        callback when one is set. The callback runs exactly once per click. */
    method Click() returns (calls: seq<Callback>)
      requires Valid()
      ensures calls == if onClick.Some? then [onClick.value] else []
    {
      calls := ClickCalls(clickHandlers, onClick);
    }
  }
}
