/** button.py: a push button with stored text, geometry, colours and an
    optional click callback. */
module Button {
  import opened Toolkit
  import opened Wrappers
  import opened Colors
  import opened Events

  /** Subscriptions after one `on_click` assignment as button.py makes it: a
      callback subscribes the handler once more, without removing an earlier
      subscription; None removes one subscription, if there is one. */
  function AssignOnClick(handlers: nat, value: Option<Callback>): (h: nat)
    ensures value.Some? ==> h == handlers + 1
    ensures value.None? ==> h == Unsubscribe(handlers)
  {
    if value.Some? then handlers + 1 else Unsubscribe(handlers)
  }

  /** Subscriptions after a series of `on_click` assignments. */
  function AssignAll(handlers: nat, values: seq<Option<Callback>>): nat
    decreases |values|
  {
    if |values| == 0 then handlers else AssignAll(AssignOnClick(handlers, values[0]), values[1..])
  }

  /** Subscriptions pile up: after assigning callbacks n times, the handler is
      attached n more times, whatever was attached before. */
  lemma {:induction false} AssignmentsStack(handlers: nat, values: seq<Option<Callback>>)
    requires forall i :: 0 <= i < |values| ==> values[i].Some?
    decreases |values|
    ensures AssignAll(handlers, values) == handlers + |values|
  {
    if |values| > 0 {
      AssignmentsStack(handlers + 1, values[1..]);
    }
  }

  /** So a click runs the last callback once per subscription: a button made
      with one callback (one subscription) and then given `g` calls `g` twice
      per click. */
  lemma ReassignmentCallsTwice(g: Callback)
    ensures ClickCalls(AssignOnClick(1, Some(g)), Some(g)) == [g, g]
  {
    assert ClickCalls(1, Some(g)) == ClickCalls(0, Some(g)) + [g];
  }

  /** A set callback is always attached: the handler runs on a click
      whenever `on_click` holds a callback. */
  lemma AssignKeepsCallbackAttached(handlers: nat, value: Option<Callback>)
    ensures value.Some? ==> |ClickCalls(AssignOnClick(handlers, value), value)| >= 1
    ensures value.None? ==> ClickCalls(AssignOnClick(handlers, value), value) == []
  {
  }

  class Button {
    /** `_text`, `_size`, `_location`, `_background_color`, `_text_color`, `_on_click`. */
    var text: string
    var size: Size
    var location: Point
    var background: Option<Color>
    var textColor: Option<Color>
    var onClick: Option<Callback>
    /** The button's Text, Size, Location, BackColor and ForeColor (None: never written). */
    var formText: string
    var formSize: Size
    var formLocation: Point
    var backColor: Option<Color>
    var foreColor: Option<Color>
    /** Subscriptions of `_handle_click` to the Click event. */
    var clickHandlers: nat

    /** A set callback is attached at least once. */
    ghost predicate Valid()
      reads this
    {
      onClick.Some? ==> clickHandlers > 0
    }

    /** `Button(text, size, location, background_color, text_color, on_click)`:
        colours are written only when given, and the handler is subscribed
        exactly when a callback is given. */
    constructor (text: string, size: Size, location: Point, background: Option<Color>,
                 textColor: Option<Color>, onClick: Option<Callback>)
      ensures Valid()
      ensures this.text == text && this.size == size && this.location == location
      ensures this.background == background && this.textColor == textColor && this.onClick == onClick
      ensures formText == text && formSize == size && formLocation == location
      ensures backColor == background && foreColor == textColor
      ensures clickHandlers == if onClick.Some? then 1 else 0
    {
      this.text, this.size, this.location := text, size, location;
      this.background, this.textColor, this.onClick := background, textColor, onClick;
      formText, formSize, formLocation := text, size, location;
      backColor, foreColor := None, None;
      clickHandlers := 0;
      new;
      if background.Some? {
        backColor := background;
      }
      if textColor.Some? {
        foreColor := textColor;
      }
      if onClick.Some? {
        clickHandlers := clickHandlers + 1;
      }
    }

    /** The `text` setter. */
    method SetText(value: string)
      modifies this`text, this`formText
      ensures text == value && formText == value
    {
      text := value;
      formText := value;
    }

    /** The `size` setter: the getter then returns exactly `value`. */
    method SetSize(value: Size)
      modifies this`size, this`formSize
      ensures size == value && formSize == value
    {
      size := value;
      formSize := value;
    }

    /** The `location` setter: the getter then returns exactly `value`. */
    method SetLocation(value: Point)
      modifies this`location, this`formLocation
      ensures location == value && formLocation == value
    {
      location := value;
      formLocation := value;
    }

    /** The `background_color` setter: always stored, written to the button
        only when it is a colour. */
    method SetBackgroundColor(value: Option<Color>)
      modifies this`background, this`backColor
      ensures background == value
      ensures backColor == if value.Some? then value else old(backColor)
    {
      background := value;
      if value.Some? {
        backColor := value;
      }
    }

    /** The `text_color` setter: always stored, written to the button only
        when it is a colour. */
    method SetTextColor(value: Option<Color>)
      modifies this`textColor, this`foreColor
      ensures textColor == value
      ensures foreColor == if value.Some? then value else old(foreColor)
    {
      textColor := value;
      if value.Some? {
        foreColor := value;
      }
    }

    /** The `on_click` setter as written: stores the value, then subscribes
        the handler again for a callback or removes one subscription for None. */
    method SetOnClick(value: Option<Callback>)
      requires Valid()
      modifies this`onClick, this`clickHandlers
      ensures Valid()
      ensures onClick == value
      ensures clickHandlers == AssignOnClick(old(clickHandlers), value)
    {
      onClick := value;
      if value.Some? {
        clickHandlers := clickHandlers + 1;
      } else {
        clickHandlers := Unsubscribe(clickHandlers);
      }
    }

    /** A click: each subscription runs `_handle_click`, which calls the
        current callback if one is set and otherwise does nothing. */
    method Click() returns (calls: seq<Callback>)
      requires Valid()
      ensures onClick.None? ==> calls == []
      ensures onClick.Some? ==> |calls| == clickHandlers >= 1
      ensures forall i :: 0 <= i < |calls| ==> calls[i] == onClick.value
    {
      calls := ClickCalls(clickHandlers, onClick);
    }
  }
}
