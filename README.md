# WinFormZ core, modelled in Dafny

WinFormZ wraps .NET WinForms for Python: a process-wide main window and a
handful of controls (box, button, divider, image box, text input) whose
Python properties forward to the toolkit's own. This project models the part
of it that holds logic of its own, with the toolkit reduced to plain fields:

- `toolkit.dfy`: the points, sizes and callbacks exchanged with the toolkit
  (module `Toolkit`), plus the `Option`, raised-exception and outcome types
  (module `Wrappers`).
- `colors.dfy` (module `Colors`): `Color.rgb`, which clamps each channel into
  [0, 255].
- `drag.dfy` (module `Drag`): the drag-to-move session of the main window as
  pure transitions. It also proves what a whole gesture does: the window
  follows the pointer while the button is held and stays put after release.
- `app.py` → `app.dfy` (module `App`):
  - `MainWindow` is a class over the recorded settings, the toolkit Form, the
    drag session and the event subscriptions.
  - `Process` holds the class-level `_instance` slot that makes the window a
    singleton.
- `divider.dfy` (module `Divider`): the divider panel's setters and the
  rectangle its paint handler fills.
- `box.dfy` (module `Box`): the panel's child list. `insert` and `remove` loop
  in place and raise midway. They are proved against the functions
  `InsertResult` and `RemoveResult`, which in turn have their own lemmas,
  including the remove-after-insert round trip.
- `events.dfy` (module `Events`): a Click event holding some number of
  subscriptions of `_handle_click`, and what one click calls.
- `image.dfy` (module `Image`): the image box. Image loading is a function
  from paths to loaded pictures, and the size is adopted from the first image
  that loads.
- `textinput.dfy` (module `TextInput`): the text box's font rebuilding and
  self-sizing. Text measurement is a function given to the constructor.
- `button.dfy` (module `Button`): the button's setters and its click
  subscription bookkeeping, as written.

Toolkit properties appear as fields named after them (`formSize`,
`backColor`, `clickHandlers`, ...). A colour property that was never written
is `None`. Raised exceptions are `Outcome` values returned by the method that
raises.

## Model

| member | source | states |
|---|---|---|
| Colors.Clamp | color.py:54-56 | the channel lies in [0, 255]; values already in range pass through; values below 0 become 0 and values above 255 become 255 |
| Colors.Rgb | color.py:54-57 | the colour is opaque, every channel is in range, each channel is its own input clamped, and in-range inputs are kept exactly |
| Colors.ClampIdempotent | color.py:54 | clamping a clamped value returns it |
| Colors.ClampMonotone | color.py:54 | clamping keeps the order of its inputs |
| Colors.RgbIdempotent | color.py:54-57 | rebuilding a colour from the channels `rgb` returned gives the same colour |
| Colors.RgbChannelsIndependent | color.py:54-57 | changing the red input never changes the green or blue channel, and the red channel does not depend on green or blue |
| Drag.MouseDownStartsSession | app.py:460-463 | a left press sets `dragging` and anchors at the pointer without moving the window; other buttons change nothing |
| Drag.MouseMoveShifts | app.py:467-470 | while dragging, a move shifts the location by (pointer − anchor) in each coordinate; when not dragging it changes nothing; it never touches the flag or the anchor |
| Drag.MouseUpEndsSession | app.py:474-476 | a left release clears `dragging`; other buttons change nothing; the location never changes |
| Drag.DragFollowsPointer | app.py:467-470 | over any non-empty path of pointer positions during a drag, the window ends with its anchor point under the last pointer position, still dragging |
| Drag.IdleIgnoresMoves | app.py:467-468 | without a session, any sequence of moves leaves the state unchanged |
| Drag.PressThenDrag | app.py:460-470 | a left press followed by moves displaces the window by exactly the pointer's displacement from the press to the last position |
| Drag.ReleaseEndsDrag | app.py:467-476 | after a left release, later moves do not relocate the window |
| App.InitialBorderStyle | app.py:151-154 | the style is None exactly when `borderless` is false, Sizable exactly when both flags are true, otherwise FixedDialog; it is never FixedSingle |
| App.InitialForm | app.py:128-154 | the new Form takes the title, size and the three box flags; it is centred by the toolkit or placed at `location`; it gets the initial border style and keeps its window state |
| App.CloseVetoExactlyFalse | app.py:488-491 | a close is vetoed exactly when an on_exit callback is set and returns `False` itself; no callback, `None`, `0` or any other value lets it proceed |
| App.MainWindow.Allocate | app.py:58-63 | `__new__` for the first instance gives an object that is not yet set up, with the default border style, no drag session and no subscriptions |
| App.MainWindow.Init | app.py:84-162 | on a window already set up, nothing changes; otherwise the window records the arguments, takes the title and size, is centred or placed at `location`, gets the initial border style, subscribes each drag handler once exactly when `draggable`, and subscribes the close handler once |
| App.MainWindow.SetResizable | app.py:283-297 | the border style becomes Sizable or FixedDialog, `_resizable` is recorded, and the `resizable` getter reads back the value; nothing else on the Form changes |
| App.MainWindow.SetBorderless | app.py:379-384 | True gives FixedSingle and False gives None, `_borderless` is recorded, and either way `resizable` then reads false |
| App.MainWindow.SetLocation | app.py:248-250 | `_location` is always recorded; the Form moves only when the window is not centred on screen |
| App.MainWindow.SetDraggable | app.py:443-445 | setting the current value changes no subscription; a change adds one subscription to each of MouseDown, MouseMove and MouseUp when turning on, or removes one when turning off, and leaves the close subscription alone; the invariant of one subscription per handler while draggable is kept |
| App.MainWindow.UpdateDraggable | app.py:448-456 | called after the flag flipped, it leaves each drag handler subscribed exactly once when draggable and not at all otherwise |
| App.MainWindow.OnMouseDown | app.py:460-463 | the window's session moves as `Drag.OnMouseDown` prescribes |
| App.MainWindow.OnMouseMove | app.py:467-470 | the window's session moves as `Drag.OnMouseMove` prescribes, and only the Form's location changes, even when the window is centred |
| App.MainWindow.OnMouseUp | app.py:474-476 | the window's session moves as `Drag.OnMouseUp` prescribes |
| App.MainWindow.HandleFormClosing | app.py:488-491 | the event's Cancel ends set exactly when it already was or the on_exit callback returned `False`; on_exit runs once when set and never otherwise |
| App.MainWindow.Minimize | app.py:508-510 | the window state becomes Minimized with the rest of the Form unchanged, and on_minimize runs once exactly when it is set |
| App.Process.constructor | app.py:56 | the process starts with no MainWindow instance |
| App.Process.NewMainWindow | app.py:58-63 | the first call returns a fresh, fully set-up window; every later call returns that same window unchanged, whatever arguments it is given |
| Divider.PaintRect | divider.py:145-148 | a rectangle is painted exactly for 'horizontal' or 'vertical'; horizontal is a full-width band of height `width` centred vertically, vertical a full-height band of width `width` centred horizontally (the gap after equals the gap before or exceeds it by one) |
| Divider.CenteredUnique | divider.py:146 | a centred band starts at the floor of half the leftover space, so the offsets are exactly `(Height − width) // 2` and `(Width − width) // 2` |
| Divider.BandInsidePanel | divider.py:145-148 | a line no thicker than the panel lies entirely inside it, in either direction |
| Divider.Divider.constructor | divider.py:32-40 | when construction succeeds (a colour is given), the arguments are recorded without validating the direction, and the panel takes the location, size and colour |
| Divider.Divider.Create | divider.py:32-40 | `Divider(...)` raises TypeError and makes nothing exactly when the colour is None, since BackColor refuses None; otherwise it yields a new divider as the constructor describes |
| Divider.Divider.SetDirection | divider.py:59-62 | anything but 'horizontal' or 'vertical' raises ValueError and changes nothing; an accepted value is stored, a redraw requested, and painting will then draw a line |
| Divider.Divider.SetWidth | divider.py:79-80 | the width is stored and one redraw requested |
| Divider.Divider.SetColor | divider.py:97-98 | the colour is stored and one redraw requested |
| Divider.Divider.SetLocation | divider.py:115-116 | the getter then returns exactly the value and the panel moves there |
| Divider.Divider.SetSize | divider.py:133-134 | the getter then returns exactly the value and the panel takes that size |
| Divider.Divider.Paint | divider.py:145-148 | for 'horizontal' or 'vertical' with a colour of None, making the brush raises TypeError and nothing is filled; otherwise the fill is the rectangle `PaintRect` gives for the stored direction and width and the panel's size, and there is none for any other direction |
| Box.FirstNonControl | box.py:110-114 | every element before the returned position is a control, and the element at it, if any, is not |
| Box.AddChild | box.py:108 | the children gain the control, keep their order as a prefix, and stay free of duplicates |
| Box.RemoveChildMembers | box.py:128 | the control leaves, every other child stays, nothing is added, an absent control changes nothing, and children free of duplicates stay so |
| Box.InsertResult | box.py:107-116 | `insert` succeeds exactly for a control or a list of controls; every failure is TypeError; any other argument leaves the children unchanged |
| Box.RemoveResult | box.py:127-136 | `remove` succeeds exactly for a control or a list of controls; every failure is TypeError; any other argument leaves the children unchanged |
| Box.AddChildrenAppends | box.py:110-112 | adding new, distinct controls one by one appends them in list order |
| Box.RemoveChildrenUndoesAppend | box.py:130-132 | removing, one by one, controls that were appended after distinct children restores those children exactly |
| Box.InsertAppendsPrefix | box.py:109-114 | inserting a list whose first non-control is at index k, into children that together with the first k controls are new and distinct, appends those k controls in order, then raises TypeError unless k is the list's length; the partial insert stays |
| Box.AddChildrenMembers | box.py:110-112 | after adding controls one by one, the children are exactly the earlier children and the added controls, and children free of duplicates stay so |
| Box.RemoveChildrenMembers | box.py:130-132 | removing controls one by one from children free of duplicates leaves exactly the children not removed, still free of duplicates |
| Box.RemoveDropsPrefix | box.py:129-134 | removing a list whose first non-control is at index k, from children free of duplicates, takes out exactly the first k controls and keeps every other child, then raises TypeError unless k is the list's length |
| Box.InsertKeepsDistinct | box.py:107-116 | `insert` never makes a control a child twice |
| Box.RemoveKeepsDistinct | box.py:127-136 | `remove` keeps the children free of duplicates, and a single control it removes is no longer a child |
| Box.RemoveUndoesInsert | box.py:107-136 | removing what was just inserted (a new control, or a list of new, distinct controls) restores the children exactly and raises nothing |
| Box.Box.constructor | box.py:32-39 | the panel starts empty, so no control is a child twice, records the arguments, takes the size and location, and takes the background colour only when one is given |
| Box.Box.SetSize | box.py:57-58 | the getter then returns exactly the value and the panel takes that size |
| Box.Box.SetLocation | box.py:75-76 | the getter then returns exactly the value and the panel moves there |
| Box.Box.SetBackgroundColor | box.py:94-96 | the value is always stored, but BackColor is written only for a colour |
| Box.Box.Insert | box.py:107-116 | the loop leaves exactly the outcome and children `InsertResult` prescribes, including the partial insert before a TypeError, and no control becomes a child twice |
| Box.Box.Remove | box.py:127-136 | the loop leaves exactly the outcome and children `RemoveResult` prescribes, including the partial removal before a TypeError, and the children stay free of duplicates |
| Events.ClickCalls | button.py:176-177 | a click calls the stored callback once per subscription of the handler, and calls nothing when no callback is stored |
| Events.Unsubscribe | image.py:143 | `-=` removes one subscription when there is one and is a no-op otherwise |
| Events.Resubscribe | image.py:142-146 | unsubscribing before subscribing keeps the handler subscribed once while a callback is set and not at all otherwise |
| Events.ResubscribeOneCallPerClick | image.py:142-146 | after any series of `on_click` assignments under that rule, a click calls the last callback exactly once, or nothing when the last value was None |
| Image.SizeAfterLoad | image.py:64-69 | a stored size survives any load; without one, a successful load adopts the image's width and height; a failed load changes nothing |
| Image.LoadsFixSize | image.py:58-69 | over any series of loads, a stored size never changes; without one, the size becomes that of the first image that loads, and later images and failed loads leave it alone |
| Image.ConstructedSize | image.py:40-52 | after construction the control keeps the toolkit's size unless no size was given and an image loaded, in which case it takes the image's dimensions |
| Image.IntendedConstructedSize | image.py:16 | a given size is applied to the control; otherwise the size is as `ConstructedSize` gives |
| Image.GivenSizeNotApplied | image.py:40-52 | `ImageBox(image=p, size=(50, 50))` on a 100 by 50 picture box: the `size` getter reports (50, 50) while the control is not 50 by 50 |
| Image.IntendedSizeMatchesGetter | image.py:16 | with a given size applied, the control's size equals what the `size` getter reports whenever that is set |
| Image.ImageBox.constructor | image.py:39-55 | a given size is only recorded and not applied (the Size is `ConstructedSize`); the image is loaded when the path is truthy; the location is applied when given; the handler is subscribed exactly when a callback is given |
| Image.ImageBox.SetImage | image.py:58-69 | Image becomes the loaded picture, or None when loading fails; the size and the control's Size take the image's dimensions only when no size was stored |
| Image.ImageBox.SetImagePath | image.py:81-85 | the path is stored; a truthy path loads as `_set_image` does, and a falsy one clears Image and leaves the size unchanged |
| Image.ImageBox.SetSize | image.py:97-103 | a size is stored and applied; None resets to the image's dimensions when there is an image, and changes nothing otherwise |
| Image.ImageBox.SetBackgroundColor | image.py:115-117 | the value is always stored, but BackColor is written only for a colour |
| Image.ImageBox.SetOnClick | image.py:142-146 | the callback is replaced and the handler stays subscribed exactly once while a callback is set |
| Image.ImageBox.Click | image.py:150-153 | a click calls the current callback exactly once, or nothing when there is none |
| TextInput.FittedSize | textinput.py:205-212 | a multi-line box is 200 by 100; a single-line box exceeds the measured text by 10 in each dimension |
| TextInput.FittedSizeDependsOnText | textinput.py:205-212 | a multi-line box's size does not depend on the text or font; a single-line box is strictly larger than its text and grows with it |
| TextInput.TextInput.constructor | textinput.py:45-61 | the arguments are recorded, the Font is built from family, size and style, Text is the value, Multiline mirrors the flag, and the box is fitted to the value |
| TextInput.TextInput.AdjustSize | textinput.py:205-212 | the Size becomes the fitted size for the current Multiline flag, Text and Font |
| TextInput.TextInput.UpdateFont | textinput.py:198-201 | the Font is rebuilt from the stored family, size and style, and the box is refitted to it |
| TextInput.TextInput.SetSize | textinput.py:172-175 | a non-positive size raises ValueError and changes nothing; a positive one is stored, the font rebuilt and the box refitted to the current Text, which may differ from `_value` |
| TextInput.TextInput.SetFamily | textinput.py:96-97 | the family is stored, the font rebuilt and the box refitted to the current Text |
| TextInput.TextInput.SetStyle | textinput.py:115-116 | the style is stored, the font rebuilt and the box refitted to the current Text |
| TextInput.TextInput.SetValue | textinput.py:77-78 | `_value` and Text both become the value, so the getter returns it; the box is not refitted |
| TextInput.TextInput.UserEdit | textinput.py:66-68 | when the user types, Text changes but `_value` does not, so the `value` getter still returns what was last set |
| TextInput.TextInput.SetMultiline | textinput.py:193-194 | `_multiline` and Multiline both become the value; the box is not refitted |
| Button.AssignOnClick | button.py:162-166 | a callback adds one subscription; None removes one if there is one |
| Button.AssignmentsStack | button.py:162-164 | after n callback assignments, the handler is subscribed n more times than before |
| Button.ReassignmentCallsTwice | button.py:162-164 | a button made with one callback and then given `g` calls `g` twice per click |
| Button.AssignKeepsCallbackAttached | button.py:162-166 | after assigning a callback, a click calls it at least once; after assigning None, a click calls nothing |
| Button.Button.constructor | button.py:33-48 | text, size and location are recorded and applied; colours are written only when given; the handler is subscribed exactly when a callback is given |
| Button.Button.SetText | button.py:67-68 | `_text` and Text both become the value |
| Button.Button.SetSize | button.py:85-86 | the getter then returns exactly the value and the button takes that size |
| Button.Button.SetLocation | button.py:103-104 | the getter then returns exactly the value and the button moves there |
| Button.Button.SetBackgroundColor | button.py:122-124 | the value is always stored, but BackColor is written only for a colour |
| Button.Button.SetTextColor | button.py:142-144 | the value is always stored, but ForeColor is written only for a colour |
| Button.Button.SetOnClick | button.py:162-166 | the callback is stored and the subscriptions change as `AssignOnClick` says; a set callback always stays subscribed |
| Button.Button.Click | button.py:176-177 | a click calls nothing when no callback is set, and otherwise calls the current callback once per subscription, at least once |

## Left out

- The toolkit itself is not modelled: window display, the message loop,
  painting, Invalidate's redraw and .NET's event dispatch. A property of a
  toolkit object is a field. A redraw request is a counter. A click is
  `Events.ClickCalls`.
- Callbacks are foreign code. Only their identity is kept. What on_exit
  returns is an input of `HandleFormClosing`, and a callback that raises is
  not modelled.
- Integers are unbounded. The 32-bit fields of Drawing.Point and
  Drawing.Size do not wrap or overflow in the model.
- app.py `_handle_minimize_window` (app.py:494-500) is not modelled. Its guard
  calls `typing.Callable` as if it tested callability, so what it does at run
  time is not reliably stated. `minimize` is modelled without it.
- app.py `App.set_icon`/`get_icon` and the `icon` setter are not modelled.
  They load a file and print on error.
- app.py: the `title`, `size`, `minimizable`, `maxmizable` and `closable`
  setters store their value and write it to the Form. The `on_exit` and
  `on_minimize` setters only store it. None of them is modelled, and neither
  are the methods after `minimize`, which call the toolkit.
- app.py: the `content` setter (app.py:210-218) is not modelled. It removes
  the old content from the Form's Controls when it is there, then adds the
  new content when it is truthy. The `background_color` setter (app.py:271-275)
  is not modelled either. It writes None to BackColor when given None, and
  the toolkit refuses that.
- app.py `__init__`: the `content`, `background_color` and `icon` arguments
  and the Resize subscription are left out. The warning `__new__` prints is
  left out too.
- App.MainWindow.Init: `requires Fresh() || Valid()`. The model only allows
  it on an object `__new__` returned. That is the only way Python calls it.
- color.py: the table of named colours is not modelled. Its values come from
  the toolkit.
- box.py: a control's identity is a number. WinForms' own handling of an Add
  of a present child, or a Remove of an absent one, is modelled as a no-op.
  So is `-=` on a handler that was never subscribed. Re-ordering or
  re-parenting by the toolkit is not modelled.
- image.py: `Image.FromFile` is the function `disk` from path to loaded
  picture, and None means the load raised. The file system is fixed for the
  object's life. The error message printed on a failed load is not modelled.
- image.py: an image path is a string. Only None and the empty string count
  as falsy. A `pathlib.Path` is always truthy, and that case is covered.
- Divider.Divider.constructor: requires a colour. In divider.py:40 a colour
  of None makes the BackColor assignment raise TypeError, and a constructor
  cannot report that, so `Divider.Divider.Create` models the call instead,
  with the TypeError.
- Image.ImageBox.constructor: a background colour of None is recorded as
  None on the toolkit side. The toolkit would refuse that assignment, and
  that refusal is not modelled.
- textinput.py: `MeasureString` and its float result are the function
  `measure`, already truncated to whole pixels. The TextBox's own automatic
  height for single-line boxes is not modelled.
- TextInput.TextInput.constructor: requires a positive font size, because
  Drawing.Font rejects any other. The `text_color` and `location` arguments
  and setters are left out. The default family `Font.SERIF` is not defined
  in font.py, so the family is a plain string.
- splash.py, dialog.py, notify.py, font.py, label.py and `__init__.py` are
  not part of this model. They cover a worker thread, modal dialogs, the
  tray icon, font constructors, forwarding properties, and re-exports.

## Findings

| source | as written | input that shows it | evidently intended | confidence | as-written member | corrected member |
|---|---|---|---|---|---|---|
| button.py:162-164 | each non-None `on_click` assignment subscribes `_handle_click` once more and never removes the earlier subscription | `Button(on_click=f)`, then `b.on_click = g`, then one click: `g` runs twice | the new callback runs once per click; this needs unsubscribing before subscribing, as image.py:142-146 does | medium, not executed | Button.ReassignmentCallsTwice | Events.ResubscribeOneCallPerClick |
| image.py:40-52 | the constructor records a given `size` in `_size` but never writes it to the control's Size | `ImageBox(image=p, size=(50, 50))` on a picture box of the default 100 by 50: the getter says (50, 50), the control stays 100 by 50 | the control takes the given size, as the docstring at image.py:16 and the `size` setter at image.py:97-100 do | medium, not executed | Image.GivenSizeNotApplied | Image.IntendedSizeMatchesGetter |

The `Button.Button` class follows button.py as written, so its invariant is
only that a set callback is subscribed at least once. The corrected rule is
`Events.Resubscribe`. The image box uses it, and under it a click calls the
callback exactly once.

The `Image.ImageBox` constructor likewise follows image.py as written: its
Size is `ConstructedSize`. `IntendedConstructedSize` is the corrected rule,
and under it the control and the `size` getter agree.
