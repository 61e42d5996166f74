/** app.py: the process-wide MainWindow, its border-style selection, the
    drag-to-move handlers, the close veto and minimize. */
module App {
  import opened Toolkit
  import Drag

  /** Forms.FormBorderStyle; `FormBorderStyle(0)` is None and `(1)` is FixedSingle. */
  datatype FormBorderStyle = None | FixedSingle | FixedDialog | Sizable

  /** The border style of a newly made Form. */
  const DefaultBorderStyle: FormBorderStyle := Sizable

  datatype FormStartPosition = Manual | CenterScreen

  datatype FormWindowState = Normal | Minimized | Maximized

  /** A Python value, as far as `result is False` tells values apart. */
  datatype PyValue = PyNone | PyBool(b: bool) | PyInt(i: int) | PyOther

  /** The arguments of `MainWindow(...)` the model keeps; `hasOnExit` and
      `hasOnMinimize` say whether those callbacks are given. */
  datatype WindowConfig = WindowConfig(
    title: string, size: Size, location: Point, centerScreen: bool,
    resizable: bool, minimizable: bool, maxmizable: bool, closable: bool,
    borderless: bool, hasOnExit: bool, hasOnMinimize: bool, draggable: bool)

  /** The constructor's default arguments. */
  const DefaultConfig: WindowConfig := WindowConfig(
    "SpaceZ App", Size(800, 600), Point(100, 100), false,
    true, true, true, true, true, false, false, false)

  /** The style `__init__` leaves: `borderless=False` wins over everything,
      then `resizable=False`; otherwise the Form keeps its default. */
  function InitialBorderStyle(borderless: bool, resizable: bool): (s: FormBorderStyle)
    ensures (s == None) <==> !borderless
    ensures (s == Sizable) <==> borderless && resizable
    ensures s != FixedSingle
  {
    if !borderless then None
    else if !resizable then FixedDialog
    else DefaultBorderStyle
  }

  /** How many subscriptions each drag handler has when dragging is on or off. */
  function DragHandlers(on: bool): nat {
    if on then 1 else 0
  }

  /** `_handle_form_closing`'s decision: the close is cancelled when the event
      already was, or when an on_exit callback is set and returns `False` itself. */
  function CloseCancelled(hasOnExit: bool, returned: PyValue, cancelIn: bool): bool {
    cancelIn || (hasOnExit && returned == PyBool(false))
  }

  /** The decision table: only a set callback returning exactly `False` vetoes;
      no callback, `None`, `True`, `0` or anything else lets the close proceed. */
  lemma CloseVetoExactlyFalse(hasOnExit: bool, returned: PyValue)
    ensures CloseCancelled(hasOnExit, returned, false) <==> hasOnExit && returned == PyBool(false)
    ensures !CloseCancelled(hasOnExit, PyNone, false) && !CloseCancelled(hasOnExit, PyInt(0), false)
    ensures !CloseCancelled(false, returned, false)
  {
  }

  /** The toolkit Form's own properties that the window writes. */
  datatype Form = Form(
    text: string, size: Size, location: Point, startPosition: FormStartPosition,
    minimizeBox: bool, maximizeBox: bool, controlBox: bool,
    borderStyle: FormBorderStyle, windowState: FormWindowState)

  /** The Form `__init__` leaves, starting from a new Form `f`: titled and
      sized, with the requested boxes, either centred by the toolkit or placed
      at `cfg.location`, and with the initial border style. */
  function InitialForm(f: Form, cfg: WindowConfig): (g: Form)
    requires f.borderStyle == DefaultBorderStyle
    ensures g.text == cfg.title && g.size == cfg.size
    ensures g.minimizeBox == cfg.minimizable && g.maximizeBox == cfg.maxmizable && g.controlBox == cfg.closable
    ensures g.startPosition == (if cfg.centerScreen then CenterScreen else Manual)
    ensures g.location == (if cfg.centerScreen then f.location else cfg.location)
    ensures g.borderStyle == InitialBorderStyle(cfg.borderless, cfg.resizable)
    ensures g.windowState == f.windowState
  {
    var placed := if cfg.centerScreen then f.(startPosition := CenterScreen)
                  else f.(startPosition := Manual, location := cfg.location);
    var styled := if !cfg.borderless then placed.(borderStyle := None)
                  else if !cfg.resizable then placed.(borderStyle := FixedDialog)
                  else placed;
    styled.(text := cfg.title, size := cfg.size, minimizeBox := cfg.minimizable,
            maximizeBox := cfg.maxmizable, controlBox := cfg.closable)
  }

  /** How many times each handler of the window is subscribed to its event. */
  datatype Subscriptions = Subscriptions(mouseDown: nat, mouseMove: nat, mouseUp: nat, formClosing: nat)

  /** The drag handlers' subscriptions when dragging is on or off, with the
      close handler subscribed `closing` times. */
  function DragSubscriptions(on: bool, closing: nat): Subscriptions {
    Subscriptions(DragHandlers(on), DragHandlers(on), DragHandlers(on), closing)
  }

  class MainWindow {
    var initialized: bool
    /** The attributes `__init__` records (`_title`, `_location`, `_resizable`,
        `_borderless`, `_draggable`, ...). */
    var settings: WindowConfig
    /** The toolkit Form; the `location` getter reads `form.location`, the
        `resizable` getter `form.borderStyle`. */
    var form: Form
    var dragging: bool
    var dragStart: Point
    var handlers: Subscriptions

    /** An object `__new__` has made and `__init__` has not yet set up. */
    ghost predicate Fresh()
      reads this
    {
      && !initialized
      && form.borderStyle == DefaultBorderStyle && form.windowState == Normal
      && !dragging
      && handlers == Subscriptions(0, 0, 0, 0)
    }

    /** A set-up window: each drag handler is subscribed exactly once while
        `draggable` is on and not at all while it is off, and the close handler
        exactly once. */
    ghost predicate Valid()
      reads this
    {
      initialized && handlers == DragSubscriptions(settings.draggable, 1)
    }

    /** What `__init__(cfg)` leaves, `toolkitLocation` being where the toolkit
        puts a window it centres. */
    ghost predicate Configured(cfg: WindowConfig, toolkitLocation: Point)
      reads this
    {
      && Valid()
      && settings == cfg
      && form.text == cfg.title && form.size == cfg.size
      && form.startPosition == (if cfg.centerScreen then CenterScreen else Manual)
      && form.location == (if cfg.centerScreen then toolkitLocation else cfg.location)
      && form.minimizeBox == cfg.minimizable && form.maximizeBox == cfg.maxmizable
      && form.controlBox == cfg.closable
      && form.borderStyle == InitialBorderStyle(cfg.borderless, cfg.resizable)
      && form.windowState == Normal
      && !dragging && dragStart == Point(0, 0)
    }

    /** The drag session as the pure transitions of module Drag see it. */
    ghost function Session(): Drag.DragState
      reads this
    {
      Drag.DragState(dragging, dragStart, form.location)
    }

    /** The `resizable` getter: true exactly when the border style is Sizable. */
    function Resizable(): bool
      reads this
    {
      form.borderStyle == Sizable
    }

    /** `MainWindow.__new__` for the first instance: a Form with the toolkit's
        defaults, placed at `toolkitLocation`. */
    constructor Allocate(toolkitLocation: Point)
      ensures Fresh() && form.location == toolkitLocation
    {
      initialized := false;
      settings := DefaultConfig;
      form := Form("", Size(0, 0), toolkitLocation, Manual, true, true, true, DefaultBorderStyle, Normal);
      dragging, dragStart := false, Point(0, 0);
      handlers := Subscriptions(0, 0, 0, 0);
    }

    /** `__init__`: does nothing on a window already set up; otherwise records
        the arguments, places the window, picks the border style, subscribes
        the drag handlers when asked to and the close handler always. */
    method Init(cfg: WindowConfig)
      requires Fresh() || Valid()
      modifies this
      ensures Valid()
      ensures old(initialized) ==> unchanged(this)
      ensures !old(initialized) ==> Configured(cfg, old(form.location))
    {
      if initialized {
        return;
      }
      settings := cfg;
      dragging, dragStart := false, Point(0, 0);
      form := InitialForm(form, cfg);
      if cfg.draggable {
        UpdateDraggable();
      }
      handlers := handlers.(formClosing := handlers.formClosing + 1);
      initialized := true;
    }

    /** The `resizable` setter: Sizable or FixedDialog, so the getter reads back `value`. */
    method SetResizable(value: bool)
      requires Valid()
      modifies this`form, this`settings
      ensures Valid()
      ensures form == old(form).(borderStyle := if value then Sizable else FixedDialog)
      ensures settings == old(settings).(resizable := value)
      ensures Resizable() == value
    {
      if value {
        form := form.(borderStyle := Sizable);
      } else {
        form := form.(borderStyle := FixedDialog);
      }
      settings := settings.(resizable := value);
    }

    /** The `borderless` setter: True gives FixedSingle, False gives None; either
        way the window is no longer resizable. */
    method SetBorderless(value: bool)
      requires Valid()
      modifies this`form, this`settings
      ensures Valid()
      ensures form == old(form).(borderStyle := if value then FixedSingle else None)
      ensures settings == old(settings).(borderless := value)
      ensures !Resizable()
    {
      if value {
        form := form.(borderStyle := FixedSingle);
        settings := settings.(borderless := true);
      } else {
        form := form.(borderStyle := None);
        settings := settings.(borderless := false);
      }
    }

    /** The `location` setter (`_set_location`): always recorded, but the
        window only moves when it is not centred on the screen. */
    method SetLocation(location: Point)
      modifies this`settings, this`form
      ensures settings == old(settings).(location := location)
      ensures form == if settings.centerScreen then old(form) else old(form).(location := location)
    {
      settings := settings.(location := location);
      if !settings.centerScreen {
        form := form.(location := location);
      }
    }

    /** The `draggable` setter: re-subscribes only when the value changes. */
    method SetDraggable(value: bool)
      requires Valid()
      modifies this`settings, this`handlers
      ensures Valid()
      ensures settings == old(settings).(draggable := value)
      ensures old(settings.draggable) == value ==> handlers == old(handlers)
      ensures old(settings.draggable) != value ==>
        handlers.mouseDown as int == old(handlers.mouseDown) as int + (if value then 1 else -1) &&
        handlers.mouseMove as int == old(handlers.mouseMove) as int + (if value then 1 else -1) &&
        handlers.mouseUp as int == old(handlers.mouseUp) as int + (if value then 1 else -1) &&
        handlers.formClosing == old(handlers.formClosing)
    {
      if settings.draggable != value {
        settings := settings.(draggable := value);
        UpdateDraggable();
      }
    }

    /** `_update_draggable`, called right after `_draggable` flipped: adds or
        removes one subscription of each drag handler. */
    method UpdateDraggable()
      requires handlers == DragSubscriptions(!settings.draggable, handlers.formClosing)
      modifies this`handlers
      ensures handlers == DragSubscriptions(settings.draggable, old(handlers.formClosing))
    {
      if settings.draggable {
        handlers := handlers.(mouseDown := handlers.mouseDown + 1, mouseMove := handlers.mouseMove + 1,
                              mouseUp := handlers.mouseUp + 1);
      } else {
        handlers := handlers.(mouseDown := handlers.mouseDown - 1, mouseMove := handlers.mouseMove - 1,
                              mouseUp := handlers.mouseUp - 1);
      }
    }

    /** `_on_mouse_down`. */
    method OnMouseDown(e: Drag.MouseEvent)
      modifies this`dragging, this`dragStart
      ensures Session() == Drag.OnMouseDown(old(Session()), e)
    {
      if e.button == Drag.Left {
        dragging := true;
        dragStart := e.at;
      }
    }

    /** `_on_mouse_move`: a direct Location write, even in centre-screen mode. */
    method OnMouseMove(e: Drag.MouseEvent)
      modifies this`form
      ensures Session() == Drag.OnMouseMove(old(Session()), e)
      ensures form == old(form).(location := form.location)
    {
      if dragging {
        form := form.(location := Point(form.location.x + e.at.x - dragStart.x,
                                        form.location.y + e.at.y - dragStart.y));
      }
    }

    /** `_on_mouse_up`. */
    method OnMouseUp(e: Drag.MouseEvent)
      modifies this`dragging
      ensures Session() == Drag.OnMouseUp(old(Session()), e)
    {
      if e.button == Drag.Left {
        dragging := false;
      }
    }

    /** `_handle_form_closing`: `returned` is what the on_exit callback answers
        if it is called, `cancelIn` the event's Cancel flag on entry. Yields
        the flag on exit and how often on_exit ran. */
    method HandleFormClosing(returned: PyValue, cancelIn: bool) returns (cancel: bool, exitCalls: nat)
      ensures cancel == CloseCancelled(settings.hasOnExit, returned, cancelIn)
      ensures exitCalls == (if settings.hasOnExit then 1 else 0)
    {
      cancel, exitCalls := cancelIn, 0;
      if settings.hasOnExit {
        exitCalls := 1;
        if returned == PyBool(false) {
          cancel := true;
        }
      }
    }

    /** `minimize`: sets the Minimized state and runs on_minimize once if set. */
    method Minimize() returns (minimizeCalls: nat)
      modifies this`form
      ensures form == old(form).(windowState := Minimized)
      ensures minimizeCalls == (if settings.hasOnMinimize then 1 else 0)
    {
      form := form.(windowState := Minimized);
      minimizeCalls := 0;
      if settings.hasOnMinimize {
        minimizeCalls := 1;
      }
    }
  }

  /** The class-level `MainWindow._instance` slot. */
  class Process {
    var instance: MainWindow?

    ghost predicate Valid()
      reads this, instance
    {
      instance != null ==> instance.Valid()
    }

    constructor ()
      ensures Valid() && instance == null
    {
      instance := null;
    }

    /** `MainWindow(cfg)`: `__new__` then `__init__`. The first call makes and
        sets up the window; every later call returns that same window, whose
        `__init__` returns at once, so nothing about it changes. */
    method NewMainWindow(cfg: WindowConfig, toolkitLocation: Point) returns (w: MainWindow)
      requires Valid()
      modifies this, instance
      ensures Valid() && instance == w
      ensures old(instance) != null ==> w == old(instance) && unchanged(w)
      ensures old(instance) == null ==> fresh(w) && w.Configured(cfg, toolkitLocation)
    {
      if instance == null {
        instance := new MainWindow.Allocate(toolkitLocation);
      }
      w := instance;
      w.Init(cfg);
    }
  }
}
