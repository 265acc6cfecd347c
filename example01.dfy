/** The application state machine of Example_01/src/g_app.c: a g_app_data_t record passed by
    pointer, with a pressed-key table and a drawing mode, driven by a fixed-rate timer.

    The record's value is `AppState`; the functions over it (Drain, LogicStep, Iterate, RunLoop,
    Initialized, Released, ShutdownCalls) are the specification. The class `AppData` is the record
    itself, and its methods are the program's functions, proved against that specification. */
module Example01 {
  import opened Allegro

  // enum G_DRAWING_MODE
  const MODE_DEFAULT: int := 0
  const MODE_DOUBLE_BUFFER: int := 1
  const MODE_TRANSFORM: int := 2
  const MODE_COUNT: int := 3

  /** The entries of g_app_draw's func_array. */
  datatype DrawRoutine = DrawInventory | DrawModeDoubleBuffer | DrawModeTransform

  /** func_array and G_MODE_NAME, both indexed by m_mode. */
  const FUNC_ARRAY: seq<DrawRoutine> := [DrawInventory, DrawModeDoubleBuffer, DrawModeTransform]
  const MODE_NAME: seq<string> := ["Default", "Double Buffer", "Transform"]

  /** What one call of g_app_draw shows: the routine that drew the picture and the mode name
      printed in the status line. */
  datatype Frame = Frame(routine: DrawRoutine, modeName: string)

  /** The value of a g_app_data_t record; m_fps is not modelled. */
  datatype AppState = AppState(
    keys: seq<bool>,
    display: Handle,
    logicTimer: Handle,
    eventQueue: Handle,
    inventory: Handle,
    doubleBuffer: Handle,
    font: Handle,
    mode: int,
    running: bool,
    updateLogic: bool)

  /** m_key has ALLEGRO_KEY_MAX entries. */
  predicate HasKeyTable(s: AppState)
  {
    |s.keys| == KEY_MAX
  }

  /** What the running program keeps true; the mode bound keeps m_mode a valid index of
      func_array and G_MODE_NAME. */
  predicate WellFormed(s: AppState)
  {
    HasKeyTable(s) && 0 <= s.mode < MODE_COUNT
  }

  predicate SameHandles(a: AppState, b: AppState)
  {
    a.display == b.display && a.logicTimer == b.logicTimer && a.eventQueue == b.eventQueue &&
    a.inventory == b.inventory && a.doubleBuffer == b.doubleBuffer && a.font == b.font
  }

  /** The record as g_app_zero_initialize_data leaves it. */
  const ZERO_STATE: AppState :=
    AppState(seq(KEY_MAX, _ => false), Null, Null, Null, Null, Null, Null, MODE_DEFAULT, true, false)

  // ---------------------------------------------------------------------------------------
  // Initialisation: a chain of fallible library calls.

  /** The return values of the library calls g_app_initialize makes. */
  datatype Outcomes = Outcomes(
    system: bool,          // al_init
    imageAddon: bool,      // al_init_image_addon
    fontAddon: bool,       // al_init_font_addon
    keyboard: bool,        // al_install_keyboard
    mouse: bool,           // al_install_mouse
    display: Handle,       // al_create_display
    doubleBuffer: Handle,  // al_create_bitmap
    logicTimer: Handle,    // al_create_timer
    eventQueue: Handle,    // al_create_event_queue
    inventory: Handle,     // al_load_bitmap
    font: Handle)          // al_create_builtin_font

  // Positions of the steps in g_app_initialize.
  const KEYBOARD_STEP: nat := 3
  const MOUSE_STEP: nat := 4
  const DISPLAY_STEP: nat := 5
  const DOUBLE_BUFFER_STEP: nat := 6
  const TIMER_STEP: nat := 7
  const QUEUE_STEP: nat := 8
  const INVENTORY_STEP: nat := 9
  const FONT_STEP: nat := 10
  const INIT_STEPS: nat := 11

  /** Whether g_app_initialize gets as far as the step at position `step`: every step before
      it succeeded. */
  predicate Reached(o: Outcomes, step: nat)
  {
    (step <= 0 || o.system) && (step <= 1 || o.imageAddon) && (step <= 2 || o.fontAddon) &&
    (step <= KEYBOARD_STEP || o.keyboard) && (step <= MOUSE_STEP || o.mouse) &&
    (step <= DISPLAY_STEP || o.display.Live?) &&
    (step <= DOUBLE_BUFFER_STEP || o.doubleBuffer.Live?) &&
    (step <= TIMER_STEP || o.logicTimer.Live?) && (step <= QUEUE_STEP || o.eventQueue.Live?) &&
    (step <= INVENTORY_STEP || o.inventory.Live?) && (step <= FONT_STEP || o.font.Live?)
  }

  /** g_app_initialize's return value: 0 when every step succeeds, -1 otherwise. */
  function InitCode(o: Outcomes): (code: int)
    ensures code == 0 || code == -1
    ensures code == 0 <==>
      o.system && o.imageAddon && o.fontAddon && o.keyboard && o.mouse && o.display.Live? &&
      o.doubleBuffer.Live? && o.logicTimer.Live? && o.eventQueue.Live? && o.inventory.Live? &&
      o.font.Live?
  {
    if Reached(o, INIT_STEPS) then 0 else -1
  }

  /** The record after g_app_initialize: each step that runs stores its call's result in its
      handle (NULL when the call fails), and the steps after a failure leave theirs alone. */
  function Initialized(s: AppState, o: Outcomes): (r: AppState)
    ensures r.keys == s.keys && r.mode == s.mode && r.running == s.running &&
            r.updateLogic == s.updateLogic
    ensures !o.system ==> SameHandles(r, s)
    ensures InitCode(o) == 0 ==>
      r.display == o.display && r.doubleBuffer == o.doubleBuffer && r.logicTimer == o.logicTimer &&
      r.eventQueue == o.eventQueue && r.inventory == o.inventory && r.font == o.font
  {
    s.(display := if Reached(o, DISPLAY_STEP) then o.display else s.display,
       doubleBuffer := if Reached(o, DOUBLE_BUFFER_STEP) then o.doubleBuffer else s.doubleBuffer,
       logicTimer := if Reached(o, TIMER_STEP) then o.logicTimer else s.logicTimer,
       eventQueue := if Reached(o, QUEUE_STEP) then o.eventQueue else s.eventQueue,
       inventory := if Reached(o, INVENTORY_STEP) then o.inventory else s.inventory,
       font := if Reached(o, FONT_STEP) then o.font else s.font)
  }

  /** The subsystems g_app_initialize leaves installed: those whose install call succeeded. */
  function InstalledBy(o: Outcomes): set<Subsystem>
  {
    (if Reached(o, 1) then {System} else {}) +
    (if Reached(o, KEYBOARD_STEP + 1) then {Keyboard} else {}) +
    (if Reached(o, MOUSE_STEP + 1) then {Mouse} else {})
  }

  predicate AllHandlesLive(s: AppState)
  {
    s.display.Live? && s.doubleBuffer.Live? && s.logicTimer.Live? && s.eventQueue.Live? &&
    s.inventory.Live? && s.font.Live?
  }

  /** Starting from a zeroed record, initialisation returns 0 exactly when it leaves every
      handle non-null, and then all three subsystems are installed. */
  lemma InitSucceedsIffAllHandlesLive(o: Outcomes)
    ensures InitCode(o) == 0 <==> AllHandlesLive(Initialized(ZERO_STATE, o))
    ensures InitCode(o) == 0 ==> InstalledBy(o) == {System, Keyboard, Mouse}
  {
  }

  /** Initialisation stops at the first failing step, so from a zeroed record the objects it
      creates are always a prefix of the chain: a non-null handle means every earlier handle is
      non-null and every subsystem is installed. */
  lemma InitCreatesAPrefix(o: Outcomes)
    ensures var r := Initialized(ZERO_STATE, o);
      (r.font.Live? ==> r.inventory.Live?) &&
      (r.inventory.Live? ==> r.eventQueue.Live?) &&
      (r.eventQueue.Live? ==> r.logicTimer.Live?) &&
      (r.logicTimer.Live? ==> r.doubleBuffer.Live?) &&
      (r.doubleBuffer.Live? ==> r.display.Live?) &&
      (r.display.Live? ==> InstalledBy(o) == {System, Keyboard, Mouse})
  {
  }

  // ---------------------------------------------------------------------------------------
  // Shutdown.

  /** The library's release log after g_app_shutdown runs on record `s` while `installed` are
      the installed subsystems, starting from `log`: each release call is appended in the order
      the function makes it. */
  function ShutdownLog(log: seq<Call>, s: AppState, installed: set<Subsystem>): seq<Call>
  {
    UninstallAll(ReleaseHandles(log, s), installed)
  }

  /** The first part of g_app_shutdown: the destroy calls for the five handles it releases. */
  function ReleaseHandles(log: seq<Call>, s: AppState): seq<Call>
  {
    var c1 := ReleaseIfLive(log, s.font, FontObject);
    var c2 := ReleaseIfLive(c1, s.inventory, BitmapObject);
    var c3 := ReleaseIfLive(c2, s.eventQueue, EventQueueObject);
    var c4 := ReleaseIfLive(c3, s.logicTimer, TimerObject);
    ReleaseIfLive(c4, s.display, DisplayObject)
  }

  /** Each handle's destroy call is made exactly when the handle is non-null, and nothing else
      is destroyed or uninstalled there. */
  lemma ReleaseHandlesMembers(s: AppState)
    ensures var calls := ReleaseHandles([], s);
      (forall c :: c in calls ==> c.Destroy?) &&
      (forall id :: Destroy(FontObject, id) in calls <==> s.font == Live(id)) &&
      (forall id :: Destroy(BitmapObject, id) in calls <==> s.inventory == Live(id)) &&
      (forall id :: Destroy(EventQueueObject, id) in calls <==> s.eventQueue == Live(id)) &&
      (forall id :: Destroy(TimerObject, id) in calls <==> s.logicTimer == Live(id)) &&
      (forall id :: Destroy(DisplayObject, id) in calls <==> s.display == Live(id))
  {
    var c1 := ReleaseIfLive([], s.font, FontObject);
    var c2 := ReleaseIfLive(c1, s.inventory, BitmapObject);
    var c3 := ReleaseIfLive(c2, s.eventQueue, EventQueueObject);
    var c4 := ReleaseIfLive(c3, s.logicTimer, TimerObject);
    ReleaseIfLiveMembers([], s.font, FontObject);
    ReleaseIfLiveMembers(c1, s.inventory, BitmapObject);
    ReleaseIfLiveMembers(c2, s.eventQueue, EventQueueObject);
    ReleaseIfLiveMembers(c3, s.logicTimer, TimerObject);
    ReleaseIfLiveMembers(c4, s.display, DisplayObject);
  }

  /** The release calls g_app_shutdown makes on record `s` while `installed` are the installed
      subsystems, in the order it makes them. It destroys the font, the inventory bitmap, the
      event queue, the timer and the display when they are non-null, never the double buffer,
      and uninstalls each installed subsystem; it makes no other call. */
  function ShutdownCalls(s: AppState, installed: set<Subsystem>): (calls: seq<Call>)
    ensures forall id :: Destroy(FontObject, id) in calls <==> s.font == Live(id)
    ensures forall id :: Destroy(BitmapObject, id) in calls <==> s.inventory == Live(id)
    ensures forall id :: Destroy(EventQueueObject, id) in calls <==> s.eventQueue == Live(id)
    ensures forall id :: Destroy(TimerObject, id) in calls <==> s.logicTimer == Live(id)
    ensures forall id :: Destroy(DisplayObject, id) in calls <==> s.display == Live(id)
    ensures Uninstall(Mouse) in calls <==> Mouse in installed
    ensures Uninstall(Keyboard) in calls <==> Keyboard in installed
    ensures Uninstall(System) in calls <==> System in installed
  {
    ShutdownCallsMembers(s, installed);
    UninstallAll(ReleaseHandles([], s), installed)
  }

  lemma ShutdownCallsMembers(s: AppState, installed: set<Subsystem>)
    ensures var calls := UninstallAll(ReleaseHandles([], s), installed);
      (forall id :: Destroy(FontObject, id) in calls <==> s.font == Live(id)) &&
      (forall id :: Destroy(BitmapObject, id) in calls <==> s.inventory == Live(id)) &&
      (forall id :: Destroy(EventQueueObject, id) in calls <==> s.eventQueue == Live(id)) &&
      (forall id :: Destroy(TimerObject, id) in calls <==> s.logicTimer == Live(id)) &&
      (forall id :: Destroy(DisplayObject, id) in calls <==> s.display == Live(id)) &&
      (Uninstall(Mouse) in calls <==> Mouse in installed) &&
      (Uninstall(Keyboard) in calls <==> Keyboard in installed) &&
      (Uninstall(System) in calls <==> System in installed)
  {
    var released := ReleaseHandles([], s);
    ReleaseHandlesMembers(s);
    UninstallAllMembers(released, installed);
    assert Uninstall(Mouse) !in released && Uninstall(Keyboard) !in released && Uninstall(System) !in released;
  }

  /** Shutting down appends exactly ShutdownCalls to whatever the library log already held. */
  lemma ShutdownLogAppendsCalls(log: seq<Call>, s: AppState, installed: set<Subsystem>)
    ensures ShutdownLog(log, s, installed) == log + ShutdownCalls(s, installed)
  {
    var c1 := ReleaseIfLive([], s.font, FontObject);
    var c2 := ReleaseIfLive(c1, s.inventory, BitmapObject);
    var c3 := ReleaseIfLive(c2, s.eventQueue, EventQueueObject);
    var c4 := ReleaseIfLive(c3, s.logicTimer, TimerObject);
    var c5 := ReleaseIfLive(c4, s.display, DisplayObject);
    var c6 := UninstallIfInstalled(c5, installed, Mouse);
    var c7 := UninstallIfInstalled(c6, installed, Keyboard);
    var c8 := UninstallIfInstalled(c7, installed, System);
    assert ShutdownCalls(s, installed) == c8;
    ReleaseIfLiveAppends(log, [], s.font, FontObject);
    assert log + [] == log;
    var l1 := ReleaseIfLive(log, s.font, FontObject);
    assert l1 == log + c1;
    ReleaseIfLiveAppends(log, c1, s.inventory, BitmapObject);
    var l2 := ReleaseIfLive(l1, s.inventory, BitmapObject);
    assert l2 == log + c2;
    ReleaseIfLiveAppends(log, c2, s.eventQueue, EventQueueObject);
    var l3 := ReleaseIfLive(l2, s.eventQueue, EventQueueObject);
    assert l3 == log + c3;
    ReleaseIfLiveAppends(log, c3, s.logicTimer, TimerObject);
    var l4 := ReleaseIfLive(l3, s.logicTimer, TimerObject);
    assert l4 == log + c4;
    ReleaseIfLiveAppends(log, c4, s.display, DisplayObject);
    var l5 := ReleaseIfLive(l4, s.display, DisplayObject);
    assert l5 == log + c5;
    UninstallIfInstalledAppends(log, c5, installed, Mouse);
    var l6 := UninstallIfInstalled(l5, installed, Mouse);
    assert l6 == log + c6;
    UninstallIfInstalledAppends(log, c6, installed, Keyboard);
    var l7 := UninstallIfInstalled(l6, installed, Keyboard);
    assert l7 == log + c7;
    UninstallIfInstalledAppends(log, c7, installed, System);
    assert ShutdownLog(log, s, installed) == UninstallIfInstalled(l7, installed, System);
  }

  /** g_app_shutdown's calls come in the fixed order font, inventory, event queue, timer,
      display, mouse, keyboard, system, with no call twice. */
  lemma ShutdownCallsInReleaseOrder(s: AppState, installed: set<Subsystem>)
    ensures InReleaseOrder(ShutdownCalls(s, installed))
  {
    var c1 := ReleaseIfLive([], s.font, FontObject);
    var c2 := ReleaseIfLive(c1, s.inventory, BitmapObject);
    var c3 := ReleaseIfLive(c2, s.eventQueue, EventQueueObject);
    var c4 := ReleaseIfLive(c3, s.logicTimer, TimerObject);
    var c5 := ReleaseIfLive(c4, s.display, DisplayObject);
    var c6 := UninstallIfInstalled(c5, installed, Mouse);
    var c7 := UninstallIfInstalled(c6, installed, Keyboard);
    ReleaseIfLiveKeepsOrder([], s.font, FontObject);
    ReleaseIfLiveKeepsOrder(c1, s.inventory, BitmapObject);
    ReleaseIfLiveKeepsOrder(c2, s.eventQueue, EventQueueObject);
    ReleaseIfLiveKeepsOrder(c3, s.logicTimer, TimerObject);
    ReleaseIfLiveKeepsOrder(c4, s.display, DisplayObject);
    UninstallIfInstalledKeepsOrder(c5, installed, Mouse);
    UninstallIfInstalledKeepsOrder(c6, installed, Keyboard);
    UninstallIfInstalledKeepsOrder(c7, installed, System);
  }

  /** The record after g_app_shutdown: every handle it releases is NULL; m_double_buffer is
      not released and keeps its value. */
  function Released(s: AppState): (r: AppState)
    ensures r.font == Null && r.inventory == Null && r.eventQueue == Null &&
            r.logicTimer == Null && r.display == Null
    ensures r.doubleBuffer == s.doubleBuffer
    ensures r.keys == s.keys && r.mode == s.mode && r.running == s.running &&
            r.updateLogic == s.updateLogic
  {
    s.(font := Null, inventory := Null, eventQueue := Null, logicTimer := Null, display := Null)
  }

  /** A second shutdown releases nothing and changes nothing. */
  lemma ShutdownIsIdempotent(s: AppState, installed: set<Subsystem>)
    ensures Released(Released(s)) == Released(s)
    ensures ShutdownCalls(Released(s), installed - {System, Keyboard, Mouse}) == []
  {
  }

  /** The double buffer survives shutdown: its handle is kept and, unless it is the same
      object as the inventory, no call destroys it. */
  lemma ShutdownLeavesDoubleBuffer(s: AppState, installed: set<Subsystem>)
    ensures Released(s).doubleBuffer == s.doubleBuffer
    ensures s.doubleBuffer.Live? && s.doubleBuffer != s.inventory ==>
      Destroy(BitmapObject, s.doubleBuffer.id) !in ShutdownCalls(s, installed)
  {
  }

  /** Shutting down after an initialisation that stopped anywhere destroys exactly the objects
      that were created, except the double buffer. */
  lemma ShutdownAfterInitReleasesCreated(o: Outcomes, installed: set<Subsystem>)
    ensures var calls := ShutdownCalls(Initialized(ZERO_STATE, o), installed);
      (forall id :: Destroy(DisplayObject, id) in calls <==> Reached(o, DISPLAY_STEP) && o.display == Live(id)) &&
      (forall id :: Destroy(TimerObject, id) in calls <==> Reached(o, TIMER_STEP) && o.logicTimer == Live(id)) &&
      (forall id :: Destroy(EventQueueObject, id) in calls <==> Reached(o, QUEUE_STEP) && o.eventQueue == Live(id)) &&
      (forall id :: Destroy(BitmapObject, id) in calls <==> Reached(o, INVENTORY_STEP) && o.inventory == Live(id)) &&
      (forall id :: Destroy(FontObject, id) in calls <==> Reached(o, FONT_STEP) && o.font == Live(id))
  {
  }

  // ---------------------------------------------------------------------------------------
  // Input: draining the event queue.

  /** The cases of g_app_input's switch; every other event type takes `default: return`. */
  predicate Handled(e: Event)
  {
    e.Timer? || e.KeyUp? || e.KeyDown? || e.DisplayResize? || e.DisplayClose?
  }

  /** The effect of one event on the record. A resize is only acknowledged to the library. */
  function Dispatch(s: AppState, e: Event): (r: AppState)
    requires HasKeyTable(s)
    ensures HasKeyTable(r) && SameHandles(r, s) && r.mode == s.mode
    ensures r.updateLogic == (s.updateLogic || e.Timer?)
    ensures r.running == (s.running && !e.DisplayClose?)
    ensures forall k: KeyCode :: r.keys[k] == KeyState([e], k, s.keys[k])
  {
    match e
    case Timer => s.(updateLogic := true)
    case KeyUp(k) => s.(keys := s.keys[k := false])
    case KeyDown(k) => s.(keys := s.keys[k := true])
    case DisplayClose => s.(running := false)
    case _ => s
  }

  /** The record after draining and the events still in the queue. */
  datatype Drained = Drained(state: AppState, rest: seq<Event>)

  /** g_app_input: events are taken from the front of the queue and dispatched until the queue
      is empty or an unhandled event is taken, which ends the drain. */
  function Drain(s: AppState, queue: seq<Event>): (r: Drained)
    requires HasKeyTable(s)
    ensures HasKeyTable(r.state)
    ensures |r.rest| <= |queue|
    ensures queue != [] ==> |r.rest| < |queue|
    ensures SameHandles(r.state, s) && r.state.mode == s.mode
    decreases |queue|
  {
    if queue == [] then Drained(s, [])
    else if !Handled(queue[0]) then Drained(s, queue[1..])
    else Drain(Dispatch(s, queue[0]), queue[1..])
  }

  /** The events a drain leaves queued are exactly the tail of the queue behind the ones it
      took. */
  lemma {:induction false} DrainLeavesSuffix(s: AppState, queue: seq<Event>)
    requires HasKeyTable(s)
    ensures var r := Drain(s, queue);
      r.rest == queue[|queue| - |r.rest|..]
    decreases |queue|
  {
    if queue != [] && Handled(queue[0]) {
      var r := Drain(s, queue);
      DrainLeavesSuffix(Dispatch(s, queue[0]), queue[1..]);
      assert queue[1..][|queue| - 1 - |r.rest|..] == queue[|queue| - |r.rest|..];
    }
  }

  /** After a handled first event, what is consumed is that event and what the rest of the
      drain consumes. */
  lemma ConsumedCons(s: AppState, queue: seq<Event>)
    requires HasKeyTable(s) && queue != [] && Handled(queue[0])
    ensures var r := Drain(s, queue);
      Consumed(queue, r.rest) == [queue[0]] + Consumed(queue[1..], r.rest)
  {
    var r := Drain(s, queue);
    assert Consumed(queue, r.rest) == [queue[0]] + queue[1..][..|queue| - 1 - |r.rest|];
  }

  /** Early stop: the first unhandled event is consumed and everything behind it stays queued. */
  lemma {:induction false} DrainStopsAtFirstUnhandled(s: AppState, queue: seq<Event>, i: nat)
    requires HasKeyTable(s)
    requires i < |queue| && !Handled(queue[i])
    requires forall j :: 0 <= j < i ==> Handled(queue[j])
    ensures Drain(s, queue).rest == queue[i + 1..]
    decreases i
  {
    if i > 0 {
      DrainStopsAtFirstUnhandled(Dispatch(s, queue[0]), queue[1..], i - 1);
      assert queue[1..][i..] == queue[i + 1..];
    }
  }

  /** A queue of handled events only is drained completely. */
  lemma {:induction false} DrainEmptiesHandledQueue(s: AppState, queue: seq<Event>)
    requires HasKeyTable(s)
    requires forall j :: 0 <= j < |queue| ==> Handled(queue[j])
    ensures Drain(s, queue).rest == []
    decreases |queue|
  {
    if queue != [] {
      DrainEmptiesHandledQueue(Dispatch(s, queue[0]), queue[1..]);
    }
  }

  /** A drain leaves a tick due exactly when one was due before or it consumed a timer event. */
  lemma {:induction false} DrainSetsUpdateLogic(s: AppState, queue: seq<Event>)
    requires HasKeyTable(s)
    ensures var r := Drain(s, queue);
      r.state.updateLogic == (s.updateLogic || Timer in Consumed(queue, r.rest))
    decreases |queue|
  {
    if queue != [] {
      var r := Drain(s, queue);
      if Handled(queue[0]) {
        DrainSetsUpdateLogic(Dispatch(s, queue[0]), queue[1..]);
        ConsumedCons(s, queue);
      } else {
        assert Consumed(queue, r.rest) == [queue[0]];
      }
    }
  }

  /** A drain leaves the program running exactly when it was running and no display-close
      event was consumed; in particular it never sets `running` back to true. */
  lemma {:induction false} DrainStopsRunning(s: AppState, queue: seq<Event>)
    requires HasKeyTable(s)
    ensures var r := Drain(s, queue);
      r.state.running == (s.running && DisplayClose !in Consumed(queue, r.rest))
    decreases |queue|
  {
    if queue != [] {
      var r := Drain(s, queue);
      if Handled(queue[0]) {
        DrainStopsRunning(Dispatch(s, queue[0]), queue[1..]);
        ConsumedCons(s, queue);
      } else {
        assert Consumed(queue, r.rest) == [queue[0]];
      }
    }
  }

  /** Whether key `k` is held after `events`, given whether it was held before: the last
      KEY_DOWN or KEY_UP event for `k` decides, and without one nothing changes. */
  function KeyState(events: seq<Event>, k: KeyCode, held: bool): bool
    decreases |events|
  {
    if events == [] then held
    else
      var last := events[|events| - 1];
      if last == KeyDown(k) then true
      else if last == KeyUp(k) then false
      else KeyState(events[..|events| - 1], k, held)
  }

  lemma {:induction false} KeyStateAppend(a: seq<Event>, b: seq<Event>, k: KeyCode, held: bool)
    ensures KeyState(a + b, k, held) == KeyState(b, k, KeyState(a, k, held))
    decreases |b|
  {
    if b == [] {
      assert a + b == a;
    } else {
      assert (a + b)[|a + b| - 1] == b[|b| - 1];
      assert (a + b)[..|a + b| - 1] == a + b[..|b| - 1];
      KeyStateAppend(a, b[..|b| - 1], k, held);
    }
  }

  /** A key with no KEY_DOWN or KEY_UP event keeps its state. */
  lemma {:induction false} KeyStateUntouched(events: seq<Event>, k: KeyCode, held: bool)
    requires KeyDown(k) !in events && KeyUp(k) !in events
    ensures KeyState(events, k, held) == held
    decreases |events|
  {
    if events != [] {
      var init := events[..|events| - 1];
      assert forall e :: e in init ==> e in events;
      KeyStateUntouched(init, k, held);
    }
  }

  /** After a drain each key is in the state its last consumed KEY_DOWN or KEY_UP event set, and
      a key without such an event is unchanged. */
  lemma {:induction false} DrainUpdatesKeys(s: AppState, queue: seq<Event>)
    requires HasKeyTable(s)
    ensures var r := Drain(s, queue);
      forall k: KeyCode :: r.state.keys[k] == KeyState(Consumed(queue, r.rest), k, s.keys[k])
    decreases |queue|
  {
    var r := Drain(s, queue);
    if queue == [] {
      forall k: KeyCode ensures r.state.keys[k] == KeyState(Consumed(queue, r.rest), k, s.keys[k]) {
        assert Consumed(queue, r.rest) == [];
      }
    } else if Handled(queue[0]) {
      var e, t := queue[0], Dispatch(s, queue[0]);
      DrainUpdatesKeys(t, queue[1..]);
      ConsumedCons(s, queue);
      var c := Consumed(queue[1..], r.rest);
      forall k: KeyCode ensures r.state.keys[k] == KeyState(Consumed(queue, r.rest), k, s.keys[k]) {
        assert [e][..0] == [];
        assert t.keys[k] == KeyState([e], k, s.keys[k]);
        KeyStateAppend([e], c, k, s.keys[k]);
      }
    } else {
      var e := queue[0];
      assert Consumed(queue, r.rest) == [e];
      forall k: KeyCode ensures r.state.keys[k] == KeyState(Consumed(queue, r.rest), k, s.keys[k]) {
        assert [e][..0] == [];
      }
    }
  }

  // ---------------------------------------------------------------------------------------
  // Logic and the main loop.

  /** g_app_logic: Escape stops the program, and of keys 1, 2 and 3 the highest one held
      selects the mode, since the last of the three checks wins. */
  function LogicStep(s: AppState): (r: AppState)
    requires HasKeyTable(s)
    ensures r.running ==> s.running
    ensures s.keys[KEY_ESCAPE] ==> !r.running
    ensures 0 <= s.mode < MODE_COUNT ==> 0 <= r.mode < MODE_COUNT
    ensures r.keys == s.keys && r.updateLogic == s.updateLogic && SameHandles(r, s)
  {
    s.(running := s.running && !s.keys[KEY_ESCAPE],
       mode := if s.keys[KEY_3] then MODE_TRANSFORM
               else if s.keys[KEY_2] then MODE_DOUBLE_BUFFER
               else if s.keys[KEY_1] then MODE_DEFAULT
               else s.mode)
  }

  /** g_app_draw's choice of routine and mode name: both arrays are indexed by the same mode, so
      each mode draws its own routine and shows its own name. */
  function Draw(s: AppState): (f: Frame)
    requires 0 <= s.mode < MODE_COUNT
    ensures s.mode == MODE_DEFAULT <==> f.routine == DrawInventory
    ensures s.mode == MODE_DOUBLE_BUFFER <==> f.routine == DrawModeDoubleBuffer
    ensures s.mode == MODE_TRANSFORM <==> f.routine == DrawModeTransform
  {
    Frame(FUNC_ARRAY[s.mode], MODE_NAME[s.mode])
  }

  /** The routine drawn and the name shown always belong to the same mode. */
  lemma DrawPairsRoutineWithName(s: AppState)
    requires 0 <= s.mode < MODE_COUNT
    ensures var f := Draw(s);
      (f.routine == DrawInventory <==> f.modeName == "Default") &&
      (f.routine == DrawModeDoubleBuffer <==> f.modeName == "Double Buffer") &&
      (f.routine == DrawModeTransform <==> f.modeName == "Transform")
  {
  }

  /** The record after one pass of g_app_loop's body, the events left queued, and whether the
      logic step ran. */
  datatype Step = Step(state: AppState, pending: seq<Event>, ranLogic: bool)

  /** One pass of g_app_loop's body up to drawing: drain the queue, then, if a tick is due,
      clear the flag and run the logic step once, however many ticks were drained. */
  function Iterate(s: AppState, queue: seq<Event>): (r: Step)
    requires WellFormed(s)
    ensures WellFormed(r.state) && !r.state.updateLogic
    ensures |r.pending| <= |queue|
    ensures r.ranLogic == (s.updateLogic || Timer in Consumed(queue, r.pending))
    ensures r.state.running ==> s.running
    ensures SameHandles(r.state, s)
  {
    var d := Drain(s, queue);
    DrainSetsUpdateLogic(s, queue);
    DrainStopsRunning(s, queue);
    if d.state.updateLogic then Step(LogicStep(d.state.(updateLogic := false)), d.rest, true)
    else Step(d.state, d.rest, false)
  }

  /** The outcome of g_app_loop: final record, events still queued, passes made, logic steps
      run, and the frames drawn, one per pass. */
  datatype Run = Run(state: AppState, pending: seq<Event>, iterations: nat, logicSteps: nat,
                     frames: seq<Frame>)

  /** g_app_loop, where `arrivals[i]` are the events that reach the queue before pass i: passes
      continue while `running` holds, for as many passes as `arrivals` describes. */
  function RunLoop(s: AppState, pending: seq<Event>, arrivals: seq<seq<Event>>): (r: Run)
    requires WellFormed(s)
    ensures r.iterations <= |arrivals| && |r.frames| == r.iterations
    decreases |arrivals|
  {
    if !s.running || arrivals == [] then Run(s, pending, 0, 0, [])
    else
      var step := Iterate(s, pending + arrivals[0]);
      var r := RunLoop(step.state, step.pending, arrivals[1..]);
      r.(iterations := r.iterations + 1,
         logicSteps := r.logicSteps + (if step.ranLogic then 1 else 0),
         frames := [Draw(step.state)] + r.frames)
  }

  /** A run `r` preceded by `iterations` passes that ran the logic `logicSteps` times and drew
      `frames`. */
  function After(iterations: nat, logicSteps: nat, frames: seq<Frame>, r: Run): Run
  {
    Run(r.state, r.pending, iterations + r.iterations, logicSteps + r.logicSteps, frames + r.frames)
  }

  /** Moving pass `i` of a run from the passes still to come to the passes already made. */
  lemma LoopStep(s: AppState, pending: seq<Event>, arrivals: seq<seq<Event>>, i: nat,
                 logicSteps: nat, frames: seq<Frame>, run: Run)
    requires WellFormed(s) && s.running && i < |arrivals|
    requires run == After(i, logicSteps, frames, RunLoop(s, pending, arrivals[i..]))
    ensures var step := Iterate(s, pending + arrivals[i]);
      run == After(i + 1, logicSteps + (if step.ranLogic then 1 else 0), frames + [Draw(step.state)],
                   RunLoop(step.state, step.pending, arrivals[i + 1..]))
  {
    var tail := arrivals[i..];
    assert tail[0] == arrivals[i] && tail[1..] == arrivals[i + 1..];
    var step := Iterate(s, pending + arrivals[i]);
    var next := RunLoop(step.state, step.pending, arrivals[i + 1..]);
    var f := Draw(step.state);
    assert RunLoop(s, pending, tail) ==
      next.(iterations := next.iterations + 1,
            logicSteps := next.logicSteps + (if step.ranLogic then 1 else 0),
            frames := [f] + next.frames);
    assert frames + ([f] + next.frames) == (frames + [f]) + next.frames;
  }

  /** No pass is made once `running` is false or the described passes have run out. */
  lemma RunLoopStopped(s: AppState, pending: seq<Event>, arrivals: seq<seq<Event>>, i: nat)
    requires WellFormed(s) && i <= |arrivals| && (!s.running || i == |arrivals|)
    ensures RunLoop(s, pending, arrivals[i..]) == Run(s, pending, 0, 0, [])
  {
  }

  /** The loop stops exactly when `running` is false: it makes no pass once it is false, and it
      stops before the described passes run out only because it became false. It never sets
      `running` back to true. */
  lemma {:induction false} RunLoopExitsExactlyWhenStopped(s: AppState, pending: seq<Event>,
                                                         arrivals: seq<seq<Event>>)
    requires WellFormed(s)
    ensures var r := RunLoop(s, pending, arrivals);
      (r.iterations < |arrivals| ==> !r.state.running) &&
      (!s.running ==> r.iterations == 0 && r.state == s) &&
      (r.state.running ==> s.running)
    decreases |arrivals|
  {
    if s.running && arrivals != [] {
      var step := Iterate(s, pending + arrivals[0]);
      RunLoopExitsExactlyWhenStopped(step.state, step.pending, arrivals[1..]);
    }
  }

  /** The logic step runs at most once per pass. */
  lemma {:induction false} RunLoopLogicAtMostOncePerPass(s: AppState, pending: seq<Event>,
                                                        arrivals: seq<seq<Event>>)
    requires WellFormed(s)
    ensures var r := RunLoop(s, pending, arrivals);
      r.logicSteps <= r.iterations
    decreases |arrivals|
  {
    if s.running && arrivals != [] {
      var step := Iterate(s, pending + arrivals[0]);
      RunLoopLogicAtMostOncePerPass(step.state, step.pending, arrivals[1..]);
    }
  }

  /** The loop keeps the mode a valid index and the handles unchanged, and after any pass no
      tick is left due. */
  lemma {:induction false} RunLoopKeepsInvariant(s: AppState, pending: seq<Event>,
                                                arrivals: seq<seq<Event>>)
    requires WellFormed(s)
    ensures var r := RunLoop(s, pending, arrivals);
      WellFormed(r.state) && SameHandles(r.state, s) &&
      (r.iterations > 0 ==> !r.state.updateLogic)
    decreases |arrivals|
  {
    if s.running && arrivals != [] {
      var step := Iterate(s, pending + arrivals[0]);
      RunLoopKeepsInvariant(step.state, step.pending, arrivals[1..]);
    }
  }

  // ---------------------------------------------------------------------------------------
  // The record itself and the program's functions over it.

  /** A g_app_data_t record; `key` is m_key. */
  class AppData {
    const key: array<bool>
    var display: Handle
    var logicTimer: Handle
    var eventQueue: Handle
    var inventory: Handle
    var doubleBuffer: Handle
    var font: Handle
    var mode: int
    var isRunning: bool
    var updateLogic: bool

    /** The storage of `g_app_data_t data;` in main, before anything is stored in it. */
    constructor ()
      ensures key.Length == KEY_MAX && fresh(key)
    {
      key := new bool[KEY_MAX];
    }

    function State(): AppState
      reads this, key
    {
      AppState(key[..], display, logicTimer, eventQueue, inventory, doubleBuffer, font,
               mode, isRunning, updateLogic)
    }

    predicate Valid()
      reads this
    {
      key.Length == KEY_MAX && 0 <= mode < MODE_COUNT
    }

    /** g_app_zero_initialize_data: every key released, every handle NULL, the default mode,
        running, and no tick due. */
    method ZeroInitialize()
      requires key.Length == KEY_MAX
      modifies this, key
      ensures Valid() && State() == ZERO_STATE
      ensures forall k :: 0 <= k < key.Length ==> !key[k]
    {
      for i := 0 to key.Length
        invariant forall j :: 0 <= j < i ==> !key[j]
      {
        key[i] := false;
      }
      display := Null;
      logicTimer := Null;
      eventQueue := Null;
      inventory := Null;
      doubleBuffer := Null;
      font := Null;
      mode := MODE_DEFAULT;
      isRunning := true;
      updateLogic := false;
      assert key[..] == seq(KEY_MAX, _ => false);
    }

    /** g_app_initialize, given what each library call returns. */
    method Initialize(lib: Library, o: Outcomes) returns (code: int)
      modifies this`display, this`doubleBuffer, this`logicTimer, this`eventQueue,
               this`inventory, this`font, lib`installed
      ensures State() == Initialized(old(State()), o)
      ensures lib.installed == old(lib.installed) + InstalledBy(o)
      ensures code == InitCode(o)
    {
      var ok := lib.Install(System, o.system);
      if !ok { return -1; }
      if !o.imageAddon { return -1; }
      if !o.fontAddon { return -1; }
      ok := lib.Install(Keyboard, o.keyboard);
      if !ok { return -1; }
      ok := lib.Install(Mouse, o.mouse);
      if !ok { return -1; }
      display := o.display;
      if display == Null { return -1; }
      doubleBuffer := o.doubleBuffer;
      if doubleBuffer == Null { return -1; }
      logicTimer := o.logicTimer;
      if logicTimer == Null { return -1; }
      eventQueue := o.eventQueue;
      if eventQueue == Null { return -1; }
      inventory := o.inventory;
      if inventory == Null { return -1; }
      font := o.font;
      if font == Null { return -1; }
      return 0;
    }

    /** g_app_shutdown. */
    method Shutdown(lib: Library)
      modifies this`font, this`inventory, this`eventQueue, this`logicTimer, this`display, lib
      ensures State() == Released(old(State()))
      ensures lib.log == old(lib.log) + ShutdownCalls(old(State()), old(lib.installed))
      ensures lib.installed == old(lib.installed) - {System, Keyboard, Mouse}
    {
      ghost var s0, installed0 := State(), lib.installed;
      font := DestroyIfLive(lib, font, FontObject);
      inventory := DestroyIfLive(lib, inventory, BitmapObject);
      eventQueue := DestroyIfLive(lib, eventQueue, EventQueueObject);
      logicTimer := DestroyIfLive(lib, logicTimer, TimerObject);
      display := DestroyIfLive(lib, display, DisplayObject);
      assert key[..] == s0.keys;
      assert State() == Released(s0);
      UninstallSubsystems(lib);
      ShutdownLogAppendsCalls(old(lib.log), s0, installed0);
    }

    /** g_app_input: drains `queue` and returns the events it leaves there. */
    method Input(queue: seq<Event>) returns (rest: seq<Event>)
      requires Valid()
      modifies this`isRunning, this`updateLogic, key
      ensures Valid()
      ensures State() == Drain(old(State()), queue).state
      ensures rest == Drain(old(State()), queue).rest
    {
      rest := queue;
      while rest != []
        invariant Valid()
        invariant Drain(State(), rest) == Drain(old(State()), queue)
        decreases |rest|
      {
        var event := rest[0];
        rest := rest[1..];
        match event {
          case Timer => updateLogic := true;
          case KeyUp(k) => key[k] := false;
          case KeyDown(k) => key[k] := true;
          case DisplayResize =>
          case DisplayClose => isRunning := false;
          case _ => return;
        }
      }
    }

    /** g_app_logic. */
    method Logic()
      requires Valid()
      modifies this`isRunning, this`mode
      ensures Valid()
      ensures State() == LogicStep(old(State()))
    {
      if key[KEY_ESCAPE] {
        isRunning := false;
      }
      if key[KEY_1] {
        mode := MODE_DEFAULT;
      }
      if key[KEY_2] {
        mode := MODE_DOUBLE_BUFFER;
      }
      if key[KEY_3] {
        mode := MODE_TRANSFORM;
      }
    }

    /** One pass of g_app_loop's body before drawing: g_app_input, then, if a tick is due,
        clear the flag and call g_app_logic once. */
    method Pass(queue: seq<Event>) returns (rest: seq<Event>, ranLogic: bool)
      requires Valid()
      modifies this`isRunning, this`updateLogic, this`mode, key
      ensures Valid()
      ensures var step := Iterate(old(State()), queue);
        State() == step.state && rest == step.pending && ranLogic == step.ranLogic
    {
      rest := Input(queue);
      ranLogic := updateLogic;
      if updateLogic {
        updateLogic := false;
        Logic();
      }
    }

    /** g_app_loop, where `arrivals[i]` are the events that reach the queue before pass i. */
    method Loop(arrivals: seq<seq<Event>>)
      returns (pending: seq<Event>, iterations: nat, logicSteps: nat, frames: seq<Frame>)
      requires Valid()
      modifies this`isRunning, this`updateLogic, this`mode, key
      ensures Valid()
      ensures var r := RunLoop(old(State()), [], arrivals);
        State() == r.state && pending == r.pending && iterations == r.iterations &&
        logicSteps == r.logicSteps && frames == r.frames
    {
      pending, iterations, logicSteps, frames := [], 0, 0, [];
      ghost var run := RunLoop(State(), [], arrivals);
      while isRunning && iterations < |arrivals|
        invariant Valid() && iterations <= |arrivals|
        invariant run == After(iterations, logicSteps, frames,
                               RunLoop(State(), pending, arrivals[iterations..]))
        decreases |arrivals| - iterations
      {
        LoopStep(State(), pending, arrivals, iterations, logicSteps, frames, run);
        var ranLogic;
        pending, ranLogic := Pass(pending + arrivals[iterations]);
        if ranLogic {
          logicSteps := logicSteps + 1;
        }
        frames := frames + [Draw(State())];
        iterations := iterations + 1;
      }
      RunLoopStopped(State(), pending, arrivals, iterations);
    }
  }

  /** main: zero the record, initialise, run the loop only if initialisation returned 0, and
      shut down in every case. Returns what the process exits with and the frames drawn. */
  method Program(lib: Library, o: Outcomes, arrivals: seq<seq<Event>>)
    returns (exitCode: int, frames: seq<Frame>)
    modifies lib
    ensures exitCode == 0
    ensures frames == if InitCode(o) == 0 then RunLoop(Initialized(ZERO_STATE, o), [], arrivals).frames
                      else []
    ensures lib.log == old(lib.log) +
      ShutdownCalls(Initialized(ZERO_STATE, o), old(lib.installed) + InstalledBy(o))
    ensures lib.installed == {}
  {
    var data := new AppData();
    data.ZeroInitialize();
    var code := data.Initialize(lib, o);
    ghost var initialized, installed := data.State(), lib.installed;
    frames := [];
    if code == 0 {
      var pending, iterations, logicSteps;
      pending, iterations, logicSteps, frames := data.Loop(arrivals);
      RunLoopKeepsInvariant(initialized, [], arrivals);
    }
    ghost var looped := data.State();
    assert SameHandles(looped, initialized);
    assert ShutdownCalls(looped, installed) == ShutdownCalls(initialized, installed);
    data.Shutdown(lib);
    NothingLeftInstalled(old(lib.installed) + InstalledBy(o));
    exitCode := 0;
  }
}
