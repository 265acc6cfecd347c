/** The application state machine of Framework/src/g_app.c: the skeleton the examples start
    from, with one global g_app_data_t record, an empty logic step and a draw that only clears
    the screen.

    The record's value is `AppState`; the functions over it (Drain, Iterate, RunLoop,
    Initialized, Released, ShutdownCalls) are the specification. The class `AppData` is the
    global record itself, and its methods are the program's functions, proved against that
    specification. */
module Framework {
  import opened Allegro

  /** The value of a g_app_data_t record. */
  datatype AppState = AppState(
    display: Handle,
    logicTimer: Handle,
    eventQueue: Handle,
    running: bool,
    updateLogic: bool)

  predicate SameHandles(a: AppState, b: AppState)
  {
    a.display == b.display && a.logicTimer == b.logicTimer && a.eventQueue == b.eventQueue
  }

  /** `static g_app_data_t g_data;` before main runs: static storage is zero, so every handle
      is NULL and both flags are false. */
  const STATIC_STATE: AppState := AppState(Null, Null, Null, false, false)

  /** The record as g_app_zero_initialize_data leaves it: running, no tick due. */
  const ZERO_STATE: AppState := AppState(Null, Null, Null, true, false)

  // ---------------------------------------------------------------------------------------
  // Initialisation: a chain of fallible library calls.

  /** The return values of the library calls g_app_initialize makes. */
  datatype Outcomes = Outcomes(
    system: bool,          // al_init
    keyboard: bool,        // al_install_keyboard
    mouse: bool,           // al_install_mouse
    display: Handle,       // al_create_display
    logicTimer: Handle,    // al_create_timer
    eventQueue: Handle)    // al_create_event_queue

  // Positions of the steps in g_app_initialize.
  const KEYBOARD_STEP: nat := 1
  const MOUSE_STEP: nat := 2
  const DISPLAY_STEP: nat := 3
  const TIMER_STEP: nat := 4
  const QUEUE_STEP: nat := 5
  const INIT_STEPS: nat := 6

  /** Whether g_app_initialize gets as far as the step at position `step`: every step before
      it succeeded. */
  predicate Reached(o: Outcomes, step: nat)
  {
    (step <= 0 || o.system) && (step <= KEYBOARD_STEP || o.keyboard) &&
    (step <= MOUSE_STEP || o.mouse) && (step <= DISPLAY_STEP || o.display.Live?) &&
    (step <= TIMER_STEP || o.logicTimer.Live?) && (step <= QUEUE_STEP || o.eventQueue.Live?)
  }

  /** g_app_initialize's return value: 0 when every step succeeds, -1 otherwise. */
  function InitCode(o: Outcomes): (code: int)
    ensures code == 0 || code == -1
    ensures code == 0 <==>
      o.system && o.keyboard && o.mouse && o.display.Live? && o.logicTimer.Live? &&
      o.eventQueue.Live?
  {
    if Reached(o, INIT_STEPS) then 0 else -1
  }

  /** The record after g_app_initialize, which zeroes it first: each step that runs stores its
      call's result in its handle (NULL when the call fails), and the steps after a failure
      leave theirs NULL. */
  function Initialized(o: Outcomes): (r: AppState)
    ensures r.running && !r.updateLogic
    ensures !o.system ==> SameHandles(r, ZERO_STATE)
    ensures InitCode(o) == 0 ==>
      r.display == o.display && r.logicTimer == o.logicTimer && r.eventQueue == o.eventQueue
  {
    ZERO_STATE.(
      display := if Reached(o, DISPLAY_STEP) then o.display else Null,
      logicTimer := if Reached(o, TIMER_STEP) then o.logicTimer else Null,
      eventQueue := if Reached(o, QUEUE_STEP) then o.eventQueue else Null)
  }

  /** The subsystems g_app_initialize leaves installed: those whose install call succeeded. */
  function InstalledBy(o: Outcomes): set<Subsystem>
  {
    (if Reached(o, 1) then {System} else {}) +
    (if Reached(o, KEYBOARD_STEP + 1) then {Keyboard} else {}) +
    (if Reached(o, MOUSE_STEP + 1) then {Mouse} else {})
  }

  predicate AllHandlesLive(s: AppState)
  {
    s.display.Live? && s.logicTimer.Live? && s.eventQueue.Live?
  }

  /** Initialisation returns 0 exactly when it leaves every handle non-null, and then all three
      subsystems are installed. */
  lemma InitSucceedsIffAllHandlesLive(o: Outcomes)
    ensures InitCode(o) == 0 <==> AllHandlesLive(Initialized(o))
    ensures InitCode(o) == 0 ==> InstalledBy(o) == {System, Keyboard, Mouse}
  {
  }

  /** Initialisation stops at the first failing step, so the objects it creates are always a
      prefix of the chain: a non-null handle means every earlier handle is non-null and every
      subsystem is installed; whatever happens, the program is left running. */
  lemma InitCreatesAPrefix(o: Outcomes)
    ensures var r := Initialized(o);
      (r.eventQueue.Live? ==> r.logicTimer.Live?) &&
      (r.logicTimer.Live? ==> r.display.Live?) &&
      (r.display.Live? ==> InstalledBy(o) == {System, Keyboard, Mouse}) &&
      r.running && !r.updateLogic
  {
  }

  // ---------------------------------------------------------------------------------------
  // Shutdown.

  /** The library's release log after g_app_shutdown runs on record `s` while `installed` are
      the installed subsystems, starting from `log`. */
  function ShutdownLog(log: seq<Call>, s: AppState, installed: set<Subsystem>): seq<Call>
  {
    UninstallAll(ReleaseHandles(log, s), installed)
  }

  /** The first part of g_app_shutdown: the destroy calls for the three handles. */
  function ReleaseHandles(log: seq<Call>, s: AppState): seq<Call>
  {
    var c1 := ReleaseIfLive(log, s.eventQueue, EventQueueObject);
    var c2 := ReleaseIfLive(c1, s.logicTimer, TimerObject);
    ReleaseIfLive(c2, s.display, DisplayObject)
  }

  /** Each handle's destroy call is made exactly when the handle is non-null, and nothing else
      is destroyed or uninstalled there. */
  lemma ReleaseHandlesMembers(s: AppState)
    ensures var calls := ReleaseHandles([], s);
      (forall c :: c in calls ==> c.Destroy?) &&
      (forall id :: Destroy(EventQueueObject, id) in calls <==> s.eventQueue == Live(id)) &&
      (forall id :: Destroy(TimerObject, id) in calls <==> s.logicTimer == Live(id)) &&
      (forall id :: Destroy(DisplayObject, id) in calls <==> s.display == Live(id)) &&
      (forall id :: Destroy(FontObject, id) !in calls) &&
      (forall id :: Destroy(BitmapObject, id) !in calls)
  {
    var c1 := ReleaseIfLive([], s.eventQueue, EventQueueObject);
    var c2 := ReleaseIfLive(c1, s.logicTimer, TimerObject);
    ReleaseIfLiveMembers([], s.eventQueue, EventQueueObject);
    ReleaseIfLiveMembers(c1, s.logicTimer, TimerObject);
    ReleaseIfLiveMembers(c2, s.display, DisplayObject);
  }

  /** The release calls g_app_shutdown makes on record `s` while `installed` are the installed
      subsystems, in the order it makes them. */
  function ShutdownCalls(s: AppState, installed: set<Subsystem>): (calls: seq<Call>)
    ensures forall id :: Destroy(EventQueueObject, id) in calls <==> s.eventQueue == Live(id)
    ensures forall id :: Destroy(TimerObject, id) in calls <==> s.logicTimer == Live(id)
    ensures forall id :: Destroy(DisplayObject, id) in calls <==> s.display == Live(id)
    ensures forall x :: Uninstall(x) in calls <==> x in installed
  {
    ShutdownCallsMembers(s, installed);
    UninstallAll(ReleaseHandles([], s), installed)
  }

  /** g_app_shutdown destroys the event queue, the timer and the display when they are
      non-null, uninstalls each installed subsystem, and makes no other call. */
  lemma ShutdownCallsMembers(s: AppState, installed: set<Subsystem>)
    ensures var calls := UninstallAll(ReleaseHandles([], s), installed);
      (forall id :: Destroy(EventQueueObject, id) in calls <==> s.eventQueue == Live(id)) &&
      (forall id :: Destroy(TimerObject, id) in calls <==> s.logicTimer == Live(id)) &&
      (forall id :: Destroy(DisplayObject, id) in calls <==> s.display == Live(id)) &&
      (forall id :: Destroy(FontObject, id) !in calls) &&
      (forall id :: Destroy(BitmapObject, id) !in calls) &&
      (forall x :: Uninstall(x) in calls <==> x in installed)
  {
    var released := ReleaseHandles([], s);
    ReleaseHandlesMembers(s);
    UninstallAllMembers(released, installed);
    forall x
      ensures Uninstall(x) !in released
    {
      assert !Uninstall(x).Destroy?;
    }
  }

  /** Shutting down appends exactly ShutdownCalls to whatever the library log already held. */
  lemma ShutdownLogAppendsCalls(log: seq<Call>, s: AppState, installed: set<Subsystem>)
    ensures ShutdownLog(log, s, installed) == log + ShutdownCalls(s, installed)
  {
    var c1 := ReleaseIfLive([], s.eventQueue, EventQueueObject);
    var c2 := ReleaseIfLive(c1, s.logicTimer, TimerObject);
    var c3 := ReleaseIfLive(c2, s.display, DisplayObject);
    var c4 := UninstallIfInstalled(c3, installed, Mouse);
    var c5 := UninstallIfInstalled(c4, installed, Keyboard);
    assert log + [] == log;
    ReleaseIfLiveAppends(log, [], s.eventQueue, EventQueueObject);
    var l1 := ReleaseIfLive(log, s.eventQueue, EventQueueObject);
    assert l1 == log + c1;
    ReleaseIfLiveAppends(log, c1, s.logicTimer, TimerObject);
    var l2 := ReleaseIfLive(l1, s.logicTimer, TimerObject);
    assert l2 == log + c2;
    ReleaseIfLiveAppends(log, c2, s.display, DisplayObject);
    var l3 := ReleaseIfLive(l2, s.display, DisplayObject);
    assert l3 == log + c3;
    UninstallIfInstalledAppends(log, c3, installed, Mouse);
    var l4 := UninstallIfInstalled(l3, installed, Mouse);
    assert l4 == log + c4;
    UninstallIfInstalledAppends(log, c4, installed, Keyboard);
    var l5 := UninstallIfInstalled(l4, installed, Keyboard);
    assert l5 == log + c5;
    UninstallIfInstalledAppends(log, c5, installed, System);
  }

  /** g_app_shutdown's calls come in the fixed order event queue, timer, display, mouse,
      keyboard, system, with no call twice. */
  lemma ShutdownCallsInReleaseOrder(s: AppState, installed: set<Subsystem>)
    ensures InReleaseOrder(ShutdownCalls(s, installed))
  {
    var c1 := ReleaseIfLive([], s.eventQueue, EventQueueObject);
    var c2 := ReleaseIfLive(c1, s.logicTimer, TimerObject);
    var c3 := ReleaseIfLive(c2, s.display, DisplayObject);
    var c4 := UninstallIfInstalled(c3, installed, Mouse);
    var c5 := UninstallIfInstalled(c4, installed, Keyboard);
    ReleaseIfLiveKeepsOrder([], s.eventQueue, EventQueueObject);
    ReleaseIfLiveKeepsOrder(c1, s.logicTimer, TimerObject);
    ReleaseIfLiveKeepsOrder(c2, s.display, DisplayObject);
    UninstallIfInstalledKeepsOrder(c3, installed, Mouse);
    UninstallIfInstalledKeepsOrder(c4, installed, Keyboard);
    UninstallIfInstalledKeepsOrder(c5, installed, System);
  }

  /** The record after g_app_shutdown: every handle is NULL and the flags are kept. */
  function Released(s: AppState): (r: AppState)
    ensures r.eventQueue == Null && r.logicTimer == Null && r.display == Null
    ensures r.running == s.running && r.updateLogic == s.updateLogic
  {
    s.(eventQueue := Null, logicTimer := Null, display := Null)
  }

  /** A second shutdown releases nothing and changes nothing. */
  lemma ShutdownIsIdempotent(s: AppState, installed: set<Subsystem>)
    ensures Released(Released(s)) == Released(s)
    ensures ShutdownCalls(Released(s), installed - {System, Keyboard, Mouse}) == []
  {
  }

  /** Shutting down after an initialisation that stopped anywhere destroys exactly the objects
      that were created. */
  lemma ShutdownAfterInitReleasesCreated(o: Outcomes, installed: set<Subsystem>)
    ensures var calls := ShutdownCalls(Initialized(o), installed);
      (forall id :: Destroy(DisplayObject, id) in calls <==> Reached(o, DISPLAY_STEP) && o.display == Live(id)) &&
      (forall id :: Destroy(TimerObject, id) in calls <==> Reached(o, TIMER_STEP) && o.logicTimer == Live(id)) &&
      (forall id :: Destroy(EventQueueObject, id) in calls <==> Reached(o, QUEUE_STEP) && o.eventQueue == Live(id))
  {
  }

  // ---------------------------------------------------------------------------------------
  // Input: draining the event queue.

  /** The cases of g_app_input's switch; every other event type, key releases and mouse events
      included, takes `default: return`. */
  predicate Handled(e: Event)
  {
    e.Timer? || e.KeyDown? || e.DisplayClose?
  }

  /** The effect of one event on the record: Escape pressed or the window closed stops the
      program; any other key press changes nothing. */
  function Dispatch(s: AppState, e: Event): (r: AppState)
    ensures SameHandles(r, s)
    ensures r.updateLogic == (s.updateLogic || e.Timer?)
    ensures r.running == (s.running && !e.DisplayClose? && e != KeyDown(KEY_ESCAPE))
  {
    match e
    case Timer => s.(updateLogic := true)
    case KeyDown(k) => if k == KEY_ESCAPE then s.(running := false) else s
    case DisplayClose => s.(running := false)
    case _ => s
  }

  /** The record after draining and the events still in the queue. */
  datatype Drained = Drained(state: AppState, rest: seq<Event>)

  /** g_app_input: events are taken from the front of the queue and dispatched until the queue
      is empty or an unhandled event is taken, which ends the drain. */
  function Drain(s: AppState, queue: seq<Event>): (r: Drained)
    ensures |r.rest| <= |queue|
    ensures queue != [] ==> |r.rest| < |queue|
    ensures SameHandles(r.state, s)
    decreases |queue|
  {
    if queue == [] then Drained(s, [])
    else if !Handled(queue[0]) then Drained(s, queue[1..])
    else Drain(Dispatch(s, queue[0]), queue[1..])
  }

  /** The events a drain leaves queued are exactly the tail of the queue behind the ones it
      took. */
  lemma {:induction false} DrainLeavesSuffix(s: AppState, queue: seq<Event>)
    ensures var r := Drain(s, queue);
      r.rest == queue[|queue| - |r.rest|..]
    decreases |queue|
  {
    if queue != [] && Handled(queue[0]) {
      var r := Drain(s, queue);
      DrainLeavesSuffix(Dispatch(s, queue[0]), queue[1..]);
      assert queue[1..][|queue| - 1 - |r.rest|..] == queue[|queue| - |r.rest|..];
    }
  }

  /** After a handled first event, what is consumed is that event and what the rest of the
      drain consumes. */
  lemma ConsumedCons(s: AppState, queue: seq<Event>)
    requires queue != [] && Handled(queue[0])
    ensures var r := Drain(s, queue);
      Consumed(queue, r.rest) == [queue[0]] + Consumed(queue[1..], r.rest)
  {
    var r := Drain(s, queue);
    assert Consumed(queue, r.rest) == [queue[0]] + queue[1..][..|queue| - 1 - |r.rest|];
  }

  /** Early stop: the first unhandled event is consumed and everything behind it stays queued. */
  lemma {:induction false} DrainStopsAtFirstUnhandled(s: AppState, queue: seq<Event>, i: nat)
    requires i < |queue| && !Handled(queue[i])
    requires forall j :: 0 <= j < i ==> Handled(queue[j])
    ensures Drain(s, queue).rest == queue[i + 1..]
    decreases i
  {
    if i > 0 {
      DrainStopsAtFirstUnhandled(Dispatch(s, queue[0]), queue[1..], i - 1);
      assert queue[1..][i..] == queue[i + 1..];
    }
  }

  /** A queue of handled events only is drained completely. */
  lemma {:induction false} DrainEmptiesHandledQueue(s: AppState, queue: seq<Event>)
    requires forall j :: 0 <= j < |queue| ==> Handled(queue[j])
    ensures Drain(s, queue).rest == []
    decreases |queue|
  {
    if queue != [] {
      DrainEmptiesHandledQueue(Dispatch(s, queue[0]), queue[1..]);
    }
  }

  /** A drain leaves a tick due exactly when one was due before or it consumed a timer event. */
  lemma {:induction false} DrainSetsUpdateLogic(s: AppState, queue: seq<Event>)
    ensures var r := Drain(s, queue);
      r.state.updateLogic == (s.updateLogic || Timer in Consumed(queue, r.rest))
    decreases |queue|
  {
    if queue != [] {
      var r := Drain(s, queue);
      if Handled(queue[0]) {
        DrainSetsUpdateLogic(Dispatch(s, queue[0]), queue[1..]);
        ConsumedCons(s, queue);
      } else {
        assert Consumed(queue, r.rest) == [queue[0]];
      }
    }
  }

  /** A drain leaves the program running exactly when it was running and it consumed neither a
      display-close event nor an Escape key press; it never sets `running` back to true. */
  lemma {:induction false} DrainStopsRunning(s: AppState, queue: seq<Event>)
    ensures var r := Drain(s, queue);
      r.state.running == (s.running && DisplayClose !in Consumed(queue, r.rest) &&
                          KeyDown(KEY_ESCAPE) !in Consumed(queue, r.rest))
    decreases |queue|
  {
    if queue != [] {
      var r := Drain(s, queue);
      if Handled(queue[0]) {
        DrainStopsRunning(Dispatch(s, queue[0]), queue[1..]);
        ConsumedCons(s, queue);
      } else {
        assert Consumed(queue, r.rest) == [queue[0]];
      }
    }
  }

  // ---------------------------------------------------------------------------------------
  // The main loop.

  /** The record after one pass of g_app_loop's body, the events left queued, and whether the
      logic step ran. */
  datatype Step = Step(state: AppState, pending: seq<Event>, ranLogic: bool)

  /** One pass of g_app_loop's body up to drawing: drain the queue, then, if a tick is due,
      clear the flag and run the (empty) logic step once, however many ticks were drained. */
  function Iterate(s: AppState, queue: seq<Event>): (r: Step)
    ensures !r.state.updateLogic
    ensures |r.pending| <= |queue|
    ensures r.ranLogic == (s.updateLogic || Timer in Consumed(queue, r.pending))
    ensures r.state.running == (s.running && DisplayClose !in Consumed(queue, r.pending) &&
                                KeyDown(KEY_ESCAPE) !in Consumed(queue, r.pending))
    ensures SameHandles(r.state, s)
  {
    var d := Drain(s, queue);
    DrainSetsUpdateLogic(s, queue);
    DrainStopsRunning(s, queue);
    if d.state.updateLogic then Step(d.state.(updateLogic := false), d.rest, true)
    else Step(d.state, d.rest, false)
  }

  /** The outcome of g_app_loop: final record, events still queued, passes made (one frame is
      drawn in each) and logic steps run. */
  datatype Run = Run(state: AppState, pending: seq<Event>, iterations: nat, logicSteps: nat)

  /** g_app_loop, where `arrivals[i]` are the events that reach the queue before pass i: passes
      continue while `running` holds, for as many passes as `arrivals` describes. */
  function RunLoop(s: AppState, pending: seq<Event>, arrivals: seq<seq<Event>>): (r: Run)
    ensures r.iterations <= |arrivals|
    decreases |arrivals|
  {
    if !s.running || arrivals == [] then Run(s, pending, 0, 0)
    else
      var step := Iterate(s, pending + arrivals[0]);
      var r := RunLoop(step.state, step.pending, arrivals[1..]);
      r.(iterations := r.iterations + 1,
         logicSteps := r.logicSteps + (if step.ranLogic then 1 else 0))
  }

  /** A run `r` preceded by `iterations` passes that ran the logic `logicSteps` times. */
  function After(iterations: nat, logicSteps: nat, r: Run): Run
  {
    Run(r.state, r.pending, iterations + r.iterations, logicSteps + r.logicSteps)
  }

  /** Moving pass `i` of a run from the passes still to come to the passes already made. */
  lemma LoopStep(s: AppState, pending: seq<Event>, arrivals: seq<seq<Event>>, i: nat,
                 logicSteps: nat, run: Run)
    requires s.running && i < |arrivals|
    requires run == After(i, logicSteps, RunLoop(s, pending, arrivals[i..]))
    ensures var step := Iterate(s, pending + arrivals[i]);
      run == After(i + 1, logicSteps + (if step.ranLogic then 1 else 0),
                   RunLoop(step.state, step.pending, arrivals[i + 1..]))
  {
    assert arrivals[i..][1..] == arrivals[i + 1..];
  }

  /** No pass is made once `running` is false or the described passes have run out. */
  lemma RunLoopStopped(s: AppState, pending: seq<Event>, arrivals: seq<seq<Event>>, i: nat)
    requires i <= |arrivals| && (!s.running || i == |arrivals|)
    ensures RunLoop(s, pending, arrivals[i..]) == Run(s, pending, 0, 0)
  {
  }

  /** The loop stops exactly when `running` is false: it makes no pass once it is false, and it
      stops before the described passes run out only because it became false. It never sets
      `running` back to true. */
  lemma {:induction false} RunLoopExitsExactlyWhenStopped(s: AppState, pending: seq<Event>,
                                                         arrivals: seq<seq<Event>>)
    ensures var r := RunLoop(s, pending, arrivals);
      (r.iterations < |arrivals| ==> !r.state.running) &&
      (!s.running ==> r.iterations == 0 && r.state == s) &&
      (r.state.running ==> s.running)
    decreases |arrivals|
  {
    if s.running && arrivals != [] {
      var step := Iterate(s, pending + arrivals[0]);
      RunLoopExitsExactlyWhenStopped(step.state, step.pending, arrivals[1..]);
    }
  }

  /** The logic step runs at most once per pass. */
  lemma {:induction false} RunLoopLogicAtMostOncePerPass(s: AppState, pending: seq<Event>,
                                                        arrivals: seq<seq<Event>>)
    ensures var r := RunLoop(s, pending, arrivals);
      r.logicSteps <= r.iterations
    decreases |arrivals|
  {
    if s.running && arrivals != [] {
      var step := Iterate(s, pending + arrivals[0]);
      RunLoopLogicAtMostOncePerPass(step.state, step.pending, arrivals[1..]);
    }
  }

  /** The loop keeps the handles unchanged, and after any pass no tick is left due. */
  lemma {:induction false} RunLoopKeepsHandles(s: AppState, pending: seq<Event>,
                                              arrivals: seq<seq<Event>>)
    ensures var r := RunLoop(s, pending, arrivals);
      SameHandles(r.state, s) && (r.iterations > 0 ==> !r.state.updateLogic)
    decreases |arrivals|
  {
    if s.running && arrivals != [] {
      var step := Iterate(s, pending + arrivals[0]);
      RunLoopKeepsHandles(step.state, step.pending, arrivals[1..]);
    }
  }

  // ---------------------------------------------------------------------------------------
  // The global record and the program's functions over it.

  /** The global `g_data`. */
  class AppData {
    var display: Handle
    var logicTimer: Handle
    var eventQueue: Handle
    var isRunning: bool
    var updateLogic: bool

    /** The static storage of g_data before main runs. */
    constructor ()
      ensures State() == STATIC_STATE
    {
      display := Null;
      logicTimer := Null;
      eventQueue := Null;
      isRunning := false;
      updateLogic := false;
    }

    function State(): AppState
      reads this
    {
      AppState(display, logicTimer, eventQueue, isRunning, updateLogic)
    }

    /** g_app_zero_initialize_data. */
    method ZeroInitialize()
      modifies this
      ensures State() == ZERO_STATE
    {
      display := Null;
      logicTimer := Null;
      eventQueue := Null;
      isRunning := true;
      updateLogic := false;
    }

    /** g_app_initialize, given what each library call returns. */
    method Initialize(lib: Library, o: Outcomes) returns (code: int)
      modifies this, lib`installed
      ensures State() == Initialized(o)
      ensures lib.installed == old(lib.installed) + InstalledBy(o)
      ensures code == InitCode(o)
    {
      ZeroInitialize();
      var ok := lib.Install(System, o.system);
      if !ok { return -1; }
      ok := lib.Install(Keyboard, o.keyboard);
      if !ok { return -1; }
      ok := lib.Install(Mouse, o.mouse);
      if !ok { return -1; }
      display := o.display;
      if display == Null { return -1; }
      logicTimer := o.logicTimer;
      if logicTimer == Null { return -1; }
      eventQueue := o.eventQueue;
      if eventQueue == Null { return -1; }
      return 0;
    }

    /** g_app_shutdown. */
    method Shutdown(lib: Library)
      modifies this`eventQueue, this`logicTimer, this`display, lib
      ensures State() == Released(old(State()))
      ensures lib.log == old(lib.log) + ShutdownCalls(old(State()), old(lib.installed))
      ensures lib.installed == old(lib.installed) - {System, Keyboard, Mouse}
    {
      ghost var s0, installed0 := State(), lib.installed;
      eventQueue := DestroyIfLive(lib, eventQueue, EventQueueObject);
      logicTimer := DestroyIfLive(lib, logicTimer, TimerObject);
      display := DestroyIfLive(lib, display, DisplayObject);
      UninstallSubsystems(lib);
      ShutdownLogAppendsCalls(old(lib.log), s0, installed0);
    }

    /** g_app_input: drains `queue` and returns the events it leaves there. */
    method Input(queue: seq<Event>) returns (rest: seq<Event>)
      modifies this`isRunning, this`updateLogic
      ensures State() == Drain(old(State()), queue).state
      ensures rest == Drain(old(State()), queue).rest
    {
      rest := queue;
      while rest != []
        invariant Drain(State(), rest) == Drain(old(State()), queue)
        decreases |rest|
      {
        var event := rest[0];
        rest := rest[1..];
        match event {
          case Timer => updateLogic := true;
          case KeyDown(k) =>
            if k == KEY_ESCAPE {
              isRunning := false;
            }
          case DisplayClose => isRunning := false;
          case _ => return;
        }
      }
    }

    /** g_app_logic, which is empty. */
    method Logic()
      ensures State() == old(State())
    {
    }

    /** One pass of g_app_loop's body before drawing: g_app_input, then, if a tick is due,
        clear the flag and call g_app_logic once. */
    method Pass(queue: seq<Event>) returns (rest: seq<Event>, ranLogic: bool)
      modifies this`isRunning, this`updateLogic
      ensures var step := Iterate(old(State()), queue);
        State() == step.state && rest == step.pending && ranLogic == step.ranLogic
    {
      rest := Input(queue);
      ranLogic := updateLogic;
      if updateLogic {
        updateLogic := false;
        Logic();
      }
    }

    /** g_app_loop, where `arrivals[i]` are the events that reach the queue before pass i;
        g_app_draw only clears and flips the screen, so a pass's frame is counted by
        `iterations`. */
    method Loop(arrivals: seq<seq<Event>>) returns (pending: seq<Event>, iterations: nat, logicSteps: nat)
      modifies this`isRunning, this`updateLogic
      ensures var r := RunLoop(old(State()), [], arrivals);
        State() == r.state && pending == r.pending && iterations == r.iterations &&
        logicSteps == r.logicSteps
    {
      pending, iterations, logicSteps := [], 0, 0;
      ghost var run := RunLoop(State(), [], arrivals);
      while isRunning && iterations < |arrivals|
        invariant iterations <= |arrivals|
        invariant run == After(iterations, logicSteps, RunLoop(State(), pending, arrivals[iterations..]))
        decreases |arrivals| - iterations
      {
        LoopStep(State(), pending, arrivals, iterations, logicSteps, run);
        var ranLogic;
        pending, ranLogic := Pass(pending + arrivals[iterations]);
        if ranLogic {
          logicSteps := logicSteps + 1;
        }
        iterations := iterations + 1;
      }
      RunLoopStopped(State(), pending, arrivals, iterations);
    }
  }

  /** main: initialise, run the loop only if initialisation returned 0, and shut down in every
      case. Returns what the process exits with and the number of passes the loop made. */
  method Program(lib: Library, o: Outcomes, arrivals: seq<seq<Event>>)
    returns (exitCode: int, passes: nat)
    modifies lib
    ensures exitCode == 0
    ensures passes == if InitCode(o) == 0 then RunLoop(Initialized(o), [], arrivals).iterations
                      else 0
    ensures lib.log == old(lib.log) + ShutdownCalls(Initialized(o), old(lib.installed) + InstalledBy(o))
    ensures lib.installed == {}
  {
    var data := new AppData();
    var code := data.Initialize(lib, o);
    ghost var initialized, installed := data.State(), lib.installed;
    passes := 0;
    if code == 0 {
      var pending, logicSteps;
      pending, passes, logicSteps := data.Loop(arrivals);
      RunLoopKeepsHandles(initialized, [], arrivals);
    }
    ghost var looped := data.State();
    assert SameHandles(looped, initialized);
    assert ShutdownCalls(looped, installed) == ShutdownCalls(initialized, installed);
    data.Shutdown(lib);
    NothingLeftInstalled(old(lib.installed) + InstalledBy(o));
    exitCode := 0;
  }
}
