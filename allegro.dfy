/** The parts of the Allegro 5 library that the two example programs use, seen from outside:
    keycodes, the events an event queue delivers, opaque resource handles, the library's
    installed subsystems and a log of the release calls made on it. What Allegro does inside
    those calls is not modelled. */
module Allegro {

  // Keycode values of Allegro 5.2; allegro5/keycodes.h is not part of this model.
  const KEY_1: int := 28
  const KEY_2: int := 29
  const KEY_3: int := 30
  const KEY_ESCAPE: int := 59
  const KEY_MAX: int := 227

  /** Allegro only reports keycodes below ALLEGRO_KEY_MAX, so a keycode always indexes
      a table of ALLEGRO_KEY_MAX entries. */
  type KeyCode = k: int | 0 <= k < KEY_MAX

  /** An event taken from an event queue; only the fields the programs read are kept. */
  datatype Event =
    | Timer                         // ALLEGRO_EVENT_TIMER
    | KeyDown(keycode: KeyCode)     // ALLEGRO_EVENT_KEY_DOWN
    | KeyUp(keycode: KeyCode)       // ALLEGRO_EVENT_KEY_UP
    | KeyChar(keycode: KeyCode)     // ALLEGRO_EVENT_KEY_CHAR
    | MouseEvent(eventType: int)    // any ALLEGRO_EVENT_MOUSE_* event
    | DisplayResize                 // ALLEGRO_EVENT_DISPLAY_RESIZE
    | DisplayClose                  // ALLEGRO_EVENT_DISPLAY_CLOSE
    | OtherEvent(eventType: int)    // any other event type

  /** The events taken from the front of `queue` by a drain that left `rest` queued. */
  function Consumed(queue: seq<Event>, rest: seq<Event>): seq<Event>
    requires |rest| <= |queue|
  {
    queue[..|queue| - |rest|]
  }

  /** A pointer to an Allegro object: NULL, or a live object identified by an opaque token. */
  datatype Handle = Null | Live(id: nat)

  /** The library subsystems that al_init, al_install_keyboard and al_install_mouse install. */
  datatype Subsystem = System | Keyboard | Mouse

  /** The kinds of object the programs create and destroy. */
  datatype Kind = FontObject | BitmapObject | EventQueueObject | TimerObject | DisplayObject

  /** A release call made on the library: al_destroy_font, al_destroy_bitmap,
      al_destroy_event_queue, al_destroy_timer or al_destroy_display on the object `id`, or the
      uninstall call of a subsystem. */
  datatype Call = Destroy(kind: Kind, id: nat) | Uninstall(subsystem: Subsystem)

  /** The library's global state as far as the programs can observe it. */
  class Library {
    var installed: set<Subsystem>
    var log: seq<Call>   // release calls made so far, oldest first

    /** The library before the process calls into it. */
    constructor ()
      ensures installed == {} && log == []
    {
      installed := {};
      log := [];
    }

    predicate IsInstalled(s: Subsystem)
      reads this
    {
      s in installed
    }

    /** al_init, al_install_keyboard or al_install_mouse: `ok` is what the call returns. */
    method Install(s: Subsystem, ok: bool) returns (r: bool)
      modifies this`installed
      ensures r == ok
      ensures installed == if ok then old(installed) + {s} else old(installed)
    {
      if ok {
        installed := installed + {s};
      }
      r := ok;
    }

    /** al_uninstall_system, al_uninstall_keyboard or al_uninstall_mouse. */
    method Uninstall(s: Subsystem)
      modifies this
      ensures installed == old(installed) - {s}
      ensures log == old(log) + [Call.Uninstall(s)]
    {
      installed := installed - {s};
      log := log + [Call.Uninstall(s)];
    }

    /** al_destroy_font, al_destroy_bitmap, al_destroy_event_queue, al_destroy_timer or
        al_destroy_display. */
    method Destroy(kind: Kind, id: nat)
      modifies this`log
      ensures log == old(log) + [Call.Destroy(kind, id)]
    {
      log := log + [Call.Destroy(kind, id)];
    }
  }

  /** The release idiom of g_app_shutdown, `if (h) { al_destroy_...(h); h = NULL; }`: the
      handle to store back is NULL, and a destroy call is made exactly when `h` is non-null. */
  method DestroyIfLive(lib: Library, h: Handle, kind: Kind) returns (r: Handle)
    modifies lib`log
    ensures r == Null
    ensures lib.log == ReleaseIfLive(old(lib.log), h, kind)
  {
    r := h;
    if r.Live? {
      lib.Destroy(kind, r.id);
      r := Null;
    }
  }

  /** The tail of g_app_shutdown, the same in both programs: uninstall the mouse, the keyboard
      and the system, each only if it is installed. */
  method UninstallSubsystems(lib: Library)
    modifies lib
    ensures lib.installed == old(lib.installed) - {System, Keyboard, Mouse}
    ensures lib.log == UninstallAll(old(lib.log), old(lib.installed))
  {
    ghost var installed0 := lib.installed;
    if lib.IsInstalled(Mouse) {
      lib.Uninstall(Mouse);
    }
    assert lib.installed == installed0 - {Mouse};
    if lib.IsInstalled(Keyboard) {
      lib.Uninstall(Keyboard);
    }
    assert lib.installed == installed0 - {Mouse, Keyboard};
    if lib.IsInstalled(System) {
      lib.Uninstall(System);
    }
  }

  /** Removing the three subsystems leaves none installed. */
  lemma NothingLeftInstalled(installed: set<Subsystem>)
    ensures installed - {System, Keyboard, Mouse} == {}
  {
    forall x | x in installed
      ensures x in {System, Keyboard, Mouse}
    {
      if x.System? {} else if x.Keyboard? {} else {}
    }
  }

  /** The log after UninstallSubsystems runs with `installed` installed, starting from `log`. */
  function UninstallAll(log: seq<Call>, installed: set<Subsystem>): seq<Call>
  {
    UninstallIfInstalled(UninstallIfInstalled(UninstallIfInstalled(log, installed, Mouse),
      installed, Keyboard), installed, System)
  }

  /** The fixed order in which g_app_shutdown, in both programs, makes its release calls:
      font, bitmap, event queue, timer, display, then mouse, keyboard, system. */
  function ReleaseRank(c: Call): nat
  {
    match c
    case Destroy(FontObject, _) => 0
    case Destroy(BitmapObject, _) => 1
    case Destroy(EventQueueObject, _) => 2
    case Destroy(TimerObject, _) => 3
    case Destroy(DisplayObject, _) => 4
    case Uninstall(Mouse) => 5
    case Uninstall(Keyboard) => 6
    case Uninstall(System) => 7
  }

  predicate InReleaseOrder(calls: seq<Call>)
  {
    forall i, j :: 0 <= i < j < |calls| ==> ReleaseRank(calls[i]) < ReleaseRank(calls[j])
  }

  /** `calls`, followed by the destroy call for `h` when `h` is non-null. */
  function ReleaseIfLive(calls: seq<Call>, h: Handle, kind: Kind): seq<Call>
  {
    if h.Live? then calls + [Destroy(kind, h.id)] else calls
  }

  /** `calls`, followed by the uninstall call for `s` when `s` is installed. */
  function UninstallIfInstalled(calls: seq<Call>, installed: set<Subsystem>, s: Subsystem): seq<Call>
  {
    if s in installed then calls + [Uninstall(s)] else calls
  }

  /** ReleaseIfLive adds the destroy call of `h` when `h` is non-null, and nothing else. */
  lemma ReleaseIfLiveMembers(calls: seq<Call>, h: Handle, kind: Kind)
    ensures forall c :: c in ReleaseIfLive(calls, h, kind) <==>
      c in calls || (h.Live? && c == Destroy(kind, h.id))
  {
  }

  /** UninstallAll adds the uninstall call of each installed subsystem, and nothing else. */
  lemma UninstallAllMembers(calls: seq<Call>, installed: set<Subsystem>)
    ensures forall c: Call :: c.Destroy? ==> (c in UninstallAll(calls, installed) <==> c in calls)
    ensures forall x :: Uninstall(x) in UninstallAll(calls, installed) <==>
      Uninstall(x) in calls || x in installed
  {
    var c1 := UninstallIfInstalled(calls, installed, Mouse);
    var c2 := UninstallIfInstalled(c1, installed, Keyboard);
    UninstallIfInstalledMembers(calls, installed, Mouse);
    UninstallIfInstalledMembers(c1, installed, Keyboard);
    UninstallIfInstalledMembers(c2, installed, System);
    forall x
      ensures Uninstall(x) in UninstallAll(calls, installed) <==> Uninstall(x) in calls || x in installed
    {
      if x.Mouse? {} else if x.Keyboard? {} else {}
    }
  }

  /** UninstallIfInstalled adds the uninstall call of `s` when `s` is installed, and nothing
      else. */
  lemma UninstallIfInstalledMembers(calls: seq<Call>, installed: set<Subsystem>, s: Subsystem)
    ensures forall c :: c in UninstallIfInstalled(calls, installed, s) <==>
      c in calls || (s in installed && c == Uninstall(s))
  {
  }

  /** Appending a release after a prefix commutes with adding the prefix. */
  lemma ReleaseIfLiveAppends(log: seq<Call>, calls: seq<Call>, h: Handle, kind: Kind)
    ensures ReleaseIfLive(log + calls, h, kind) == log + ReleaseIfLive(calls, h, kind)
  {
    if h.Live? {
      assert (log + calls) + [Destroy(kind, h.id)] == log + (calls + [Destroy(kind, h.id)]);
    }
  }

  lemma UninstallIfInstalledAppends(log: seq<Call>, calls: seq<Call>, installed: set<Subsystem>, s: Subsystem)
    ensures UninstallIfInstalled(log + calls, installed, s) == log + UninstallIfInstalled(calls, installed, s)
  {
    if s in installed {
      assert (log + calls) + [Uninstall(s)] == log + (calls + [Uninstall(s)]);
    }
  }

  /** Adding the destroy call of a handle whose kind comes after every call so far keeps the
      calls in order, and bounds their ranks by that kind's rank. */
  lemma ReleaseIfLiveKeepsOrder(calls: seq<Call>, h: Handle, kind: Kind)
    requires InReleaseOrder(calls)
    requires forall x :: x in calls ==> ReleaseRank(x) < ReleaseRank(Destroy(kind, 0))
    ensures InReleaseOrder(ReleaseIfLive(calls, h, kind))
    ensures forall x :: x in ReleaseIfLive(calls, h, kind) ==> ReleaseRank(x) <= ReleaseRank(Destroy(kind, 0))
  {
    if h.Live? {
      AppendKeepsReleaseOrder(calls, Destroy(kind, h.id));
    }
  }

  /** The same for the uninstall call of a subsystem. */
  lemma UninstallIfInstalledKeepsOrder(calls: seq<Call>, installed: set<Subsystem>, s: Subsystem)
    requires InReleaseOrder(calls)
    requires forall x :: x in calls ==> ReleaseRank(x) < ReleaseRank(Uninstall(s))
    ensures InReleaseOrder(UninstallIfInstalled(calls, installed, s))
    ensures forall x :: x in UninstallIfInstalled(calls, installed, s) ==> ReleaseRank(x) <= ReleaseRank(Uninstall(s))
  {
    if s in installed {
      AppendKeepsReleaseOrder(calls, Uninstall(s));
    }
  }

  /** Appending a call that comes later in the release order keeps a sequence in order. */
  lemma AppendKeepsReleaseOrder(calls: seq<Call>, c: Call)
    requires InReleaseOrder(calls)
    requires forall x :: x in calls ==> ReleaseRank(x) < ReleaseRank(c)
    ensures InReleaseOrder(calls + [c])
  {
    forall i, j | 0 <= i < j < |calls + [c]|
      ensures ReleaseRank((calls + [c])[i]) < ReleaseRank((calls + [c])[j])
    {
      assert (calls + [c])[i] == calls[i] && calls[i] in calls;
      if j < |calls| {
        assert (calls + [c])[j] == calls[j];
      }
    }
  }
}
