# Allegro example programs: application state machine

This project models the application core shared by two Allegro 5 example programs,
`Example_01/src/g_app.c` and `Framework/src/g_app.c`. Each program keeps a `g_app_data_t`
record and runs the same steps:

- The record is zeroed first. In Example_01, `main` calls `g_app_zero_initialize_data`; in
  Framework, `g_app_initialize` calls it as its first step.
- `g_app_initialize` runs a chain of library calls, any of which can fail.
- `g_app_loop` runs only if initialisation returned 0. It drains the event queue, runs the
  logic step once when a timer tick is due, and draws a frame, for as long as `m_is_running`
  holds.
- `g_app_shutdown` always runs. It releases every non-null handle in a fixed order and nulls
  it, except Example_01's m_double_buffer, which is neither destroyed nor nulled. Then it
  uninstalls the subsystems that are installed.

The project has three modules.

- `Allegro` (`allegro.dfy`) is the library as the programs see it:
  - keycodes and events;
  - opaque handles, where `Null` is NULL and `Live(id)` is a created object;
  - a `Library` object holding the set of installed subsystems and a log of the release calls
    made on it;
  - the release order both programs use.
- `Example01` (`example01.dfy`) models `Example_01/src/g_app.c`. The record, passed by pointer,
  is the class `AppData`, with the key table `m_key` as an `array<bool>`. The record's value is
  the datatype `AppState`.
- `Framework` (`framework.dfy`) models `Framework/src/g_app.c`. The global `g_data` is one
  `AppData` object, created with the zeroed contents of static storage.

In each program module, functions over `AppState` are the specification:

- `Initialized` and `InitCode`: the effect and return value of initialisation;
- `Drain`: the input drain;
- `LogicStep` (Example01 only): the logic step;
- `Iterate`: one pass of the loop;
- `RunLoop`: the whole loop;
- `Released` and `ShutdownCalls`: the effect of shutdown and the calls it makes.

The class methods are the program's own step-by-step code: the zeroing `for` loop, the
`if … return -1` chain, the `while`/`switch` drain with its early `return`, the sequential `if`s
of the logic step, the `while (m_is_running)` loop and the guarded releases. Each method is
proved to produce exactly what its specification function computes. The lemmas then prove the
source's promises about those functions.

What each library call returns is a parameter: `Outcomes` gives the result of each step of
`g_app_initialize`. The events that reach the queue before pass `i` of the loop are given as
`arrivals[i]`.

## Model

| member | source | states |
|---|---|---|
| Allegro.DestroyIfLive | Example_01/src/g_app.c:162-190 | The release idiom `if (h) { destroy(h); h = NULL; }`. The handle stored back is NULL, and the library log gains that handle's destroy call exactly when the handle was non-null. |
| Allegro.UninstallSubsystems | Example_01/src/g_app.c:192-205 | The mouse, the keyboard and the system are each uninstalled only if installed, in that order, and none of them is installed afterwards. The Framework program's lines 115-128 are the same code. |
| Allegro.ReleaseIfLiveKeepsOrder | Example_01/src/g_app.c:160-206 | Appending a destroy call that comes after every call so far keeps the log in release order. |
| Allegro.UninstallAllMembers | Example_01/src/g_app.c:192-205 | The uninstall steps add an uninstall call for exactly the installed subsystems and destroy nothing. |
| Example01.AppData.ZeroInitialize | Example_01/src/g_app.c:74-91 | Afterwards every one of the ALLEGRO_KEY_MAX keys is released, every handle is NULL, the mode is G_MODE_DEFAULT, the program is running and no tick is due. |
| Example01.AppData.Initialize | Example_01/src/g_app.c:93-158 | The `if … return -1` chain produces exactly `Initialized`: each step up to the first failure stores its result, and later steps leave their handles untouched. Installed subsystems grow by those whose install call succeeded. The return value is 0 exactly when every step succeeded, otherwise -1. |
| Example01.InitCode | Example_01/src/g_app.c:93-158 | g_app_initialize returns 0 or -1. It returns 0 exactly when all eleven calls succeed: al_init, both addon inits, both installs return true, and all six create or load calls return non-null. |
| Example01.Initialized | Example_01/src/g_app.c:93-158 | Initialisation changes only the handles: keys, mode and both flags are kept. If al_init fails, no handle changes. If every step succeeds, each handle holds the object its call returned. |
| Example01.InitSucceedsIffAllHandlesLive | Example_01/src/g_app.c:93-158 | From a zeroed record, initialisation returns 0 if and only if all six handles are non-null. Success also means all three subsystems are installed. |
| Example01.InitCreatesAPrefix | Example_01/src/g_app.c:93-158 | Initialisation stops at the first failure, so created objects form a prefix of the chain. A non-null font implies a non-null bitmap, and so on back to the display. A non-null display implies that all subsystems were installed. |
| Example01.AppData.Shutdown | Example_01/src/g_app.c:160-206 | The record becomes `Released`: font, inventory, event queue, timer and display are NULL, and the double buffer is kept. The log gains exactly `ShutdownCalls` of the old record, and no subsystem remains installed. |
| Example01.Released | Example_01/src/g_app.c:160-190 | After shutdown, font, inventory, event queue, timer and display are NULL. m_double_buffer, the keys, the mode and both flags keep their values. |
| Example01.ShutdownCalls | Example_01/src/g_app.c:160-206 | For each of the five released handles, its destroy call is in the list exactly when that handle is non-null. Uninstall calls are in the list exactly for the installed subsystems. |
| Example01.ReleaseHandlesMembers | Example_01/src/g_app.c:162-190 | The five guarded releases destroy each non-null handle and nothing else. |
| Example01.ShutdownLogAppendsCalls | Example_01/src/g_app.c:160-206 | Shutdown appends `ShutdownCalls` to the log and changes nothing already in it. |
| Example01.ShutdownCallsInReleaseOrder | Example_01/src/g_app.c:160-206 | Calls come in the fixed order font, bitmap, event queue, timer, display, mouse, keyboard, system, and no call appears twice. |
| Example01.ShutdownIsIdempotent | Example_01/src/g_app.c:160-206 | Shutting down again changes nothing and, with nothing left installed, makes no call. |
| Example01.ShutdownLeavesDoubleBuffer | Example_01/src/g_app.c:160-206 | m_double_buffer keeps its value, and shutdown makes no al_destroy_bitmap call on it, unless it is the same object as the inventory. What al_uninstall_system reclaims inside the library is outside the model. |
| Example01.ShutdownAfterInitReleasesCreated | Example_01/src/g_app.c:93-206 | After an initialisation that stopped anywhere, shutdown destroys exactly the objects that initialisation created, apart from the double buffer. Shutdown is therefore safe after partial initialisation. |
| Example01.AppData.Input | Example_01/src/g_app.c:208-245 | The `while`/`switch` drain leaves the record and the queue exactly as `Drain` says. |
| Example01.Dispatch | Example_01/src/g_app.c:216-243 | One switch case. A timer event sets the tick flag and nothing else sets it. A display close, and nothing else, clears running. Each key is updated as `KeyState` of that one event says: KEY_DOWN sets it, KEY_UP clears it, and other keys are kept. Handles and mode are unchanged. |
| Example01.Drain | Example_01/src/g_app.c:208-245 | The drain consumes at least one event of a non-empty queue, leaves no more than it was given, and changes neither the handles nor the mode. |
| Example01.DrainLeavesSuffix | Example_01/src/g_app.c:212-244 | The events left queued are exactly the queue behind the consumed ones, in their original order. |
| Example01.DrainStopsAtFirstUnhandled | Example_01/src/g_app.c:216-243 | Early return: if event i is the first one without a case, it is consumed and events i+1 onward stay queued. |
| Example01.DrainEmptiesHandledQueue | Example_01/src/g_app.c:212-244 | A queue of handled events only is drained completely. |
| Example01.DrainSetsUpdateLogic | Example_01/src/g_app.c:218-221 | After a drain a tick is due if and only if one was due before or a timer event was consumed. |
| Example01.DrainStopsRunning | Example_01/src/g_app.c:238-241 | After a drain the program is running if and only if it was running before and no display-close event was consumed. |
| Example01.KeyStateUntouched | Example_01/src/g_app.c:223-231 | A key with no KEY_DOWN or KEY_UP event keeps its state. |
| Example01.DrainUpdatesKeys | Example_01/src/g_app.c:223-231 | Every key ends in the state set by its last consumed KEY_DOWN or KEY_UP event, or keeps its old state if it has none. |
| Example01.AppData.Logic | Example_01/src/g_app.c:247-266 | The four sequential `if`s compute exactly `LogicStep`, whose form is priority order: key 3 before key 2 before key 1 before the old mode. So the last check wins. |
| Example01.LogicStep | Example_01/src/g_app.c:247-266 | Escape held means the program stops. The step never restarts a stopped program, keeps the mode a valid index, and leaves keys, the tick flag and the handles unchanged. |
| Example01.Draw | Example_01/src/g_app.c:309-321 | g_app_draw indexes func_array with m_mode, which its precondition keeps in range. Each mode selects its own routine: DEFAULT selects the inventory drawing, DOUBLE_BUFFER the double-buffer drawing, and TRANSFORM the transform drawing, in both directions. |
| Example01.DrawPairsRoutineWithName | Example_01/src/g_app.c:309-321 | func_array and G_MODE_NAME are indexed by the same m_mode, so the routine drawn and the name shown always belong to the same mode. |
| Example01.Iterate | Example_01/src/g_app.c:336-342 | After a pass no tick is due. The logic ran if and only if a tick was due or a timer event was consumed. The mode stays in range, a stopped program stays stopped, and the handles are unchanged. |
| Example01.AppData.Pass | Example_01/src/g_app.c:336-342 | g_app_input, then clearing the tick flag and calling g_app_logic once when a tick is due, computes exactly `Iterate`. |
| Example01.AppData.Loop | Example_01/src/g_app.c:327-352 | The `while (m_is_running)` loop yields exactly `RunLoop`: the final record, the events still queued, the number of passes, the number of logic steps and the frames drawn. |
| Example01.RunLoopExitsExactlyWhenStopped | Example_01/src/g_app.c:334-349 | No pass runs once the program is stopped. The loop ends early only because running became false, and it never sets running back to true. |
| Example01.RunLoopLogicAtMostOncePerPass | Example_01/src/g_app.c:338-344 | The logic step runs at most once per pass, however many ticks were drained. |
| Example01.RunLoopKeepsInvariant | Example_01/src/g_app.c:319-349 | The loop keeps m_mode a valid index of func_array and G_MODE_NAME and leaves the handles unchanged. After any pass, no tick is left due. |
| Example01.RunLoop | Example_01/src/g_app.c:327-352 | The reference definition of g_app_loop. It makes at most one pass per element of `arrivals`, and it draws exactly one frame per pass. |
| Example01.Program | Example_01/src/g_app.c:58-72 | main exits with 0. It draws the `RunLoop` frames only if initialisation returned 0. It always shuts down: the log gains `ShutdownCalls` of the initialised record, and no subsystem is left installed. |
| Framework.AppData.constructor | Framework/src/g_app.c:28 | Static storage for g_data: every handle NULL and both flags false. |
| Framework.AppData.ZeroInitialize | Framework/src/g_app.c:42-49 | Every handle is NULL, the program is running and no tick is due. |
| Framework.AppData.Initialize | Framework/src/g_app.c:51-93 | Initialize zeroes the record first, then stores each step's result up to the first failure, so the record becomes exactly `Initialized`. Installed subsystems grow by the successful installs. The return value is 0 exactly when every step succeeded. |
| Framework.InitCode | Framework/src/g_app.c:51-93 | g_app_initialize returns 0 or -1. It returns 0 exactly when al_init and both installs return true and display, timer and event queue are created. |
| Framework.Initialized | Framework/src/g_app.c:51-93 | After initialisation the record is running with no tick due. If al_init fails, every handle is NULL. If every step succeeds, each handle holds the object its call returned. |
| Framework.InitSucceedsIffAllHandlesLive | Framework/src/g_app.c:51-93 | Initialisation returns 0 if and only if display, timer and event queue are all non-null. Success also means all subsystems are installed. |
| Framework.InitCreatesAPrefix | Framework/src/g_app.c:51-93 | Created objects form a prefix of the chain. A non-null event queue implies a non-null timer, a non-null timer implies a non-null display, and a non-null display implies that all subsystems are installed. The record is left running with no tick due. |
| Framework.AppData.Shutdown | Framework/src/g_app.c:95-129 | Event queue, timer and display become NULL. The log gains exactly `ShutdownCalls`, and no subsystem remains installed. |
| Framework.Released | Framework/src/g_app.c:95-113 | After shutdown, event queue, timer and display are NULL, and both flags keep their values. |
| Framework.ShutdownCalls | Framework/src/g_app.c:95-129 | The list destroys each non-null handle. It uninstalls exactly the installed subsystems. |
| Framework.ReleaseHandlesMembers | Framework/src/g_app.c:97-113 | The three guarded releases destroy each non-null handle and nothing else. |
| Framework.ShutdownLogAppendsCalls | Framework/src/g_app.c:95-129 | Shutdown appends `ShutdownCalls` to the log and changes nothing already in it. |
| Framework.ShutdownCallsInReleaseOrder | Framework/src/g_app.c:95-129 | Calls come in the fixed order event queue, timer, display, mouse, keyboard, system, and no call appears twice. |
| Framework.ShutdownIsIdempotent | Framework/src/g_app.c:95-129 | Shutting down again changes nothing and makes no call. |
| Framework.ShutdownAfterInitReleasesCreated | Framework/src/g_app.c:51-129 | After an initialisation that stopped anywhere, shutdown destroys exactly the objects that were created. |
| Framework.AppData.Input | Framework/src/g_app.c:131-161 | The `while`/`switch` drain leaves the record and the queue exactly as `Drain` says. |
| Framework.Dispatch | Framework/src/g_app.c:139-159 | One switch case. A timer event sets the tick flag and nothing else sets it. Running is cleared exactly by a display close or an Escape key press; any other key press changes nothing. Handles are unchanged. |
| Framework.Drain | Framework/src/g_app.c:131-161 | The drain consumes at least one event of a non-empty queue, leaves no more than it was given, and does not touch the handles. |
| Framework.DrainLeavesSuffix | Framework/src/g_app.c:135-160 | The events left queued are exactly the queue behind the consumed ones. |
| Framework.DrainStopsAtFirstUnhandled | Framework/src/g_app.c:139-159 | Early return on the first event without a case, including KEY_UP and mouse events. Events behind it stay queued. |
| Framework.DrainEmptiesHandledQueue | Framework/src/g_app.c:135-160 | A queue of TIMER, KEY_DOWN and DISPLAY_CLOSE events only is drained completely. |
| Framework.DrainSetsUpdateLogic | Framework/src/g_app.c:141-144 | A tick is due after the drain if and only if one was due before or a timer event was consumed. |
| Framework.DrainStopsRunning | Framework/src/g_app.c:146-157 | The program is still running after the drain if and only if it was running and neither an Escape key press nor a display close was consumed. |
| Framework.AppData.Logic | Framework/src/g_app.c:163-166 | The logic step changes nothing. |
| Framework.Iterate | Framework/src/g_app.c:181-187 | After a pass no tick is due. The logic ran if and only if a tick was due or a timer event was consumed. Running after the pass is given exactly by the running flag before and the consumed events, and the handles are unchanged. |
| Framework.AppData.Pass | Framework/src/g_app.c:181-187 | Input, then clearing the flag and calling the logic once when a tick is due, computes exactly `Iterate`. |
| Framework.AppData.Loop | Framework/src/g_app.c:175-193 | The `while (m_is_running)` loop yields exactly `RunLoop`: the final record, the events still queued, the number of passes (g_app_draw runs once per pass) and the number of logic steps. |
| Framework.RunLoopExitsExactlyWhenStopped | Framework/src/g_app.c:179-190 | No pass runs once the program is stopped. The loop ends early only because running became false, and it never sets running back to true. |
| Framework.RunLoopLogicAtMostOncePerPass | Framework/src/g_app.c:183-187 | The logic step runs at most once per pass. |
| Framework.RunLoopKeepsHandles | Framework/src/g_app.c:175-193 | The loop leaves the handles unchanged, and after any pass no tick is left due. |
| Framework.RunLoop | Framework/src/g_app.c:175-193 | The reference definition of g_app_loop. It makes at most one pass per element of `arrivals`. |
| Framework.Program | Framework/src/g_app.c:30-40 | main exits with 0 and runs the loop only if initialisation returned 0. It always shuts down: the log gains `ShutdownCalls` of the initialised record, and no subsystem is left installed. |

## Left out

- Drawing is not modelled. Example_01 draws with al_clear_to_color, bitmaps, scaling, transforms and text, and Framework clears and flips. The model keeps only which routine g_app_draw calls and which mode name it prints.
- m_fps and al_get_time are not modelled, because they involve a clock and floating point.
- The logic timer's rate and al_start_timer/al_stop_timer are left out. Timer ticks are events in the given arrivals.
- Event-source registration with al_register_event_source is left out. The events a queue receives are an input to the model.
- al_acknowledge_resize is left out. In Example_01 a resize event is handled and changes nothing in the record. In Framework a resize event has no case, so it ends the drain like any other unhandled event.
- The window title, display flags, display and screen sizes, colours and the asset path are left out. They are constants passed to the library.
- Of the image and font addon initialisation, only success or failure is kept.
- The keycode values KEY_1=28, KEY_2=29, KEY_3=30, KEY_ESCAPE=59 and KEY_MAX=227 are Allegro 5.2's. allegro5/keycodes.h is not part of this model.
- The source indexes m_key with the event's keycode unchecked. The model relies on Allegro reporting only keycodes below ALLEGRO_KEY_MAX, and states this in the type `KeyCode`.
- m_key is a `uint8_t` array that only ever holds true or false. It is modelled as `array<bool>`.
- Example01.AppData.Loop: the loop makes at most |arrivals| passes. A run in which m_is_running never becomes false is covered only up to that many passes.
- Framework.AppData.Loop: the same bound on the number of passes.
- al_is_event_queue_empty and al_get_next_event are modelled as reading from the front of a sequence. Events that arrive while a drain is in progress are assigned to the next pass.
- Example_01's main keeps the record on the stack, with indeterminate contents until g_app_zero_initialize_data runs. The model's constructor only allocates the key table, and every state the program relies on comes from ZeroInitialize.
