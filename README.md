# PettyKings event actions in Dafny

PettyKings is a Unity game prototype. An event in the game runs a list of
event actions, one after another. This project models those actions, from
`EventAction.cs`:

- a base action;
- a decision, which shows a page of choices, applies the chosen choice's food,
  wood and men deltas, and waits for "continue";
- a camera move, which queues camera targets and waits for the camera
  controller to finish;
- a pause, which waits for a timer;
- an audio cue, which plays a clip once and waits for the audio source to
  fall silent.

Every action has the same lifecycle. `Begin` resets the action's state.
`Update` is called once per frame and reports whether the action is still
running. `End` is called when it has finished.

Layout:

- `engine.dfy` (module `Engine`) holds stand-ins for the engine objects the
  actions call. These are the event, the resource manager, the camera
  controller, the timer and the audio source. Each keeps only what an action
  can observe of it, or a record of the calls made on it.
- `lifecycle.dfy` (module `Lifecycle`) holds the per-frame step shared by the
  camera, pause and audio actions: a completion signal clears the running flag.
  It also holds lemmas about a whole run of frames.
- `event_action.dfy` (module `EventActions`) holds the `ACTIONTYPE` enum
  (`ActionType`), the button callbacks, the event display and the five action
  classes.

In C# the four kinds of action inherit from `EventAction`. Here each kind is a
class whose `const action: EventAction` is its own base part. Its `Begin` resets
that part with `EventAction.Begin` and then records its own kind, as
`base.Begin(newEvent)` followed by `type_ = …` does in the source. `Type()` is
defined once, on `EventAction`, as in the source.

Engine lookups are passed to `Begin` as parameters: `EventDisplay.eventDisplay`,
`ResourceManager.resourceManager`, `Camera.main.GetComponent<CameraController>()`
and the event controller's `AudioSource`. The engine predicates become boolean
inputs to `Update`: `CameraController.FinishedMove()`, `Timer.UpdateTimer()`
and `AudioSource.isPlaying`. The actions' own C# fields keep their meaning:

- `EventAction.type_`, `currentEvent`, `actionRunning` and `isBlocking`;
- `DecisionAction.eventDisplay` and `resourceManager`;
- `cameraController`, `timer` and `audioSource`.

Each of these starts out null or at its C# initial value. An engine reference
is required to be non-null only where the C# code dereferences it. A null
resource manager is accepted by `DecisionAction.Begin`, because only
`DecisionSelected` uses it. A null camera controller is accepted by
`CameraMoveAction.Begin` when there is no target to queue.

The event controller that calls `Update` once per frame is not part of this
model. `RunCameraMove`, `RunPause` and `RunAudio` stand in for it. Each
updates an action once per given engine answer and returns the flags
reported. Its contract ties those flags to `Lifecycle.Reports`, so the frame
lemmas apply to the classes themselves.

## Model

| member | source | states |
|---|---|---|
| `EventActions.EventAction.constructor` | PettyKings_02/Assets/Scripts/EventSystem/EventAction.cs:24-33 | A new action has kind BASE and no event, and it is running and blocking (the C# field initialisers). |
| `EventActions.EventAction.Begin` | PettyKings_02/Assets/Scripts/EventSystem/EventAction.cs:36-43 | Afterwards `Type()` is BASE, the current event is the given one and the action is running; `isBlocking` is unchanged. |
| `EventActions.EventAction.End` | PettyKings_02/Assets/Scripts/EventSystem/EventAction.cs:47-50 | Ending a base action changes nothing. |
| `EventActions.EventAction.Type` | PettyKings_02/Assets/Scripts/EventSystem/EventAction.cs:61-64 | Returns the kind last recorded by a `Begin` (BASE for a new action). |
| `EventActions.EventAction.Update` | PettyKings_02/Assets/Scripts/EventSystem/EventAction.cs:54-58 | Returns true exactly when the action is running, and changes no state (no frame). |
| `EventActions.BeginAs` | PettyKings_02/Assets/Scripts/EventSystem/EventAction.cs:103-106 | The shared start of every kind of action (also 225-227, 271-273, 315-317): after it, `Type()` is the given kind, the current event is the given one and the action is running; `isBlocking` is unchanged. |
| `EventActions.DecisionAction.constructor` | PettyKings_02/Assets/Scripts/EventSystem/EventAction.cs:84-96 | A new decision holds its editor data, has a fresh base part in the initial state, and has no display or resource manager yet. |
| `EventActions.DecisionAction.Begin` | PettyKings_02/Assets/Scripts/EventSystem/EventAction.cs:100-145 | Afterwards `Type()` is DECISION and the action is running. Every decision page has a new array holding exactly one `ContinuePressed` callback bound to this action. With n > 0 decisions, the main page (when it is not itself a decision page) has a new array of exactly n `DecisionSelected` callbacks. With no decisions it has exactly one `ContinuePressed`. The display is active and the main page was shown last. The resource manager is stored as given, null included. |
| `EventActions.DecisionAction.SelectionButtons` | PettyKings_02/Assets/Scripts/EventSystem/EventAction.cs:116-122 | Returns a new array with one entry per decision page, every entry the `DecisionSelected` callback of this action. |
| `EventActions.DecisionAction.WireDecisionPages` | PettyKings_02/Assets/Scripts/EventSystem/EventAction.cs:125-130 | Every decision page gets a new array holding exactly the `ContinuePressed` callback of this action. |
| `EventActions.DecisionAction.End` | PettyKings_02/Assets/Scripts/EventSystem/EventAction.cs:149-154 | Ending a decision deactivates the event display. |
| `EventActions.DecisionAction.Update` | PettyKings_02/Assets/Scripts/EventSystem/EventAction.cs:158-172 | Returns the running flag unchanged and leaves the display active exactly when the action is running. |
| `EventActions.DecisionAction.DecisionSelected` | PettyKings_02/Assets/Scripts/EventSystem/EventAction.cs:176-189 | Requires a resource manager only once a display is set, since that is when C# dereferences it. With a display, the chosen decision's page is shown and its delta `[food, wood, men]` is passed to the resource manager. Without a display nothing changes. The running flag is never touched. |
| `EventActions.DecisionAction.ContinuePressed` | PettyKings_02/Assets/Scripts/EventSystem/EventAction.cs:193-197 | Whatever the choice, the action stops running; only the running flag changes. |
| `EventActions.DecisionAction.GetDecisionResources` | PettyKings_02/Assets/Scripts/EventSystem/EventAction.cs:201-208 | Returns a new array equal to `[decisionFood[choice], decisionWood[choice], decisionMen[choice]]`. It requires `choice` to index all three arrays. |
| `EventActions.ContinueThenUpdate` | PettyKings_02/Assets/Scripts/EventSystem/EventAction.cs:158-197 | Pressing continue and then updating a decision returns false. The action is no longer running and the display is inactive. |
| `EventActions.CameraMoveAction.constructor` | PettyKings_02/Assets/Scripts/EventSystem/EventAction.cs:218-220 | A new camera move holds its targets, has a fresh base part in the initial state, and has no controller yet. |
| `EventActions.CameraMoveAction.Begin` | PettyKings_02/Assets/Scripts/EventSystem/EventAction.cs:223-235 | Afterwards `Type()` is CAMERAMOVE and the action is running. Every camera target was appended to the controller's queue in array order. The controller may be null only when there are no targets, since C# dereferences it only inside the loop. |
| `EventActions.CameraMoveAction.End` | PettyKings_02/Assets/Scripts/EventSystem/EventAction.cs:239-242 | Ending a camera move changes nothing. |
| `EventActions.CameraMoveAction.Update` | PettyKings_02/Assets/Scripts/EventSystem/EventAction.cs:246-256 | The flag becomes `Step(old flag, finishedMove)`: it is cleared exactly when the move has finished and is otherwise kept. The new flag is returned. |
| `EventActions.PauseAction.constructor` | PettyKings_02/Assets/Scripts/EventSystem/EventAction.cs:264-266 | A new pause has a fresh base part in the initial state and no timer yet. |
| `EventActions.PauseAction.Begin` | PettyKings_02/Assets/Scripts/EventSystem/EventAction.cs:269-277 | Afterwards `Type()` is PAUSE, the action is running and it owns a new timer. |
| `EventActions.PauseAction.End` | PettyKings_02/Assets/Scripts/EventSystem/EventAction.cs:281-284 | Ending a pause changes nothing. |
| `EventActions.PauseAction.Update` | PettyKings_02/Assets/Scripts/EventSystem/EventAction.cs:288-298 | The flag becomes `Step(old flag, timerDone)`, and the new flag is returned. |
| `EventActions.AudioAction.constructor` | PettyKings_02/Assets/Scripts/EventSystem/EventAction.cs:306-310 | A new audio cue holds its clip, has a fresh base part in the initial state, and has no audio source yet. |
| `EventActions.AudioAction.Begin` | PettyKings_02/Assets/Scripts/EventSystem/EventAction.cs:313-322 | Afterwards `Type()` is AUDIO and the action is running. The clip was played once on the given source. |
| `EventActions.AudioAction.End` | PettyKings_02/Assets/Scripts/EventSystem/EventAction.cs:326-329 | Ending an audio cue changes nothing. |
| `EventActions.AudioAction.Update` | PettyKings_02/Assets/Scripts/EventSystem/EventAction.cs:333-343 | The flag becomes `Step(old flag, !isPlaying)`: it is cleared exactly when the source is not playing. The new flag is returned. |
| `EventActions.RunCameraMove` | PettyKings_02/Assets/Scripts/EventSystem/EventAction.cs:246-256 | Updating a camera move once per frame returns exactly `Reports(old flag, finishedMove answers)`, and leaves the flag at `RunningAfter` of those answers. |
| `EventActions.RunPause` | PettyKings_02/Assets/Scripts/EventSystem/EventAction.cs:288-298 | Updating a pause once per frame returns exactly `Reports(old flag, UpdateTimer answers)`, and leaves the flag at `RunningAfter` of those answers. |
| `EventActions.RunAudio` | PettyKings_02/Assets/Scripts/EventSystem/EventAction.cs:333-343 | Updating an audio cue once per frame returns exactly `Reports(old flag, not-playing answers)`, and leaves the flag at `RunningAfter` of those answers. |
| `Lifecycle.Reports` | PettyKings_02/Assets/Scripts/EventSystem/EventAction.cs:246-256 | Update called once per frame returns one flag per completion signal (camera, pause and audio alike: also 288-298, 333-343). |
| `Lifecycle.RunningUntilSignal` | PettyKings_02/Assets/Scripts/EventSystem/EventAction.cs:288-298 | After a run of frames the action is still running if and only if it was running before and no frame saw the completion signal. This holds for all three signal-driven Updates (also 246-256, 333-343). |
| `Lifecycle.ReportAt` | PettyKings_02/Assets/Scripts/EventSystem/EventAction.cs:333-343 | The value Update returns in frame i is the flag after the first i + 1 frames, for all three signal-driven Updates (also 246-256, 288-298). |
| `Lifecycle.StoppedStaysStopped` | PettyKings_02/Assets/Scripts/EventSystem/EventAction.cs:250-255 | An action whose flag is false reports false in every later frame: only `Begin` raises the flag again (also 292-297, 337-342). |
| `Lifecycle.RunningUntilFirstSignal` | PettyKings_02/Assets/Scripts/EventSystem/EventAction.cs:292-297 | Right after `Begin`, Update returns true in frame i if and only if none of frames 0..i saw the completion signal (also 250-255, 337-342). |
| `Lifecycle.ReportsMonotone` | PettyKings_02/Assets/Scripts/EventSystem/EventAction.cs:337-342 | The reported flag never rises again: if frame j reports true, every earlier frame reported true (also 250-255, 292-297). |
| `Lifecycle.Snoc` | PettyKings_02/Assets/Scripts/EventSystem/EventAction.cs:250-255 | One more frame extends a run: the flag takes one more `Step`, and the reports gain exactly the flag that this `Step` returns. |

## Left out

- `Enviroment/DragDropBuilding.cs` is not part of this model. It consists of physics raycasts, terrain height sampling, float vector positioning, object instantiation and shader parameters, all of which belong to the engine.
- `EventAction.Print` is not modelled: it only writes the kind to the debug log.
- Virtual dispatch is not modelled: a caller calls `Begin`, `Update` and `End` on the class of the action it holds. The C# `base.Begin` call is modelled by each kind calling `EventAction.Begin` on its base part, through the helper `BeginAs`.
- The float fields `pauseLength_` and `volumeScale_` are not modelled. The call `Timer.SetTimer(pauseLength_)` is also left out, and `PlayOneShot` is recorded without its volume. These values only pass through to engine services.
- The internals of the timer, camera controller, resource manager, audio source and event display are not modelled. Their results are inputs to `Update`. Their effects are recorded as logs: pages shown, deltas applied, camera targets queued, clips played. The display's game-object activity is a boolean field.
- Button callbacks are values naming the method and the action they are bound to. How the event display later invokes them is not part of this model.
- The editor data of an action asset is passed to its constructor. This includes the `new int[2]` defaults of the three resource arrays, which the editor replaces. The editor attributes `CreateAssetMenu` and `Range` are not modelled.
- Exceptions are not modelled. In C# the following would throw, and here each is a precondition: a null engine reference dereferenced by `Update` or `End`; a null event display in `DecisionAction.Begin` (line 140); a null audio source in `AudioAction.Begin` (line 321); a null controller in `CameraMoveAction.Begin` with targets to queue (line 233); a null resource manager or an out-of-range index in `DecisionSelected` (line 186).
- `EventActions.DecisionAction.DecisionSelected`: C# shows the decision page before it reads the resource arrays. A choice that indexes the pages but not the resource arrays would therefore be shown and then throw. The model requires the choice to index all four arrays.
