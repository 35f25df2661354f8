/** The event actions of PettyKings: a base action and four kinds of action
    (decision, camera move, pause, audio) that an event runs one after another.

    Every action has the same lifecycle: Begin resets its state, Update is
    called once per frame and reports whether the action is still running,
    End is called when it has finished. The base action's state lives in
    class EventAction; each kind of action is a class whose `action` field is
    its own base part (the base class's fields of the same object), which its
    Begin resets through EventAction.Begin before recording its own kind.
 */
module EventActions {
  import opened Engine
  import Lifecycle

  /** The kind of an action, as reported by Type(). */
  datatype ActionType = Base | Decision | CameraMove | Pause | Audio

  /** A button callback of an event display: no callback yet, or one of the two
      callbacks of a decision action, bound to that action. */
  datatype ButtonDel =
    | NoCallback
    | OnDecisionSelected(target: DecisionAction)
    | OnContinuePressed(target: DecisionAction)

  /** What one page of the event display shows; only its button callbacks are
      modelled (its texts and images are editor data). */
  class EventDisplayData {
    var buttons: array<ButtonDel>

    constructor ()
      ensures buttons.Length == 0
    {
      buttons := new ButtonDel[0];
    }
  }

  /** The event display: `active` is whether its game object is active and
      `shown` records every page passed to Display, oldest first. */
  class EventDisplay {
    var active: bool
    ghost var shown: seq<EventDisplayData>

    constructor ()
      ensures !active && shown == []
    {
      active := false;
      shown := [];
    }
  }

  /** The state shared by every action, and the base action itself. */
  class EventAction {
    var type_: ActionType
    var currentEvent: Event?
    var actionRunning: bool
    var isBlocking: bool

    /** A new action asset: kind Base, no event yet, running and blocking. */
    constructor ()
      ensures type_ == Base && currentEvent == null
      ensures actionRunning && isBlocking
    {
      type_ := Base;
      currentEvent := null;
      actionRunning := true;
      isBlocking := true;
    }

    /** The kind of this action. What it is after each Begin is stated by
        that Begin's contract. */
    function Type(): (kind: ActionType)
      reads this
      ensures kind == type_
    {
      type_
    }

    /** Starts the action as part of `newEvent`. */
    method Begin(newEvent: Event?)
      modifies this
      ensures Type() == Base && currentEvent == newEvent && actionRunning
      ensures isBlocking == old(isBlocking)
    {
      type_ := Base;
      currentEvent := newEvent;
      actionRunning := true;
    }

    /** Finishing a base action does nothing. */
    method End()
      ensures unchanged(this)
    {
    }

    /** One frame of a base action: it reports the flag and changes nothing. */
    method Update() returns (running: bool)
      ensures running <==> actionRunning
    {
      running := actionRunning;
    }
  }

  /** Starts `a` as part of `newEvent` and records it as an action of kind `kind`. */
  method BeginAs(a: EventAction, newEvent: Event?, kind: ActionType)
    modifies a
    ensures a.Type() == kind && a.currentEvent == newEvent && a.actionRunning
    ensures a.isBlocking == old(a.isBlocking)
  {
    a.Begin(newEvent);
    a.type_ := kind;
  }

  /** A decision: the main page offers one button per decision; choosing one
      shows that decision's page and applies its resource delta, and that
      page's single button ends the action. With no decisions the main page's
      single button ends the action. */
  class DecisionAction {
    const action: EventAction
    const mainDisplay: EventDisplayData
    const decisionDisplay: array<EventDisplayData>
    /** Per-decision deltas of food, wood and men, indexed like decisionDisplay. */
    const decisionFood: array<int>
    const decisionWood: array<int>
    const decisionMen: array<int>

    var eventDisplay: EventDisplay?
    var resourceManager: ResourceManager?

    /** An action asset holding the given editor data, not yet begun. */
    constructor (main: EventDisplayData, decisions: array<EventDisplayData>,
                 food: array<int>, wood: array<int>, men: array<int>)
      ensures fresh(action)
      ensures action.type_ == Base && action.currentEvent == null
      ensures action.actionRunning && action.isBlocking
      ensures mainDisplay == main && decisionDisplay == decisions
      ensures decisionFood == food && decisionWood == wood && decisionMen == men
      ensures eventDisplay == null && resourceManager == null
    {
      action := new EventAction();
      mainDisplay := main;
      decisionDisplay := decisions;
      decisionFood, decisionWood, decisionMen := food, wood, men;
      eventDisplay, resourceManager := null, null;
    }

    /** Starts the decision: wires the buttons of the main page and of every
        decision page, activates the display and shows the main page. If the
        main page is also one of the decision pages, the decision pages' wiring
        is the one it keeps. */
    method Begin(newEvent: Event?, display: EventDisplay, resources: ResourceManager?)
      modifies this, action, display, mainDisplay, decisionDisplay[..]
      ensures eventDisplay == display && resourceManager == resources
      ensures action.Type() == Decision && action.currentEvent == newEvent && action.actionRunning
      ensures action.isBlocking == old(action.isBlocking)
      ensures forall k :: 0 <= k < decisionDisplay.Length ==>
                fresh(decisionDisplay[k].buttons) && decisionDisplay[k].buttons[..] == [OnContinuePressed(this)]
      ensures decisionDisplay.Length > 0 && mainDisplay !in decisionDisplay[..] ==>
                fresh(mainDisplay.buttons) && mainDisplay.buttons.Length == decisionDisplay.Length &&
                forall k :: 0 <= k < mainDisplay.buttons.Length ==> mainDisplay.buttons[k] == OnDecisionSelected(this)
      ensures decisionDisplay.Length == 0 ==>
                fresh(mainDisplay.buttons) && mainDisplay.buttons[..] == [OnContinuePressed(this)]
      ensures display.active && display.shown == old(display.shown) + [mainDisplay]
    {
      BeginAs(action, newEvent, Decision);
      eventDisplay := display;
      resourceManager := resources;

      if decisionDisplay.Length > 0 {
        var selected := SelectionButtons();
        mainDisplay.buttons := selected;
        WireDecisionPages();
      } else {
        mainDisplay.buttons := new ButtonDel[1] [OnContinuePressed(this)];
      }

      display.active := true;
      display.shown := display.shown + [mainDisplay];
    }

    /** A new array of one DecisionSelected callback per decision. */
    method SelectionButtons() returns (selected: array<ButtonDel>)
      ensures fresh(selected) && selected.Length == decisionDisplay.Length
      ensures forall k :: 0 <= k < selected.Length ==> selected[k] == OnDecisionSelected(this)
    {
      selected := new ButtonDel[decisionDisplay.Length];
      for i := 0 to selected.Length
        invariant forall k :: 0 <= k < i ==> selected[k] == OnDecisionSelected(this)
      {
        selected[i] := OnDecisionSelected(this);
      }
    }

    /** Gives every decision page a new array holding the single callback
        ContinuePressed. */
    method WireDecisionPages()
      modifies decisionDisplay[..]
      ensures forall k :: 0 <= k < decisionDisplay.Length ==>
                fresh(decisionDisplay[k].buttons) && decisionDisplay[k].buttons[..] == [OnContinuePressed(this)]
    {
      for i := 0 to decisionDisplay.Length
        invariant forall k :: 0 <= k < i ==>
                    fresh(decisionDisplay[k].buttons) && decisionDisplay[k].buttons[..] == [OnContinuePressed(this)]
      {
        decisionDisplay[i].buttons := new ButtonDel[1] [OnContinuePressed(this)];
      }
    }

    /** Finishing a decision hides the event display. */
    method End()
      requires eventDisplay != null
      modifies eventDisplay`active
      ensures !eventDisplay.active
    {
      eventDisplay.active := false;
    }

    /** One frame of a decision: the display is kept active exactly while the
        action runs, and the flag is reported unchanged. */
    method Update() returns (running: bool)
      requires eventDisplay != null
      modifies eventDisplay`active
      ensures running == action.actionRunning
      ensures eventDisplay.active == action.actionRunning
    {
      if action.actionRunning {
        eventDisplay.active := true;
      } else {
        eventDisplay.active := false;
      }
      running := action.actionRunning;
    }

    /** The main page's button for `choice`: shows that decision's page and
        applies its resource delta, provided the action has been begun. It
        never ends the action. */
    method DecisionSelected(choice: int)
      requires eventDisplay != null ==>
                 resourceManager != null && 0 <= choice < decisionDisplay.Length && choice < decisionFood.Length &&
                 choice < decisionWood.Length && choice < decisionMen.Length
      modifies eventDisplay, resourceManager
      ensures unchanged(action)
      ensures eventDisplay == null && resourceManager != null ==> unchanged(resourceManager)
      ensures eventDisplay != null ==>
                eventDisplay.active == old(eventDisplay.active) &&
                eventDisplay.shown == old(eventDisplay.shown) + [decisionDisplay[choice]] &&
                resourceManager.updates == old(resourceManager.updates) +
                  [[decisionFood[choice], decisionWood[choice], decisionMen[choice]]]
    {
      if eventDisplay != null {
        eventDisplay.shown := eventDisplay.shown + [decisionDisplay[choice]];
        var delta := GetDecisionResources(choice);
        resourceManager.updates := resourceManager.updates + [delta[..]];
      }
    }

    /** A decision page's button (or the main page's, with no decisions): ends
        the action, whichever button it was. */
    method ContinuePressed(choice: int)
      modifies action`actionRunning
      ensures !action.actionRunning
    {
      action.actionRunning := false;
    }

    /** The food, wood and men delta of decision `choice`, in a new array. */
    method GetDecisionResources(choice: int) returns (resources: array<int>)
      requires 0 <= choice < decisionFood.Length && choice < decisionWood.Length && choice < decisionMen.Length
      ensures fresh(resources)
      ensures resources[..] == [decisionFood[choice], decisionWood[choice], decisionMen[choice]]
    {
      resources := new int[3];
      resources[0] := decisionFood[choice];
      resources[1] := decisionWood[choice];
      resources[2] := decisionMen[choice];
    }
  }

  /** Pressing continue and then updating ends a decision and hides its display. */
  method ContinueThenUpdate(d: DecisionAction, choice: int) returns (running: bool)
    requires d.eventDisplay != null
    modifies d.action`actionRunning, d.eventDisplay`active
    ensures !running && !d.action.actionRunning && !d.eventDisplay.active
  {
    d.ContinuePressed(choice);
    running := d.Update();
  }

  /** A camera move: queues its targets on the camera controller and runs
      until the controller reports the move finished. */
  class CameraMoveAction {
    const action: EventAction
    const cameraGoto: array<CameraGoto>
    var cameraController: CameraController?

    constructor (targets: array<CameraGoto>)
      ensures fresh(action)
      ensures action.type_ == Base && action.currentEvent == null
      ensures action.actionRunning && action.isBlocking
      ensures cameraGoto == targets && cameraController == null
    {
      action := new EventAction();
      cameraGoto := targets;
      cameraController := null;
    }

    /** Starts the move: every target is queued on `controller`, in order.
        The controller is only used when there is a target to queue. */
    method Begin(newEvent: Event?, controller: CameraController?)
      requires cameraGoto.Length > 0 ==> controller != null
      modifies this, action, controller
      ensures action.Type() == CameraMove && action.currentEvent == newEvent && action.actionRunning
      ensures action.isBlocking == old(action.isBlocking)
      ensures cameraController == controller
      ensures controller != null ==> controller.pending == old(controller.pending) + cameraGoto[..]
    {
      BeginAs(action, newEvent, CameraMove);
      cameraController := controller;
      for i := 0 to cameraGoto.Length
        modifies controller
        invariant controller != null ==> controller.pending == old(controller.pending) + cameraGoto[..i]
      {
        controller.AddGotoPosition(cameraGoto[i]);
      }
    }

    /** Finishing a camera move does nothing. */
    method End()
      ensures unchanged(this, action)
    {
    }

    /** One frame of the move: the flag is cleared once the controller reports
        the move finished, and the new flag is returned. */
    method Update(finishedMove: bool) returns (running: bool)
      requires cameraController != null
      modifies action`actionRunning
      ensures action.actionRunning == Lifecycle.Step(old(action.actionRunning), finishedMove)
      ensures running == action.actionRunning
    {
      if finishedMove {
        action.actionRunning := false;
      }
      running := action.actionRunning;
    }
  }

  /** A pause: runs until a new timer runs out. */
  class PauseAction {
    const action: EventAction
    var timer: Timer?

    constructor ()
      ensures fresh(action)
      ensures action.type_ == Base && action.currentEvent == null
      ensures action.actionRunning && action.isBlocking
      ensures timer == null
    {
      action := new EventAction();
      timer := null;
    }

    /** Starts the pause with a new timer. */
    method Begin(newEvent: Event?)
      modifies this, action
      ensures action.Type() == Pause && action.currentEvent == newEvent && action.actionRunning
      ensures action.isBlocking == old(action.isBlocking)
      ensures timer != null && fresh(timer)
    {
      BeginAs(action, newEvent, Pause);
      timer := new Timer();
    }

    /** Finishing a pause does nothing. */
    method End()
      ensures unchanged(this, action)
    {
    }

    /** One frame of the pause: the flag is cleared once the timer reports that
        it has run out, and the new flag is returned. */
    method Update(timerDone: bool) returns (running: bool)
      requires timer != null
      modifies action`actionRunning
      ensures action.actionRunning == Lifecycle.Step(old(action.actionRunning), timerDone)
      ensures running == action.actionRunning
    {
      if timerDone {
        action.actionRunning := false;
      }
      running := action.actionRunning;
    }
  }

  /** An audio cue: plays its clip once and runs until the source falls silent. */
  class AudioAction {
    const action: EventAction
    const audioClip: AudioClip?
    var audioSource: AudioSource?

    constructor (clip: AudioClip?)
      ensures fresh(action)
      ensures action.type_ == Base && action.currentEvent == null
      ensures action.actionRunning && action.isBlocking
      ensures audioClip == clip && audioSource == null
    {
      action := new EventAction();
      audioClip := clip;
      audioSource := null;
    }

    /** Starts the cue: the clip is played once on `source`. */
    method Begin(newEvent: Event?, source: AudioSource)
      modifies this, action, source
      ensures action.Type() == Audio && action.currentEvent == newEvent && action.actionRunning
      ensures action.isBlocking == old(action.isBlocking)
      ensures audioSource == source
      ensures source.oneShots == old(source.oneShots) + [audioClip]
    {
      BeginAs(action, newEvent, Audio);
      audioSource := source;
      source.PlayOneShot(audioClip);
    }

    /** Finishing an audio cue does nothing. */
    method End()
      ensures unchanged(this, action)
    {
    }

    /** One frame of the cue: the flag is cleared once the source is no longer
        playing, and the new flag is returned. */
    method Update(isPlaying: bool) returns (running: bool)
      requires audioSource != null
      modifies action`actionRunning
      ensures action.actionRunning == Lifecycle.Step(old(action.actionRunning), !isPlaying)
      ensures running == action.actionRunning
    {
      if !isPlaying {
        action.actionRunning := false;
      }
      running := action.actionRunning;
    }
  }

  /** The flags of a run of frames of an audio cue: the completion signal of
      each frame is that the source is not playing. */
  function Silences(playing: seq<bool>): (finished: seq<bool>)
  {
    seq(|playing|, k requires 0 <= k < |playing| => !playing[k])
  }

  /** Updates a camera move once per frame, as the event controller does,
      with that frame's FinishedMove() answer. */
  method RunCameraMove(a: CameraMoveAction, finished: seq<bool>) returns (reports: seq<bool>)
    requires a.cameraController != null
    modifies a.action`actionRunning
    ensures reports == Lifecycle.Reports(old(a.action.actionRunning), finished)
    ensures a.action.actionRunning == Lifecycle.RunningAfter(old(a.action.actionRunning), finished)
  {
    ghost var start := a.action.actionRunning;
    reports := [];
    for i := 0 to |finished|
      invariant reports == Lifecycle.Reports(start, finished[..i])
      invariant a.action.actionRunning == Lifecycle.RunningAfter(start, finished[..i])
    {
      Lifecycle.RunOneMoreFrame(start, finished, i);
      var running := a.Update(finished[i]);
      reports := reports + [running];
    }
    assert finished[..|finished|] == finished;
  }

  /** Updates a pause once per frame with that frame's UpdateTimer() answer. */
  method RunPause(a: PauseAction, timerDone: seq<bool>) returns (reports: seq<bool>)
    requires a.timer != null
    modifies a.action`actionRunning
    ensures reports == Lifecycle.Reports(old(a.action.actionRunning), timerDone)
    ensures a.action.actionRunning == Lifecycle.RunningAfter(old(a.action.actionRunning), timerDone)
  {
    ghost var start := a.action.actionRunning;
    reports := [];
    for i := 0 to |timerDone|
      invariant reports == Lifecycle.Reports(start, timerDone[..i])
      invariant a.action.actionRunning == Lifecycle.RunningAfter(start, timerDone[..i])
    {
      Lifecycle.RunOneMoreFrame(start, timerDone, i);
      var running := a.Update(timerDone[i]);
      reports := reports + [running];
    }
    assert timerDone[..|timerDone|] == timerDone;
  }

  /** Updates an audio cue once per frame with that frame's isPlaying value. */
  method RunAudio(a: AudioAction, playing: seq<bool>) returns (reports: seq<bool>)
    requires a.audioSource != null
    modifies a.action`actionRunning
    ensures reports == Lifecycle.Reports(old(a.action.actionRunning), Silences(playing))
    ensures a.action.actionRunning == Lifecycle.RunningAfter(old(a.action.actionRunning), Silences(playing))
  {
    ghost var start := a.action.actionRunning;
    ghost var finished := Silences(playing);
    reports := [];
    for i := 0 to |playing|
      invariant reports == Lifecycle.Reports(start, finished[..i])
      invariant a.action.actionRunning == Lifecycle.RunningAfter(start, finished[..i])
    {
      Lifecycle.RunOneMoreFrame(start, finished, i);
      var running := a.Update(playing[i]);
      reports := reports + [running];
    }
    assert finished[..|finished|] == finished;
  }
}
