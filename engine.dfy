/** Stand-ins for the engine objects the event actions talk to.

    Their internals are not part of this model: each class keeps only what an
    event action can observe of it, or a record of the calls an action makes
    on it, so that the actions' contracts can say which calls were made and in
    which order.
 */
module Engine {

  /** The event an action belongs to; the actions only store a reference to it. */
  class Event {
  }

  /** A camera target handed to the camera controller. */
  class CameraGoto {
  }

  /** An audio asset. */
  class AudioClip {
  }

  /** The resource manager; `updates` records every delta passed to
      UpdateResources, oldest first. */
  class ResourceManager {
    ghost var updates: seq<seq<int>>

    constructor ()
      ensures updates == []
    {
      updates := [];
    }
  }

  /** The camera controller; `pending` is its queue of goto positions. Whether a
      move has finished is an input to CameraMoveAction.Update. */
  class CameraController {
    var pending: seq<CameraGoto>

    constructor ()
      ensures pending == []
    {
      pending := [];
    }

    /** Queues one more camera target behind the ones already queued. */
    method AddGotoPosition(target: CameraGoto)
      modifies this
      ensures pending == old(pending) + [target]
    {
      pending := pending + [target];
    }
  }

  /** A countdown timer. Its length is a float and whether it has run out is an
      input to PauseAction.Update, so it has no observable state here. */
  class Timer {
    constructor ()
    {
    }
  }

  /** The audio source of the event controller; `oneShots` records the clips
      passed to PlayOneShot, oldest first. Whether it is still playing is an
      input to AudioAction.Update. */
  class AudioSource {
    ghost var oneShots: seq<AudioClip?>

    constructor ()
      ensures oneShots == []
    {
      oneShots := [];
    }

    method PlayOneShot(clip: AudioClip?)
      modifies this
      ensures oneShots == old(oneShots) + [clip]
    {
      oneShots := oneShots + [clip];
    }
  }
}
