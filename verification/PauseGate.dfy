/** The pause gate as a mutable object, one operation at a time. */
module PauseGate {

  class Channel {
    var closed: bool

    constructor ()
      ensures !closed
    {
      closed := false;
    }
  }

  /** resumed is closed while running and open while paused. */
  class Gate {
    var resumed: Channel

    constructor ()
      ensures fresh(this) && fresh(resumed) && resumed.closed
    {
      var ch := new Channel();
      resumed := ch;
      new;
      resumed.closed := true;
    }

    /** pause: a new stretch gets a new channel, and channels handed out earlier stay as they are. */
    method Pause()
      modifies this
      ensures !resumed.closed
      ensures old(resumed.closed) ==> fresh(resumed)
      ensures !old(resumed.closed) ==> resumed == old(resumed)
    {
      if resumed.closed {
        resumed := new Channel();
      }
    }

    /** resume: closes the channel of the current stretch. */
    method Resume()
      modifies resumed
      ensures resumed == old(resumed) && resumed.closed
    {
      if !resumed.closed {
        resumed.closed := true;
      }
    }

    method IsPaused() returns (paused: bool)
      ensures paused <==> !resumed.closed
    {
      paused := !resumed.closed;
    }
  }
}
