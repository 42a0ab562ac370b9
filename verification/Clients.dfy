/** A connected client. */
module Clients {
  import opened Options
  import opened Quota
  import opened ClientQueue

  class Client {
    const profile: Profile
    const capacity: nat
    const policy: string
    var send: seq<Frame>
    var closed: bool
    var unregistered: bool

    function View(): Queue
      reads this
    {
      Queue(send, closed)
    }

    constructor (profile: Profile, queueSize: int, policy: string)
      ensures this.profile == profile && this.capacity == if queueSize <= 0 then 32 else queueSize
      ensures this.policy == if policy == "" then DISCONNECT else policy
      ensures View() == START.q && !unregistered
    {
      this.profile := profile;
      this.capacity := if queueSize <= 0 then 32 else queueSize;
      this.policy := if policy == "" then DISCONNECT else policy;
      send := [];
      closed := false;
      unregistered := false;
    }

    /** True only for the first caller. */
    method MarkUnregistered() returns (first: bool)
      modifies this`unregistered
      ensures first == !old(unregistered) && unregistered
    {
      first := !unregistered;
      unregistered := true;
    }

    /** Offers a frame without blocking, under the client's policy. */
    method EnqueueFrame(frame: Frame) returns (ok: bool)
      modifies this`send, this`closed
      ensures (View(), ok) == Offer(old(View()), capacity, policy, frame)
    {
      if closed {
        return false;
      }
      if |send| < capacity {
        send := send + [frame];
        return true;
      }
      if policy == DROP_OLDEST {
        if send != [] {
          send := send[1..];
        }
        if |send| < capacity {
          send := send + [frame];
          return true;
        }
        return false;
      } else if policy == DROP_NEWEST {
        return false;
      } else {
        Close();
        return false;
      }
    }

    method Close()
      modifies this`closed
      ensures closed
    {
      closed := true;
    }

    /** The writer takes the next frame, if there is one. */
    method Take() returns (frame: Option<Frame>)
      modifies this`send
      ensures frame == if old(send) == [] then None else Some(old(send)[0])
      ensures send == if old(send) == [] then [] else old(send)[1..]
    {
      if send == [] {
        return None;
      }
      frame := Some(send[0]);
      send := send[1..];
    }
  }
}
