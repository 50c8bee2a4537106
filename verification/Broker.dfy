/** What a broker may say to a publish, whatever it did with it. */
module Broker {
  import opened Settlement

  /** Any answer a publish can end with, for a target that is there or not. */
  method Answer(queueExists: bool) returns (reply: Reply, stored: bool)
    ensures Possible(reply, stored, queueExists)
  {
    stored := false;
    if * {
      reply := Blocked;
    } else if * {
      reply := NoPermit;
    } else if * {
      reply := Answered(false, false);
    } else if * {
      reply := Answered(true, false);
    } else {
      if * { stored := queueExists; }
      if * {
        reply := TimedOut;
      } else if * {
        reply := Raised;
      } else {
        reply := Answered(stored, true);
        if * { reply := Answered(false, true); }
      }
    }
  }
}
