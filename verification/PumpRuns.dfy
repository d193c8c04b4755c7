/**
  What the histories that the pump's contracts speak of come to: which calls the frames on the wire
  come from, and what one round takes when nobody else touches the queue.
 */
module PumpRuns {
  import opened Options
  import opened Messages
  import opened Coalescing

  // ---------------------------------------------------------------- frames and calls

  /** `part` is the history up to some earlier call of `calls`. */
  ghost predicate Earlier(part: Calls, calls: Calls) {
    part == calls || (calls.Made? && Earlier(part, calls.before))
  }

  ghost predicate Sends(what: What) {
    what.WriteMessage? || what.CloseWriter?
  }

  /** How many calls succeeded in sending a frame. */
  ghost function Sendings(env: Env, calls: Calls): nat {
    match calls
    case Silent => 0
    case Made(before, at, what) => Sendings(env, before) + if env.ok(at) && Sends(what) then 1 else 0
  }

  /** The wire holds one frame for each call that succeeded in sending one, and nothing else. */
  lemma {:induction false} OneFrameEach(env: Env, calls: Calls)
    ensures |WireAfter(env, calls)| == Sendings(env, calls)
  {
    if calls.Made? {
      OneFrameEach(env, calls.before);
    }
  }

  /** Frame i was put there by a call that succeeded, with the frames before it on the wire already. */
  lemma {:induction false} FrameWasSent(env: Env, calls: Calls, i: nat) returns (part: Calls)
    requires i < |WireAfter(env, calls)|
    ensures Earlier(part, calls) && part.Made? && env.ok(part.at)
    ensures part.what == WriteMessage(WireAfter(env, calls)[i]) || part.what == CloseWriter
    ensures WireAfter(env, part) == WireAfter(env, calls)[..i + 1]
  {
    if i < |WireAfter(env, calls.before)| {
      part := FrameWasSent(env, calls.before, i);
    } else {
      part := calls;
    }
  }

  /** Nothing is sent by the call that failed, nor by any other once a call has failed, but for a close frame. */
  lemma NothingAfterFailure(env: Env, calls: Calls, exit: Exit)
    requires LastFails(env, calls) || EndsWithClose(env, calls)
    ensures LastFails(env, calls) ==> WireAfter(env, calls) == WireAfter(env, calls.before)
    ensures EndsWithClose(env, calls) && calls.what != SetDeadline && env.ok(calls.at) ==>
              WireAfter(env, calls) == WireAfter(env, calls.before.before) + [Close]
    ensures EndsWithClose(env, calls) && calls.what != SetDeadline && !env.ok(calls.at) ==>
              WireAfter(env, calls) == WireAfter(env, calls.before.before)
  {}

  // ---------------------------------------------------------------- a queue that nobody adds to

  /** The answers of a queue that holds exactly the messages of `all` that have not been delivered yet. */
  ghost predicate Quiet(env: Env, all: seq<Item>, from: History, to: History) {
    to == from ||
    (to.Polled? && Quiet(env, all, from, to.before) &&
     var n := |Delivered(env, to.before)|;
     env.recv(to.at) == if n < |all| then Some(all[n]) else None)
  }

  lemma {:induction false} DeliversInOrder(env: Env, all: seq<Item>, from: History, to: History)
    requires Delivered(env, from) <= all && Quiet(env, all, from, to)
    ensures Delivered(env, to) <= all
  {
    if to != from {
      DeliversInOrder(env, all, from, to.before);
    }
  }

  ghost function Looks(h: History): nat {
    if h.Nothing? then 0 else Looks(h.before) + 1
  }

  lemma {:induction false} FoundDelivers(env: Env, from: History, to: History, n: nat)
    requires Found(env, from, to, n)
    ensures |Delivered(env, to)| == |Delivered(env, from)| + n && Looks(to) == Looks(from) + n
  {
    if n > 0 {
      FoundDelivers(env, from, to.before, n - 1);
    }
  }

  lemma {:induction false} FoundTextFinds(env: Env, from: History, to: History, n: nat)
    requires FoundText(env, from, to, n)
    ensures Found(env, from, to, n)
  {
    if n > 0 {
      FoundTextFinds(env, from, to.before, n - 1);
    }
  }

  /** A flush of all that is queued takes all that is queued. */
  lemma FlushTakesAll(env: Env, all: seq<Item>, from: History, to: History, n: nat)
    requires Delivered(env, from) <= all && Quiet(env, all, from, to)
    requires Drained(env, from, to, n) && n == |all| - |Delivered(env, from)|
    ensures Delivered(env, to) == all
  {
    DeliversInOrder(env, all, from, to);
    if Found(env, from, to, n) {
      FoundDelivers(env, from, to, n);
    } else {
      var m :| 0 <= m < n && Found(env, from, to.before, m);
      FoundDelivers(env, from, to.before, m);
    }
  }

  /** A batch takes all that is queued, or up to and with the first message that is not text. */
  lemma BatchTakesAll(env: Env, all: seq<Item>, from: History, to: History, n: nat)
    requires Delivered(env, from) <= all && Quiet(env, all, from, to)
    requires Collected(env, from, to, n) && n == |all| - |Delivered(env, from)|
    ensures Delivered(env, to) <= all
    ensures || Delivered(env, to) == all
            || (|Delivered(env, to)| > |Delivered(env, from)| && all[|Delivered(env, to)| - 1].msgType != TEXT)
  {
    DeliversInOrder(env, all, from, to);
    if FoundText(env, from, to, n) {
      FoundTextFinds(env, from, to, n);
      FoundDelivers(env, from, to, n);
    } else {
      var m :| 0 <= m < n && FoundText(env, from, to.before, m);
      FoundTextFinds(env, from, to.before, m);
      FoundDelivers(env, from, to.before, m);
    }
  }

  /**
    A round in which a message arrives, or done after a graceful close, while nobody else touches the queue:
    it takes everything that was queued, unless it is coalescing and comes upon a message that is not text,
    which is then the last one it takes.
   */
  lemma QuietRoundTakesAll(env: Env, coalesce: bool, graceful: bool, r: Round, all: seq<Item>)
    requires Complete(env, coalesce, graceful, r)
    requires env.select(r.at) != Tick && (env.select(r.at) == DoneSignal ==> graceful)
    requires Delivered(env, r.from) <= all && Quiet(env, all, r.from, r.to)
    requires forall k :: r.at < k <= r.at + 4 ==> env.len(k) == |all| - |Delivered(env, r.from)|
    ensures Delivered(env, r.to) <= all
    ensures || Delivered(env, r.to) == all
            || (&& coalesce && env.select(r.at).Received? && env.select(r.at).item.msgType == TEXT
                && |Delivered(env, r.to)| > |Delivered(env, r.from)|
                && all[|Delivered(env, r.to)| - 1].msgType != TEXT)
  {
    var n := |all| - |Delivered(env, r.from)|;
    assert forall k :: r.at < k <= r.at + 4 ==> env.len(k) == n;
    match env.select(r.at)
    case DoneSignal =>
      FlushTakesAll(env, all, r.from, r.to, n);
    case Received(item) =>
      if coalesce && item.msgType == TEXT {
        BatchTakesAll(env, all, r.from, r.to, n);
      } else if n > 0 || !coalesce {
        FlushTakesAll(env, all, r.from, r.to, n);
      }
  }
}
