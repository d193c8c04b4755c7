/**
  The write pump and its coalescer. Consecutive text messages taken from the send queue are joined
  with newline bytes into one frame; a receiver splits them again. The queue is never assumed to
  stand still: every length the pump sees, every message a read returns and every failure of the
  connection is the environment's choice.
 */
module Coalescing {
  import opened Options
  import opened Messages

  const NEWLINE: byte := 10

  /** A complete WebSocket frame; a message whose writer was not closed never reaches the wire. */
  datatype Frame = Data(msgType: int, data: seq<byte>) | Ping | Close

  /** What a wire entry was written for. */
  datatype Written = Message(items: seq<Item>) | Control(frame: Frame)

  // ---------------------------------------------------------------- the encoding

  /** The payloads of a batch joined with newlines. */
  ghost function Join(items: seq<Item>): seq<byte>
    requires |items| > 0
  {
    if |items| == 1 then items[0].data
    else Join(items[..|items| - 1]) + [NEWLINE] + items[|items| - 1].data
  }

  ghost predicate AllText(items: seq<Item>) {
    forall i :: 0 <= i < |items| ==> items[i].msgType == TEXT
  }

  /** One message of any type, or a batch of text messages. */
  ghost predicate Batch(items: seq<Item>) {
    |items| == 1 || (|items| > 1 && AllText(items))
  }

  ghost predicate WellFormed(w: Written) {
    if w.Message? then Batch(w.items) else w.frame == Ping || w.frame == Close
  }

  ghost function Encode(w: Written): Frame
    requires WellFormed(w)
  {
    match w
    case Message(items) => Data(items[0].msgType, Join(items))
    case Control(frame) => frame
  }

  ghost function ItemsOf(w: Written): seq<Item> {
    if w.Message? then w.items else []
  }

  /** All messages written, in order. */
  ghost function Items(log: seq<Written>): seq<Item> {
    if |log| == 0 then [] else Items(log[..|log| - 1]) + ItemsOf(log[|log| - 1])
  }

  ghost predicate Matches(wire: seq<Frame>, log: seq<Written>) {
    && |wire| == |log|
    && (|log| > 0 ==>
          var n := |log| - 1;
          WellFormed(log[n]) && wire[n] == Encode(log[n]) && Matches(wire[..n], log[..n]))
  }

  lemma MatchesAppend(before: seq<Frame>, wire: seq<Frame>, log: seq<Written>, w: Written, more: seq<Written>)
    requires Matches(before, log) && WellFormed(w) && wire == before + [Encode(w)] && more == log + [w]
    ensures Matches(wire, more) && Items(more) == Items(log) + ItemsOf(w)
  {
    assert wire[..|before|] == before;
    assert more[..|log|] == log;
  }

  lemma JoinAppend(items: seq<Item>, x: Item)
    requires |items| > 0
    ensures Join(items + [x]) == Join(items) + [NEWLINE] + x.data
  {
    assert (items + [x])[..|items|] == items;
  }

  /** `after` adds one text batch starting with `first`, of at most n + 1 messages, and perhaps one other message. */
  ghost predicate OneBatch(before: seq<Written>, after: seq<Written>, first: Item, n: nat) {
    && |before| < |after| <= |before| + 2
    && after[..|before|] == before
    && after[|before|].Message?
    && AllText(after[|before|].items) && 0 < |after[|before|].items| <= n + 1 && after[|before|].items[0] == first
    && (|after| == |before| + 2 ==>
          var last := after[|before| + 1];
          last.Message? && |last.items| == 1 && last.items[0].msgType != TEXT)
  }

  // ---------------------------------------------------------------- the pump

  datatype Event = DoneSignal | Received(item: Item) | Tick

  /**
    The environment's answers, numbered by the order in which they are asked for: the queue length,
    the result of a non-blocking receive, whether a call on the connection succeeds, and what the
    pump's select delivers.
   */
  datatype Env = Env(len: nat -> nat, recv: nat -> Option<Item>, ok: nat -> bool, select: nat -> Event)

  /** Why the loop ended: it has not, the client was unregistered, a graceful close was flushed, or a write failed. */
  datatype Exit = Running | Unregistered | Flushed | Failed

  // ---------------------------------------------------------------- the connection

  /** What the connection is asked to do; a writer sends nothing until it is closed. */
  datatype What = SetDeadline | WriteMessage(frame: Frame) | NextWriter | WritePart(data: seq<byte>) | CloseWriter

  /** Every call on the connection, latest first, with the number of the answer it got. */
  datatype Calls = Silent | Made(before: Calls, at: nat, what: What)

  /** What is in the open writer after one more call. */
  ghost function Opened(what: What, ok: bool, open: seq<byte>): seq<byte> {
    if !ok then open
    else
      match what
      case NextWriter => []
      case WritePart(data) => open + data
      case _ => open
  }

  /** The wire after one more call: a message, or the writer's contents when it is closed, if that succeeds. */
  ghost function Sent(what: What, ok: bool, wire: seq<Frame>, open: seq<byte>): seq<Frame> {
    if !ok then wire
    else
      match what
      case WriteMessage(frame) => wire + [frame]
      case CloseWriter => wire + [Data(TEXT, open)]
      case _ => wire
  }

  ghost function OpenAfter(env: Env, calls: Calls): seq<byte> {
    match calls
    case Silent => []
    case Made(before, at, what) => Opened(what, env.ok(at), OpenAfter(env, before))
  }

  /** The wire after these calls: what the successful ones put there. */
  ghost function WireAfter(env: Env, calls: Calls): seq<Frame> {
    match calls
    case Silent => []
    case Made(before, at, what) => Sent(what, env.ok(at), WireAfter(env, before), OpenAfter(env, before))
  }

  /** Every answer is used once, in the order given. */
  ghost predicate CallsInOrder(calls: Calls, clock: nat) {
    calls.Silent? || (calls.at < clock && CallsInOrder(calls.before, calls.at))
  }

  ghost predicate AllSucceed(env: Env, calls: Calls) {
    calls.Silent? || (env.ok(calls.at) && AllSucceed(env, calls.before))
  }

  /** The last call failed, and it was the first to do so. */
  ghost predicate LastFails(env: Env, calls: Calls) {
    calls.Made? && !env.ok(calls.at) && AllSucceed(env, calls.before)
  }

  /** Of the calls up to the end of a flush none failed, or the last one did. */
  ghost predicate FlushEnds(env: Env, calls: Calls) {
    AllSucceed(env, calls) || LastFails(env, calls)
  }

  /**
    A graceful close: whether or not the flush before it failed, a deadline is set, and if that works the
    close frame is written.
   */
  ghost predicate EndsWithClose(env: Env, calls: Calls) {
    && calls.Made?
    && if calls.what == SetDeadline then !env.ok(calls.at) && FlushEnds(env, calls.before)
       else
         && calls.what == WriteMessage(Close)
         && calls.before.Made? && calls.before.what == SetDeadline && env.ok(calls.before.at)
         && FlushEnds(env, calls.before.before)
  }

  // ---------------------------------------------------------------- what the pump has read

  /** Every look at the queue, latest first: by the select, or by a non-blocking receive. */
  datatype History = Nothing | Selected(before: History, at: nat) | Polled(before: History, at: nat)

  /** The messages these looks delivered, in order. */
  ghost function Delivered(env: Env, h: History): seq<Item> {
    match h
    case Nothing => []
    case Selected(before, at) => Delivered(env, before) + if env.select(at).Received? then [env.select(at).item] else []
    case Polled(before, at) => Delivered(env, before) + if env.recv(at).Some? then [env.recv(at).value] else []
  }

  /** Every answer is used once, in the order given. */
  ghost predicate InOrder(h: History, clock: nat) {
    h.Nothing? || (h.at < clock && InOrder(h.before, h.at))
  }

  /** A read that ends a batch: the queue is empty, or the message is not text. */
  ghost predicate EndsBatch(r: Option<Item>) {
    r.None? || r.value.msgType != TEXT
  }

  /** From `from` to `to` there are n receives, each of which found a message. */
  ghost predicate Found(env: Env, from: History, to: History, n: nat) {
    if n == 0 then to == from
    else to.Polled? && env.recv(to.at).Some? && Found(env, from, to.before, n - 1)
  }

  /** From `from` to `to` there are n receives, each of which found a text message. */
  ghost predicate FoundText(env: Env, from: History, to: History, n: nat) {
    if n == 0 then to == from
    else to.Polled? && !EndsBatch(env.recv(to.at)) && FoundText(env, from, to.before, n - 1)
  }

  /** The reads of a flush of n messages: n that found one, or fewer and then one that found the queue empty. */
  ghost predicate Drained(env: Env, from: History, to: History, n: nat) {
    || Found(env, from, to, n)
    || (to.Polled? && env.recv(to.at).None? && exists m :: 0 <= m < n && Found(env, from, to.before, m))
  }

  /** The reads of a batch after n messages were seen queued: n text messages, or fewer and one that ends the batch. */
  ghost predicate Collected(env: Env, from: History, to: History, n: nat) {
    || FoundText(env, from, to, n)
    || (to.Polled? && EndsBatch(env.recv(to.at)) && exists m :: 0 <= m < n && FoundText(env, from, to.before, m))
  }

  /** The reads that follow a coalesced first message, when the queue's length is asked for at `start`. */
  ghost predicate CoalescedReads(env: Env, first: Item, start: nat, from: History, to: History) {
    if first.msgType == TEXT then Collected(env, from, to, env.len(start))
    else if env.len(start) == 0 then to == from
    else Drained(env, from, to, env.len(start + 2))
  }

  /** The reads that follow a message the select delivered just before `start`. */
  ghost predicate ReadsAfter(env: Env, coalesce: bool, first: Item, start: nat, from: History, to: History) {
    if coalesce then CoalescedReads(env, first, start + 1, from, to)
    else Drained(env, from, to, env.len(start + 2))
  }

  /** The reads that an event calls for, when the turn begins at `start`. */
  ghost predicate Fitting(
      env: Env, coalesce: bool, graceful: bool, event: Event, start: nat, from: History, to: History)
  {
    match event
    case Received(item) => ReadsAfter(env, coalesce, item, start, from, to)
    case DoneSignal => if graceful then Drained(env, from, to, env.len(start)) else to == from
    case Tick => to == from
  }

  /** One turn of the pump's loop: where it selected, and the history after the select and at the end. */
  datatype Round = Round(at: nat, from: History, to: History)

  ghost predicate Complete(env: Env, coalesce: bool, graceful: bool, r: Round) {
    Fitting(env, coalesce, graceful, env.select(r.at), r.at + 1, r.from, r.to)
  }

  ghost function LastOf(rounds: seq<Round>): History {
    if |rounds| == 0 then Nothing else rounds[|rounds| - 1].to
  }

  /** The rounds make up a history: each starts with its select where the one before it ended. */
  ghost predicate Chained(rounds: seq<Round>) {
    forall i :: 0 <= i < |rounds| ==> rounds[i].from == Selected(LastOf(rounds[..i]), rounds[i].at)
  }

  /** `after` extends `before` by frames of one message each. */
  ghost predicate Singly(before: seq<Written>, after: seq<Written>) {
    && before <= after
    && forall i :: |before| <= i < |after| ==> after[i].Message? && |after[i].items| == 1
  }

  lemma SinglyTwice(a: seq<Written>, b: seq<Written>, c: seq<Written>)
    requires Singly(a, b) && Singly(b, c)
    ensures Singly(a, c)
  {
    assert forall i :: |a| <= i < |b| ==> c[i] == b[i];
  }

  /** The events of the rounds so far: done was signalled in the last one if at all, and then the loop ended. */
  ghost predicate EventsFit(env: Env, rounds: seq<Round>, exit: Exit) {
    forall i :: 0 <= i < |rounds| ==>
      (env.select(rounds[i].at) == DoneSignal <==> i == |rounds| - 1 && (exit == Flushed || exit == Unregistered))
  }

  /** Every round read what its event calls for, but the last one perhaps only if `whole` says so. */
  ghost predicate RoundsFit(env: Env, coalesce: bool, graceful: bool, rounds: seq<Round>, whole: bool) {
    forall i :: 0 <= i < |rounds| && (i < |rounds| - 1 || whole) ==> Complete(env, coalesce, graceful, rounds[i])
  }

  lemma OneMoreRound(
      env: Env, coalesce: bool, graceful: bool, rounds: seq<Round>, r: Round, exit: Exit, whole: bool)
    requires Chained(rounds) && EventsFit(env, rounds, Running) && RoundsFit(env, coalesce, graceful, rounds, true)
    requires r.from == Selected(LastOf(rounds), r.at)
    requires env.select(r.at) == DoneSignal <==> exit == Flushed || exit == Unregistered
    requires whole ==> Complete(env, coalesce, graceful, r)
    ensures EventsFit(env, rounds + [r], exit) && RoundsFit(env, coalesce, graceful, rounds + [r], whole)
    ensures Chained(rounds + [r])
  {
    var more := rounds + [r];
    forall i | 0 <= i < |more|
      ensures more[i].from == Selected(LastOf(more[..i]), more[i].at)
    {
      assert i < |rounds| ==> more[..i] == rounds[..i];
      assert more[..|rounds|] == rounds;
    }
  }

  class Pump {
    const env: Env
    const coalesce: bool
    var clock: nat
    var wire: seq<Frame>         // the connection: frames sent
    var open: seq<byte>          // the connection: bytes given to the writer
    var sent: nat                // total passed to IncrementMessagesSent
    ghost var calls: Calls       // history: calls on the connection
    ghost var armed: bool        // history: a write deadline has been set since the select
    ghost var taken: seq<Item>   // history: messages received from the queue
    ghost var seen: History      // history: every look at the queue
    ghost var rounds: seq<Round> // history: the turns of the loop
    ghost var log: seq<Written>  // history: what each frame was written for

    /** The connection holds what the successful calls made of it. */
    ghost predicate Connected()
      reads this`clock, this`calls, this`armed, this`wire, this`open
    {
      CallsInOrder(calls, clock) && wire == WireAfter(env, calls) && open == OpenAfter(env, calls)
    }

    /** Frames match what they were written for, and the metric counts exactly the messages in them. */
    ghost predicate Written()
      reads this`wire, this`sent, this`log, this`taken
    {
      Matches(wire, log) && sent == |Items(log)| && Items(log) <= taken
    }

    /** The messages taken are exactly those that the select and the receives delivered, in order. */
    ghost predicate Honest()
      reads this`taken, this`seen, this`clock, this`calls, this`armed, this`wire, this`open
    {
      taken == Delivered(env, seen) && InOrder(seen, clock) && Connected()
    }

    ghost predicate Valid()
      reads this
    {
      Written() && Honest()
    }

    /** Everything taken from the queue is on the wire. */
    ghost predicate Settled()
      reads this
    {
      Valid() && Items(log) == taken
    }

    ghost predicate AllOk()
      reads this`calls
    {
      AllSucceed(env, calls)
    }

    /** Every call on the connection so far has succeeded, or the last one is the first to fail. */
    ghost predicate Told(ok: bool)
      reads this`calls
    {
      if ok then AllOk() else LastFails(env, calls)
    }

    ghost predicate NoClose()
      reads this`wire
    {
      Close !in wire
    }

    constructor (env: Env, coalesce: bool)
      ensures this.env == env && this.coalesce == coalesce && wire == [] && Settled() && seen == Nothing && rounds == []
      ensures calls == Silent
    {
      this.env, this.coalesce := env, coalesce;
      clock, wire, open, sent := 0, [], [], 0;
      calls, armed, taken, seen, rounds, log := Silent, false, [], Nothing, [], [];
    }

    /** One call on the connection; only under a write deadline set in this round. */
    method Call(what: What) returns (ok: bool)
      requires Honest() && (what == SetDeadline || armed)
      modifies this`clock, this`calls, this`armed, this`wire, this`open
      ensures armed == (old(armed) || ok)
      ensures Honest() && clock == old(clock) + 1 && ok == env.ok(old(clock))
      ensures calls == Made(old(calls), old(clock), what) && (old(AllOk()) ==> Told(ok))
      ensures wire == Sent(what, ok, old(wire), old(open))
      ensures open == Opened(what, ok, old(open))
    {
      ok := env.ok(clock);
      if ok {
        match what {
          case WriteMessage(frame) => wire := wire + [frame];
          case NextWriter => open := [];
          case WritePart(data) => open := open + data;
          case CloseWriter => wire := wire + [Data(TEXT, open)];
          case SetDeadline =>
        }
      }
      calls, armed := Made(calls, clock, what), armed || ok;
      clock := clock + 1;
    }

    /** The newline that separates a text message from the one before it, and its payload. */
    method AppendPart(data: seq<byte>) returns (ok: bool)
      requires Honest() && armed && AllOk()
      modifies this`clock, this`calls, this`armed, this`wire, this`open
      ensures Honest() && armed && Told(ok) && clock >= old(clock) && wire == old(wire)
      ensures ok ==> open == old(open) + [NEWLINE] + data
    {
      ok := Call(WritePart([NEWLINE]));
      if ok {
        ok := Call(WritePart(data));
      }
    }

    /** The beginning of a batch: the deadline, a writer, and the first payload. */
    method OpenBatch(data: seq<byte>) returns (ok: bool)
      requires Honest() && AllOk()
      modifies this`clock, this`calls, this`armed, this`wire, this`open
      ensures Honest() && Told(ok) && clock >= old(clock) && wire == old(wire)
      ensures ok ==> armed && open == data
    {
      ok := Call(SetDeadline);
      if ok {
        ok := Call(NextWriter);
      }
      if ok {
        ok := Call(WritePart(data));
      }
    }

    method QueueLength() returns (n: nat)
      requires Honest()
      modifies this`clock
      ensures Honest() && clock == old(clock) + 1 && n == env.len(old(clock))
    {
      n := env.len(clock);
      clock := clock + 1;
    }

    method Select() returns (event: Event)
      requires Valid()
      modifies this`clock, this`armed, this`taken, this`seen
      ensures Valid() && !armed && clock == old(clock) + 1 && event == env.select(old(clock))
      ensures seen == Selected(old(seen), old(clock))
      ensures taken == old(taken) + (if event.Received? then [event.item] else [])
    {
      event, armed := env.select(clock), false;
      seen := Selected(seen, clock);
      clock := clock + 1;
      if event.Received? {
        taken := taken + [event.item];
      }
    }

    method TryReceive() returns (r: Option<Item>)
      requires Honest()
      modifies this`clock, this`taken, this`seen
      ensures Honest() && clock == old(clock) + 1
      ensures seen == Polled(old(seen), old(clock)) && r == env.recv(old(clock))
      ensures taken == old(taken) + (if r.Some? then [r.value] else [])
    {
      r := env.recv(clock);
      seen := Polled(seen, clock);
      clock := clock + 1;
      if r.Some? {
        taken := taken + [r.value];
      }
    }

    /** The metric counts the messages of the frame that has just gone out. */
    method Account(n: nat, ghost before: seq<Frame>, ghost w: Written)
      requires Matches(before, log) && sent == |Items(log)| && Items(log) + ItemsOf(w) <= taken
      requires WellFormed(w) && wire == before + [Encode(w)] && n == |ItemsOf(w)|
      modifies this`sent, this`log
      ensures Written() && log == old(log) + [w] && Items(log) == old(Items(log)) + ItemsOf(w)
      ensures sent == old(sent) + n
    {
      sent := sent + n;
      log := log + [w];
      MatchesAppend(before, wire, old(log), w, log);
    }

    /** conn.WriteMessage for the message last taken, and the metric if it succeeds. */
    method WriteItem(item: Item) returns (ok: bool)
      requires Valid() && armed && AllOk() && Items(log) + [item] == taken
      modifies this`clock, this`calls, this`armed, this`wire, this`open, this`sent, this`log
      ensures Valid() && armed && (ok ==> Settled()) && Told(ok) && clock == old(clock) + 1
      ensures log == old(log) + (if ok then [Message([item])] else [])
      ensures old(NoClose()) ==> NoClose()
    {
      ok := Call(WriteMessage(Data(item.msgType, item.data)));
      if ok {
        Account(1, old(wire), Message([item]));
      }
    }

    method WriteControl(frame: Frame) returns (ok: bool)
      requires Valid() && armed && (frame == Ping || frame == Close)
      modifies this`clock, this`calls, this`armed, this`wire, this`open, this`sent, this`log
      ensures Valid() && armed && Items(log) == old(Items(log)) && sent == old(sent)
      ensures clock == old(clock) + 1 && ok == env.ok(old(clock))
      ensures calls == Made(old(calls), old(clock), WriteMessage(frame)) && (old(AllOk()) ==> Told(ok))
      ensures wire == (if ok then old(wire) + [frame] else old(wire))
    {
      ok := Call(WriteMessage(frame));
      if ok {
        Account(0, old(wire), Control(frame));
      }
    }

    /** w.Close of a batch: the frame goes out, and the metric counts its messages. */
    method FinishBatch(count: nat, ghost batch: seq<Item>) returns (ok: bool)
      requires Valid() && armed && AllOk() && |batch| == count > 0 && AllText(batch) && open == Join(batch)
      requires Items(log) + batch <= taken
      modifies this`clock, this`calls, this`armed, this`wire, this`open, this`sent, this`log
      ensures Valid() && armed && Told(ok) && clock == old(clock) + 1
      ensures log == old(log) + (if ok then [Message(batch)] else [])
      ensures Items(log) == old(Items(log)) + (if ok then batch else [])
      ensures old(NoClose()) ==> NoClose()
    {
      ok := Call(CloseWriter);
      if ok {
        Account(count, old(wire), Message(batch));
      }
    }

    /** One turn of the flush loop: receive without blocking, and write what was found. */
    method PollAndWrite() returns (found: bool, ok: bool)
      requires Settled() && armed && AllOk()
      modifies this`clock, this`calls, this`armed, this`wire, this`open, this`taken, this`seen, this`sent, this`log
      ensures Valid() && armed && (ok ==> Settled()) && Told(ok)
      ensures seen.Polled? && seen.before == old(seen) && found == env.recv(seen.at).Some?
      ensures Singly(old(log), log) && (!found ==> ok)
      ensures old(NoClose()) ==> NoClose()
    {
      var r := TryReceive();
      found, ok := r.Some?, true;
      if r.Some? {
        ok := WriteItem(r.value);
      }
    }

    /** Takes as many messages as it saw queued, unless a read finds the queue empty first; each gets a frame. */
    method DrainQueued() returns (ok: bool)
      requires Settled() && AllOk()
      modifies this`clock, this`calls, this`armed, this`wire, this`open, this`taken, this`seen, this`sent, this`log
      ensures Valid() && (ok ==> Settled()) && Told(ok)
      ensures Singly(old(log), log)
      ensures ok ==> Drained(env, old(seen), seen, env.len(old(clock)))
      ensures old(NoClose()) ==> NoClose()
    {
      var n := QueueLength();
      if n == 0 {
        return true;
      }
      ok := Call(SetDeadline);
      if ok {
        ok := WriteQueued(n);
      }
    }

    /** The loop of a flush of n messages. */
    method WriteQueued(n: nat) returns (ok: bool)
      requires Settled() && armed && AllOk()
      modifies this`clock, this`calls, this`armed, this`wire, this`open, this`taken, this`seen, this`sent, this`log
      ensures Valid() && (ok ==> Settled()) && Told(ok)
      ensures Singly(old(log), log)
      ensures ok ==> Drained(env, old(seen), seen, n)
      ensures old(NoClose()) ==> NoClose()
    {
      for i := 0 to n
        invariant Settled() && armed && AllOk() && Found(env, old(seen), seen, i)
        invariant Singly(old(log), log)
        invariant old(NoClose()) ==> NoClose()
      {
        var found;
        ghost var before := log;
        found, ok := PollAndWrite();
        SinglyTwice(old(log), before, log);
        if !found || !ok {
          return;
        }
      }
      ok := true;
    }

    /**
      The reads of one batch: append text messages to the open writer until n reads are done, the queue
      is found empty, or a message of another type turns up.
     */
    method CollectBatch(first: Item, n: nat, ghost base: seq<Item>)
      returns (ok: bool, sentCount: nat, other: Option<Item>, ghost batch: seq<Item>)
      requires Honest() && armed && AllOk() && taken == base + [first] && first.msgType == TEXT && open == first.data
      modifies this`clock, this`calls, this`armed, this`wire, this`open, this`taken, this`seen
      ensures Honest() && armed && Told(ok) && wire == old(wire)
      ensures base <= taken
      ensures ok ==> Collected(env, old(seen), seen, n)
      ensures ok ==> 0 < |batch| == sentCount <= n + 1 && AllText(batch) && batch[0] == first && open == Join(batch)
      ensures ok ==> taken == base + batch + (if other.Some? then [other.value] else [])
      ensures ok && other.Some? ==> other.value.msgType != TEXT
    {
      sentCount, other, batch := 1, None, [first];
      for i := 0 to n
        invariant Honest() && armed && AllOk() && wire == old(wire)
        invariant FoundText(env, old(seen), seen, i)
        invariant |batch| == sentCount && 0 < |batch| <= i + 1 && AllText(batch) && batch[0] == first
        invariant open == Join(batch) && taken == base + batch
      {
        other := TryReceive();
        if other == None || other.value.msgType != TEXT {
          ok := true;
          return;
        }
        ok := AppendPart(other.value.data);
        if !ok {
          return;
        }
        JoinAppend(batch, other.value);
        batch := batch + [other.value];
        sentCount := sentCount + 1;
      }
      ok, other := true, None;
    }

    /** The end of a batch: its frame, and then the message of another type that ended it, if any. */
    method EndBatch(count: nat, other: Option<Item>, ghost batch: seq<Item>) returns (ok: bool)
      requires Valid() && armed && AllOk() && |batch| == count > 0 && AllText(batch) && open == Join(batch)
      requires other == None ==> Items(log) + batch == taken
      requires other.Some? ==> other.value.msgType != TEXT && Items(log) + batch + [other.value] == taken
      modifies this`clock, this`calls, this`armed, this`wire, this`open, this`sent, this`log
      ensures Valid() && armed && (ok ==> Settled()) && Told(ok)
      ensures ok ==> log == old(log) + [Message(batch)] + if other.Some? then [Message([other.value])] else []
      ensures old(NoClose()) ==> NoClose()
    {
      ok := FinishBatch(count, batch);
      if ok && other.Some? {
        ok := WriteItem(other.value);
      }
    }

    /**
      One frame holds the first message and every text message read after it; a read that finds the
      queue empty or a message of another type ends the batch, and that message gets its own frame.
     */
    method WriteCoalescedBatch(first: Item, n: nat) returns (ok: bool)
      requires Valid() && AllOk() && Items(log) + [first] == taken && first.msgType == TEXT
      modifies this`clock, this`calls, this`armed, this`wire, this`open, this`taken, this`seen, this`sent, this`log
      ensures Valid() && (ok ==> Settled()) && Told(ok)
      ensures ok ==> Collected(env, old(seen), seen, n) && OneBatch(old(log), log, first, n)
      ensures old(NoClose()) ==> NoClose()
    {
      ok := OpenBatch(first.data);
      if !ok {
        return false;
      }
      var sentCount, other;
      ghost var batch;
      ok, sentCount, other, batch := CollectBatch(first, n, Items(log));
      if !ok {
        return false;
      }
      ok := EndBatch(sentCount, other, batch);
    }

    /** A message in its own frame, and a flush. */
    method WriteThenDrain(first: Item) returns (ok: bool)
      requires Valid() && armed && AllOk() && Items(log) + [first] == taken
      modifies this`clock, this`calls, this`armed, this`wire, this`open, this`taken, this`seen, this`sent, this`log
      ensures Valid() && (ok ==> Settled()) && Told(ok)
      ensures ok ==> Drained(env, old(seen), seen, env.len(old(clock) + 1))
      ensures ok ==> Singly(old(log) + [Message([first])], log)
      ensures old(NoClose()) ==> NoClose()
    {
      ok := WriteItem(first);
      if ok {
        ok := DrainQueued();
      }
    }

    /** The path without a batch: the first message in its own frame, and a flush if messages were seen queued. */
    method WriteAlone(first: Item, n: nat) returns (ok: bool)
      requires Valid() && armed && AllOk() && Items(log) + [first] == taken
      modifies this`clock, this`calls, this`armed, this`wire, this`open, this`taken, this`seen, this`sent, this`log
      ensures Valid() && (ok ==> Settled()) && Told(ok)
      ensures ok ==> if n == 0 then seen == old(seen) else Drained(env, old(seen), seen, env.len(old(clock) + 1))
      ensures ok && n == 0 ==> log == old(log) + [Message([first])]
      ensures ok ==> Singly(old(log) + [Message([first])], log)
      ensures old(NoClose()) ==> NoClose()
    {
      if n == 0 {
        ok := WriteItem(first);
      } else {
        ok := WriteThenDrain(first);
      }
    }

    /** A text message starts one batch of at most the messages seen queued; others are written alone before a flush. */
    method DrainQueuedCoalesced(first: Item) returns (ok: bool)
      requires Valid() && armed && AllOk() && Items(log) + [first] == taken
      modifies this`clock, this`calls, this`armed, this`wire, this`open, this`taken, this`seen, this`sent, this`log
      ensures Valid() && (ok ==> Settled()) && Told(ok)
      ensures ok ==> CoalescedReads(env, first, old(clock), old(seen), seen)
      ensures ok ==> if first.msgType == TEXT then OneBatch(old(log), log, first, env.len(old(clock)))
                     else Singly(old(log) + [Message([first])], log)
      ensures old(NoClose()) ==> NoClose()
    {
      var n := QueueLength();
      if n == 0 || first.msgType != TEXT {
        ok := WriteAlone(first, n);
      } else {
        ok := WriteCoalescedBatch(first, n);
      }
    }

    /** Handle one message delivered by the select. */
    method WriteNext(item: Item) returns (ok: bool)
      requires Valid() && AllOk() && Items(log) + [item] == taken
      modifies this`clock, this`calls, this`armed, this`wire, this`open, this`taken, this`seen, this`sent, this`log
      ensures Valid() && (ok ==> Settled()) && Told(ok)
      ensures ok ==> ReadsAfter(env, coalesce, item, old(clock), old(seen), seen)
      ensures ok ==> if coalesce && item.msgType == TEXT then OneBatch(old(log), log, item, env.len(old(clock) + 1))
                     else Singly(old(log) + [Message([item])], log)
      ensures old(NoClose()) ==> NoClose()
    {
      ok := Call(SetDeadline);
      if !ok {
        return;
      }
      if coalesce {
        ok := DrainQueuedCoalesced(item);
      } else {
        ok := WriteThenDrain(item);
      }
    }

    /** A graceful close: flush the queue, whether or not that works, and send the close frame. */
    method Flush()
      requires Settled() && AllOk() && NoClose()
      modifies this`clock, this`calls, this`armed, this`wire, this`open, this`taken, this`seen, this`sent, this`log
      ensures Valid() && EndsWithClose(env, calls)
      ensures AllOk() ==> Settled() && Drained(env, old(seen), seen, env.len(old(clock)))
      ensures forall i :: 0 <= i < |wire| && wire[i] == Close ==> i == |wire| - 1
      ensures Close in wire <==> env.ok(calls.at)
    {
      var drained := DrainQueued();
      var ok := Call(SetDeadline);
      if ok {
        ok := WriteControl(Close);
      }
    }

    method SendPing() returns (ok: bool)
      requires Settled() && AllOk() && NoClose()
      modifies this`clock, this`calls, this`armed, this`wire, this`open, this`sent, this`log
      ensures Settled() && NoClose() && sent == old(sent) && Told(ok)
      ensures ok ==> wire == old(wire) + [Ping]
    {
      ok := Call(SetDeadline);
      if ok {
        ok := WriteControl(Ping);
      }
    }

    /** Which calls failed, for each way the loop ends. */
    ghost predicate ExitFits(exit: Exit)
      reads this`calls
    {
      match exit
      case Running | Unregistered => AllOk()
      case Failed => LastFails(env, calls)
      case Flushed => EndsWithClose(env, calls)
    }

    /** What one turn of the loop does with its event. */
    method Turn(event: Event, graceful: bool) returns (exit: Exit)
      requires Valid() && AllOk() && NoClose() && taken == Items(log) + (if event.Received? then [event.item] else [])
      modifies this`clock, this`calls, this`armed, this`wire, this`open, this`taken, this`seen, this`sent, this`log
      ensures Valid() && (AllOk() ==> Settled()) && ExitFits(exit)
      ensures event == DoneSignal <==> exit == Flushed || exit == Unregistered
      ensures AllOk() ==> Fitting(env, coalesce, graceful, event, old(clock), old(seen), seen)
      ensures CloseIsLast(graceful, exit)
    {
      match event {
        case DoneSignal =>
          if graceful {
            Flush();
          }
          exit := if graceful then Flushed else Unregistered;
        case Received(item) =>
          var ok := WriteNext(item);
          exit := if ok then Running else Failed;
        case Tick =>
          var ok := SendPing();
          exit := if ok then Running else Failed;
      }
    }

    /** A close frame is the last frame, and there exactly after a graceful close whose last call succeeded. */
    ghost predicate CloseIsLast(graceful: bool, exit: Exit)
      reads this`wire, this`calls
    {
      && (forall i :: 0 <= i < |wire| && wire[i] == Close ==> i == |wire| - 1)
      && (Close in wire <==> exit == Flushed && calls.Made? && env.ok(calls.at))
      && (exit == Flushed ==> graceful)
    }

    /** One turn of the loop: the select and what follows. */
    method OneRound(graceful: bool) returns (exit: Exit, ghost r: Round)
      requires Settled() && AllOk() && NoClose()
      modifies this`clock, this`calls, this`armed, this`wire, this`open, this`taken, this`seen, this`sent, this`log
      ensures Valid() && (AllOk() ==> Settled()) && ExitFits(exit)
      ensures r == Round(old(clock), Selected(old(seen), old(clock)), seen)
      ensures env.select(r.at) == DoneSignal <==> exit == Flushed || exit == Unregistered
      ensures AllOk() ==> Complete(env, coalesce, graceful, r)
      ensures CloseIsLast(graceful, exit)
    {
      ghost var start := clock;
      var event := Select();
      ghost var from := seen;
      exit := Turn(event, graceful);
      r := Round(start, from, seen);
    }

    /** The same, with the round added to the history. */
    method NextRound(graceful: bool) returns (exit: Exit)
      requires Settled() && AllOk() && NoClose() && seen == LastOf(rounds) && Chained(rounds)
      requires EventsFit(env, rounds, Running) && RoundsFit(env, coalesce, graceful, rounds, true)
      modifies this
      ensures Valid() && (AllOk() ==> Settled()) && ExitFits(exit)
      ensures seen == LastOf(rounds) && Chained(rounds) && |rounds| == old(|rounds|) + 1
      ensures EventsFit(env, rounds, exit) && RoundsFit(env, coalesce, graceful, rounds, AllOk())
      ensures CloseIsLast(graceful, exit)
    {
      ghost var r;
      exit, r := OneRound(graceful);
      OneMoreRound(env, coalesce, graceful, rounds, r, exit, AllOk());
      rounds := rounds + [r];
    }

    /**
      The pump's loop, for any number of rounds. `graceful` is what isGraceful() finds when done is
      signalled. It goes on until done is signalled or a call on the connection fails, and then makes no
      other, but for those of a graceful close. Unless one failed, a receiver gets exactly the messages
      that the select and the receives delivered, in order, if and only if none of the text messages
      contains a newline byte.
     */
    method WritePump(n: nat, graceful: bool) returns (exit: Exit)
      requires Settled() && wire == [] && seen == Nothing && rounds == [] && calls == Silent
      modifies this
      ensures Valid() && seen == LastOf(rounds) && Chained(rounds)
      ensures |rounds| <= n && (exit == Running ==> |rounds| == n) && ExitFits(exit)
      ensures EventsFit(env, rounds, exit) && RoundsFit(env, coalesce, graceful, rounds, AllOk())
      ensures CloseIsLast(graceful, exit)
      ensures AllOk() ==> Settled() && (Receive(wire) == taken <==> Clean(taken))
    {
      exit := Running;
      var round := 0;
      while round < n && exit == Running
        invariant Valid() && seen == LastOf(rounds) && Chained(rounds) && |rounds| == round <= n
        invariant (AllOk() ==> Settled()) && ExitFits(exit)
        invariant EventsFit(env, rounds, exit) && RoundsFit(env, coalesce, graceful, rounds, AllOk())
        invariant CloseIsLast(graceful, exit)
        decreases n - round
      {
        exit := NextRound(graceful);
        round := round + 1;
      }
      RoundTripExactlyWhenClean(wire, log);
    }
  }

  // ---------------------------------------------------------------- the receiver

  /** A payload split at every newline byte. */
  function Split(data: seq<byte>): (parts: seq<seq<byte>>)
    ensures |parts| > 0
  {
    if |data| == 0 then [[]]
    else
      var front := Split(data[..|data| - 1]);
      var last := data[|data| - 1];
      if last == NEWLINE then front + [[]]
      else front[..|front| - 1] + [front[|front| - 1] + [last]]
  }

  /** What a receiver makes of one frame: text frames are split, other frames kept whole. */
  function Decode(f: Frame): seq<Item> {
    match f
    case Data(msgType, data) =>
      if msgType == TEXT then
        var parts := Split(data);
        seq(|parts|, i requires 0 <= i < |parts| => Item(TEXT, parts[i]))
      else [Item(msgType, data)]
    case _ => []
  }

  ghost function Receive(wire: seq<Frame>): seq<Item> {
    if |wire| == 0 then [] else Receive(wire[..|wire| - 1]) + Decode(wire[|wire| - 1])
  }

  ghost predicate NoNewline(data: seq<byte>) {
    forall i :: 0 <= i < |data| ==> data[i] != NEWLINE
  }

  ghost predicate Clean(items: seq<Item>) {
    forall x :: x in items && x.msgType == TEXT ==> NoNewline(x.data)
  }

  ghost function Payloads(items: seq<Item>): seq<seq<byte>> {
    seq(|items|, i requires 0 <= i < |items| => items[i].data)
  }

  lemma {:induction false} SplitWhole(data: seq<byte>)
    requires NoNewline(data)
    ensures Split(data) == [data]
  {
    if |data| > 0 {
      assert data == data[..|data| - 1] + [data[|data| - 1]];
      SplitWhole(data[..|data| - 1]);
    }
  }

  lemma {:induction false} SplitAfterNewline(data: seq<byte>, tail: seq<byte>)
    requires NoNewline(tail)
    ensures Split(data + [NEWLINE] + tail) == Split(data) + [tail]
  {
    var all := data + [NEWLINE] + tail;
    if |tail| == 0 {
      assert all[..|all| - 1] == data;
    } else {
      var front := tail[..|tail| - 1];
      assert all[..|all| - 1] == data + [NEWLINE] + front;
      assert tail == front + [tail[|tail| - 1]];
      SplitAfterNewline(data, front);
    }
  }

  /** No part of a split payload contains a newline. */
  lemma {:induction false} SplitPartsClean(data: seq<byte>)
    ensures forall i :: 0 <= i < |Split(data)| ==> NoNewline(Split(data)[i])
  {
    if |data| > 0 {
      SplitPartsClean(data[..|data| - 1]);
    }
  }

  lemma CleanFront(items: seq<Item>)
    requires |items| > 0 && AllText(items) && Clean(items)
    ensures AllText(items[..|items| - 1]) && Clean(items[..|items| - 1]) && NoNewline(items[|items| - 1].data)
  {
    assert forall x :: x in items[..|items| - 1] ==> x in items;
  }

  lemma {:induction false} SplitJoin(items: seq<Item>)
    requires |items| > 0 && AllText(items) && Clean(items)
    ensures Split(Join(items)) == Payloads(items)
  {
    var n := |items| - 1;
    if n == 0 {
      CleanFront(items);
      SplitWhole(items[0].data);
    } else {
      var front := items[..n];
      CleanFront(items);
      SplitJoin(front);
      SplitAfterNewline(Join(front), items[n].data);
      assert Payloads(items) == Payloads(front) + [items[n].data];
    }
  }

  lemma DecodeEncode(w: Written)
    requires WellFormed(w) && Clean(ItemsOf(w))
    ensures Decode(Encode(w)) == ItemsOf(w)
  {
    if w.Message? && w.items[0].msgType == TEXT {
      SplitJoin(w.items);
    }
  }

  lemma DecodedIsClean(f: Frame)
    ensures Clean(Decode(f))
  {
    if f.Data? {
      SplitPartsClean(f.data);
    }
  }

  lemma {:induction false} ReceivedIsClean(wire: seq<Frame>)
    ensures Clean(Receive(wire))
  {
    if |wire| > 0 {
      ReceivedIsClean(wire[..|wire| - 1]);
      DecodedIsClean(wire[|wire| - 1]);
    }
  }

  lemma {:induction false} CleanLogRoundTrips(wire: seq<Frame>, log: seq<Written>)
    requires Matches(wire, log) && Clean(Items(log))
    ensures Receive(wire) == Items(log)
  {
    if |log| > 0 {
      var n := |log| - 1;
      assert forall x :: x in Items(log[..n]) ==> x in Items(log);
      assert forall x :: x in ItemsOf(log[n]) ==> x in Items(log);
      CleanLogRoundTrips(wire[..n], log[..n]);
      DecodeEncode(log[n]);
    }
  }

  /**
    The receiver gets back exactly the messages written, in order, if and only if no text message
    contains a newline byte, whatever was batched with what.
   */
  lemma {:induction false} RoundTripExactlyWhenClean(wire: seq<Frame>, log: seq<Written>)
    requires Matches(wire, log)
    ensures Receive(wire) == Items(log) <==> Clean(Items(log))
  {
    if Clean(Items(log)) {
      CleanLogRoundTrips(wire, log);
    }
    ReceivedIsClean(wire);
  }
}
