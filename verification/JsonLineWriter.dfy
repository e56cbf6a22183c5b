/**
  The queueing line writer, one step for each public call, stream event and resumption of
  the pump; what it has handed to its stream always decodes to the messages it accepted.
 */
module JsonLineWriter {
  import opened Results
  import opened JsonLines

  datatype WriteError = Invalid | TooLarge | QueueOverflow | Closed | WriteFailed

  /** A queued write: the number of the promise it settles and its frame. */
  datatype Write = Write(id: nat, frame: Bytes)

  /** The pump: not running, waiting for its stream, or about to run on with the outcome of its wait. */
  datatype Phase = Idle | InStream(write: Write, callback: bool, drained: bool) | Resumable(write: Write, ok: bool)

  datatype Limits = Limits(maxFrame: nat, maxQueuedBytes: nat, maxQueuedMessages: nat)

  /** The fields of the writer, with the messages accepted, frames sent and promises settled so far. */
  datatype State<M> = State(
    queue: seq<Write>, queuedBytes: int, phase: Phase, failed: Option<WriteError>,
    accepted: seq<M>, sent: seq<Bytes>, settled: map<nat, bool>)

  datatype Event<M> =
    | Submit(message: Option<M>, destroyed: bool, room: bool)
    | Callback(ok: bool)
    | Drain
    | Resume(room: bool)
    | Fail(error: WriteError)

  function Start<M>(): State<M> {
    State([], 0, Idle, None, [], [], map[])
  }

  function Total(queue: seq<Write>): nat {
    if queue == [] then 0 else |queue[0].frame| + Total(queue[1..])
  }

  /** The verdict of `write` before anything is queued. */
  function Verdict<M>(s: State<M>, message: Option<M>, destroyed: bool, limits: Limits, encode: M -> Bytes):
    Outcome<WriteError>
  {
    if s.failed.Some? then Outcome.Fail(s.failed.value)
    else if destroyed then Outcome.Fail(Closed)
    else if message.None? then Outcome.Fail(Invalid)
    else
      var frame := Frame(message.value, encode);
      if |frame| - 1 > limits.maxFrame then Outcome.Fail(TooLarge)
      else if |s.queue| >= limits.maxQueuedMessages || s.queuedBytes + |frame| > limits.maxQueuedBytes
      then Outcome.Fail(QueueOverflow)
      else Pass
  }

  /** One turn of the pump's loop: the first queued frame goes to the stream, which has room or not. */
  function Pump<M>(s: State<M>, room: bool): State<M> {
    if s.failed.Some? || s.queue == [] then s.(phase := Idle)
    else s.(phase := InStream(s.queue[0], false, room), sent := s.sent + [s.queue[0].frame])
  }

  function Enqueue<M>(s: State<M>, message: M, encode: M -> Bytes): State<M> {
    var frame := Frame(message, encode);
    s.(queue := s.queue + [Write(|s.accepted|, frame)], queuedBytes := s.queuedBytes + |frame|,
       accepted := s.accepted + [message])
  }

  /** Every queued promise is rejected; a pump waiting for its stream is woken with the error. */
  function Failing<M>(s: State<M>, error: WriteError): State<M> {
    if s.failed.Some? then s
    else
      s.(failed := Some(error), queue := [], queuedBytes := s.queuedBytes - Total(s.queue),
         phase := if s.phase.InStream? then Resumable(s.phase.write, false) else s.phase,
         settled := s.settled + map i | i in Ids(s.queue) :: false)
  }

  function Ids(queue: seq<Write>): set<nat> {
    set w | w in queue :: w.id
  }

  /** The pump after its wait: the write settles unless it already has, then the next one starts. */
  function Resuming<M>(s: State<M>, room: bool): State<M>
    requires s.phase.Resumable?
  {
    if !s.phase.ok then Failing(s, WriteFailed).(phase := Idle)
    else
      var w := s.phase.write;
      var settledNow := if w.id in s.settled then s
                        else s.(settled := s.settled[w.id := true], queuedBytes := s.queuedBytes - |w.frame|);
      Pump(settledNow.(queue := if s.queue == [] then [] else s.queue[1..]), room)
  }

  function Step<M>(s: State<M>, event: Event<M>, limits: Limits, encode: M -> Bytes): State<M> {
    match event
    case Submit(message, destroyed, room) =>
      if Verdict(s, message, destroyed, limits, encode).Fail? then s
      else
        var queued := Enqueue(s, message.value, encode);
        if s.phase.Idle? then Pump(queued, room) else queued
    case Callback(ok) =>
      if !s.phase.InStream? then s
      else if !ok then s.(phase := Resumable(s.phase.write, false))
      else if s.phase.drained then s.(phase := Resumable(s.phase.write, true))
      else s.(phase := s.phase.(callback := true))
    case Drain =>
      if !s.phase.InStream? then s
      else if s.phase.callback then s.(phase := Resumable(s.phase.write, true))
      else s.(phase := s.phase.(drained := true))
    case Resume(room) => if s.phase.Resumable? then Resuming(s, room) else s
    case Fail(error) => Failing(s, error)
  }

  function Run<M>(s: State<M>, events: seq<Event<M>>, limits: Limits, encode: M -> Bytes): State<M>
    decreases |events|
  {
    if events == [] then s else Run(Step(s, events[0], limits, encode), events[1..], limits, encode)
  }

  // ----- what every step keeps -----

  function Done<M>(s: State<M>): int {
    |s.accepted| - |s.queue|
  }

  /** The queue is the tail of the accepted messages; exactly the others have settled. */
  ghost predicate Ordered<M>(s: State<M>, encode: M -> Bytes) {
    && Done(s) >= 0
    && (forall i :: 0 <= i < |s.queue| ==> s.queue[i] == Write(Done(s) + i, Frame(s.accepted[Done(s) + i], encode)))
    && (forall i: nat :: i in s.settled <==> i < Done(s))
  }

  /** What was sent is what was accepted, from the first message on; a resolved write was sent. */
  ghost predicate InOrder<M>(s: State<M>, limits: Limits, encode: M -> Bytes) {
    && |s.sent| <= |s.accepted|
    && (forall i :: 0 <= i < |s.sent| ==> s.sent[i] == Frame(s.accepted[i], encode))
    && (forall i :: 0 <= i < |s.accepted| ==> |Frame(s.accepted[i], encode)| - 1 <= limits.maxFrame)
    && (forall i :: i in s.settled && s.settled[i] ==> i < |s.sent|)
  }

  /** A promise that waits has a running pump; a failed writer has no promise waiting. */
  ghost predicate Busy<M>(s: State<M>) {
    && (s.failed.Some? ==> s.queue == [] && !s.phase.InStream?)
    && (s.phase.Idle? ==> s.queue == [])
    && (s.failed.None? && s.phase.Idle? ==> |s.sent| == |s.accepted|)
    && (s.failed.None? && !s.phase.Idle? ==>
          s.queue != [] && s.phase.write == s.queue[0] && |s.sent| == Done(s) + 1)
    && (s.failed.Some? && s.phase.Resumable? ==> s.phase.write.id < Done(s))
  }

  ghost predicate Sound<M>(s: State<M>, limits: Limits, encode: M -> Bytes) {
    && s.queuedBytes == Total(s.queue) <= limits.maxQueuedBytes && |s.queue| <= limits.maxQueuedMessages
    && Ordered(s, encode) && InOrder(s, limits, encode) && Busy(s)
  }

  lemma {:induction false} TotalAppend(queue: seq<Write>, w: Write)
    ensures Total(queue + [w]) == Total(queue) + |w.frame|
    decreases |queue|
  {
    if queue != [] {
      assert (queue + [w])[1..] == queue[1..] + [w];
      TotalAppend(queue[1..], w);
    } else {
      assert ([] + [w])[1..] == [];
    }
  }

  lemma SubmitSound<M>(s: State<M>, e: Event<M>, limits: Limits, encode: M -> Bytes)
    requires e.Submit? && Sound(s, limits, encode)
    ensures Sound(Step(s, e, limits, encode), limits, encode)
    ensures forall i :: i in s.settled ==>
              i in Step(s, e, limits, encode).settled && Step(s, e, limits, encode).settled[i] == s.settled[i]
  {
    hide Frame, Total;
    if Verdict(s, e.message, e.destroyed, limits, encode).Pass? {
      TotalAppend(s.queue, Write(|s.accepted|, Frame(e.message.value, encode)));
    }
  }

  lemma FailingSound<M>(s: State<M>, error: WriteError, limits: Limits, encode: M -> Bytes)
    requires Sound(s, limits, encode)
    ensures Sound(Failing(s, error), limits, encode)
    ensures forall i :: i in s.settled ==>
              i in Failing(s, error).settled && Failing(s, error).settled[i] == s.settled[i]
  {
    hide Frame;
    var t := Failing(s, error);
    if s.failed.None? {
      forall i: nat ensures i in t.settled <==> i < |s.accepted| {
        if Done(s) <= i < |s.accepted| {
          assert s.queue[i - Done(s)].id == i;
        }
      }
      if s.phase.InStream? {
        assert s.phase.write == s.queue[0];
      }
    }
  }

  lemma ResumingSound<M>(s: State<M>, room: bool, limits: Limits, encode: M -> Bytes)
    requires s.phase.Resumable? && Sound(s, limits, encode)
    ensures Sound(Resuming(s, room), limits, encode)
    ensures forall i :: i in s.settled ==>
              i in Resuming(s, room).settled && Resuming(s, room).settled[i] == s.settled[i]
  {
    hide Frame, Failing;
    if s.phase.ok {
      ResolvingSound(s, room, limits, encode);
    } else {
      FailingSound(s, WriteFailed, limits, encode);
      assert Failing(s, WriteFailed).failed.Some? by {
        FailingFails(s, WriteFailed);
      }
    }
  }

  lemma FailingFails<M>(s: State<M>, error: WriteError)
    ensures Failing(s, error).failed.Some?
  {
  }

  lemma HeadUnsettled<M>(s: State<M>, limits: Limits, encode: M -> Bytes)
    requires s.phase.Resumable? && Sound(s, limits, encode)
    ensures s.failed.None? <==> s.phase.write.id !in s.settled
  {
    hide Frame, Total;
  }

  lemma ResolvingSound<M>(s: State<M>, room: bool, limits: Limits, encode: M -> Bytes)
    requires s.phase.Resumable? && s.phase.ok && Sound(s, limits, encode)
    ensures Sound(Resuming(s, room), limits, encode)
    ensures forall i :: i in s.settled ==>
              i in Resuming(s, room).settled && Resuming(s, room).settled[i] == s.settled[i]
  {
    hide Frame;
    if s.failed.None? {
      assert s.phase.write.id == Done(s) && s.phase.write.id !in s.settled;
      var t := Resuming(s, room);
      assert t.queue == s.queue[1..] && t.queuedBytes == Total(t.queue);
      assert Ordered(t, encode);
    } else {
      assert s.phase.write.id in s.settled;
    }
  }

  lemma StepSound<M>(s: State<M>, e: Event<M>, limits: Limits, encode: M -> Bytes)
    requires Sound(s, limits, encode)
    ensures Sound(Step(s, e, limits, encode), limits, encode)
    ensures forall i :: i in s.settled ==>
              i in Step(s, e, limits, encode).settled && Step(s, e, limits, encode).settled[i] == s.settled[i]
  {
    hide Frame, Total, Resuming, Failing;
    match e
    case Submit(_, _, _) => SubmitSound(s, e, limits, encode);
    case Resume(room) =>
      if s.phase.Resumable? {
        ResumingSound(s, room, limits, encode);
      }
    case Fail(error) => FailingSound(s, error, limits, encode);
    case Callback(_) =>
    case Drain =>
  }

  /**
    Over every run, with failures and closing at any moment: the bounds hold, the queue is
    what is neither sent and settled nor rejected, and no promise settles twice or differently.
   */
  lemma {:induction false} RunSound<M>(s: State<M>, events: seq<Event<M>>, limits: Limits, encode: M -> Bytes)
    requires Sound(s, limits, encode)
    ensures Sound(Run(s, events, limits, encode), limits, encode)
    ensures forall i :: i in s.settled ==>
      i in Run(s, events, limits, encode).settled && Run(s, events, limits, encode).settled[i] == s.settled[i]
    decreases |events|
  {
    hide Sound, Step;
    if events != [] {
      StepSound(s, events[0], limits, encode);
      RunSound(Step(s, events[0], limits, encode), events[1..], limits, encode);
    }
  }

  lemma {:induction false} ConcatFrames<M>(sent: seq<Bytes>, ms: seq<M>, encode: M -> Bytes)
    requires |sent| == |ms| && forall i :: 0 <= i < |ms| ==> sent[i] == Frame(ms[i], encode)
    ensures Concat(sent) == Frames(ms, encode)
    decreases |ms|
  {
    if ms != [] {
      ConcatFrames(sent[1..], ms[1..], encode);
    }
  }

  /**
    At any moment of any run, what the writer has sent decodes, under the same frame limit,
    to the messages it accepted first, in order, wherever the stream is cut.
   */
  lemma SentDecodes<M>(events: seq<Event<M>>, chunks: seq<Bytes>, limits: Limits, encode: M -> Bytes,
                       parse: Bytes -> Option<M>)
    requires var s := Run(Start(), events, limits, encode);
             Concat(chunks) == Concat(s.sent) && forall i :: 0 <= i < |s.accepted| ==>
               Faithful(s.accepted[i], encode, parse)
    ensures var s := Run(Start(), events, limits, encode);
            && |s.sent| <= |s.accepted|
            && JsonLines.Run([], chunks, limits.maxFrame, parse) == Ok(s.accepted[..|s.sent|])
  {
    hide Step, Decode, Run, JsonLines.Run, Faithful;
    StartRun(events, limits, encode);
    var s := Run(Start(), events, limits, encode);
    ConcatFrames(s.sent, s.accepted[..|s.sent|], encode);
    FramesDecode(s.accepted[..|s.sent|], limits.maxFrame, encode, parse);
    ChunkingIrrelevant(chunks, limits.maxFrame, parse);
  }

  lemma StartRun<M>(events: seq<Event<M>>, limits: Limits, encode: M -> Bytes)
    ensures Sound(Run(Start(), events, limits, encode), limits, encode)
  {
    RunSound(Start(), events, limits, encode);
  }

  // ----- the writer object -----

  class AppServerJsonLineWriter<M> {
    const limits: Limits
    const encode: M -> Bytes
    var queue: seq<Write>
    var queuedBytes: int
    var phase: Phase
    var failed: Option<WriteError>
    ghost var accepted: seq<M>
    ghost var sent: seq<Bytes>
    ghost var settled: map<nat, bool>
    var nextId: nat

    ghost function Now(): State<M>
      reads this
    {
      State(queue, queuedBytes, phase, failed, accepted, sent, settled)
    }

    ghost predicate Valid()
      reads this
    {
      nextId == |accepted| && Sound(Now(), limits, encode)
    }

    constructor (limits: Limits, encode: M -> Bytes)
      requires 1 <= limits.maxFrame < limits.maxQueuedBytes && 1 <= limits.maxQueuedMessages
      ensures Valid() && Now() == Start() && this.limits == limits && this.encode == encode
    {
      this.limits, this.encode := limits, encode;
      queue, queuedBytes, phase, failed, nextId := [], 0, Idle, None, 0;
      accepted, sent, settled := [], [], map[];
    }

    /** Queues the frame of a message, or rejects without a trace. */
    method Submit(message: Option<M>, destroyed: bool, room: bool) returns (r: Outcome<WriteError>)
      requires Valid()
      modifies this
      ensures Valid() && r == Verdict(old(Now()), message, destroyed, limits, encode)
      ensures Now() == Step(old(Now()), Event.Submit(message, destroyed, room), limits, encode)
    {
      hide Sound;
      StepSound(Now(), Event.Submit(message, destroyed, room), limits, encode);
      if failed.Some? {
        return Outcome.Fail(failed.value);
      }
      if destroyed {
        return Outcome.Fail(Closed);
      }
      if message.None? {
        return Outcome.Fail(Invalid);
      }
      var frame := Frame(message.value, encode);
      if |frame| - 1 > limits.maxFrame {
        return Outcome.Fail(TooLarge);
      }
      if |queue| >= limits.maxQueuedMessages || queuedBytes + |frame| > limits.maxQueuedBytes {
        return Outcome.Fail(QueueOverflow);
      }
      queue := queue + [Write(nextId, frame)];
      queuedBytes := queuedBytes + |frame|;
      nextId := nextId + 1;
      accepted := accepted + [message.value];
      if phase.Idle? {
        StartNext(room);
      }
      return Pass;
    }

    method StartNext(room: bool)
      modifies this`phase, this`sent
      ensures Now() == Pump(old(Now()), room)
    {
      if failed.Some? || queue == [] {
        phase := Idle;
      } else {
        phase := InStream(queue[0], false, room);
        sent := sent + [queue[0].frame];
      }
    }

    method OnCallback(ok: bool)
      requires Valid()
      modifies this
      ensures Valid() && Now() == Step(old(Now()), Callback(ok), limits, encode)
    {
      hide Sound;
      StepSound(Now(), Callback(ok), limits, encode);
      if phase.InStream? {
        if !ok {
          phase := Resumable(phase.write, false);
        } else if phase.drained {
          phase := Resumable(phase.write, true);
        } else {
          phase := phase.(callback := true);
        }
      }
    }

    method OnDrain()
      requires Valid()
      modifies this
      ensures Valid() && Now() == Step(old(Now()), Drain, limits, encode)
    {
      hide Sound;
      StepSound(Now(), Drain, limits, encode);
      if phase.InStream? {
        if phase.callback {
          phase := Resumable(phase.write, true);
        } else {
          phase := phase.(drained := true);
        }
      }
    }

    /** The pump runs on after its wait. */
    method OnResume(room: bool)
      requires Valid()
      modifies this
      ensures Valid() && Now() == Step(old(Now()), Resume(room), limits, encode)
    {
      hide Sound;
      StepSound(Now(), Resume(room), limits, encode);
      if phase.Resumable? {
        if phase.ok {
          var w := phase.write;
          HeadUnsettled(Now(), limits, encode);
          // A write that failed while its pump was about to run was settled with all the others.
          if failed.None? {
            settled := settled[w.id := true];
            queuedBytes := queuedBytes - |w.frame|;
          }
          queue := if queue == [] then [] else queue[1..];
          StartNext(room);
        } else {
          FailAll(WriteFailed);
          phase := Idle;
        }
      }
    }

    /** Closing, and the stream's own failures. */
    method OnFail(error: WriteError)
      requires Valid()
      modifies this
      ensures Valid() && Now() == Step(old(Now()), Event.Fail(error), limits, encode)
    {
      StepSound(Now(), Event.Fail(error), limits, encode);
      FailAll(error);
    }

    method FailAll(error: WriteError)
      requires Valid()
      modifies this`failed, this`phase, this`queue, this`queuedBytes, this`settled
      ensures Now() == Failing(old(Now()), error)
    {
      hide Sound;
      if failed.Some? {
        return;
      }
      failed := Some(error);
      if phase.InStream? {
        phase := Resumable(phase.write, false);
      }
      settled := settled + map i | i in Ids(queue) :: false;
      ghost var before := queuedBytes;
      var i := 0;
      assert queue[0..] == queue;
      while i < |queue|
        invariant 0 <= i <= |queue| && queuedBytes == before - Total(queue) + Total(queue[i..])
        modifies this`queuedBytes
      {
        queuedBytes := queuedBytes - |queue[i].frame|;
        assert queue[i..][1..] == queue[i + 1..];
        i := i + 1;
      }
      assert queue[i..] == [];
      queue := [];
    }
  }
}
