/** The frame loop: each tick drains the whole event queue, routing button
    events, then runs one tracking pass, then pauses. A quit event only
    raises the exit flag, which the loop tests after the tick completes. */
module Frame {
  import opened Results
  import opened VrInput
  import opened Settings
  import Midi
  import Buttons
  import Tracking

  /** The messages routed from a drained queue, in queue order. */
  function DrainMessages(queue: seq<VrEvent>, channel: int): (r: seq<Midi.Message>)
    ensures |r| <= |queue|
    ensures Midi.IsChannel(channel) ==> forall i :: 0 <= i < |r| ==> Midi.WellFormed(r[i])
    ensures forall i :: 0 <= i < |r| ==> !Midi.Interpret(r[i]).ControlChanged?
    decreases |queue|
  {
    if queue == [] then []
    else
      var last := queue[|queue| - 1];
      DrainMessages(queue[..|queue| - 1], channel) + RoutedAsSeq(last, channel)
  }

  /** The routed message of one event as a sequence of zero or one. */
  function RoutedAsSeq(e: VrEvent, channel: int): (r: seq<Midi.Message>)
    ensures Buttons.Route(e, channel).None? ==> r == []
    ensures Buttons.Route(e, channel).Some? ==> r == [Buttons.Route(e, channel).value]
  {
    match Buttons.Route(e, channel)
    case None => []
    case Some(m) => [m]
  }

  /** One pass through the switch on the event type: quit events raise the
      exit flag, button events are routed, all others are ignored. */
  function HandleEvent(e: VrEvent, channel: int): (r: (seq<Midi.Message>, bool))
    ensures r.0 == RoutedAsSeq(e, channel)
    ensures r.1 <==> IsQuit(e.eventType)
  {
    if IsQuit(e.eventType) then ([], true)
    else if IsButtonEvent(e.eventType) then (RoutedAsSeq(e, channel), false)
    else ([], false)
  }

  /** Whether the queue holds a quit-type event, scanning from the back. */
  predicate QuitRequested(queue: seq<VrEvent>)
    decreases |queue|
  {
    queue != [] && (QuitRequested(queue[..|queue| - 1]) || IsQuit(queue[|queue| - 1].eventType))
  }

  /** The scan finds a quit event exactly when one is queued somewhere. */
  lemma {:induction false} QuitRequestedMeans(queue: seq<VrEvent>)
    ensures QuitRequested(queue) <==> exists i :: 0 <= i < |queue| && IsQuit(queue[i].eventType)
    decreases |queue|
  {
    if queue != [] {
      var front := queue[..|queue| - 1];
      QuitRequestedMeans(front);
      if QuitRequested(front) {
        var k :| 0 <= k < |front| && IsQuit(front[k].eventType);
        assert queue[k] == front[k];
      }
      if exists i :: 0 <= i < |queue| && IsQuit(queue[i].eventType) {
        var k :| 0 <= k < |queue| && IsQuit(queue[k].eventType);
        if k < |front| {
          assert front[k] == queue[k];
        }
      }
    }
  }

  /** Draining a concatenation routes both parts, one after the other. */
  lemma {:induction false} DrainAppend(a: seq<VrEvent>, b: seq<VrEvent>, channel: int)
    ensures DrainMessages(a + b, channel) == DrainMessages(a, channel) + DrainMessages(b, channel)
    decreases |b|
  {
    if b == [] {
      assert a + b == a;
    } else {
      var b' := b[..|b| - 1];
      assert (a + b)[..|a + b| - 1] == a + b';
      assert (a + b)[|a + b| - 1] == b[|b| - 1];
      DrainAppend(a, b', channel);
    }
  }

  /** A quit event emits nothing and does not cut the drain short: the
      events queued after it are routed as if it were absent. */
  lemma QuitDoesNotStopDrain(a: seq<VrEvent>, q: VrEvent, b: seq<VrEvent>, channel: int)
    requires IsQuit(q.eventType)
    ensures DrainMessages(a + [q] + b, channel) == DrainMessages(a, channel) + DrainMessages(b, channel)
    ensures QuitRequested(a + [q] + b)
  {
    var aq := a + [q];
    QuitRoutesNothing(q, channel);
    DrainAppend(a, [q], channel);
    assert DrainMessages(aq, channel) == DrainMessages(a, channel);
    DrainAppend(aq, b, channel);
    assert (aq + b)[|a|] == q;
    QuitRequestedMeans(aq + b);
  }

  /** A quit event on its own drains to nothing. */
  lemma QuitRoutesNothing(q: VrEvent, channel: int)
    requires IsQuit(q.eventType)
    ensures DrainMessages([q], channel) == []
  {
    assert [q][..0] == [];
  }

  /** Draining one more event appends its routed message. */
  lemma DrainStep(queue: seq<VrEvent>, i: int, channel: int)
    requires 0 <= i < |queue|
    ensures DrainMessages(queue[..i + 1], channel) == DrainMessages(queue[..i], channel) + RoutedAsSeq(queue[i], channel)
  {
    assert queue[..i + 1][..i] == queue[..i];
    assert queue[..i + 1][i] == queue[i];
  }

  /** The quit flag after one more event. */
  lemma QuitRequestedSnoc(queue: seq<VrEvent>, i: int)
    requires 0 <= i < |queue|
    ensures QuitRequested(queue[..i + 1]) <==> QuitRequested(queue[..i]) || IsQuit(queue[i].eventType)
  {
    assert queue[..i + 1][..i] == queue[..i];
    assert queue[..i + 1][i] == queue[i];
  }

  /** The inner polling loop: take events until the queue is empty. */
  method DrainQueue(queue: seq<VrEvent>, channel: int) returns (out: seq<Midi.Message>, exitLoop: bool)
    ensures out == DrainMessages(queue, channel)
    ensures exitLoop <==> QuitRequested(queue)
  {
    out := [];
    exitLoop := false;
    var i := 0;
    while i < |queue|
      invariant 0 <= i <= |queue|
      invariant out == DrainMessages(queue[..i], channel)
      invariant exitLoop <==> QuitRequested(queue[..i])
    {
      var e := queue[i];
      DrainStep(queue, i, channel);
      QuitRequestedSnoc(queue, i);
      var (sent, quit) := HandleEvent(e, channel);
      out := out + sent;
      if quit {
        exitLoop := true;
      }
      i := i + 1;
    }
    assert queue[..i] == queue;
  }

  /** What one tick sends, whether it asks the loop to end, and how long it
      then sleeps. */
  datatype TickResult = TickResult(messages: seq<Midi.Message>, exitLoop: bool, sleepMs: int)

  function Tick(s: Settings, queue: seq<VrEvent>, devices: seq<Device>): (r: TickResult)
    requires ValidSettings(s)
    ensures r.exitLoop <==> QuitRequested(queue)
    ensures r.messages == DrainMessages(queue, s.channel) + Tracking.TrackingPass(s, devices)
    ensures forall i :: 0 <= i < |r.messages| ==> Midi.WellFormed(r.messages[i])
    ensures 10 <= r.sleepMs <= 1000
  {
    TickResult(
      DrainMessages(queue, s.channel) + Tracking.TrackingPass(s, devices),
      QuitRequested(queue),
      FrameDelay(s.fps))
  }

  /** A tick's messages split at one point: every message before it is a
      note message from the drain, every message after it a control change
      from the tracking pass. */
  lemma NotesBeforeControllers(s: Settings, queue: seq<VrEvent>, devices: seq<Device>)
    requires ValidSettings(s)
    ensures var m := Tick(s, queue, devices).messages;
            var k := |DrainMessages(queue, s.channel)|;
            && k <= |m|
            && (forall i :: 0 <= i < k ==> !Midi.Interpret(m[i]).ControlChanged?)
            && (forall i :: k <= i < |m| ==> Midi.Interpret(m[i]).ControlChanged?)
  {
  }

  /** A quit event anywhere in the queue still lets the whole tick run: the
      later events are routed and the tracking pass is sent before the loop
      ends. */
  lemma QuitCompletesTick(s: Settings, a: seq<VrEvent>, q: VrEvent, b: seq<VrEvent>, devices: seq<Device>)
    requires ValidSettings(s)
    requires IsQuit(q.eventType)
    ensures var r := Tick(s, a + [q] + b, devices);
            && r.exitLoop
            && r.messages == DrainMessages(a, s.channel) + DrainMessages(b, s.channel) + Tracking.TrackingPass(s, devices)
  {
    QuitDoesNotStopDrain(a, q, b, s.channel);
  }

  /** One frame's inputs: the queued events and the device table. */
  datatype FrameInput = FrameInput(queue: seq<VrEvent>, devices: seq<Device>)

  /** What the loop did over a sequence of frames: the messages sent, the
      number of ticks run, whether it ended on a quit, and the pauses taken. */
  datatype RunResult = RunResult(messages: seq<Midi.Message>, ticks: nat, exited: bool, pauses: seq<int>)

  /** The loop over the frames, stopping after the first tick whose queue
      held a quit event; without one it runs every frame given. */
  function Run(s: Settings, frames: seq<FrameInput>): (r: RunResult)
    requires ValidSettings(s)
    ensures r.ticks <= |frames|
    ensures r.exited ==> 1 <= r.ticks
    ensures |r.pauses| == r.ticks
    ensures forall i :: 0 <= i < |r.pauses| ==> r.pauses[i] == FrameDelay(s.fps)
    decreases |frames|
  {
    if frames == [] then RunResult([], 0, false, [])
    else
      var t := Tick(s, frames[0].queue, frames[0].devices);
      if t.exitLoop then RunResult(t.messages, 1, true, [t.sleepMs])
      else
        var rest := Run(s, frames[1..]);
        RunResult(t.messages + rest.messages, rest.ticks + 1, rest.exited, [t.sleepMs] + rest.pauses)
  }

  /** The loop ends on a frame whose queue held a quit event; without one
      it runs every frame given. */
  lemma {:induction false} RunEndsOnQuit(s: Settings, frames: seq<FrameInput>)
    requires ValidSettings(s)
    ensures Run(s, frames).exited ==> QuitRequested(frames[Run(s, frames).ticks - 1].queue)
    ensures !Run(s, frames).exited ==> Run(s, frames).ticks == |frames|
    decreases |frames|
  {
    if frames != [] && !QuitRequested(frames[0].queue) {
      var rest := Run(s, frames[1..]);
      RunEndsOnQuit(s, frames[1..]);
      if rest.exited {
        assert frames[1..][rest.ticks - 1] == frames[rest.ticks];
      }
    }
  }

  /** Every frame before the last one run held no quit event. */
  lemma {:induction false} RunPassesQuietFrames(s: Settings, frames: seq<FrameInput>, k: int)
    requires ValidSettings(s)
    requires 0 <= k < Run(s, frames).ticks - 1
    ensures !QuitRequested(frames[k].queue)
    decreases k
  {
    if k > 0 {
      assert !QuitRequested(frames[0].queue);
      assert frames[1..][k - 1] == frames[k];
      RunPassesQuietFrames(s, frames[1..], k - 1);
    }
  }

  /** A quit event queued in some frame ends the loop at that frame or
      earlier. */
  lemma {:induction false} RunReachesQuit(s: Settings, frames: seq<FrameInput>, k: int)
    requires ValidSettings(s)
    requires 0 <= k < |frames| && QuitRequested(frames[k].queue)
    ensures Run(s, frames).exited && Run(s, frames).ticks <= k + 1
    decreases k
  {
    if !QuitRequested(frames[0].queue) {
      assert k > 0;
      assert frames[1..][k - 1] == frames[k];
      RunReachesQuit(s, frames[1..], k - 1);
    }
  }

  /** The messages of the ticks run, concatenated in order. */
  function TickMessages(s: Settings, frames: seq<FrameInput>): seq<Midi.Message>
    requires ValidSettings(s)
  {
    if frames == [] then []
    else Tick(s, frames[0].queue, frames[0].devices).messages + TickMessages(s, frames[1..])
  }

  /** The loop sends exactly what its ticks send: the first `ticks` frames
      are processed in full and no later frame is looked at. */
  lemma {:induction false} RunSendsTicks(s: Settings, frames: seq<FrameInput>)
    requires ValidSettings(s)
    ensures Run(s, frames).messages == TickMessages(s, frames[..Run(s, frames).ticks])
    decreases |frames|
  {
    if frames != [] {
      var t := Tick(s, frames[0].queue, frames[0].devices);
      if t.exitLoop {
        assert frames[..1][1..] == [];
        assert frames[..1][0] == frames[0];
      } else {
        RunSendsTicks(s, frames[1..]);
        var k := Run(s, frames[1..]).ticks;
        assert frames[..k + 1][0] == frames[0];
        assert frames[..k + 1][1..] == frames[1..][..k];
      }
    }
  }

  datatype SessionError = InitFailed

  /** The whole event-processing session: the runtime must initialise (the
      program exits otherwise), then the loop runs. */
  function Session(s: Settings, initOk: bool, frames: seq<FrameInput>): (r: Result<RunResult, SessionError>)
    requires ValidSettings(s)
    ensures r.Err? <==> !initOk
    ensures initOk ==> r == Ok(Run(s, frames))
    ensures r.Ok? ==> r.value.ticks <= |frames|
  {
    if !initOk then Err(InitFailed) else Ok(Run(s, frames))
  }
}
