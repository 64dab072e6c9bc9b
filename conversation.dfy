/** The conversation loop: capture an utterance, submit it to the voice
    pipeline, route the pipeline's events to the player and to the log, and
    repeat until the capture reports the terminate signal.

    The pipeline is an external service: the events it streams back for
    each cycle are given as one finite list per cycle.  The captures are
    given as the list of results the capture step returns, in order; if that
    list runs out before a terminate signal, the model stops there with the
    player still open.  Submissions, plays and log lines are recorded as one
    list of effects, in the order they happen. */
module Conversation {
  import opened Samples
  import opened AudioCapture
  import opened Playback

  /** What the pipeline streams back: synthesized audio, a lifecycle
      notice, or any other kind of event. */
  datatype PipelineEvent =
    | AudioEvent(data: seq<Sample>)
    | LifecycleEvent(event: string)
    | OtherEvent(kind: string)

  /** One visible effect of the loop. */
  datatype Effect =
    | Submitted(buffer: seq<Sample>)
    | Played(chunk: seq<Sample>)
    | Logged(event: string)

  /** Where one pipeline event goes: an audio payload to the player, a
      lifecycle notice to the log, anything else nowhere. */
  function RouteEvent(e: PipelineEvent): (r: seq<Effect>)
    ensures |r| <= 1
    ensures r == [] <==> e.OtherEvent?
    ensures e.AudioEvent? ==> r[0].Played? && r[0].chunk == e.data
    ensures e.LifecycleEvent? ==> r[0].Logged? && r[0].event == e.event
  {
    match e
    case AudioEvent(data) => [Played(data)]
    case LifecycleEvent(event) => [Logged(event)]
    case OtherEvent(_) => []
  }

  /** The effects of consuming a whole event stream, in stream order, at
      most one per event (`RouteProjections` says which). */
  function Route(events: seq<PipelineEvent>): (r: seq<Effect>)
    ensures |r| <= |events|
  {
    if events == [] then [] else RouteEvent(events[0]) + Route(events[1..])
  }

  /** The effects of one cycle: submit the buffer, then route the events
      the pipeline streams back for it. */
  function Cycle(buffer: seq<Sample>, events: seq<PipelineEvent>): (r: seq<Effect>)
    ensures 0 < |r| <= |events| + 1 && r[0] == Submitted(buffer)
  {
    [Submitted(buffer)] + Route(events)
  }

  /** The effects of a whole run: one submission per captured buffer,
      followed by the routing of that cycle's events, up to the first
      terminate signal. */
  function Session(recordings: seq<Capture>, responses: seq<seq<PipelineEvent>>): (r: seq<Effect>)
    requires |responses| >= |recordings|
    ensures r == [] <==> recordings == [] || recordings[0].Terminated?
    ensures r != [] ==> r[0] == Submitted(recordings[0].samples)
  {
    if recordings == [] || recordings[0].Terminated? then []
    else Cycle(recordings[0].samples, responses[0]) + Session(recordings[1..], responses[1..])
  }

  /** Number of cycles run: the position of the first terminate signal, or
      every recording if there is none. */
  function CycleCount(recordings: seq<Capture>): (n: nat)
    ensures n <= |recordings|
    ensures forall j :: 0 <= j < n ==> recordings[j].Audio?
    ensures n < |recordings| ==> recordings[n].Terminated?
    ensures n == |recordings| <==> Terminated !in recordings
  {
    if recordings == [] || recordings[0].Terminated? then 0
    else
      var n := 1 + CycleCount(recordings[1..]);
      assert forall j :: 1 <= j < |recordings| ==> recordings[j] == recordings[1..][j - 1];
      n
  }

  // ---------------------------------------------------------------------
  // Projections of effects and of event streams.

  function Submissions(effects: seq<Effect>): seq<seq<Sample>> {
    if effects == [] then []
    else (if effects[0].Submitted? then [effects[0].buffer] else []) + Submissions(effects[1..])
  }

  function PlayedChunks(effects: seq<Effect>): seq<seq<Sample>> {
    if effects == [] then []
    else (if effects[0].Played? then [effects[0].chunk] else []) + PlayedChunks(effects[1..])
  }

  function LoggedEvents(effects: seq<Effect>): seq<string> {
    if effects == [] then []
    else (if effects[0].Logged? then [effects[0].event] else []) + LoggedEvents(effects[1..])
  }

  /** The payloads of the audio events of a stream, in stream order. */
  function AudioPayloads(events: seq<PipelineEvent>): seq<seq<Sample>> {
    if events == [] then []
    else (if events[0].AudioEvent? then [events[0].data] else []) + AudioPayloads(events[1..])
  }

  /** The notices of the lifecycle events of a stream, in stream order. */
  function LifecycleNotices(events: seq<PipelineEvent>): seq<string> {
    if events == [] then []
    else (if events[0].LifecycleEvent? then [events[0].event] else []) + LifecycleNotices(events[1..])
  }

  /** The samples of the captured buffers, in capture order. */
  function Buffers(recordings: seq<Capture>): seq<seq<Sample>> {
    if recordings == [] then []
    else (if recordings[0].Audio? then [recordings[0].samples] else []) + Buffers(recordings[1..])
  }

  /** The audio payloads of several responses, response after response. */
  function ResponseAudio(responses: seq<seq<PipelineEvent>>): seq<seq<Sample>> {
    if responses == [] then [] else AudioPayloads(responses[0]) + ResponseAudio(responses[1..])
  }

  /** The lifecycle notices of several responses, response after response. */
  function ResponseNotices(responses: seq<seq<PipelineEvent>>): seq<string> {
    if responses == [] then [] else LifecycleNotices(responses[0]) + ResponseNotices(responses[1..])
  }

  /** Each projection of effects distributes over concatenation. */
  lemma {:induction false} SubmissionsAppend(a: seq<Effect>, b: seq<Effect>)
    ensures Submissions(a + b) == Submissions(a) + Submissions(b)
  {
    if a == [] {
      assert a + b == b;
    } else {
      assert (a + b)[0] == a[0] && (a + b)[1..] == a[1..] + b;
      SubmissionsAppend(a[1..], b);
    }
  }

  lemma {:induction false} PlayedChunksAppend(a: seq<Effect>, b: seq<Effect>)
    ensures PlayedChunks(a + b) == PlayedChunks(a) + PlayedChunks(b)
  {
    if a == [] {
      assert a + b == b;
    } else {
      assert (a + b)[0] == a[0] && (a + b)[1..] == a[1..] + b;
      PlayedChunksAppend(a[1..], b);
    }
  }

  lemma {:induction false} LoggedEventsAppend(a: seq<Effect>, b: seq<Effect>)
    ensures LoggedEvents(a + b) == LoggedEvents(a) + LoggedEvents(b)
  {
    if a == [] {
      assert a + b == b;
    } else {
      assert (a + b)[0] == a[0] && (a + b)[1..] == a[1..] + b;
      LoggedEventsAppend(a[1..], b);
    }
  }

  /** Consuming two streams one after the other has the effects of the
      first followed by those of the second: routing is order preserving
      and needs no look-ahead. */
  lemma {:induction false} RouteAppend(a: seq<PipelineEvent>, b: seq<PipelineEvent>)
    ensures Route(a + b) == Route(a) + Route(b)
  {
    if a == [] {
      assert a + b == b;
    } else {
      assert (a + b)[0] == a[0] && (a + b)[1..] == a[1..] + b;
      RouteAppend(a[1..], b);
    }
  }

  /** Routing a stream plays exactly its audio payloads and logs exactly its
      lifecycle notices, each in stream order; it submits nothing, and any
      other event has no effect. */
  lemma {:induction false} RouteProjections(events: seq<PipelineEvent>)
    ensures PlayedChunks(Route(events)) == AudioPayloads(events)
    ensures LoggedEvents(Route(events)) == LifecycleNotices(events)
    ensures Submissions(Route(events)) == []
    ensures |Route(events)| == |AudioPayloads(events)| + |LifecycleNotices(events)|
  {
    if events != [] {
      RouteProjections(events[1..]);
      SubmissionsAppend(RouteEvent(events[0]), Route(events[1..]));
      PlayedChunksAppend(RouteEvent(events[0]), Route(events[1..]));
      LoggedEventsAppend(RouteEvent(events[0]), Route(events[1..]));
    }
  }

  /** One cycle: its buffer is submitted once, before any of its events is
      routed. */
  lemma CycleProjections(buffer: seq<Sample>, events: seq<PipelineEvent>)
    ensures Cycle(buffer, events)[0] == Submitted(buffer)
    ensures Submissions(Cycle(buffer, events)[1..]) == []
    ensures Submissions(Cycle(buffer, events)) == [buffer]
    ensures PlayedChunks(Cycle(buffer, events)) == AudioPayloads(events)
    ensures LoggedEvents(Cycle(buffer, events)) == LifecycleNotices(events)
  {
    SubmissionsAppend([Submitted(buffer)], Route(events));
    PlayedChunksAppend([Submitted(buffer)], Route(events));
    LoggedEventsAppend([Submitted(buffer)], Route(events));
    RouteProjections(events);
    assert Cycle(buffer, events)[1..] == Route(events);
  }

  /** Over a whole run, the buffers submitted are the captured buffers
      before the first terminate signal, one submission per cycle. */
  lemma {:induction false} SessionSubmissions(recordings: seq<Capture>, responses: seq<seq<PipelineEvent>>)
    requires |responses| >= |recordings|
    ensures Submissions(Session(recordings, responses)) == Buffers(recordings[..CycleCount(recordings)])
    ensures |Submissions(Session(recordings, responses))| == CycleCount(recordings)
  {
    var n := CycleCount(recordings);
    if recordings == [] || recordings[0].Terminated? {
      assert recordings[..n] == [];
    } else {
      var rs, ps := recordings[1..], responses[1..];
      SessionSubmissions(rs, ps);
      CycleProjections(recordings[0].samples, responses[0]);
      SubmissionsAppend(Cycle(recordings[0].samples, responses[0]), Session(rs, ps));
      assert recordings[..n][0] == recordings[0] && recordings[..n][1..] == rs[..n - 1];
    }
  }

  /** Over a whole run, the player receives the audio payloads of the
      responses of the cycles run, cycle after cycle, each in stream order. */
  lemma {:induction false} SessionPlayback(recordings: seq<Capture>, responses: seq<seq<PipelineEvent>>)
    requires |responses| >= |recordings|
    ensures PlayedChunks(Session(recordings, responses)) == ResponseAudio(responses[..CycleCount(recordings)])
  {
    var n := CycleCount(recordings);
    if recordings == [] || recordings[0].Terminated? {
      assert responses[..n] == [];
    } else {
      var rs, ps := recordings[1..], responses[1..];
      SessionPlayback(rs, ps);
      CycleProjections(recordings[0].samples, responses[0]);
      PlayedChunksAppend(Cycle(recordings[0].samples, responses[0]), Session(rs, ps));
      assert responses[..n][0] == responses[0] && responses[..n][1..] == ps[..n - 1];
    }
  }

  /** Over a whole run, the log receives the lifecycle notices of the
      responses of the cycles run, cycle after cycle, each in stream order. */
  lemma {:induction false} SessionLog(recordings: seq<Capture>, responses: seq<seq<PipelineEvent>>)
    requires |responses| >= |recordings|
    ensures LoggedEvents(Session(recordings, responses)) == ResponseNotices(responses[..CycleCount(recordings)])
  {
    var n := CycleCount(recordings);
    if recordings == [] || recordings[0].Terminated? {
      assert responses[..n] == [];
    } else {
      var rs, ps := recordings[1..], responses[1..];
      SessionLog(rs, ps);
      CycleProjections(recordings[0].samples, responses[0]);
      LoggedEventsAppend(Cycle(recordings[0].samples, responses[0]), Session(rs, ps));
      assert responses[..n][0] == responses[0] && responses[..n][1..] == ps[..n - 1];
    }
  }

  /** The pipeline answers with audio, a start notice, audio, an end notice:
      the player gets both chunks in order and the log both notices in
      order. */
  lemma MixedStreamScenario(x: seq<Sample>, started: string, y: seq<Sample>, ended: string)
    ensures var events := [AudioEvent(x), LifecycleEvent(started), AudioEvent(y), LifecycleEvent(ended)];
      Route(events) == [Played(x), Logged(started), Played(y), Logged(ended)]
      && PlayedChunks(Route(events)) == [x, y]
      && LoggedEvents(Route(events)) == [started, ended]
  {
    var e3 := [LifecycleEvent(ended)];
    var e2 := [AudioEvent(y)] + e3;
    var e1 := [LifecycleEvent(started)] + e2;
    var events := [AudioEvent(x)] + e1;
    assert e3[1..] == [] && e2[1..] == e3 && e1[1..] == e2 && events[1..] == e1;
    assert events == [AudioEvent(x), LifecycleEvent(started), AudioEvent(y), LifecycleEvent(ended)];
    RouteProjections(events);
    assert AudioPayloads(e3) == [] && AudioPayloads(e2) == [y] && AudioPayloads(e1) == [y];
    assert LifecycleNotices(e3) == [ended] && LifecycleNotices(e2) == [ended];
    assert LifecycleNotices(e1) == [started, ended];
    assert Route(e3) == [Logged(ended)];
    assert Route(e2) == [Played(y), Logged(ended)];
    assert Route(e1) == [Logged(started), Played(y), Logged(ended)];
  }

  // ---------------------------------------------------------------------
  // The loop as the program runs it.

  /** The first `i + 1` cycles: the first `i`, then one more. */
  lemma {:induction false} SessionSnoc(recordings: seq<Capture>, responses: seq<seq<PipelineEvent>>, i: nat)
    requires |responses| >= |recordings| && i < |recordings|
    requires forall j :: 0 <= j <= i ==> recordings[j].Audio?
    ensures Session(recordings[..i + 1], responses[..i + 1])
         == Session(recordings[..i], responses[..i]) + Cycle(recordings[i].samples, responses[i])
  {
    var r, p := recordings[..i + 1], responses[..i + 1];
    if i == 0 {
      assert r[1..] == [] && recordings[..0] == [];
    } else {
      var r', p' := recordings[1..], responses[1..];
      SessionSnoc(r', p', i - 1);
      assert r[0] == recordings[0] && p[0] == responses[0];
      assert r[1..] == r'[..i] && p[1..] == p'[..i];
      assert recordings[..i][0] == recordings[0] && responses[..i][0] == responses[0];
      assert recordings[..i][1..] == r'[..i - 1] && responses[..i][1..] == p'[..i - 1];
    }
  }

  /** The loop stops at the first terminate signal: the effects of a run are
      those of its cycles before it, and later recordings are never used. */
  lemma {:induction false} SessionStopsAtTerminate(recordings: seq<Capture>, responses: seq<seq<PipelineEvent>>)
    requires |responses| >= |recordings|
    ensures var n := CycleCount(recordings);
      Session(recordings, responses) == Session(recordings[..n], responses[..n])
  {
    var n := CycleCount(recordings);
    if recordings == [] || recordings[0].Terminated? {
      assert recordings[..n] == [];
    } else {
      SessionStopsAtTerminate(recordings[1..], responses[1..]);
      assert recordings[..n][0] == recordings[0] && responses[..n][0] == responses[0];
      assert recordings[..n][1..] == recordings[1..][..n - 1];
      assert responses[..n][1..] == responses[1..][..n - 1];
    }
  }

  /** One more cycle of the loop: the effects so far, then the submission
      and the routed response; the player gets that response's audio. */
  lemma CycleStep(recordings: seq<Capture>, responses: seq<seq<PipelineEvent>>, i: nat,
                  previous: seq<Effect>, effects: seq<Effect>, w1: seq<seq<Sample>>, w2: seq<seq<Sample>>)
    requires |responses| >= |recordings| && i < |recordings|
    requires forall j :: 0 <= j <= i ==> recordings[j].Audio?
    requires previous == Session(recordings[..i], responses[..i]) && w1 == PlayedChunks(previous)
    requires effects == previous + [Submitted(recordings[i].samples)] + Route(responses[i])
    requires w2 == w1 + AudioPayloads(responses[i])
    ensures effects == Session(recordings[..i + 1], responses[..i + 1])
    ensures w2 == PlayedChunks(effects)
  {
    var cycle := Cycle(recordings[i].samples, responses[i]);
    SessionSnoc(recordings, responses, i);
    assert effects == previous + cycle;
    CycleProjections(recordings[i].samples, responses[i]);
    PlayedChunksAppend(previous, cycle);
  }

  /** Routing the first `j + 1` events: those of the first `j`, then one more. */
  lemma RouteSnoc(stream: seq<PipelineEvent>, j: nat)
    requires j < |stream|
    ensures Route(stream[..j + 1]) == Route(stream[..j]) + RouteEvent(stream[j])
  {
    assert stream[..j + 1] == stream[..j] + [stream[j]];
    RouteAppend(stream[..j], [stream[j]]);
    assert [stream[j]][1..] == [];
  }

  /** The player's chunks after one more step: those before it, then the
      chunks of the step's effects. */
  lemma PlayedStep(before: seq<seq<Sample>>, routed: seq<Effect>, effect: seq<Effect>,
                   w1: seq<seq<Sample>>, w2: seq<seq<Sample>>)
    requires w1 == before + PlayedChunks(routed) && w2 == w1 + PlayedChunks(effect)
    ensures w2 == before + PlayedChunks(routed + effect)
  {
    PlayedChunksAppend(routed, effect);
  }

  /** Handle one event of a response stream: an audio payload is written to
      the player, a lifecycle notice is logged, anything else is skipped. */
  method HandleEvent(player: AudioPlayer, event: PipelineEvent) returns (effect: seq<Effect>)
    requires player.Valid() && player.stream == Running
    modifies player
    ensures player.Valid() && player.stream == Running
    ensures player.opens == old(player.opens) && player.closes == old(player.closes)
    ensures effect == RouteEvent(event)
    ensures player.written == old(player.written) + PlayedChunks(effect)
    ensures player.written == old(player.written) + (if event.AudioEvent? then [event.data] else [])
  {
    match event {
      case AudioEvent(data) =>
        player.AddAudio(data);
        effect := [Played(data)];
        assert PlayedChunks(effect) == [data];
      case LifecycleEvent(notice) =>
        effect := [Logged(notice)];
      case OtherEvent(_) =>
        effect := [];
    }
  }

  /** Consume one response stream: each audio payload is written to the
      player, each lifecycle notice is logged, anything else is skipped,
      one event at a time in stream order. */
  method ConsumeStream(player: AudioPlayer, stream: seq<PipelineEvent>) returns (routed: seq<Effect>)
    requires player.Valid() && player.stream == Running
    modifies player
    ensures player.Valid() && player.stream == Running
    ensures player.opens == old(player.opens) && player.closes == old(player.closes)
    ensures routed == Route(stream)
    ensures player.written == old(player.written) + AudioPayloads(stream)
  {
    ghost var before, opens, closes := player.written, player.opens, player.closes;
    routed := [];
    var j := 0;
    while j < |stream|
      invariant j <= |stream|
      invariant routed == Route(stream[..j])
      invariant player.Valid() && player.stream == Running
      invariant player.opens == opens && player.closes == closes
      invariant player.written == before + PlayedChunks(routed)
    {
      RouteSnoc(stream, j);
      ghost var written := player.written;
      var effect := HandleEvent(player, stream[j]);
      PlayedStep(before, routed, effect, written, player.written);
      routed := routed + effect;
      j := j + 1;
    }
    assert stream[..j] == stream;
    RouteProjections(stream);
  }

  /** The whole conversation: one player for every cycle, entered before the
      first capture and exited once, at the terminate signal. */
  method Converse(recordings: seq<Capture>, responses: seq<seq<PipelineEvent>>)
    returns (player: AudioPlayer, effects: seq<Effect>)
    requires |responses| >= |recordings|
    ensures effects == Session(recordings, responses)
    ensures player.Valid() && player.written == PlayedChunks(effects)
    ensures player.stream == if Terminated in recordings then Closed else Running
    ensures player.opens == 1 && player.closes == if Terminated in recordings then 1 else 0
  {
    player := new AudioPlayer();
    player.Enter();
    effects := [];
    var i := 0;
    // the program loops for ever; the model stops when no further capture
    // result is supplied
    while i < |recordings|
      invariant i <= |recordings|
      invariant forall j :: 0 <= j < i ==> recordings[j].Audio?
      invariant effects == Session(recordings[..i], responses[..i])
      invariant player.Valid() && player.stream == Running
      invariant player.opens == 1 && player.closes == 0
      invariant player.written == PlayedChunks(effects)
    {
      var audioBuffer := recordings[i];
      if audioBuffer.Terminated? {
        break;
      }
      var audioInput := audioBuffer.samples;
      ghost var previous, written := effects, player.written;
      effects := effects + [Submitted(audioInput)];
      var routed := ConsumeStream(player, responses[i]);
      effects := effects + routed;
      CycleStep(recordings, responses, i, previous, effects, written, player.written);
      i := i + 1;
    }
    SessionStopsAtTerminate(recordings, responses);
    if i == |recordings| {
      assert recordings[..i] == recordings && responses[..i] == responses[..|recordings|];
      return;
    }
    player.Exit();
  }
}
