/** Push-to-talk capture: one recording attempt driven by key presses and by
    the frames the input device delivers.

    The key poll loop and the device callback run side by side in the real
    program; here they are one sequential trace of events, in the order in
    which they took effect.  A trace is finite, so a run that has not met a
    stop or a terminate key by the end of its trace is reported as still
    waiting, with the state it has reached. */
module AudioCapture {
  import opened Samples

  /** Key codes as the terminal reports them. */
  const SpaceKey: int := 32
  const LineFeed: int := 10
  const CarriageReturn: int := 13

  predicate IsSpace(code: int) {
    code == SpaceKey
  }

  predicate IsEnter(code: int) {
    code == LineFeed || code == CarriageReturn
  }

  /** A key poll result (any code, including -1 for "no key") or a batch
      of samples handed to the device callback. */
  datatype Event = Key(code: int) | Frame(batch: seq<Sample>)

  predicate IsToggle(e: Event) {
    e.Key? && IsSpace(e.code)
  }

  predicate IsTerminate(e: Event) {
    e.Key? && IsEnter(e.code)
  }

  /** The mutable locals of one capture attempt. */
  datatype State = State(recording: bool, buffer: seq<seq<Sample>>)

  const Initial: State := State(false, [])

  /** What one event does: keep polling, leave the loop with the buffer
      collected so far, or give up the whole conversation. */
  datatype Transition = Continue(next: State) | Stop(last: State) | Quit

  /** The result of a capture: the terminate signal, or audio samples. */
  datatype Capture = Terminated | Audio(samples: seq<Sample>)

  /** A run over a finite trace: still polling in some state, or ended with
      a result after consuming the first `consumed` events. */
  datatype Outcome = Waiting(state: State) | Ended(result: Capture, consumed: nat)

  /** One step of the capture machine. */
  function Step(s: State, e: Event): (r: Transition)
    // a frame is kept exactly when recording, otherwise dropped
    ensures e.Frame? && s.recording ==> r == Continue(State(true, s.buffer + [e.batch]))
    ensures e.Frame? && !s.recording ==> r == Continue(s)
    // starting to record changes nothing else
    ensures IsToggle(e) && !s.recording ==> r == Continue(State(true, s.buffer))
    // stopping with nothing recorded does not end the attempt
    ensures IsToggle(e) && s.recording && s.buffer == [] ==> r == Continue(State(false, []))
    // stopping with something recorded ends it, keeping every batch
    ensures r.Stop? <==> IsToggle(e) && s.recording && s.buffer != []
    ensures r.Stop? ==> r.last == State(false, s.buffer)
    // return ends the attempt whatever the state
    ensures r.Quit? <==> IsTerminate(e)
    // any other key changes nothing
    ensures e.Key? && !IsSpace(e.code) && !IsEnter(e.code) ==> r == Continue(s)
  {
    match e
    case Frame(batch) =>
      Continue(if s.recording then s.(buffer := s.buffer + [batch]) else s)
    case Key(code) =>
      if IsSpace(code) then
        var recording := !s.recording;
        if recording then Continue(s.(recording := recording))
        else if s.buffer != [] then Stop(s.(recording := recording))
        else Continue(s.(recording := recording))
      else if IsEnter(code) then Quit
      else Continue(s)
  }

  /** Joining the collected batches once the loop is left: an empty list,
      or batches that join to nothing, give an empty buffer. */
  function Finalize(batches: seq<seq<Sample>>): (r: Capture)
    ensures r == Audio(Flatten(batches))
    ensures |r.samples| == TotalLength(batches)
  {
    if batches != [] then
      var data := Flatten(batches);
      if |data| > 0 then Audio(data) else Audio([])
    else
      Audio([])
  }

  /** The capture machine run over `t` from position `i` in state `s`. */
  function RunFrom(s: State, t: seq<Event>, i: nat): (o: Outcome)
    requires i <= |t|
    ensures o.Ended? ==> i < o.consumed <= |t|
    decreases |t| - i
  {
    if i == |t| then Waiting(s)
    else
      match Step(s, t[i])
      case Continue(next) => RunFrom(next, t, i + 1)
      case Stop(last) => Ended(Finalize(last.buffer), i + 1)
      case Quit => Ended(Terminated, i + 1)
  }

  /** A whole capture attempt over trace `t`, from the initial state: not
      recording, nothing collected.  While it waits, the flag is the parity
      of the space presses and the buffer holds the batches delivered while
      recording. */
  function Run(t: seq<Event>): (o: Outcome)
    ensures o.Ended? ==> 0 < o.consumed <= |t|
    ensures o.Waiting? ==> o.state == State(Odd(Toggles(t)), RecordedFrom(false, t))
  {
    var o := RunFrom(Initial, t, 0);
    if o.Waiting? then
      WaitingCharacterized(Initial, t, 0);
      assert t[0..] == t;
      o
    else
      o
  }

  // ---------------------------------------------------------------------
  // Reference view: what was delivered while recording, ignoring stops.

  /** Number of space presses in `u`. */
  function Toggles(u: seq<Event>): nat {
    if u == [] then 0 else (if IsToggle(u[0]) then 1 else 0) + Toggles(u[1..])
  }

  predicate Odd(n: nat) {
    n % 2 == 1
  }

  /** The batches of `u` delivered while the recording flag, which starts
      as `recording` and flips at every space press, is on. */
  function RecordedFrom(recording: bool, u: seq<Event>): seq<seq<Sample>>
    decreases |u|
  {
    if u == [] then []
    else match u[0]
      case Frame(b) => (if recording then [b] else []) + RecordedFrom(recording, u[1..])
      case Key(code) => RecordedFrom(if IsSpace(code) then !recording else recording, u[1..])
  }

  predicate NoTerminate(u: seq<Event>) {
    forall j :: 0 <= j < |u| ==> !IsTerminate(u[j])
  }

  /** While the attempt is still waiting: no return key was seen, the flag
      is the parity of the space presses, and the buffer holds exactly the
      batches delivered while recording, in delivery order. */
  lemma {:induction false} WaitingCharacterized(s: State, t: seq<Event>, i: nat)
    requires i <= |t|
    requires RunFrom(s, t, i).Waiting?
    ensures NoTerminate(t[i..])
    ensures RunFrom(s, t, i).state
         == State(s.recording != Odd(Toggles(t[i..])), s.buffer + RecordedFrom(s.recording, t[i..]))
    decreases |t| - i
  {
    if i < |t| {
      var u := t[i..];
      assert u[0] == t[i] && u[1..] == t[i + 1..];
      match Step(s, t[i])
      case Continue(next) =>
        WaitingCharacterized(next, t, i + 1);
        assert NoTerminate(u) by {
          forall j | 0 <= j < |u| ensures !IsTerminate(u[j]) {
            if j > 0 { assert u[j] == u[1..][j - 1]; }
          }
        }
      case Stop(_) =>
      case Quit =>
    }
  }

  /** How an attempt ends: the machine was still waiting just before the
      last consumed event, and that event was either a return key (the
      result is the terminate signal) or a space press that stopped a
      non-empty recording (the result is its batches, joined in order). */
  lemma {:induction false} EndedCharacterized(s: State, t: seq<Event>, i: nat)
    requires i <= |t|
    requires RunFrom(s, t, i).Ended?
    ensures var k := RunFrom(s, t, i).consumed;
      i < k <= |t| && RunFrom(s, t[..k - 1], i).Waiting?
    ensures var o := RunFrom(s, t, i);
      IsTerminate(t[o.consumed - 1]) ==> o.result == Terminated
    ensures var o := RunFrom(s, t, i);
      var w := RunFrom(s, t[..o.consumed - 1], i).state;
      !IsTerminate(t[o.consumed - 1]) ==>
        IsToggle(t[o.consumed - 1]) && w.recording && w.buffer != []
        && o.result == Audio(Flatten(w.buffer))
    decreases |t| - i
  {
    match Step(s, t[i])
    case Continue(next) =>
      EndedCharacterized(next, t, i + 1);
      var k := RunFrom(s, t, i).consumed;
      assert t[..k - 1][i] == t[i];
    case Stop(last) =>
      assert |t[..i]| == i;
    case Quit =>
      assert |t[..i]| == i;
  }

  /** Running a prefix first and then the rest is the same as running the
      whole trace; once a prefix has ended, later events are never read. */
  lemma {:induction false} RunPrefix(s: State, t: seq<Event>, i: nat, j: nat)
    requires i <= j <= |t|
    ensures RunFrom(s, t[..j], i).Waiting? ==>
      RunFrom(s, t, i) == RunFrom(RunFrom(s, t[..j], i).state, t, j)
    ensures RunFrom(s, t[..j], i).Ended? ==> RunFrom(s, t, i) == RunFrom(s, t[..j], i)
    decreases j - i
  {
    if i < j {
      assert t[..j][i] == t[i];
      match Step(s, t[i])
      case Continue(next) => RunPrefix(next, t, i + 1, j);
      case Stop(_) =>
      case Quit =>
    }
  }

  /** Events after the end of an attempt do not change its result. */
  lemma EventsAfterEndIgnored(t: seq<Event>, later: seq<Event>)
    requires Run(t).Ended?
    ensures Run(t + later) == Run(t)
  {
    assert (t + later)[..|t|] == t;
    RunPrefix(Initial, t + later, 0, |t|);
  }

  /** A return key ends the attempt with the terminate signal in any state
      the attempt can be in. */
  lemma EnterTerminates(t: seq<Event>, j: nat)
    requires j < |t| && IsTerminate(t[j])
    requires RunFrom(Initial, t[..j], 0).Waiting?
    ensures Run(t) == Ended(Terminated, j + 1)
  {
    RunPrefix(Initial, t, 0, j);
  }

  /** An attempt that ends with audio ended at a space press, with no return
      key before it, and its samples are exactly the batches delivered while
      recording, joined in delivery order: their length is the sum of the
      batch lengths. */
  lemma CapturedAudioIsRecordedFrames(t: seq<Event>, a: seq<Sample>, k: nat)
    requires Run(t) == Ended(Audio(a), k)
    ensures 0 < k <= |t| && IsToggle(t[k - 1])
    ensures NoTerminate(t[..k])
    ensures Odd(Toggles(t[..k - 1]))
    ensures RecordedFrom(false, t[..k - 1]) != []
    ensures a == Flatten(RecordedFrom(false, t[..k - 1]))
    ensures |a| == TotalLength(RecordedFrom(false, t[..k - 1]))
  {
    EndedCharacterized(Initial, t, 0);
    var p := t[..k - 1];
    WaitingCharacterized(Initial, p, 0);
    assert p[0..] == p;
    var w := RunFrom(Initial, p, 0).state;
    assert w.buffer == [] + RecordedFrom(false, p) == RecordedFrom(false, p);
    assert NoTerminate(t[..k]) by {
      forall j | 0 <= j < k ensures !IsTerminate(t[..k][j]) {
        if j < k - 1 { assert t[..k][j] == p[j]; }
      }
    }
  }

  /** Conversely, a space press that stops a non-empty recording ends the
      attempt at once, with the batches delivered while recording joined in
      delivery order. */
  lemma StopEndsWithAudio(t: seq<Event>, j: nat)
    requires j < |t| && IsToggle(t[j])
    requires RunFrom(Initial, t[..j], 0).Waiting?
    requires Odd(Toggles(t[..j])) && RecordedFrom(false, t[..j]) != []
    ensures Run(t) == Ended(Audio(Flatten(RecordedFrom(false, t[..j]))), j + 1)
  {
    var p := t[..j];
    WaitingCharacterized(Initial, p, 0);
    assert p[0..] == p;
    var w := RunFrom(Initial, p, 0).state;
    assert w.buffer == [] + RecordedFrom(false, p) == RecordedFrom(false, p);
    RunPrefix(Initial, t, 0, j);
    assert Step(w, t[j]) == Stop(State(false, w.buffer));
  }

  /** An attempt that ends with the terminate signal ended at the first
      return key of the trace. */
  lemma TerminatedAtFirstEnter(t: seq<Event>, k: nat)
    requires Run(t) == Ended(Terminated, k)
    ensures 0 < k <= |t| && IsTerminate(t[k - 1])
    ensures NoTerminate(t[..k - 1])
  {
    EndedCharacterized(Initial, t, 0);
    WaitingCharacterized(Initial, t[..k - 1], 0);
    assert t[..k - 1][0..] == t[..k - 1];
  }

  /** If no batch arrives while recording and no return key is pressed, the
      attempt never ends, however often recording is started and stopped. */
  lemma {:induction false} NothingRecordedKeepsWaiting(s: State, t: seq<Event>, i: nat)
    requires i <= |t| && s.buffer == []
    requires RecordedFrom(s.recording, t[i..]) == [] && NoTerminate(t[i..])
    ensures RunFrom(s, t, i).Waiting?
    decreases |t| - i
  {
    if i < |t| {
      var u := t[i..];
      assert u[0] == t[i] && u[1..] == t[i + 1..];
      assert !IsTerminate(u[0]);
      assert NoTerminate(u[1..]) by {
        forall j | 0 <= j < |u[1..]| ensures !IsTerminate(u[1..][j]) {
          assert u[1..][j] == u[j + 1];
        }
      }
      match t[i]
      case Frame(b) =>
        NothingRecordedKeepsWaiting(s, t, i + 1);
      case Key(code) =>
        NothingRecordedKeepsWaiting(State(s.recording != IsSpace(code), []), t, i + 1);
    }
  }

  /** Start, three 100 ms batches, stop: one 300 ms utterance, in order. */
  lemma ThreeBatchesScenario(b1: seq<Sample>, b2: seq<Sample>, b3: seq<Sample>)
    requires |b1| == |b2| == |b3| == SampleRate / 10
    ensures Run([Key(SpaceKey), Frame(b1), Frame(b2), Frame(b3), Key(SpaceKey)])
         == Ended(Audio(b1 + b2 + b3), 5)
    ensures |b1 + b2 + b3| == 3 * (SampleRate / 10)
  {
    var t := [Key(SpaceKey), Frame(b1), Frame(b2), Frame(b3), Key(SpaceKey)];
    assert [] + [b1] == [b1] && [b1] + [b2] == [b1, b2] && [b1, b2] + [b3] == [b1, b2, b3];
    assert RunFrom(Initial, t, 0) == RunFrom(State(true, []), t, 1);
    assert RunFrom(State(true, []), t, 1) == RunFrom(State(true, [b1]), t, 2);
    assert RunFrom(State(true, [b1]), t, 2) == RunFrom(State(true, [b1, b2]), t, 3);
    assert RunFrom(State(true, [b1, b2]), t, 3) == RunFrom(State(true, [b1, b2, b3]), t, 4);
    assert RunFrom(State(true, [b1, b2, b3]), t, 4) == Ended(Finalize([b1, b2, b3]), 5);
    assert Flatten([b1, b2, b3]) == b1 + Flatten([b2, b3]);
    assert Flatten([b2, b3]) == b2 + Flatten([b3]);
    assert Flatten([b3]) == b3 + Flatten([]);
  }

  /** Start then stop with no batch in between: nothing is submitted and the
      attempt is back in its initial state, still waiting. */
  lemma StopWithoutFramesScenario()
    ensures Run([Key(SpaceKey), Key(SpaceKey)]) == Waiting(Initial)
  {
    var t := [Key(SpaceKey), Key(SpaceKey)];
    assert RunFrom(Initial, t, 0) == RunFrom(State(true, []), t, 1);
    assert RunFrom(State(true, []), t, 1) == RunFrom(Initial, t, 2);
  }

  // ---------------------------------------------------------------------
  // The loop as the program runs it.

  /** One capture attempt: poll events in order until a space press stops a
      non-empty recording or a return key is pressed. */
  method CaptureUtterance(trace: seq<Event>) returns (o: Outcome)
    ensures o == Run(trace)
  {
    var recording := false;
    var audioBuffer: seq<seq<Sample>> := [];
    var terminate := false;
    var i := 0;
    while !terminate
      invariant i <= |trace|
      invariant !terminate
      invariant RunFrom(State(recording, audioBuffer), trace, i) == Run(trace)
      decreases |trace| - i
    {
      if i == |trace| {
        // the trace is exhausted: the program would go on polling
        return Waiting(State(recording, audioBuffer));
      }
      var event := trace[i];
      i := i + 1;
      match event {
        case Frame(batch) =>
          if recording {
            audioBuffer := audioBuffer + [batch];
          }
        case Key(key) =>
          if IsSpace(key) {
            recording := !recording;
            if !recording {
              // only leave the loop once some audio was collected
              if audioBuffer != [] {
                break;
              }
            }
          } else if IsEnter(key) {
            recording := false;
            terminate := true;
            return Ended(Terminated, i);
          }
      }
    }
    assert Run(trace) == Ended(Finalize(audioBuffer), i);
    if audioBuffer != [] {
      var audioData := Flatten(audioBuffer);
      if |audioData| > 0 {
        return Ended(Audio(audioData), i);
      }
    }
    return Ended(Audio([]), i);
  }

  // ---------------------------------------------------------------------
  // Validation of the captured result.

  /** The check applied after a capture: an empty or all-zero buffer is
      replaced by a freshly allocated buffer of one second at the sample
      rate, whose contents are whatever `uninitialized` holds. */
  function Validate(captured: Capture, uninitialized: seq<Sample>): (r: Capture)
    requires |uninitialized| == SampleRate
    ensures r.Terminated? <==> captured.Terminated?
    ensures captured.Audio? && AllZero(captured.samples) ==> |r.samples| == SampleRate
    ensures captured.Audio? && !AllZero(captured.samples) ==> r == captured
    ensures r.Audio? ==> |r.samples| > 0
  {
    if captured.Audio? && (|captured.samples| == 0 || AllZero(captured.samples)) then
      Audio(uninitialized)
    else
      captured
  }

  /** A capture attempt followed by validation. */
  method RecordAudio(trace: seq<Event>, uninitialized: seq<Sample>) returns (o: Outcome)
    requires |uninitialized| == SampleRate
    ensures Run(trace).Waiting? ==> o == Run(trace)
    ensures Run(trace).Ended? ==>
      o == Ended(Validate(Run(trace).result, uninitialized), Run(trace).consumed)
    ensures o.Ended? && o.result.Audio? ==> |o.result.samples| > 0
  {
    var audioData := CaptureUtterance(trace);
    if audioData.Ended? {
      var result := audioData.result;
      if result.Audio? && (|result.samples| == 0 || AllZero(result.samples)) {
        return Ended(Audio(uninitialized), audioData.consumed);
      }
    }
    return audioData;
  }
}
