/** The playback sink: one output stream, opened when the conversation
    starts, written chunk by chunk, and closed when it ends. */
module Playback {
  import opened Samples

  /** The life of the player's output stream. */
  datatype StreamState = Unopened | Running | Closed

  class AudioPlayer {
    /** State of the output stream. */
    var stream: StreamState
    /** Every sample handed to the output device so far, in order. */
    var output: seq<Sample>
    /** The chunks written so far, one per write, in call order. */
    ghost var written: seq<seq<Sample>>
    /** How often the stream was opened, and how often closed. */
    ghost var opens: nat
    ghost var closes: nat

    /** The device output is the written chunks played back to back. */
    ghost predicate Valid()
      reads this
    {
      output == Flatten(written)
    }

    constructor ()
      ensures Valid() && stream == Unopened && written == []
      ensures opens == 0 && closes == 0
    {
      stream := Unopened;
      output := [];
      written := [];
      opens, closes := 0, 0;
    }

    /** Entering the scope: create the output stream and start it. */
    method Enter()
      requires stream == Unopened
      modifies this
      ensures Valid() && stream == Running && written == []
      ensures opens == old(opens) + 1 && closes == old(closes)
    {
      stream := Running;
      output := [];
      written := [];
      opens := opens + 1;
    }

    /** Write one chunk; it is played after everything written before it. */
    method AddAudio(audioData: seq<Sample>)
      requires Valid() && stream == Running
      modifies this
      ensures Valid() && stream == Running
      ensures written == old(written) + [audioData]
      ensures output == old(output) + audioData
      ensures opens == old(opens) && closes == old(closes)
    {
      FlattenAppend(written, [audioData]);
      assert Flatten([audioData]) == audioData + Flatten([]);
      output := output + audioData;
      written := written + [audioData];
    }

    /** Leaving the scope: close the stream; what was played stays played. */
    method Exit()
      requires stream != Unopened
      modifies this
      ensures stream == Closed
      ensures output == old(output) && written == old(written)
      ensures opens == old(opens) && closes == old(closes) + 1
    {
      stream := Closed;
      closes := closes + 1;
    }
  }

  /** Three writes in order reach the device in that order, whatever their
      sizes, empty chunks included. */
  method WritesInOrder(a: seq<Sample>, b: seq<Sample>, c: seq<Sample>) returns (player: AudioPlayer)
    ensures player.stream == Closed
    ensures player.written == [a, b, c]
    ensures player.output == a + b + c
    ensures player.opens == 1 && player.closes == 1
  {
    player := new AudioPlayer();
    player.Enter();
    player.AddAudio(a);
    player.AddAudio(b);
    player.AddAudio(c);
    player.Exit();
    assert [] + [a] + [b] + [c] == [a, b, c];
  }
}
