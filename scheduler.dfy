/**
 * The coordinator loop as the daemon runs it: two arrays updated in place
 * with `<<` and `shift`, and three thread variables reassigned each tick.
 * Each method is proved to do what the matching function of `Pipeline`
 * says, so every lemma there holds of this object.
 */
module Coordinator {
  import opened Pipeline

  class Scheduler {
    var jsonArray: seq<Datagram>
    var voiceArray: seq<Wav>
    var readThread: Slot<nat>
    var convThread: Slot<Datagram>
    var playThread: Slot<Wav>
    /** How many receive threads have been created, each numbered in turn. */
    var receivesStarted: nat

    /** The object's state as a value. */
    function Snapshot(): State
      reads this
    {
      State(jsonArray, voiceArray, readThread, convThread, playThread, receivesStarted)
    }

    /** Empty arrays and three nil thread variables, as before the loop. */
    constructor ()
      ensures Snapshot() == Initial
    {
      jsonArray, voiceArray := [], [];
      readThread, convThread, playThread := Idle, Idle, Idle;
      receivesStarted := 0;
    }

    method ReadStage(st: Status<Datagram>)
      modifies this
      ensures Snapshot() == ReadStep(old(Snapshot()), st)
    {
      if readThread.Idle? {
        readThread := Busy(receivesStarted);
        receivesStarted := receivesStarted + 1;
      } else if st.Finished? {
        if st.value.Some? {
          jsonArray := jsonArray + [st.value.value];
        }
        readThread := Idle;
      }
    }

    method ConvertStage(st: Status<Wav>)
      modifies this
      ensures Snapshot() == ConvStep(old(Snapshot()), st)
    {
      if convThread.Idle? && |jsonArray| > 0 {
        var data := jsonArray[0];
        jsonArray := jsonArray[1..];
        convThread := Busy(data);
      } else if convThread.Busy? && st.Finished? {
        if st.value.Some? {
          voiceArray := voiceArray + [st.value.value];
        }
        convThread := Idle;
      }
    }

    method PlayStage(st: Status<()>)
      modifies this
      ensures Snapshot() == PlayStep(old(Snapshot()), st)
    {
      if playThread.Idle? && |voiceArray| > 0 {
        var voiceData := voiceArray[0];
        voiceArray := voiceArray[1..];
        playThread := Busy(voiceData);
      } else if playThread.Busy? && st.Finished? {
        playThread := Idle;
      }
    }

    /** One pass of the loop body. */
    method Tick(o: Observation)
      modifies this
      ensures Snapshot() == Pipeline.Tick(old(Snapshot()), o)
    {
      ReadStage(o.read);
      ConvertStage(o.conv);
      PlayStage(o.play);
    }

    /**
     * The first `|schedule|` passes of the endless loop, the i-th seeing
     * `schedule[i]`. The fixed-order FIFO contract of the daemon is the
     * conservation invariant, kept on every pass.
     */
    method RunTicks(schedule: seq<Observation>)
      modifies this
      ensures Snapshot() == Run(old(Snapshot()), schedule)
      ensures Conserved(old(Snapshot()), Snapshot(), RunJournal(old(Snapshot()), schedule))
    {
      ghost var start := Snapshot();
      var i := 0;
      while i < |schedule|
        invariant 0 <= i <= |schedule|
        invariant Snapshot() == Run(start, schedule[..i])
      {
        Tick(schedule[i]);
        RunUnfold(start, schedule[..i + 1]);
        assert schedule[..i + 1][..i] == schedule[..i];
        i := i + 1;
      }
      assert schedule[..i] == schedule;
      RunConservation(start, schedule);
    }
  }
}
