/**
 * The coordinator tick of the speech daemon, as functions on its state.
 *
 * The daemon keeps two FIFO arrays, `json_array` (raw datagrams waiting for
 * synthesis) and `voice_array` (wav data waiting for playback), and three
 * thread variables, one per stage. Every tick runs the read, convert and
 * play stages in that order; each stage either starts a worker thread on the
 * oldest input, or collects a finished worker, or does nothing.
 *
 * Worker threads are not modelled. What a tick sees of a running worker is
 * given as a `Status` per stage, so any interleaving of thread completions
 * is covered.
 */
module Pipeline {
  import opened Wrappers
  import Synthesis

  /** The string one `recv` returned. */
  datatype Datagram = Datagram(bytes: seq<Synthesis.byte>)

  /** The wav data one synthesis run printed. */
  datatype Wav = Wav(bytes: seq<Synthesis.byte>)

  /** A thread variable: nil, or a thread started on `input`. */
  datatype Slot<T> = Idle | Busy(input: T)

  /**
   * What `thread.status` and `thread.value` show for a started thread at the
   * moment a tick looks at it: still alive, terminated normally with a value
   * (`status == false`), or terminated by an exception (`status == nil`).
   */
  datatype Status<V> = Running | Finished(value: Option<V>) | Raised

  /** The three observations a tick makes, one per stage. */
  datatype Observation = Observation(read: Status<Datagram>, conv: Status<Wav>, play: Status<()>)

  /**
   * The loop's variables. A receive thread carries no input, so it is
   * identified by its number: `receivesStarted` counts the receive threads
   * created so far, and the one in `readThread` is `Busy(n)` for the n-th
   * (from 0). Each `Thread.new` is a new object; the number stands for it.
   */
  datatype State = State(
    jsonArray: seq<Datagram>,
    voiceArray: seq<Wav>,
    readThread: Slot<nat>,
    convThread: Slot<Datagram>,
    playThread: Slot<Wav>,
    receivesStarted: nat)

  /** The state just before the loop starts: empty arrays, no threads. */
  const Initial := State([], [], Idle, Idle, Idle, 0)

  /** The item a slot's worker owns, if any. */
  function InFlight<T>(slot: Slot<T>): (r: seq<T>)
    ensures |r| <= 1
    ensures r != [] <==> slot.Busy?
  {
    if slot.Busy? then [slot.input] else []
  }

  /** What collecting a worker with this status appends to the next array: its non-nil value. */
  function Delivered<V>(st: Status<V>): (r: seq<V>)
    ensures r != [] <==> st.Finished? && st.value.Some?
    ensures r != [] ==> r == [st.value.value]
  {
    if st.Finished? && st.value.Some? then [st.value.value] else []
  }

  /** The input of a worker that this tick collects (finished normally), if any. */
  function Completed<T, V>(slot: Slot<T>, st: Status<V>): (r: seq<T>)
    ensures r != [] <==> slot.Busy? && st.Finished?
    ensures r != [] ==> r == [slot.input]
  {
    if slot.Busy? && st.Finished? then [slot.input] else []
  }

  /** The items a stage owns: its worker's input, then its array, oldest first. */
  function Held<T>(slot: Slot<T>, queue: seq<T>): seq<T> {
    InFlight(slot) + queue
  }

  lemma HeldAppend<T>(slot: Slot<T>, queue: seq<T>, more: seq<T>)
    ensures Held(slot, queue) + more == Held(slot, queue + more)
  {
    assert InFlight(slot) + queue + more == InFlight(slot) + (queue + more);
  }

  /**
   * The read stage. A nil `read_thread` always gets a new receive: there is
   * no condition on input. A finished receive is collected: its non-nil value
   * goes to the back of `json_array` and the slot is reset. A receive that is
   * running, or died by an exception, is left alone.
   */
  function ReadStep(s: State, st: Status<Datagram>): State
  {
    if s.readThread.Idle? then
      s.(readThread := Busy(s.receivesStarted), receivesStarted := s.receivesStarted + 1)
    else if st.Finished? then
      s.(jsonArray := s.jsonArray + Delivered(st), readThread := Idle)
    else
      s
  }

  /**
   * The convert stage. An idle slot with a non-empty `json_array` shifts the
   * oldest datagram into a new synthesis worker; otherwise a finished worker
   * is collected: its non-nil wav goes to the back of `voice_array` and the
   * slot is reset. Each datagram is, before and after, in exactly one place:
   * the worker's hands, the array, or collected this tick, in the same order.
   */
  function ConvStep(s: State, st: Status<Wav>): State
  {
    if s.convThread.Idle? && |s.jsonArray| > 0 then
      s.(jsonArray := s.jsonArray[1..], convThread := Busy(s.jsonArray[0]))
    else if s.convThread.Busy? && st.Finished? then
      s.(voiceArray := s.voiceArray + Delivered(st), convThread := Idle)
    else
      s
  }

  /**
   * The play stage. An idle slot with a non-empty `voice_array` shifts the
   * oldest wav into a new playback worker; otherwise a finished worker is
   * collected, which only resets the slot.
   */
  function PlayStep(s: State, st: Status<()>): State
  {
    if s.playThread.Idle? && |s.voiceArray| > 0 then
      s.(voiceArray := s.voiceArray[1..], playThread := Busy(s.voiceArray[0]))
    else if s.playThread.Busy? && st.Finished? then
      s.(playThread := Idle)
    else
      s
  }

  /**
   * The read stage only touches `json_array` and `read_thread`; the array
   * only grows, at the back, by a collected receive's non-nil value; the
   * slot is busy afterwards unless a busy slot's thread finished normally.
   * A new receive is started exactly when the slot was nil, and a busy slot
   * keeps the receive it has.
   */
  lemma ReadStepLaw(s: State, st: Status<Datagram>)
    ensures var r := ReadStep(s, st);
      (r.voiceArray == s.voiceArray && r.convThread == s.convThread && r.playThread == s.playThread) &&
      (r.jsonArray == s.jsonArray + (if s.readThread.Busy? then Delivered(st) else [])) &&
      (r.readThread.Busy? <==> s.readThread.Idle? || !st.Finished?) &&
      (r.receivesStarted == s.receivesStarted + (if s.readThread.Idle? then 1 else 0)) &&
      (s.readThread.Idle? ==> r.readThread == Busy(s.receivesStarted)) &&
      (s.readThread.Busy? && r.readThread.Busy? ==> r.readThread == s.readThread)
  {
  }

  /**
   * The convert stage only touches `json_array`, `voice_array` and
   * `conv_thread`. Each datagram is, before and after, in exactly one place
   * (the worker, the array, or collected this tick) in the same order;
   * `voice_array` grows at the back by a collected non-nil wav; a busy slot
   * is never replaced.
   */
  lemma ConvStepLaw(s: State, st: Status<Wav>)
    ensures var r := ConvStep(s, st);
      (r.readThread == s.readThread && r.playThread == s.playThread && r.receivesStarted == s.receivesStarted) &&
      (Held(s.convThread, s.jsonArray) == Completed(s.convThread, st) + Held(r.convThread, r.jsonArray)) &&
      (r.voiceArray == s.voiceArray + (if s.convThread.Busy? then Delivered(st) else [])) &&
      (s.convThread.Busy? && r.convThread.Busy? ==> r.convThread == s.convThread) &&
      (r.convThread.Busy? <==> if s.convThread.Idle? then s.jsonArray != [] else !st.Finished?)
  {
  }

  /**
   * The play stage only touches `voice_array` and `play_thread`, with the
   * same ownership law; collecting changes no array.
   */
  lemma PlayStepLaw(s: State, st: Status<()>)
    ensures var r := PlayStep(s, st);
      (r.jsonArray == s.jsonArray && r.readThread == s.readThread && r.convThread == s.convThread && r.receivesStarted == s.receivesStarted) &&
      (Held(s.playThread, s.voiceArray) == Completed(s.playThread, st) + Held(r.playThread, r.voiceArray)) &&
      (s.playThread.Busy? && r.playThread.Busy? ==> r.playThread == s.playThread) &&
      (r.playThread.Busy? <==> if s.playThread.Idle? then s.voiceArray != [] else !st.Finished?)
  {
  }

  /** One pass of the loop body: read, then convert, then play. */
  function Tick(s: State, o: Observation): State {
    PlayStep(ConvStep(ReadStep(s, o.read), o.conv), o.play)
  }

  /** The state after running the loop body once per observation, in order. */
  function Run(s: State, obs: seq<Observation>): State
    decreases |obs|
  {
    if obs == [] then s else Tick(Run(s, obs[..|obs| - 1]), obs[|obs| - 1])
  }

  /**
   * What moved between stages over some ticks, in the order it moved:
   * datagrams appended to `json_array`, datagrams whose synthesis worker was
   * collected, the value each of those workers returned (`results[i]` for
   * `synthesized[i]`), wavs appended to `voice_array`, wavs whose playback
   * worker was collected.
   */
  datatype Journal = Journal(
    received: seq<Datagram>,
    synthesized: seq<Datagram>,
    results: seq<Option<Wav>>,
    converted: seq<Wav>,
    played: seq<Wav>)

  const NoMoves := Journal([], [], [], [], [])

  function Append(a: Journal, b: Journal): Journal {
    Journal(a.received + b.received, a.synthesized + b.synthesized, a.results + b.results,
      a.converted + b.converted, a.played + b.played)
  }

  /** What one tick moves. */
  function TickJournal(s: State, o: Observation): Journal {
    var s1 := ReadStep(s, o.read);
    var s2 := ConvStep(s1, o.conv);
    Journal(
      if s.readThread.Busy? then Delivered(o.read) else [],
      Completed(s1.convThread, o.conv),
      if s1.convThread.Busy? && o.conv.Finished? then [o.conv.value] else [],
      if s1.convThread.Busy? then Delivered(o.conv) else [],
      Completed(s2.playThread, o.play))
  }

  function RunJournal(s: State, obs: seq<Observation>): Journal
    decreases |obs|
  {
    if obs == [] then NoMoves
    else Append(RunJournal(s, obs[..|obs| - 1]), TickJournal(Run(s, obs[..|obs| - 1]), obs[|obs| - 1]))
  }

  /**
   * From `s` to `r` while `j` moved: every datagram and every wav is in
   * exactly one place (an array, a worker, or moved on), and the order
   * among them is kept.
   */
  predicate Conserved(s: State, r: State, j: Journal) {
    Held(s.convThread, s.jsonArray) + j.received == j.synthesized + Held(r.convThread, r.jsonArray) &&
    Held(s.playThread, s.voiceArray) + j.converted == j.played + Held(r.playThread, r.voiceArray)
  }

  /** Conservation within one tick. */
  lemma TickConservation(s: State, o: Observation)
    ensures Conserved(s, Tick(s, o), TickJournal(s, o))
  {
    var s1 := ReadStep(s, o.read);
    var s2 := ConvStep(s1, o.conv);
    var r := PlayStep(s2, o.play);
    var j := TickJournal(s, o);
    ReadStepLaw(s, o.read);
    ConvStepLaw(s1, o.conv);
    PlayStepLaw(s2, o.play);
    HeldAppend(s.convThread, s.jsonArray, j.received);
    HeldAppend(s.playThread, s.voiceArray, j.converted);
    assert Held(s1.convThread, s1.jsonArray) == Held(s.convThread, s.jsonArray + j.received);
    assert Held(s2.playThread, s2.voiceArray) == Held(s.playThread, s.voiceArray + j.converted);
  }

  /**
   * Conservation over any number of ticks from any state: the arrays are
   * FIFO queues. What leaves `json_array` for synthesis is what entered it,
   * in receipt order, and likewise for `voice_array` and playback; nothing
   * is duplicated and nothing is re-enqueued.
   */
  lemma {:induction false} RunConservation(s: State, obs: seq<Observation>)
    ensures Conserved(s, Run(s, obs), RunJournal(s, obs))
    decreases |obs|
  {
    if obs == [] {
      assert Run(s, obs) == s && RunJournal(s, obs) == NoMoves;
    } else {
      var p, o := obs[..|obs| - 1], obs[|obs| - 1];
      RunUnfold(s, obs);
      RunConservation(s, p);
      TickConservation(Run(s, p), o);
      ConservedCompose(s, Run(s, p), Tick(Run(s, p), o), RunJournal(s, p), TickJournal(Run(s, p), o));
    }
  }

  lemma RunUnfold(s: State, obs: seq<Observation>)
    requires obs != []
    ensures Run(s, obs) == Tick(Run(s, obs[..|obs| - 1]), obs[|obs| - 1])
    ensures RunJournal(s, obs) == Append(RunJournal(s, obs[..|obs| - 1]), TickJournal(Run(s, obs[..|obs| - 1]), obs[|obs| - 1]))
  {
  }

  /** `Run` and `RunJournal` extended by one observation. */
  lemma RunSnoc(s: State, p: seq<Observation>, o: Observation)
    ensures Run(s, p + [o]) == Tick(Run(s, p), o)
    ensures RunJournal(s, p + [o]) == Append(RunJournal(s, p), TickJournal(Run(s, p), o))
  {
    var obs := p + [o];
    assert obs[..|obs| - 1] == p && obs[|obs| - 1] == o;
    RunUnfold(s, obs);
  }

  lemma ConservedCompose(s: State, m: State, r: State, jp: Journal, t: Journal)
    requires Conserved(s, m, jp) && Conserved(m, r, t)
    ensures Conserved(s, r, Append(jp, t))
  {
    Telescope(Held(s.convThread, s.jsonArray), jp.received, jp.synthesized,
      Held(m.convThread, m.jsonArray), t.received, t.synthesized, Held(r.convThread, r.jsonArray));
    Telescope(Held(s.playThread, s.voiceArray), jp.converted, jp.played,
      Held(m.playThread, m.voiceArray), t.converted, t.played, Held(r.playThread, r.voiceArray));
  }

  /** Two conservation steps in a row make one. */
  lemma Telescope<T>(x: seq<T>, p: seq<T>, q: seq<T>, m: seq<T>, t: seq<T>, u: seq<T>, r: seq<T>)
    requires x + p == q + m && m + t == u + r
    ensures x + (p + t) == (q + u) + r
  {
    calc {
      x + (p + t);
      (x + p) + t;
      (q + m) + t;
      q + (m + t);
      q + (u + r);
      (q + u) + r;
    }
  }

  /** The wav a synthesis result contributes: none for nil. */
  function Kept(r: Option<Wav>): (k: seq<Wav>)
    ensures |k| <= 1 && (k != [] <==> r.Some?)
  {
    if r.Some? then [r.value] else []
  }

  /** The non-nil values among synthesis results, in order: what reaches `voice_array`. */
  function NonNil(rs: seq<Option<Wav>>): seq<Wav> {
    if rs == [] then [] else Kept(rs[0]) + NonNil(rs[1..])
  }

  lemma {:induction false} NonNilAppend(a: seq<Option<Wav>>, b: seq<Option<Wav>>)
    ensures NonNil(a + b) == NonNil(a) + NonNil(b)
    decreases |a|
  {
    if a == [] {
      assert a + b == b;
    } else {
      var ab := a + b;
      assert ab[0] == a[0] && ab[1..] == a[1..] + b;
      NonNilAppend(a[1..], b);
      calc {
        NonNil(ab);
        Kept(a[0]) + NonNil(a[1..] + b);
        Kept(a[0]) + (NonNil(a[1..]) + NonNil(b));
        (Kept(a[0]) + NonNil(a[1..])) + NonNil(b);
      }
    }
  }

  /**
   * Every collected synthesis worker has its value recorded, and
   * `voice_array` received exactly the non-nil ones, in collection order.
   */
  predicate ResultsRecorded(j: Journal) {
    |j.results| == |j.synthesized| && j.converted == NonNil(j.results)
  }

  /**
   * One tick: when the convert stage collects a worker, the datagram it had
   * and the value it returned are recorded side by side, and the wav
   * appended to `voice_array`, if any, is that value.
   */
  lemma TickResults(s: State, o: Observation)
    ensures ResultsRecorded(TickJournal(s, o))
    ensures TickJournal(s, o).results != [] <==> s.convThread.Busy? && o.conv.Finished?
    ensures TickJournal(s, o).results != [] ==>
      TickJournal(s, o).synthesized == [s.convThread.input] && TickJournal(s, o).results == [o.conv.value]
  {
    var t := TickJournal(s, o);
    ReadStepLaw(s, o.read);
    if t.results != [] {
      assert t.results[1..] == [];
    }
  }

  lemma ResultsCompose(jp: Journal, t: Journal)
    requires ResultsRecorded(jp) && ResultsRecorded(t)
    ensures ResultsRecorded(Append(jp, t))
  {
    NonNilAppend(jp.results, t.results);
  }

  /**
   * Over any run, whatever each synthesis returned (the same text may give
   * different results on different runs of the engine), `voice_array`
   * receives the non-nil results in the order their workers were collected.
   */
  lemma {:induction false} ConvertedAreResults(s: State, obs: seq<Observation>)
    ensures ResultsRecorded(RunJournal(s, obs))
    decreases |obs|
  {
    if obs == [] {
      assert RunJournal(s, obs) == NoMoves;
    } else {
      var p, o := obs[..|obs| - 1], obs[|obs| - 1];
      RunUnfold(s, obs);
      ConvertedAreResults(s, p);
      TickResults(Run(s, p), o);
      ResultsCompose(RunJournal(s, p), TickJournal(Run(s, p), o));
    }
  }

  /**
   * End-to-end order from start-up, for every schedule and every synthesis
   * outcome. Every received datagram has been synthesized, is being
   * synthesized, or still waits in `json_array`, in receipt order. The i-th
   * synthesized datagram gave the i-th result, and every non-nil result has
   * been played, is playing, or still waits in `voice_array`, in that
   * order. So speech comes out in the order the text came in, minus the
   * syntheses that returned nil.
   */
  lemma EndToEndOrder(obs: seq<Observation>)
    ensures var r, j := Run(Initial, obs), RunJournal(Initial, obs);
      j.received == j.synthesized + Held(r.convThread, r.jsonArray) &&
      |j.results| == |j.synthesized| &&
      j.played + Held(r.playThread, r.voiceArray) == NonNil(j.results)
  {
    RunConservation(Initial, obs);
    ConvertedAreResults(Initial, obs);
    FromEmpty(Initial, Run(Initial, obs), RunJournal(Initial, obs));
  }

  lemma FromEmpty(s: State, r: State, j: Journal)
    requires s.convThread.Idle? && s.jsonArray == [] && s.playThread.Idle? && s.voiceArray == []
    requires Conserved(s, r, j) && ResultsRecorded(j)
    ensures j.received == j.synthesized + Held(r.convThread, r.jsonArray)
    ensures j.played + Held(r.playThread, r.voiceArray) == NonNil(j.results)
  {
    assert Held(s.convThread, s.jsonArray) + j.received == j.received;
    assert Held(s.playThread, s.voiceArray) + j.converted == j.converted;
  }

  /**
   * Within one tick each stage either starts a worker or collects one, never
   * both: a slot collected this tick is still nil when the tick ends, and a
   * busy slot is never given a second worker.
   */
  lemma OneActionPerStage(s: State, o: Observation)
    ensures var r := Tick(s, o);
      (s.readThread.Busy? && o.read.Finished? ==> r.readThread.Idle?) &&
      (s.convThread.Busy? && o.conv.Finished? ==> r.convThread.Idle?) &&
      (s.playThread.Busy? && o.play.Finished? ==> r.playThread.Idle?) &&
      (s.readThread.Busy? && r.readThread.Busy? ==> r.readThread == s.readThread) &&
      (s.convThread.Busy? && r.convThread.Busy? ==> r.convThread == s.convThread) &&
      (s.playThread.Busy? && r.playThread.Busy? ==> r.playThread == s.playThread)
  {
  }

  /** Each stage step moves each array's length by one at most. */
  lemma StepLengths(s: State, o: Observation)
    ensures |ReadStep(s, o.read).jsonArray| - |s.jsonArray| in {0, 1}
    ensures |ConvStep(s, o.conv).jsonArray| - |s.jsonArray| in {-1, 0}
    ensures |ConvStep(s, o.conv).voiceArray| - |s.voiceArray| in {0, 1}
    ensures |PlayStep(s, o.play).voiceArray| - |s.voiceArray| in {-1, 0}
  {
    var c := ConvStep(s, o.conv);
    assert |InFlight(s.convThread) + s.jsonArray| == |Completed(s.convThread, o.conv) + InFlight(c.convThread) + c.jsonArray|;
    var q := PlayStep(s, o.play);
    assert |InFlight(s.playThread) + s.voiceArray| == |Completed(s.playThread, o.play) + InFlight(q.playThread) + q.voiceArray|;
  }

  /**
   * A worker that finishes with nil is collected all the same: the slot is
   * reset, nothing is appended downstream and the input is not put back.
   */
  lemma NilResultDropped(s: State, o: Observation)
    ensures s.readThread.Busy? && o.read == Finished(None) ==>
      ReadStep(s, o.read) == s.(readThread := Idle)
    ensures s.convThread.Busy? && o.conv == Finished(None) ==>
      ConvStep(s, o.conv) == s.(convThread := Idle)
  {
  }

  /**
   * Stages run in order within one tick, so a datagram collected from the
   * receiver can go straight to synthesis, and a wav collected from synthesis
   * straight to playback, in the same tick.
   */
  lemma SameTickHandoff(s: State, o: Observation, d: Datagram, w: Wav)
    ensures s.readThread.Busy? && o.read == Finished(Some(d)) && s.jsonArray == [] && s.convThread.Idle? ==>
      Tick(s, o).convThread == Busy(d) && Tick(s, o).jsonArray == []
    ensures s.convThread.Busy? && o.conv == Finished(Some(w)) && s.voiceArray == [] && s.playThread.Idle? ==>
      Tick(s, o).playThread == Busy(w) && Tick(s, o).voiceArray == []
  {
  }

  /**
   * With nothing queued and no worker, a tick is not a no-op: it starts a
   * receive. Whenever a receive is running and nothing is queued or being
   * synthesized or played, as between messages, a tick changes nothing and
   * moves nothing until that receive finishes.
   */
  lemma IdleTicks(s: State, o: Observation)
    ensures Tick(Initial, o) == Initial.(readThread := Busy(0), receivesStarted := 1)
    ensures (s.jsonArray == [] && s.voiceArray == [] && s.convThread.Idle? && s.playThread.Idle? &&
             s.readThread.Busy? && !o.read.Finished?) ==>
            Tick(s, o) == s && TickJournal(s, o) == NoMoves
  {
  }

  /** From `s` to `r` while `j` moved, the read stage did nothing: no datagram came in. */
  predicate ReadStalled(s: State, r: State, j: Journal) {
    r.readThread == s.readThread && j.received == []
  }

  /** From `s` to `r` while `j` moved, the convert stage kept its worker and did nothing else: `json_array` only grew. */
  predicate ConvStalled(s: State, r: State, j: Journal) {
    r.convThread == s.convThread && j.synthesized == [] && j.converted == [] &&
    r.jsonArray == s.jsonArray + j.received
  }

  /** From `s` to `r` while `j` moved, the play stage kept its worker and did nothing else: `voice_array` only grew. */
  predicate PlayStalled(s: State, r: State, j: Journal) {
    r.playThread == s.playThread && j.played == [] &&
    r.voiceArray == s.voiceArray + j.converted
  }

  /**
   * A receive thread that died by an exception has `status` nil, which is
   * neither nil-the-slot nor `false`: it is never collected, so no further
   * datagram is ever read.
   */
  lemma {:induction false} RaisedReceiveStopsReading(s: State, obs: seq<Observation>)
    requires s.readThread.Busy?
    requires forall i | 0 <= i < |obs| :: obs[i].read.Raised?
    ensures ReadStalled(s, Run(s, obs), RunJournal(s, obs))
    decreases |obs|
  {
    if obs == [] {
      assert Run(s, obs) == s && RunJournal(s, obs) == NoMoves;
    } else {
      var p, o := obs[..|obs| - 1], obs[|obs| - 1];
      assert forall i | 0 <= i < |p| :: p[i] == obs[i];
      RunUnfold(s, obs);
      RaisedReceiveStopsReading(s, p);
      var m, jp := Run(s, p), RunJournal(s, p);
      RaisedTick(m, o);
      var t := TickJournal(m, o);
      assert ReadStalled(m, Tick(m, o), t);
      assert jp.received + t.received == [];
    }
  }

  /**
   * A synthesis thread that died by an exception blocks its slot for good:
   * nothing more is synthesized and `json_array` only grows.
   */
  lemma {:induction false} RaisedSynthesisStopsConverting(s: State, obs: seq<Observation>)
    requires s.convThread.Busy?
    requires forall i | 0 <= i < |obs| :: obs[i].conv.Raised?
    ensures ConvStalled(s, Run(s, obs), RunJournal(s, obs))
    decreases |obs|
  {
    if obs == [] {
      assert Run(s, obs) == s && RunJournal(s, obs) == NoMoves;
    } else {
      var p, o := obs[..|obs| - 1], obs[|obs| - 1];
      assert forall i | 0 <= i < |p| :: p[i] == obs[i];
      RunUnfold(s, obs);
      RaisedSynthesisStopsConverting(s, p);
      var m, jp := Run(s, p), RunJournal(s, p);
      RaisedTick(m, o);
      ConvStalledCompose(s, m, Tick(m, o), jp, TickJournal(m, o));
    }
  }

  lemma ConvStalledCompose(s: State, m: State, r: State, jp: Journal, t: Journal)
    requires ConvStalled(s, m, jp) && ConvStalled(m, r, t)
    ensures ConvStalled(s, r, Append(jp, t))
  {
  }

  /** A playback thread that died by an exception blocks its slot for good: `voice_array` only grows. */
  lemma {:induction false} RaisedPlaybackStopsPlaying(s: State, obs: seq<Observation>)
    requires s.playThread.Busy?
    requires forall i | 0 <= i < |obs| :: obs[i].play.Raised?
    ensures PlayStalled(s, Run(s, obs), RunJournal(s, obs))
    decreases |obs|
  {
    if obs == [] {
      assert Run(s, obs) == s && RunJournal(s, obs) == NoMoves;
    } else {
      var p, o := obs[..|obs| - 1], obs[|obs| - 1];
      assert forall i | 0 <= i < |p| :: p[i] == obs[i];
      RunUnfold(s, obs);
      RaisedPlaybackStopsPlaying(s, p);
      var m, jp := Run(s, p), RunJournal(s, p);
      RaisedTick(m, o);
      PlayStalledCompose(s, m, Tick(m, o), jp, TickJournal(m, o));
    }
  }

  lemma PlayStalledCompose(s: State, m: State, r: State, jp: Journal, t: Journal)
    requires PlayStalled(s, m, jp) && PlayStalled(m, r, t)
    ensures PlayStalled(s, r, Append(jp, t))
  {
  }

  /** One tick in which a busy stage's thread is seen to have died by an exception. */
  lemma RaisedTick(s: State, o: Observation)
    ensures s.readThread.Busy? && o.read.Raised? ==> ReadStalled(s, Tick(s, o), TickJournal(s, o))
    ensures s.convThread.Busy? && o.conv.Raised? ==> ConvStalled(s, Tick(s, o), TickJournal(s, o))
    ensures s.playThread.Busy? && o.play.Raised? ==> PlayStalled(s, Tick(s, o), TickJournal(s, o))
  {
    var s1 := ReadStep(s, o.read);
    var s2 := ConvStep(s1, o.conv);
    ReadStepLaw(s, o.read);
    ConvStepLaw(s1, o.conv);
    PlayStepLaw(s2, o.play);
  }

  /** A run extended by one tick whose outcome is already known. */
  lemma RunChain(s: State, p: seq<Observation>, o: Observation, m: State, jm: Journal, r: State, t: Journal)
    requires Run(s, p) == m && RunJournal(s, p) == jm
    requires Tick(m, o) == r && TickJournal(m, o) == t
    ensures Run(s, p + [o]) == r && RunJournal(s, p + [o]) == Append(jm, t)
  {
    RunSnoc(s, p, o);
  }

  /** The four ticks of `OneMessageScenario`, one at a time. */
  lemma ScenarioTicks(d: Datagram, w: Wav)
    ensures var o0, s1 := Observation(Running, Running, Running), Initial.(readThread := Busy(0), receivesStarted := 1);
      Tick(Initial, o0) == s1 && TickJournal(Initial, o0) == NoMoves
    ensures var s1, o1 := Initial.(readThread := Busy(0), receivesStarted := 1), Observation(Finished(Some(d)), Running, Running);
      var s2 := Initial.(readThread := Idle, convThread := Busy(d), receivesStarted := 1);
      Tick(s1, o1) == s2 && TickJournal(s1, o1) == Journal([d], [], [], [], [])
    ensures var s2, o2 := Initial.(readThread := Idle, convThread := Busy(d), receivesStarted := 1), Observation(Running, Finished(Some(w)), Running);
      var s3 := Initial.(readThread := Busy(1), playThread := Busy(w), receivesStarted := 2);
      Tick(s2, o2) == s3 && TickJournal(s2, o2) == Journal([], [d], [Some(w)], [w], [])
    ensures var s3, o3 := Initial.(readThread := Busy(1), playThread := Busy(w), receivesStarted := 2), Observation(Running, Running, Finished(None));
      Tick(s3, o3) == Initial.(readThread := Busy(1), receivesStarted := 2) && TickJournal(s3, o3) == Journal([], [], [], [], [w])
  {
    ReadStepLaw(Initial, Running);
    ReadStepLaw(Initial.(readThread := Busy(0), receivesStarted := 1), Finished(Some(d)));
    ReadStepLaw(Initial.(readThread := Idle, convThread := Busy(d), receivesStarted := 1), Running);
    ReadStepLaw(Initial.(readThread := Busy(1), playThread := Busy(w), receivesStarted := 2), Running);
  }

  /**
   * One message through the whole pipeline: the receive started on the first
   * tick yields datagram `d`, synthesis of `d` yields `w`, playback of `w`
   * finishes. After four ticks both arrays are empty, only a new receive is
   * running, and `w` was played.
   */
  lemma {:induction false} OneMessageScenario(d: Datagram, w: Wav)
    ensures var obs := [
        Observation(Running, Running, Running),
        Observation(Finished(Some(d)), Running, Running),
        Observation(Running, Finished(Some(w)), Running),
        Observation(Running, Running, Finished(None))];
      Run(Initial, obs) == Initial.(readThread := Busy(1), receivesStarted := 2) &&
      RunJournal(Initial, obs) == Journal([d], [d], [Some(w)], [w], [w])
  {
    var o0 := Observation(Running, Running, Running);
    var o1 := Observation(Finished(Some(d)), Running, Running);
    var o2 := Observation(Running, Finished(Some(w)), Running);
    var o3 := Observation(Running, Running, Finished(None));
    var s1 := Initial.(readThread := Busy(0), receivesStarted := 1);
    var s2 := Initial.(readThread := Idle, convThread := Busy(d), receivesStarted := 1);
    var s3 := Initial.(readThread := Busy(1), playThread := Busy(w), receivesStarted := 2);
    var s4 := Initial.(readThread := Busy(1), receivesStarted := 2);
    var j2 := Journal([d], [], [], [], []);
    var j3 := Journal([d], [d], [Some(w)], [w], []);
    ScenarioTicks(d, w);
    assert Run(Initial, []) == Initial && RunJournal(Initial, []) == NoMoves;
    RunChain(Initial, [], o0, Initial, NoMoves, s1, NoMoves);
    assert Append(NoMoves, NoMoves) == NoMoves;
    RunChain(Initial, [] + [o0], o1, s1, NoMoves, s2, j2);
    assert Append(NoMoves, j2) == j2;
    RunChain(Initial, [] + [o0] + [o1], o2, s2, j2, s3, Journal([], [d], [Some(w)], [w], []));
    assert Append(j2, Journal([], [d], [Some(w)], [w], [])) == j3;
    RunChain(Initial, [] + [o0] + [o1] + [o2], o3, s3, j3, s4, Journal([], [], [], [], [w]));
    assert [] + [o0] + [o1] + [o2] + [o3] == [o0, o1, o2, o3];
    assert Append(j3, Journal([], [], [], [], [w])) == Journal([d], [d], [Some(w)], [w], [w]);
  }
}
