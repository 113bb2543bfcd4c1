# Speech daemon pipeline scheduler

A model of the coordinator of `seqread`, a daemon that reads text messages
from a local datagram socket, turns each into speech with a text-to-speech
command and plays the audio. Its core is a loop that ticks once a second
and drives three stages in a fixed order: read, convert, play. Between the
stages sit two FIFO arrays: `json_array` holds raw datagrams and
`voice_array` holds wav data. Each stage has one thread variable that is
nil, running, or finished. On every tick a stage either starts a thread on
the oldest input (only when its variable is nil), or collects a finished
thread. Collecting appends a non-nil value to the next array and resets the
variable to nil.

Files:

- `pipeline.dfy` (module `Pipeline`): the state as a value; one function per
  stage (`ReadStep`, `ConvStep`, `PlayStep`), `Tick` and `Run` over a
  sequence of ticks, and a `Journal` of what moved between stages. Each
  stage function has a law lemma (`ReadStepLaw`, `ConvStepLaw`,
  `PlayStepLaw`). The other lemmas state the scheduler's properties:
  - conservation and FIFO order of both arrays;
  - end-to-end order, from receipt to playback;
  - one action per stage per tick;
  - nil results dropped;
  - hand-off between stages within the same tick;
  - what an idle tick does;
  - stages that stall for good.
- `scheduler.dfy` (module `Coordinator`): class `Scheduler`, with the two
  arrays and three thread variables as fields. Its methods update them in
  place, and each method is proved equal to the matching `Pipeline` function.
  `RunTicks` runs the loop over a finite schedule and keeps the conservation
  invariant.
- `synthesis.dfy` (module `Synthesis`): the synthesis worker `make_wavdata`.
- `playback.dfy` (module `Playback`): the start-up choice between `aplay` and
  sox's `play`, and the command line `play_wav` builds.
- `wrappers.dfy` (module `Wrappers`): `Option`, standing for Ruby's value-or-nil.

Threads are not modelled as threads. What a tick sees of a started thread is
a `Status` input per stage:

- `Running`: the thread is alive.
- `Finished(v)`: `status == false`, and `v` is the thread's value, possibly nil.
- `Raised`: `status == nil`, meaning the thread died by an exception.

So the lemmas hold for every order in which threads finish and for every
value a synthesis returns. The `Journal` records, side by side, each datagram
whose synthesis thread was collected and the value that thread returned, so
the end-to-end lemma relates playback to those recorded results with no
assumption about the synthesis command.

Ruby threads have identity: the reader's `read_thread` is one particular
`Thread` object until it is collected. The model numbers receive threads in
the order they are started (`receivesStarted` counts them), so the read slot
holds the number of its receive and the lemmas can say which one it is.

Points where the code does something a reader might not expect; the model follows the code:

- `json_array` holds the raw received string. JSON is parsed only inside
  the synthesis worker, so a malformed payload is queued and then dropped
  when its synthesis returns nil.
- `make_wavdata` returns standard output whatever the exit status. An empty
  or failed synthesis output is queued for playback. The result is nil only
  when an exception is rescued.
- A tick with empty arrays and no threads is not a no-op: it starts a receive.
- A thread that dies by an exception is never collected, because its
  `status` is nil, not `false`. Its stage then stalls for good. For the
  reader, this means no datagram is ever read again (`RaisedReceiveStopsReading`).
- A missing "message" key does not fail. `Open3.capture3` turns a nil
  `stdin_data` into the empty string, so the synthesis command runs on empty input.

## Model

| member | source | states |
|---|---|---|
| `Pipeline.ReadStepLaw` | libexec/seqread.rb:171-188 | read stage: only `json_array`, `read_thread` and the receive count change; the array only grows at the back, by the finished receive's non-nil value; a new receive, numbered next, is started exactly when the slot was nil; a busy slot keeps its receive, and is reset exactly when its thread finished normally |
| `Pipeline.ConvStepLaw` | libexec/seqread.rb:191-209 | convert stage: the in-flight datagram plus `json_array` before equals the collected datagram plus in-flight plus array after (shift from the front, nothing lost or duplicated); `voice_array` grows at the back by the non-nil wav only when a busy slot is collected; a busy slot is never replaced; the slot is busy afterwards exactly when it was just started or its thread has not finished normally |
| `Pipeline.PlayStepLaw` | libexec/seqread.rb:212-225 | play stage: same ownership law for `voice_array` and `play_thread`; collecting only resets the slot, no array changes |
| `Pipeline.TickConservation` | libexec/seqread.rb:171-225 | one tick conserves every datagram and wav, in order, across arrays, workers and what was moved on |
| `Pipeline.RunConservation` | libexec/seqread.rb:165-231 | over any number of ticks from any state: both arrays are FIFO; what leaves an array is exactly what entered, in entry order; no duplicate, no re-enqueue |
| `Pipeline.ConvertedAreResults` | libexec/seqread.rb:199-204 | over any run, one result is recorded per collected synthesis thread, and the wavs appended to `voice_array` are exactly the non-nil results, in collection order |
| `Pipeline.TickResults` | libexec/seqread.rb:199-204 | per tick: a result is recorded exactly when a busy synthesis slot sees its thread finished; it is that thread's value, recorded beside the datagram that thread was given |
| `Pipeline.NonNilAppend` | libexec/seqread.rb:199-204 | dropping nil synthesis results distributes over consecutive batches of results |
| `Pipeline.EndToEndOrder` | libexec/seqread.rb:165-231 | from start-up, for every schedule and every synthesis outcome: received datagrams = synthesized + in synthesis + queued, in receipt order; one result per synthesized datagram; played + playing + queued wavs = the non-nil results, in that order |
| `Pipeline.OneActionPerStage` | libexec/seqread.rb:171-225 | in a tick each stage dispatches or collects, never both: a slot collected stays nil until the next tick, a busy slot keeps its own thread (the same receive, datagram or wav) and never gets a second worker |
| `Pipeline.StepLengths` | libexec/seqread.rb:171-225 | each stage step changes each array's length by exactly +1, -1 or 0, in the direction of that stage |
| `Pipeline.NilResultDropped` | libexec/seqread.rb:178-206 | a receive or synthesis finishing with nil resets its slot and changes nothing else; the item is not re-enqueued |
| `Pipeline.SameTickHandoff` | libexec/seqread.rb:178-216 | a datagram collected from the reader is dispatched to synthesis in the same tick, and a collected wav to playback, when the next stage is idle and its array empty |
| `Pipeline.IdleTicks` | libexec/seqread.rb:171-176 | a tick from the initial state starts a receive, so it is not a no-op; in any state with only a running receive (whatever its number) and nothing queued or in synthesis or playback, a tick whose receive has not finished changes nothing and moves nothing |
| `Pipeline.RaisedTick` | libexec/seqread.rb:171-225 | per tick: a busy stage whose thread died by an exception keeps its slot and moves nothing; the array in front of it can only grow |
| `Pipeline.RaisedReceiveStopsReading` | libexec/seqread.rb:172-188 | a receive thread that died by an exception is never collected: reading stops for good |
| `Pipeline.RaisedSynthesisStopsConverting` | libexec/seqread.rb:191-209 | a synthesis thread that died by an exception keeps its slot for good: nothing more is synthesized and `json_array` only grows |
| `Pipeline.RaisedPlaybackStopsPlaying` | libexec/seqread.rb:212-225 | a playback thread that died by an exception keeps its slot for good: `voice_array` only grows |
| `Pipeline.OneMessageScenario` | libexec/seqread.rb:165-231 | one datagram received, synthesized and played in four ticks leaves both arrays empty, only a receive running, and exactly that wav played |
| `Coordinator.Scheduler.constructor` | libexec/seqread.rb:106-119 | empty arrays, three nil thread variables, no receive started |
| `Coordinator.Scheduler.ReadStage` | libexec/seqread.rb:171-188 | the in-place read stage does what `ReadStep` says |
| `Coordinator.Scheduler.ConvertStage` | libexec/seqread.rb:191-209 | the in-place convert stage (`shift`, `<<`) does what `ConvStep` says |
| `Coordinator.Scheduler.PlayStage` | libexec/seqread.rb:212-225 | the in-place play stage does what `PlayStep` says |
| `Coordinator.Scheduler.Tick` | libexec/seqread.rb:166-230 | one loop pass runs read, convert, play in that order |
| `Coordinator.Scheduler.RunTicks` | libexec/seqread.rb:165-231 | a finite prefix of the endless loop ends in `Run` of the schedule and keeps the conservation law |
| `Synthesis.MakeWavData` | libexec/seqread.rb:47-63 | the result is nil exactly when parsing raised or running the command on the message text raised; otherwise it is the command's standard output for that text |
| `Synthesis.MissingMessageIsEmptyMessage` | libexec/seqread.rb:52-54 | a datagram with no "message" key gives exactly what one with an empty message gives: the command runs on empty input |
| `Synthesis.OnlyMessageSpoken` | libexec/seqread.rb:52-56 | the result depends on the command only through its run on the message text |
| `Synthesis.ExitStatusIgnored` | libexec/seqread.rb:54-56 | a non-zero exit status or standard error output changes nothing, and empty output from a parsed datagram is a result, not a failure |
| `Playback.SelectPlayCommand` | libexec/seqread.rb:121-162 | an explicit `PLAY_CMD` of aplay or sox is used only if found, with no fall-back; otherwise aplay is preferred over sox; exit status 1 exactly when the command to use is missing |
| `Playback.PlayInvocation` | libexec/seqread.rb:68-86 | aplay runs as `aplay -D <device>`; sox runs as `play -` with `AUDIODEV` set to its device; any other command plays nothing |
| `Playback.SelectedCommandPlays` | libexec/seqread.rb:121-162 | whatever start-up selects, the playback worker has a command line for it |

## Left out

- Socket creation, unlink, bind and chmod are not modelled. They are operating-system I/O.
- The `recv(4096)` call is not modelled; its result is an opaque datagram.
  The model therefore does not bound the datagram length by 4096.
- Ruby threads and real concurrency are not modelled. A thread's status and
  value are an input of each tick.
- `sleep 1` and `GC.start` are left out. They are timing and runtime artefacts.
- `JSON.parse` is left out. It is a library call, so its outcome is an input (`Synthesis.Parse`).
- The `vvtts`, `aplay` and `play` subprocesses are left out. `Open3.capture3`
  runs foreign processes, so its outcome is an input.
- Option parsing, `--version`, `--debug` and `debug_print` are left out, as
  are loading the config file and `mkdir_p`. They are command-line, logging
  and filesystem glue.
- The `which ... | wc -l` probes are left out. They are shell calls; only
  their yes/no outcome enters `SelectPlayCommand`.
- `AUDIODEV` is not modelled as a process-wide variable. `PlayInvocation`
  only records the value it is set to.
- The loop never ends. `RunTicks` and `Run` cover any finite prefix of it, so
  liveness (every message is eventually played) is not stated.
- The convert stage's result for a datagram is a tick input, not a call of
  `Synthesis.MakeWavData`. The command is a foreign process whose output
  may differ between runs on the same text, so the scheduler lemmas hold
  for any value; `Synthesis` states what that value can be.
