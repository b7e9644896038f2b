# Readers–writer admission scheduler

This project models the scheduler of a browser-based readers–writer simulator
(`script.js`) and proves it correct. Readers and writers wait in a FIFO queue.
A periodic tick judges only the head of the queue against the agents inside the
critical section and the fairness mode (reader priority or writer priority). An
admitted agent moves into the critical section, and a release timer starts with
the current hold duration. When the timer fires, the agent is filtered out of
the critical section by id and prepended to the completed list. Buttons add
readers and writers, switch the mode, pause and resume, change the duration,
reset the simulation and clear the completed list.

The project has three modules:

- `Agents` (`agents.dfy`) holds the agent, kind and mode values. It also holds
  the `some` scan (`HasKind`) and the `filter` by id (`FilterOutId`), with
  lemmas on what filtering keeps and removes.
- `Admission` (`admission.dfy`) holds the admission decision `CanEnter`. Its
  contract states the decision table in terms of the critical section's and
  the queue's contents, and that admission keeps mutual exclusion.
- `Simulator` (`scheduler.dfy`) holds the mutable state as `class Scheduler`.
  Every method keeps the invariant `Valid()` and states its whole new state.
  `Valid()` says the following:
  - Mutual exclusion: a writer in the critical section is alone there.
  - The id counter is at least 1.
  - Ids strictly increase along the started timers followed by the queue, and
    these ids all lie below the id counter.
  - Ids strictly increase along the critical section, and every agent in it
    still has its release timer.
  - Ids on the completed list are unique, lie below the id counter and differ
    from every id held by a timer or waiting in the queue. So no agent is in
    two places at once, and an id is never given out twice, even after a
    reset (for an unbounded counter; see "## Left out").

  Client methods replay the reader-priority, writer-priority and reset
  scenarios against these contracts. They also check that a new id differs
  from every id on the completed list, and that a released agent appears on
  that list only once.

`setTimeout` is modelled as a field `pending` of started timers. Each timer
holds its agent and the duration read at admission. `Release(i)` is the
callback of timer `i`. Timers may fire in any order, and a reset cannot
cancel them.

The model follows the code, including where it departs from the usual
readers–writer policies:

- One tick admits at most one agent. Two queued readers therefore need two
  ticks.
- Under writer priority, a reader at the head with a writer queued behind it
  is refused on every tick. The writer behind it is never judged, so no one
  enters until the mode changes or a reset empties the queue
  (`Admission.WriterQueuedBlocksReaderHead`,
  `Simulator.WriterPriorityScenario`). The usual writer-priority policy would
  admit the queued writer first.
- A timer that fires after a reset still prepends its agent to the completed
  list, which the reset had emptied; a safe implementation would ignore such
  an orphaned timer. The critical section itself is unchanged in that case,
  because ids are never reused (`Simulator.Scheduler.Release`,
  `Simulator.ResetScenario`).
- The reset button also empties the completed list (script.js:248).
- The setters do not reject invalid input; no configuration error exists in
  the code.

## Model

| member | source | states |
|---|---|---|
| `Agents.HasKind` | script.js:154-155 | `some` over agent types: true exactly when some agent of the sequence has the given kind |
| `Agents.FilterOutId` | script.js:212 | the filter keeps exactly the agents whose id differs from the released one, and never grows the list |
| `Agents.FilterOutAbsent` | script.js:212 | filtering out an id no agent carries leaves the list unchanged (post-reset orphan timer) |
| `Agents.FilterOutAt` | script.js:212 | with unique ids, filtering out the id of the agent at position j removes exactly that agent and keeps the rest in order |
| `Agents.FilterOutKeepsIncreasing` | script.js:212 | filtering keeps ids in increasing order |
| `Agents.FilterOutKeepsExclusive` | script.js:212 | filtering keeps mutual exclusion |
| `Admission.CanEnter` | script.js:154-194 | a writer head enters iff the critical section is empty (both modes); a reader head enters iff no writer is active (reader priority), and also no writer is anywhere in the queue (writer priority); admitting on approval keeps mutual exclusion |
| `Admission.WriterQueuedBlocksReaderHead` | script.js:180-193 | under writer priority a reader head with a writer queued behind it is refused whatever is active |
| `Admission.QueueTailIgnored` | script.js:159-176 | under reader priority, and for a writer head in either mode, the agents behind the head do not affect the decision |
| `Simulator.Scheduler.constructor` | script.js:2-10 | initial state: empty queue and critical section, counter 1, reader priority, running, 2000 ms |
| `Simulator.Scheduler.NewAgent` | script.js:29-34 | the new agent takes the counter's value, the counter grows by one, and its id is above the id of every agent waiting, holding a timer, or on the completed list |
| `Simulator.Scheduler.Enqueue` | script.js:223 | the queue gains exactly the new agent at its tail; nothing else changes |
| `Simulator.Scheduler.AddReader` | script.js:222-225 | a reader with the next id joins the tail; only queue and counter change; the invariant holds |
| `Simulator.Scheduler.AddWriter` | script.js:227-230 | a writer with the next id joins the tail; only queue and counter change; the invariant holds |
| `Simulator.Scheduler.Tick` | script.js:150-200 | paused or empty queue: nothing changes; otherwise only the head is judged; on approval the queue loses exactly its head, the critical section gains it at its end and its timer starts with the current duration; on refusal nothing changes; mutual exclusion is kept |
| `Simulator.Scheduler.ProcessEntry` | script.js:202-211 | the approved head moves from the queue to the end of the critical section and a timer with the current duration starts |
| `Simulator.Scheduler.Release` | script.js:211-217 | the fired timer is gone; its agent alone is removed from the critical section, order kept; an agent no longer present leaves it unchanged; the agent is prepended to the completed list in every case; the invariant holds, so the completed ids stay unique and apart from the timers and the queue |
| `Simulator.Scheduler.SetMode` | script.js:233-243 | the mode buttons set only the mode |
| `Simulator.Scheduler.TogglePause` | script.js:263-264 | the pause button flips only the run flag |
| `Simulator.Scheduler.SetDuration` | script.js:259-261 | the slider sets only the duration; started timers keep the duration they read at admission |
| `Simulator.Scheduler.Reset` | script.js:245-253 | queue, critical section and completed list become empty; timers, counter, mode, run flag and duration are kept |
| `Simulator.Scheduler.ClearCompleted` | script.js:255-257 | only the completed list is emptied |
| `Simulator.ReadersShareScenario` | script.js:159-176 | from Reader #1, Reader #2, Writer #3 under reader priority, three ticks admit both readers one per tick and leave the writer waiting |

## Left out

- Rendering is not modelled: the DOM lookups, the queue and critical-section
  views, the status badge, the completed-list markup, and the button classes
  and icons. It is presentation only.
- The orbit geometry of the active agents is not modelled. It uses floating
  point `Math.cos` and `Math.sin`.
- Wall-clock time is not modelled. `setInterval` becomes explicit `Tick` calls
  and each `setTimeout` expiry becomes an explicit `Release(i)`. The delay a
  timer read is recorded, but no clock orders the firings, so the model allows
  every order of release.
- Simulator.Scheduler.NewAgent: the id counter is an unbounded natural
  number. In the code it is a JavaScript number, a double, which stops growing
  under `++` once it reaches 2^53, so ids would repeat from then on. Id
  uniqueness is proved only for the unbounded counter.
- The slider's `parseInt` is not modelled. `SetDuration` takes a natural number;
  a non-numeric slider value (NaN) is outside the model.
- The unused `completed` field of the state object is not modelled. The
  completed list exists only on the page; the model keeps it as the
  `completed` field, newest first.
- `priorityMode` is a value of two cases. The code only ever stores 'reader'
  or 'writer' in it.
