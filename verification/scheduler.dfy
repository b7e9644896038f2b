/**
 * The simulator's shared state and the operations that change it: adding
 * agents, the periodic scheduler tick, the release timer's callback, and the
 * mode, pause, duration, reset and clear-completed controls.
 */
module Simulator {
  import opened Agents
  import opened Admission

  /**
   * A release timer started when `agent` was admitted; `delay` is the hold
   * duration in milliseconds as it was at that moment.
   */
  datatype Timer = Timer(agent: Agent, delay: nat)

  /** The agents that the started, not yet fired, timers will release. */
  function Timed(pending: seq<Timer>): seq<Agent>
  {
    seq(|pending|, i requires 0 <= i < |pending| => pending[i].agent)
  }

  /**
   * Firing timer `i` keeps ids increasing along the remaining timers and the
   * queue. The only agent in the critical section with the fired timer's id
   * is that timer's agent, and every agent left after filtering that id out
   * still has its own timer.
   */
  lemma TimerRemoval(pending: seq<Timer>, queue: seq<Agent>, active: seq<Agent>, i: nat)
    requires Increasing(Timed(pending) + queue) && i < |pending|
    requires forall a :: a in active ==> a in Timed(pending)
    ensures Increasing(Timed(pending[..i] + pending[i + 1..]) + queue)
    ensures forall a :: a in Timed(pending[..i] + pending[i + 1..]) + queue ==> a in Timed(pending) + queue
    ensures forall a :: a in active && a.id == pending[i].agent.id ==> a == pending[i].agent
    ensures forall a :: a in FilterOutId(active, pending[i].agent.id) ==> a in Timed(pending[..i] + pending[i + 1..])
    ensures forall b :: b in Timed(pending[..i] + pending[i + 1..]) + queue ==> b.id != pending[i].agent.id
  {
    var t := pending[i];
    var timed := Timed(pending);
    var all := timed + queue;
    var rest := pending[..i] + pending[i + 1..];
    assert Timed(rest) == timed[..i] + timed[i + 1..];
    assert Timed(rest) + queue == all[..i] + all[i + 1..];
    RemoveAtKeepsIncreasing(all, i);
    RemoveAtDropsId(all, i);
    forall a | a in active && a.id == t.agent.id ensures a == t.agent {
      var j :| 0 <= j < |pending| && timed[j] == a;
      assert all[j] == a && all[i] == t.agent;
    }
    forall a | a in FilterOutId(active, t.agent.id) ensures a in Timed(rest) {
      var j :| 0 <= j < |pending| && timed[j] == a;
      assert j != i;
      if j < i {
        assert Timed(rest)[j] == a;
      } else {
        assert Timed(rest)[j - 1] == a;
      }
    }
  }

  class Scheduler {
    /** Waiting agents, oldest first. */
    var queue: seq<Agent>
    /** Agents in the critical section, in order of admission. */
    var active: seq<Agent>
    /** The completed list, most recent first. */
    var completed: seq<Agent>
    /** Release timers started and not yet fired, in order of start. */
    var pending: seq<Timer>
    var idCounter: nat
    var mode: Mode
    var isRunning: bool
    /** Hold duration in milliseconds. */
    var duration: nat

    /**
     * The scheduler's invariant: mutual exclusion in the critical section;
     * every id handed out is below the counter, and ids increase along the
     * timers in start order followed by the queue, so no id is ever shared;
     * every agent in the critical section still has its release timer; the
     * completed list holds only ids already handed out, each at most once,
     * and none of them belongs to an agent still waiting or holding a timer.
     * An agent is thus never in two containers at once.
     */
    ghost predicate Valid()
      reads this
    {
      && 1 <= idCounter
      && Exclusive(active)
      && Increasing(Timed(pending) + queue)
      && (forall a :: a in Timed(pending) + queue ==> 1 <= a.id < idCounter)
      && Increasing(active)
      && (forall a :: a in active ==> a in Timed(pending))
      && (forall a :: a in completed ==> 1 <= a.id < idCounter)
      && DistinctIds(completed)
      && DisjointIds(completed, Timed(pending) + queue)
    }

    /** The initial state. */
    constructor ()
      ensures Valid()
      ensures queue == [] && active == [] && completed == [] && pending == []
      ensures idCounter == 1 && mode == ReaderPriority && isRunning && duration == 2000
    {
      queue, active, completed, pending := [], [], [], [];
      idCounter := 1;
      mode := ReaderPriority;
      isRunning := true;
      duration := 2000;
    }

    /**
     * A new agent takes the next id, above the id of every agent waiting,
     * holding a timer, or on the completed list.
     */
    method NewAgent(kind: Kind) returns (a: Agent)
      requires Valid()
      modifies this
      ensures Valid()
      ensures a == Agent(old(idCounter), kind) && idCounter == old(idCounter) + 1
      ensures forall b :: b in old(Timed(pending) + queue + completed) ==> b.id < a.id
      ensures queue == old(queue) && active == old(active) && completed == old(completed)
      ensures pending == old(pending) && mode == old(mode) && isRunning == old(isRunning)
      ensures duration == old(duration)
    {
      a := Agent(idCounter, kind);
      idCounter := idCounter + 1;
    }

    /** Appends `a`, whose id is above all others, to the queue. */
    method Enqueue(a: Agent)
      requires Valid()
      requires 1 <= a.id && a.id == idCounter - 1
      requires forall b :: b in Timed(pending) + queue + completed ==> b.id < a.id
      modifies this
      ensures Valid()
      ensures queue == old(queue) + [a]
      ensures active == old(active) && completed == old(completed) && pending == old(pending)
      ensures idCounter == old(idCounter) && mode == old(mode) && isRunning == old(isRunning)
      ensures duration == old(duration)
    {
      assert Timed(pending) + (queue + [a]) == (Timed(pending) + queue) + [a];
      queue := queue + [a];
    }

    /** The add-reader button: a fresh reader joins the tail of the queue. */
    method AddReader()
      requires Valid()
      modifies this
      ensures Valid()
      ensures queue == old(queue) + [Agent(old(idCounter), Reader)]
      ensures idCounter == old(idCounter) + 1
      ensures active == old(active) && completed == old(completed) && pending == old(pending)
      ensures mode == old(mode) && isRunning == old(isRunning) && duration == old(duration)
    {
      var a := NewAgent(Reader);
      Enqueue(a);
    }

    /** The add-writer button: a fresh writer joins the tail of the queue. */
    method AddWriter()
      requires Valid()
      modifies this
      ensures Valid()
      ensures queue == old(queue) + [Agent(old(idCounter), Writer)]
      ensures idCounter == old(idCounter) + 1
      ensures active == old(active) && completed == old(completed) && pending == old(pending)
      ensures mode == old(mode) && isRunning == old(isRunning) && duration == old(duration)
    {
      var a := NewAgent(Writer);
      Enqueue(a);
    }

    /**
     * One scheduler tick. Nothing happens while paused or with an empty queue.
     * Otherwise only the head is judged: if it may enter, it alone moves from
     * the queue to the end of the critical section and its release timer
     * starts with the current duration; if not, nothing changes.
     */
    method Tick()
      requires Valid()
      modifies this
      ensures Valid()
      ensures var admitted := old(isRunning) && old(queue) != [] &&
                              CanEnter(old(queue)[0], old(active), old(queue), old(mode));
        && (admitted ==>
              && queue == old(queue)[1..]
              && active == old(active) + [old(queue)[0]]
              && pending == old(pending) + [Timer(old(queue)[0], old(duration))])
        && (!admitted ==> queue == old(queue) && active == old(active) && pending == old(pending))
      ensures completed == old(completed) && idCounter == old(idCounter) && mode == old(mode)
      ensures isRunning == old(isRunning) && duration == old(duration)
    {
      if !isRunning {
        return;
      }
      if |queue| == 0 {
        return;
      }
      var candidate := queue[0];
      var canEnter := CanEnter(candidate, active, queue, mode);
      if canEnter {
        ProcessEntry(candidate);
      }
    }

    /**
     * Moves the approved queue head into the critical section and starts its
     * release timer, which reads the duration now.
     */
    method ProcessEntry(candidate: Agent)
      requires Valid()
      requires queue != [] && candidate == queue[0]
      requires CanEnter(candidate, active, queue, mode)
      modifies this
      ensures Valid()
      ensures queue == old(queue)[1..] && active == old(active) + [candidate]
      ensures pending == old(pending) + [Timer(candidate, old(duration))]
      ensures completed == old(completed) && idCounter == old(idCounter) && mode == old(mode)
      ensures isRunning == old(isRunning) && duration == old(duration)
    {
      ghost var all := Timed(pending) + queue;
      var t := Timer(candidate, duration);
      assert Timed(pending + [t]) + queue[1..] == all by {
        assert Timed(pending + [t]) == Timed(pending) + [candidate];
        assert queue == [candidate] + queue[1..];
      }
      forall a | a in active ensures a.id < candidate.id {
        var j :| 0 <= j < |pending| && Timed(pending)[j] == a;
        assert all[j] == a && all[|pending|] == candidate;
      }
      forall a | a in active + [candidate] ensures a in Timed(pending + [t]) {
        assert Timed(pending + [t]) == Timed(pending) + [candidate];
      }
      queue := queue[1..];
      active := active + [candidate];
      pending := pending + [t];
    }

    /**
     * The release timer `pending[i]` fires: its agent is filtered out of the
     * critical section by id and recorded as completed. With unique ids this
     * removes exactly that agent; an agent already cleared by a reset leaves
     * the critical section as it is, yet is still recorded as completed.
     */
    method Release(i: nat)
      requires Valid()
      requires i < |pending|
      modifies this
      ensures Valid()
      ensures pending == old(pending)[..i] + old(pending)[i + 1..]
      ensures active == FilterOutId(old(active), old(pending)[i].agent.id)
      ensures old(pending)[i].agent !in old(active) ==> active == old(active)
      ensures forall j :: 0 <= j < |old(active)| && old(active)[j] == old(pending)[i].agent ==>
                active == old(active)[..j] + old(active)[j + 1..]
      ensures completed == [old(pending)[i].agent] + old(completed)
      ensures queue == old(queue) && idCounter == old(idCounter) && mode == old(mode)
      ensures isRunning == old(isRunning) && duration == old(duration)
    {
      var t := pending[i];
      var id := t.agent.id;
      var rest := pending[..i] + pending[i + 1..];
      TimerRemoval(pending, queue, active, i);
      var filtered := FilterOutId(active, id);
      FilterOutKeepsExclusive(active, id);
      FilterOutKeepsIncreasing(active, id);
      if t.agent !in active {
        FilterOutAbsent(active, id);
      }
      forall j | 0 <= j < |active| && active[j] == t.agent
        ensures filtered == active[..j] + active[j + 1..]
      {
        FilterOutAt(active, id, j);
      }
      assert t.agent in Timed(pending) + queue && 1 <= t.agent.id < idCounter by {
        assert (Timed(pending) + queue)[i] == t.agent;
      }
      RecordKeepsDistinct(t.agent, completed, Timed(pending) + queue, Timed(rest) + queue);
      pending := rest;
      active := filtered;
      completed := [t.agent] + completed;
    }

    /** The reader-priority and writer-priority buttons. */
    method SetMode(m: Mode)
      requires Valid()
      modifies this
      ensures Valid()
      ensures mode == m
      ensures queue == old(queue) && active == old(active) && completed == old(completed)
      ensures pending == old(pending) && idCounter == old(idCounter)
      ensures isRunning == old(isRunning) && duration == old(duration)
    {
      mode := m;
    }

    /** The pause button flips the run flag and nothing else. */
    method TogglePause()
      requires Valid()
      modifies this
      ensures Valid()
      ensures isRunning == !old(isRunning)
      ensures queue == old(queue) && active == old(active) && completed == old(completed)
      ensures pending == old(pending) && idCounter == old(idCounter)
      ensures mode == old(mode) && duration == old(duration)
    {
      isRunning := !isRunning;
    }

    /**
     * The duration slider. Timers already started keep the duration they
     * read at admission.
     */
    method SetDuration(d: nat)
      requires Valid()
      modifies this
      ensures Valid()
      ensures duration == d
      ensures queue == old(queue) && active == old(active) && completed == old(completed)
      ensures pending == old(pending) && idCounter == old(idCounter)
      ensures mode == old(mode) && isRunning == old(isRunning)
    {
      duration := d;
    }

    /**
     * The reset button empties the queue, the critical section and the
     * completed list. Started timers cannot be cancelled and stay pending;
     * the id counter is kept, so ids are never reused.
     */
    method Reset()
      requires Valid()
      modifies this
      ensures Valid()
      ensures queue == [] && active == [] && completed == []
      ensures pending == old(pending) && idCounter == old(idCounter)
      ensures mode == old(mode) && isRunning == old(isRunning) && duration == old(duration)
    {
      assert Increasing(Timed(pending) + []) by {
        ghost var all := Timed(pending) + queue;
        forall p, q | 0 <= p < q < |Timed(pending)| ensures Timed(pending)[p].id < Timed(pending)[q].id {
          assert all[p] == Timed(pending)[p] && all[q] == Timed(pending)[q];
        }
        assert Timed(pending) + [] == Timed(pending);
      }
      queue := [];
      active := [];
      completed := [];
    }

    /** The clear-completed button empties the completed list only. */
    method ClearCompleted()
      requires Valid()
      modifies this
      ensures Valid()
      ensures completed == []
      ensures queue == old(queue) && active == old(active) && pending == old(pending)
      ensures idCounter == old(idCounter) && mode == old(mode)
      ensures isRunning == old(isRunning) && duration == old(duration)
    {
      completed := [];
    }
  }

  /**
   * Reader priority with Reader #1, Reader #2 and Writer #3 queued: two ticks
   * admit both readers, one per tick, and the writer then waits.
   */
  method ReaderPriorityScenario()
  {
    var s := new Scheduler();
    s.AddReader();
    s.AddReader();
    s.AddWriter();
    assert s.queue == [Agent(1, Reader), Agent(2, Reader), Agent(3, Writer)];
    ReadersShareScenario(s);
    WriterWaitsForEmptyScenario(s);
  }

  /** Continuation of the reader-priority scenario: the ticks. */
  method ReadersShareScenario(s: Scheduler)
    requires s.Valid() && s.isRunning && s.mode == ReaderPriority
    requires s.queue == [Agent(1, Reader), Agent(2, Reader), Agent(3, Writer)]
    requires s.active == [] && s.pending == [] && s.completed == []
    modifies s
    ensures s.Valid() && s.isRunning && s.mode == ReaderPriority
    ensures s.active == [Agent(1, Reader), Agent(2, Reader)] && s.queue == [Agent(3, Writer)]
    ensures |s.pending| == 2 && s.pending[0].agent == Agent(1, Reader)
    ensures s.pending[1].agent == Agent(2, Reader) && s.completed == []
  {
    s.Tick();
    assert s.active == [Agent(1, Reader)];
    s.Tick();
    assert s.active == [Agent(1, Reader), Agent(2, Reader)];
    s.Tick();
  }

  /**
   * Continuation of the reader-priority scenario: the writer stays queued
   * while one reader remains and enters once both readers are released,
   * whichever timer fires first.
   */
  method WriterWaitsForEmptyScenario(s: Scheduler)
    requires s.Valid() && s.isRunning && s.mode == ReaderPriority
    requires s.active == [Agent(1, Reader), Agent(2, Reader)] && s.queue == [Agent(3, Writer)]
    requires |s.pending| == 2 && s.pending[0].agent == Agent(1, Reader)
    requires s.pending[1].agent == Agent(2, Reader) && s.completed == []
    modifies s
  {
    s.Release(1);
    assert s.active == [Agent(1, Reader)];
    s.Tick();
    assert s.queue == [Agent(3, Writer)];
    s.Release(0);
    assert s.active == [];
    s.Tick();
    assert s.active == [Agent(3, Writer)] && s.queue == [];
    assert s.completed == [Agent(1, Reader), Agent(2, Reader)];
  }

  /**
   * Writer priority with the same three agents: Reader #1 at the head is
   * refused on every tick because Writer #3 waits behind it, and the writer
   * is never judged.
   */
  method WriterPriorityScenario()
  {
    var s := new Scheduler();
    s.SetMode(WriterPriority);
    s.AddReader();
    s.AddReader();
    s.AddWriter();
    s.Tick();
    s.Tick();
    assert s.active == [] && |s.queue| == 3;
  }

  /**
   * A reset while a reader holds the resource: its timer still fires later,
   * leaves the empty critical section alone and records the reader as
   * completed. Ids continue after the reset.
   */
  method ResetScenario()
  {
    var s := new Scheduler();
    s.AddReader();
    s.Tick();
    s.Reset();
    s.AddWriter();
    assert s.queue == [Agent(2, Writer)];
    s.Release(0);
    assert s.active == [] && s.completed == [Agent(1, Reader)];
    s.Tick();
    assert s.active == [Agent(2, Writer)];
  }

  /**
   * A newly created agent's id differs from every id on the completed list,
   * including the entries an orphaned timer added after a reset.
   */
  method FreshIdScenario(s: Scheduler)
    requires s.Valid()
    modifies s
  {
    var a := s.NewAgent(Reader);
    assert forall b :: b in s.completed ==> b.id != a.id;
  }

  /**
   * An agent is never on the completed list while it is still inside the
   * critical section, and a released agent is recorded there exactly once.
   */
  method CompletedApartScenario(s: Scheduler, i: nat)
    requires s.Valid() && i < |s.pending|
    modifies s
  {
    assert forall a :: a in s.active ==> a !in s.completed;
    var x := s.pending[i].agent;
    s.Release(i);
    assert s.completed[0] == x;
    assert forall b :: b in s.completed[1..] ==> b.id != x.id by {
      assert s.completed == [x] + s.completed[1..];
    }
  }
}
