/**
 * The admission policy: may the agent at the head of the wait queue enter
 * the critical section now, given who is inside and who else is waiting?
 */
module Admission {
  import opened Agents

  /**
   * The decision of one scheduler tick about the queue head `head`.
   * A writer needs an empty critical section in both modes. A reader needs
   * no active writer; under writer priority it also needs no writer anywhere
   * in the queue. Admitting on a `true` answer never breaks mutual exclusion.
   */
  function CanEnter(head: Agent, active: seq<Agent>, queue: seq<Agent>, mode: Mode): (r: bool)
    ensures head.kind == Writer ==> (r <==> active == [])
    ensures head.kind == Reader && mode == ReaderPriority ==>
      (r <==> forall a :: a in active ==> a.kind == Reader)
    ensures head.kind == Reader && mode == WriterPriority ==>
      (r <==> (forall a :: a in active ==> a.kind == Reader) && (forall a :: a in queue ==> a.kind == Reader))
    ensures r && Exclusive(active) ==> Exclusive(active + [head])
  {
    var writerActive := HasKind(active, Writer);
    var readersActive := HasKind(active, Reader);
    assert active != [] ==> active[0] in active;
    match mode
    case ReaderPriority =>
      if head.kind == Writer then !writerActive && !readersActive
      else !writerActive
    case WriterPriority =>
      var hasWaitingWriter := HasKind(queue, Writer);
      if head.kind == Writer then !writerActive && !readersActive
      else !writerActive && !hasWaitingWriter
  }

  /**
   * Under writer priority, a reader at the head with a writer queued behind
   * it is refused whatever is in the critical section.
   */
  lemma WriterQueuedBlocksReaderHead(queue: seq<Agent>, active: seq<Agent>, j: nat)
    requires 0 < j < |queue|
    requires queue[0].kind == Reader && queue[j].kind == Writer
    ensures !CanEnter(queue[0], active, queue, WriterPriority)
  {
  }

  /**
   * Head-of-line: only the queue head is judged. Under reader priority, and
   * for a writer head in either mode, the agents behind the head play no
   * part in the decision.
   */
  lemma QueueTailIgnored(head: Agent, active: seq<Agent>, q1: seq<Agent>, q2: seq<Agent>, mode: Mode)
    requires mode == ReaderPriority || head.kind == Writer
    ensures CanEnter(head, active, q1, mode) == CanEnter(head, active, q2, mode)
  {
  }
}
