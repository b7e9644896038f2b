/**
 * Agents of the readers-writer simulator and the sequence operations the
 * scheduler performs on them: the `some` scans over the queue and the
 * occupancy list, and the `filter` by id that a release timer runs.
 */
module Agents {

  /** The `type` of an agent: 'reader' or 'writer'. */
  datatype Kind = Reader | Writer

  /** An access request; `id` is handed out by the scheduler's id counter. */
  datatype Agent = Agent(id: nat, kind: Kind)

  /** The fairness policy, `priorityMode` 'reader' or 'writer'. */
  datatype Mode = ReaderPriority | WriterPriority

  /** Ids strictly increase from the front of `s` to its back. */
  predicate Increasing(s: seq<Agent>)
  {
    forall i, j :: 0 <= i < j < |s| ==> s[i].id < s[j].id
  }

  /** No two positions of `s` carry the same id. */
  predicate DistinctIds(s: seq<Agent>)
  {
    forall i, j :: 0 <= i < |s| && 0 <= j < |s| && i != j ==> s[i].id != s[j].id
  }

  /** No id occurs both in `s` and in `t`. */
  predicate DisjointIds(s: seq<Agent>, t: seq<Agent>)
  {
    forall a, b :: a in s && b in t ==> a.id != b.id
  }

  /** Mutual exclusion: a writer in `s` is the only agent in `s`. */
  predicate Exclusive(s: seq<Agent>)
  {
    forall i :: 0 <= i < |s| && s[i].kind == Writer ==> |s| == 1
  }

  /** `s.some(a => a.type === k)`: some agent of `s` has kind `k`. */
  function HasKind(s: seq<Agent>, k: Kind): (r: bool)
    ensures r <==> exists a :: a in s && a.kind == k
  {
    if s == [] then false else s[0].kind == k || HasKind(s[1..], k)
  }

  /**
   * `s.filter(a => a.id !== id)`: the agents of `s` whose id is not `id`,
   * in their original order.
   */
  function FilterOutId(s: seq<Agent>, id: nat): (r: seq<Agent>)
    ensures forall a :: a in r <==> a in s && a.id != id
    ensures |r| <= |s|
  {
    if s == [] then []
    else if s[0].id == id then FilterOutId(s[1..], id)
    else [s[0]] + FilterOutId(s[1..], id)
  }

  /** Filtering out an id that no agent carries changes nothing. */
  lemma {:induction false} FilterOutAbsent(s: seq<Agent>, id: nat)
    requires forall a :: a in s ==> a.id != id
    ensures FilterOutId(s, id) == s
  {
    if s != [] {
      FilterOutAbsent(s[1..], id);
      assert s == [s[0]] + s[1..];
    }
  }

  /** The tail of a sequence with unique ids has unique ids, none its head's. */
  lemma DistinctTail(s: seq<Agent>)
    requires DistinctIds(s) && s != []
    ensures DistinctIds(s[1..])
    ensures forall a :: a in s[1..] ==> a.id != s[0].id
  {
  }

  /**
   * With unique ids, filtering out the id of `s[j]` removes exactly that one
   * agent and keeps the others in order.
   */
  lemma {:induction false} FilterOutAt(s: seq<Agent>, id: nat, j: nat)
    requires DistinctIds(s)
    requires j < |s| && s[j].id == id
    ensures FilterOutId(s, id) == s[..j] + s[j + 1..]
  {
    DistinctTail(s);
    if j == 0 {
      FilterOutAbsent(s[1..], id);
      assert s[..0] + s[1..] == s[1..];
    } else {
      assert s[1..][j - 1] == s[j];
      FilterOutAt(s[1..], id, j - 1);
      assert s[..j] == [s[0]] + s[1..][..j - 1];
      assert s[j + 1..] == s[1..][j..];
    }
  }

  /** The tail of an increasing sequence is increasing and above its head. */
  lemma IncreasingTail(s: seq<Agent>)
    requires Increasing(s) && s != []
    ensures Increasing(s[1..])
    ensures forall a :: a in s[1..] ==> s[0].id < a.id
  {
  }

  /** An agent below every id of an increasing sequence can head it. */
  lemma IncreasingCons(x: Agent, t: seq<Agent>)
    requires Increasing(t)
    requires forall a :: a in t ==> x.id < a.id
    ensures Increasing([x] + t)
  {
  }

  /** Filtering keeps ids increasing. */
  lemma {:induction false} FilterOutKeepsIncreasing(s: seq<Agent>, id: nat)
    requires Increasing(s)
    ensures Increasing(FilterOutId(s, id))
  {
    if s != [] {
      IncreasingTail(s);
      FilterOutKeepsIncreasing(s[1..], id);
      if s[0].id != id {
        IncreasingCons(s[0], FilterOutId(s[1..], id));
      }
    }
  }

  /** Filtering keeps mutual exclusion: it only ever removes agents. */
  lemma FilterOutKeepsExclusive(s: seq<Agent>, id: nat)
    requires Exclusive(s)
    ensures Exclusive(FilterOutId(s, id))
  {
  }

  /** Removing the element at position `i` keeps ids increasing. */
  lemma RemoveAtKeepsIncreasing(s: seq<Agent>, i: nat)
    requires Increasing(s) && i < |s|
    ensures Increasing(s[..i] + s[i + 1..])
  {
  }

  /** Removing the element at position `i` removes its id: ids are unique. */
  lemma RemoveAtDropsId(s: seq<Agent>, i: nat)
    requires Increasing(s) && i < |s|
    ensures forall b :: b in s[..i] + s[i + 1..] ==> b.id != s[i].id
  {
  }

  /**
   * Recording `x`, taken from `live`, at the front of `done` keeps the ids of
   * `done` unique and apart from what remains live, provided nothing left in
   * `live'` carries the id of `x`.
   */
  lemma RecordKeepsDistinct(x: Agent, done: seq<Agent>, live: seq<Agent>, live': seq<Agent>)
    requires DistinctIds(done) && DisjointIds(done, live) && x in live
    requires forall b :: b in live' ==> b in live && b.id != x.id
    ensures DistinctIds([x] + done) && DisjointIds([x] + done, live')
  {
  }
}
