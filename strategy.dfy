/**
 * The release bot's issue record and its merge queue (`IssueQueue`): a FIFO
 * array of issues plus an id -> issue lookup map.
 *
 * Only `enqueue` and `clear` write the lookup map; `dequeue`, `remove` and
 * `update` change the array alone. So the invariant the class really keeps is
 * weaker than a bijection: the ids in the array are pairwise distinct and each
 * is a key of the lookup map. An id that was dequeued or removed stays in the
 * lookup map, and enqueuing it again is a silent no-op.
 */
module Strategy {
  import opened Wrappers

  type IssueId = string

  datatype Assignee = Assignee(id: int, name: string, email: string)

  /** The fields of an issue the core reads; custom fields and tags are not modelled. */
  datatype Issue = Issue(
    id: IssueId,
    title: string,
    description: string,
    status: string,
    assignees: Option<seq<Assignee>>,
    pullRequest: Option<string>)

  /** JavaScript truthiness of `issue.pull_request`: present and non-empty. */
  predicate HasPullRequest(issue: Issue) {
    issue.pullRequest.Some? && issue.pullRequest.value != ""
  }

  /** Some entry of `q` has identifier `id`. */
  predicate InQueue(q: seq<Issue>, id: IssueId) {
    exists k :: 0 <= k < |q| && q[k].id == id
  }

  predicate DistinctIds(q: seq<Issue>) {
    forall i, j :: 0 <= i < j < |q| ==> q[i].id != q[j].id
  }

  /** `queue.findIndex(issue => issue.id === id)`: the first index holding `id`, or -1. */
  function IndexOf(q: seq<Issue>, id: IssueId): (r: int)
    ensures r == -1 <==> !InQueue(q, id)
    ensures r != -1 ==> 0 <= r < |q| && q[r].id == id
    ensures r != -1 ==> forall k :: 0 <= k < r ==> q[k].id != id
    decreases |q|
  {
    if q == [] then -1
    else if q[0].id == id then 0
    else
      var r := IndexOf(q[1..], id);
      if r == -1 then -1 else r + 1
  }

  /** The state of an `IssueQueue` as a value, with each operation as a function on it. */
  datatype QueueState = QueueState(queue: seq<Issue>, lookup: map<IssueId, Issue>) {

    /** Queue ids are pairwise distinct and each is a key of the lookup map. */
    ghost predicate Valid() {
      DistinctIds(queue) && forall k :: 0 <= k < |queue| ==> queue[k].id in lookup
    }

    function HasIssue(id: IssueId): bool {
      id in lookup
    }

    function GetIssueById(id: IssueId): Option<Issue> {
      if id in lookup then Some(lookup[id]) else None
    }

    /** Appends a new id; an id the lookup already knows goes through Update. */
    function Enqueue(x: Issue): QueueState {
      if HasIssue(x.id) then Update(x)
      else QueueState(queue + [x], lookup[x.id := x])
    }

    /** `queue.shift()`: the old head, the rest in order; the lookup map is untouched. */
    function Dequeue(): (Option<Issue>, QueueState) {
      if queue == [] then (None, this)
      else (Some(queue[0]), QueueState(queue[1..], lookup))
    }

    /** `splice` of the first entry with that id, if any. */
    function Remove(id: IssueId): QueueState {
      var i := IndexOf(queue, id);
      if i == -1 then this
      else QueueState(queue[..i] + queue[i + 1..], lookup)
    }

    /** Replaces the first entry with the same id in place; the lookup map is untouched. */
    function Update(x: Issue): QueueState {
      var i := IndexOf(queue, x.id);
      if i == -1 then this
      else QueueState(queue[i := x], lookup)
    }
  }

  const EmptyQueue := QueueState([], map[])

  /** `enqueue` of an id the lookup does not know appends it and records it. */
  lemma EnqueueNewAppends(q: QueueState, x: Issue)
    requires x.id !in q.lookup
    ensures q.Enqueue(x).queue == q.queue + [x]
    ensures q.Enqueue(x).lookup == q.lookup[x.id := x]
  {
  }

  /**
   * `enqueue` of a known id replaces the first entry with that id at its own
   * index and leaves the length and the lookup map as they were; if the id is
   * no longer in the array, nothing changes at all.
   */
  lemma EnqueueKnownReplacesInPlace(q: QueueState, x: Issue)
    requires x.id in q.lookup
    ensures q.Enqueue(x).lookup == q.lookup
    ensures |q.Enqueue(x).queue| == |q.queue|
    ensures !InQueue(q.queue, x.id) ==> q.Enqueue(x) == q
    ensures InQueue(q.queue, x.id) ==>
      var i := IndexOf(q.queue, x.id);
      q.Enqueue(x).queue[i] == x &&
      forall k :: 0 <= k < |q.queue| && k != i ==> q.Enqueue(x).queue[k] == q.queue[k]
  {
  }

  /** `enqueue` keeps the queue invariant. */
  lemma {:induction false} EnqueueKeepsValid(q: QueueState, x: Issue)
    requires q.Valid()
    ensures q.Enqueue(x).Valid()
  {
    if x.id !in q.lookup {
      var r := q.Enqueue(x);
      forall i, j | 0 <= i < j < |r.queue| ensures r.queue[i].id != r.queue[j].id {
        if j == |q.queue| {
          assert r.queue[i] == q.queue[i];
        }
      }
    }
  }

  /** `remove` keeps the queue invariant. */
  lemma {:induction false} RemoveKeepsValid(q: QueueState, id: IssueId)
    requires q.Valid()
    ensures q.Remove(id).Valid()
  {
    var i := IndexOf(q.queue, id);
    if i != -1 {
      var r := q.Remove(id);
      assert |r.queue| == |q.queue| - 1;
      assert forall k :: 0 <= k < |r.queue| ==> r.queue[k] == q.queue[if k < i then k else k + 1];
      forall a, b | 0 <= a < b < |r.queue| ensures r.queue[a].id != r.queue[b].id {
        var a', b' := if a < i then a else a + 1, if b < i then b else b + 1;
        assert a' < b' && r.queue[a] == q.queue[a'] && r.queue[b] == q.queue[b'];
      }
    }
  }

  /** Every operation keeps the queue invariant. */
  lemma {:induction false} OperationsKeepValid(q: QueueState, x: Issue, id: IssueId)
    requires q.Valid()
    ensures q.Enqueue(x).Valid()
    ensures q.Dequeue().1.Valid()
    ensures q.Remove(id).Valid()
    ensures q.Update(x).Valid()
  {
    EnqueueKeepsValid(q, x);
    RemoveKeepsValid(q, id);
  }

  /** `dequeue` returns the old head and keeps the rest in order; on an empty queue nothing changes. */
  lemma DequeueTakesHead(q: QueueState)
    ensures q.queue == [] ==> q.Dequeue() == (None, q)
    ensures q.queue != [] ==> q.Dequeue().0 == Some(q.queue[0])
    ensures q.queue != [] ==> q.Dequeue().1.queue == q.queue[1..]
    ensures q.Dequeue().1.lookup == q.lookup
  {
  }

  /**
   * Enqueuing again an id that was dequeued is a silent no-op: the lookup map
   * still knows the id, so `enqueue` goes through `update`, which finds no entry.
   */
  lemma {:induction false} ReenqueueAfterDequeueIsNoOp(q: QueueState, x: Issue)
    requires q.Valid() && q.queue != []
    requires x.id == q.queue[0].id
    ensures q.Dequeue().1.Enqueue(x) == q.Dequeue().1
  {
    var rest := q.Dequeue().1;
    assert x.id in rest.lookup;
    forall k | 0 <= k < |rest.queue| ensures rest.queue[k].id != x.id {
      assert rest.queue[k] == q.queue[k + 1];
    }
  }

  /** Likewise for an id that was removed. */
  lemma {:induction false} ReenqueueAfterRemoveIsNoOp(q: QueueState, x: Issue)
    requires q.Valid() && InQueue(q.queue, x.id)
    ensures q.Remove(x.id).Enqueue(x) == q.Remove(x.id)
  {
    var i := IndexOf(q.queue, x.id);
    var r := q.Remove(x.id);
    forall k | 0 <= k < |r.queue| ensures r.queue[k].id != x.id {
      if k < i {
        assert r.queue[k] == q.queue[k];
      } else {
        assert r.queue[k] == q.queue[k + 1];
      }
    }
  }

  /**
   * `remove` deletes exactly the first entry with the id and keeps the order
   * of the others; a missing id is a no-op.
   */
  lemma {:induction false} RemoveDeletesFirstOnly(q: QueueState, id: IssueId)
    ensures !InQueue(q.queue, id) ==> q.Remove(id) == q
    ensures InQueue(q.queue, id) ==>
      var i := IndexOf(q.queue, id);
      && |q.Remove(id).queue| == |q.queue| - 1
      && (forall k :: 0 <= k < |q.Remove(id).queue| ==> q.Remove(id).queue[k] == q.queue[if k < i then k else k + 1])
      && multiset(q.Remove(id).queue) + multiset{q.queue[i]} == multiset(q.queue)
    ensures q.Remove(id).lookup == q.lookup
  {
    var i := IndexOf(q.queue, id);
    if i != -1 {
      assert q.queue == q.queue[..i] + [q.queue[i]] + q.queue[i + 1..];
    }
  }

  /** `update` never writes the lookup map, so `getIssueById` can return the pre-update value. */
  lemma UpdateLeavesLookupStale(q: QueueState, x: Issue)
    ensures q.Update(x).GetIssueById(x.id) == q.GetIssueById(x.id)
    ensures q.Update(x).HasIssue(x.id) == q.HasIssue(x.id)
  {
  }

  /** `FindIndex` written as the loop `findIndex` runs. */
  method FindIndex(q: seq<Issue>, id: IssueId) returns (index: int)
    ensures index == IndexOf(q, id)
  {
    index := 0;
    while index < |q|
      invariant 0 <= index <= |q|
      invariant forall k :: 0 <= k < index ==> q[k].id != id
    {
      if q[index].id == id {
        return;
      }
      index := index + 1;
    }
    index := -1;
  }

  class IssueQueue {
    var queue: seq<Issue>
    var lookup: map<IssueId, Issue>

    function State(): QueueState
      reads this
    {
      QueueState(queue, lookup)
    }

    ghost predicate Valid()
      reads this
    {
      State().Valid()
    }

    constructor ()
      ensures State() == EmptyQueue && Valid()
    {
      queue := [];
      lookup := map[];
    }

    /** `head`: the first entry, without mutation. */
    function Head(): (r: Option<Issue>)
      reads this
      ensures r.None? <==> |queue| == 0
      ensures r.Some? ==> r.value == queue[0]
    {
      if !IsEmpty() then Some(queue[0]) else None
    }

    /** `tail`: the last entry, without mutation. */
    function Tail(): (r: Option<Issue>)
      reads this
      ensures r.None? <==> |queue| == 0
      ensures r.Some? ==> r.value == queue[|queue| - 1]
    {
      if !IsEmpty() then Some(queue[|queue| - 1]) else None
    }

    function IsEmpty(): (r: bool)
      reads this
      ensures r <==> queue == []
    {
      |queue| == 0
    }

    /** `getAllIssues` / the `issues` getter. */
    function Issues(): seq<Issue>
      reads this
    {
      queue
    }

    function HasIssue(id: IssueId): (r: bool)
      reads this
      ensures r == State().HasIssue(id)
    {
      id in lookup
    }

    function GetIssueById(id: IssueId): (r: Option<Issue>)
      reads this
      ensures r == State().GetIssueById(id)
    {
      if id in lookup then Some(lookup[id]) else None
    }

    method Enqueue(x: Issue)
      modifies this
      ensures State() == old(State()).Enqueue(x)
      ensures old(Valid()) ==> Valid()
    {
      ghost var before := State();
      if HasIssue(x.id) {
        Update(x);
      } else {
        queue := queue + [x];
        lookup := lookup[x.id := x];
      }
      if before.Valid() {
        EnqueueKeepsValid(before, x);
      }
    }

    method Dequeue() returns (r: Option<Issue>)
      modifies this
      ensures (r, State()) == old(State()).Dequeue()
      ensures old(Valid()) ==> Valid()
    {
      if queue == [] {
        r := None;
      } else {
        r := Some(queue[0]);
        queue := queue[1..];
      }
    }

    method Remove(id: IssueId)
      modifies this
      ensures State() == old(State()).Remove(id)
      ensures old(Valid()) ==> Valid()
    {
      ghost var before := State();
      var index := FindIndex(queue, id);
      if index != -1 {
        queue := queue[..index] + queue[index + 1..];
      }
      if before.Valid() {
        RemoveKeepsValid(before, id);
      }
    }

    method Update(x: Issue)
      modifies this
      ensures State() == old(State()).Update(x)
      ensures old(Valid()) ==> Valid()
    {
      ghost var before := State();
      var index := FindIndex(queue, x.id);
      if index != -1 {
        queue := queue[index := x];
      }
      if before.Valid() {
        OperationsKeepValid(before, x, x.id);
      }
    }

    /** Empties both the array and the lookup map; afterwards no id is known. */
    method Clear()
      modifies this
      ensures State() == EmptyQueue && Valid()
      ensures forall id :: !HasIssue(id)
    {
      queue := [];
      lookup := map[];
    }
  }
}
