/**
 * The thumbnail request queue (src/lib/utils/requestQueue.ts): at most
 * `maxConcurrent` tasks run at once, priority tasks jump the queue. A task is
 * known by an id; starting it is recorded in `started`, and its completion is
 * an explicit call of `Complete`.
 */
module RequestQueue {

  datatype Item = Item(id: nat, priority: bool)

  /** The constructor's default cap, which the shared instance also uses. */
  const DefaultMaxConcurrent := 6

  /** Where `add` puts a new item: priority items at the front, the rest at the back. */
  function Enqueue(queue: seq<Item>, item: Item): (r: seq<Item>)
    ensures |r| == |queue| + 1 && multiset(r) == multiset(queue) + multiset{item}
    ensures item.priority ==> r[0] == item && r[1..] == queue
    ensures !item.priority ==> r[|r| - 1] == item && r[..|queue|] == queue
  {
    if item.priority then [item] + queue else queue + [item]
  }

  /** Position of the first item with the given id. */
  function IndexOf(queue: seq<Item>, id: nat): (i: nat)
    requires exists k :: 0 <= k < |queue| && queue[k].id == id
    ensures i < |queue| && queue[i].id == id
    ensures forall k :: 0 <= k < i ==> queue[k].id != id
  {
    if queue[0].id == id then 0
    else
      assert exists k :: 0 <= k < |queue[1..]| && queue[1..][k].id == id by {
        var k :| 0 <= k < |queue| && queue[k].id == id;
        assert queue[1..][k - 1].id == id;
      }
      1 + IndexOf(queue[1..], id)
  }

  /**
   * Items are taken from the front, so a new priority item is taken before
   * everything already waiting, and a new ordinary item after everything
   * already waiting (each task added is a new one).
   */
  lemma EnqueueOrder(queue: seq<Item>, item: Item, waiting: nat)
    requires exists k :: 0 <= k < |queue| && queue[k].id == waiting
    requires forall k :: 0 <= k < |queue| ==> queue[k].id != item.id
    ensures var r := Enqueue(queue, item);
      && (exists k :: 0 <= k < |r| && r[k].id == waiting)
      && (exists k :: 0 <= k < |r| && r[k].id == item.id)
      && (item.priority ==> IndexOf(r, item.id) < IndexOf(r, waiting))
      && (!item.priority ==> IndexOf(r, waiting) < IndexOf(r, item.id))
  {
    var r := Enqueue(queue, item);
    var k :| 0 <= k < |queue| && queue[k].id == waiting;
    if item.priority {
      assert r[k + 1].id == waiting;
      assert r[0].id == item.id;
    } else {
      assert r[k].id == waiting;
      assert r[|queue|].id == item.id;
      assert IndexOf(r, waiting) <= k;
    }
  }

  /** What `getStatus` reports. */
  datatype Status = Status(queued: nat, running: int, available: int)

  class RequestQueue {
    var queue: seq<Item>
    var running: int
    const maxConcurrent: int
    /** The ids of the tasks started, in the order they were started. */
    var started: seq<nat>

    /**
     * `running` stays between 0 and the cap, and nothing waits while a slot
     * is free.
     */
    predicate Valid()
      reads this
    {
      && 0 <= running
      && (running <= maxConcurrent || running == 0)
      && (queue != [] ==> running >= maxConcurrent)
    }

    /** `new RequestQueue(maxConcurrent)`; the application uses 6, the default. */
    constructor (maxConcurrent: int)
      ensures Valid()
      ensures queue == [] && running == 0 && started == [] && this.maxConcurrent == maxConcurrent
    {
      queue := [];
      running := 0;
      this.maxConcurrent := maxConcurrent;
      started := [];
    }

    /** `processNext()`: start the task at the front if a slot is free. */
    method ProcessNext()
      modifies this
      ensures old(running) >= maxConcurrent || old(queue) == [] ==>
        queue == old(queue) && running == old(running) && started == old(started)
      ensures old(running) < maxConcurrent && old(queue) != [] ==>
        && queue == old(queue)[1..] && running == old(running) + 1
        && started == old(started) + [old(queue)[0].id]
    {
      if running >= maxConcurrent || |queue| == 0 {
        return;
      }
      var item := queue[0];
      queue := queue[1..];
      running := running + 1;
      started := started + [item.id];
    }

    /** `add(task, priority)`: queue the task, then try to start one. */
    method Add(id: nat, priority: bool)
      requires Valid()
      modifies this
      ensures Valid()
      ensures var q := Enqueue(old(queue), Item(id, priority));
        if old(running) < maxConcurrent then
          queue == q[1..] && running == old(running) + 1 && started == old(started) + [q[0].id]
        else
          queue == q && running == old(running) && started == old(started)
    {
      queue := Enqueue(queue, Item(id, priority));
      ProcessNext();
    }

    /**
     * A started task finished, whether it resolved or rejected: free its slot
     * and try to start another.
     */
    method Complete()
      requires Valid() && running > 0
      modifies this
      ensures Valid()
      ensures old(queue) == [] ==> queue == [] && running == old(running) - 1 && started == old(started)
      ensures old(queue) != [] ==>
        && queue == old(queue)[1..] && running == old(running)
        && started == old(started) + [old(queue)[0].id]
    {
      running := running - 1;
      ProcessNext();
    }

    /** `getStatus()`. */
    function GetStatus(): (s: Status)
      reads this
      ensures s.queued == |queue| && s.running == running
      ensures s.available == maxConcurrent - running
      ensures Valid() ==> s.available >= 0 || running == 0
    {
      Status(|queue|, running, maxConcurrent - running)
    }
  }
}
