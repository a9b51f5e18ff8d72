/**
 * The list-backed priority queue both controllers use for their search
 * frontier: `Enqueue` appends and re-sorts by priority, `Dequeue` removes the
 * first entry and throws on an empty queue.
 */
module PriorityQueues {
  import opened Wrappers

  /** Entries in ascending order of priority. */
  ghost predicate SortedByPriority<T>(s: seq<(T, real)>) {
    forall i, j :: 0 <= i < j < |s| ==> s[i].1 <= s[j].1
  }

  class PriorityQueue<T> {
    var elements: seq<(T, real)>

    ghost predicate Valid()
      reads this
    {
      SortedByPriority(elements)
    }

    constructor ()
      ensures Valid() && elements == []
    {
      elements := [];
    }

    function Count(): nat
      reads this
    {
      |elements|
    }

    /**
     * Adds an entry and restores the order. The sort the queue uses is not
     * stable, so nothing is promised about the order among equal priorities:
     * the new contents are some sorted arrangement of the old entries plus the
     * new one. This model places the entry after those of equal priority.
     */
    method Enqueue(item: T, priority: real)
      requires Valid()
      modifies this
      ensures Valid()
      ensures multiset(elements) == multiset(old(elements)) + multiset{(item, priority)}
      ensures forall e :: e in elements <==> e in old(elements) || e == (item, priority)
    {
      var i := 0;
      while i < |elements| && elements[i].1 <= priority
        invariant 0 <= i <= |elements|
        invariant forall j :: 0 <= j < i ==> elements[j].1 <= priority
      {
        i := i + 1;
      }
      var before := elements;
      assert before == before[..i] + before[i..];
      elements := before[..i] + [(item, priority)] + before[i..];
      assert forall e :: e in elements <==> e in before[..i] || e == (item, priority) || e in before[i..];
    }

    /** Removes and returns the entry of least priority; `None` stands for the
        exception thrown on an empty queue, which is then left unchanged. */
    method Dequeue() returns (item: Option<T>)
      requires Valid()
      modifies this
      ensures Valid()
      ensures old(elements) == [] ==> item == None && elements == []
      ensures old(elements) != [] ==>
        item == Some(old(elements)[0].0) && elements == old(elements)[1..] &&
        forall e :: e in old(elements) ==> old(elements)[0].1 <= e.1
    {
      if |elements| == 0 {
        return None;
      }
      item := Some(elements[0].0);
      elements := elements[1..];
    }
  }
}
