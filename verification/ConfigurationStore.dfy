/** One account's configuration rows, updated in place; publishing keeps the last hundred revisions. */
module ConfigurationStore {
  import opened Prelude
  import opened FixedWindow
  import opened Configuration

  class Account {
    var head: int
    var revisions: map<int, Revision>
    /** The request counters of "read" and "write". */
    var counters: map<string, Window>

    function View(): State
      reads this
    {
      State(head, revisions)
    }

    ghost predicate Valid()
      reads this
    {
      Inv(View())
    }

    constructor ()
      ensures Valid() && View() == INITIAL && counters == map[]
    {
      head, revisions, counters := 0, map[], map[];
    }

    /** Where an operation is retained. */
    method FindOperation(operation: Operation) returns (found: Option<int>)
      ensures Lookup(View(), operation, found)
    {
      if at :| at in revisions && revisions[at].request.operation == operation {
        found := Some(at);
      } else {
        found := None;
      }
    }

    /** The transaction of publish. */
    method PublishRevision(r: Request, client: string) returns (o: Outcome, ghost found: Option<int>)
      requires Valid()
      modifies this`head, this`revisions
      ensures Valid() &&
        (o.Applied? ==> head == o.revision == old(head) + 1 && head in revisions && revisions[head].request == r)
      ensures Lookup(old(View()), r.operation, found)
      ensures (View(), o) == Publish(old(View()), r, client, found)
    {
      var at := FindOperation(r.operation);
      found := at;
      if at.Some? {
        if revisions[at.value].request != r {
          return OperationConflict, found;
        }
        return Replayed(at.value, revisions[at.value]), found;
      }
      if Coalesce(r.expected, 0) != head {
        return RevisionConflict, found;
      }
      StoreKeeps(View(), r, client);
      var next := head + 1;
      revisions := revisions[next := Revision(r, client)];
      head := next;
      revisions := map k | k in revisions && k > next - KEPT :: revisions[k];
      o := Applied(next);
    }

    function Counter(operation: string): Window
      reads this
    {
      if operation in counters then counters[operation] else Idle
    }

    /** limit_requests: called with 120 for reads and 20 for writes. */
    method LimitRequests(operation: string, limit: nat, now: int) returns (allowed: bool)
      modifies this`counters
      ensures var next := Limit(old(Counter(operation)), now, limit);
        allowed == next.Some? && Counter(operation) == Coalesce(next, old(Counter(operation)))
      ensures forall other :: other != operation ==> Counter(other) == old(Counter(other))
    {
      if operation !in counters || (counters[operation].Idle? || counters[operation].start <= now - WINDOW) {
        counters := counters[operation := Open(now, 1)];
        return true;
      }
      var w := counters[operation];
      allowed := w.used < limit;
      if allowed {
        counters := counters[operation := Open(w.start, w.used + 1)];
      }
    }
  }
}
