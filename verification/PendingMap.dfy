/**
 * The map of fetched but unacknowledged tasks and its periodic sweep
 * (internal/gateway/pending.go). Times are integers, in nanoseconds.
 */
module PendingMap {
  import opened Wrappers

  datatype PendingEntry = PendingEntry(topic: string, msgId: string, storedAt: int)

  type Entries = map<string, PendingEntry>

  function TaskTopic(agent: string): string {
    "agent.tasks." + agent
  }

  /** Task IDs pending for one topic. */
  function IdsOfTopic(m: Entries, topic: string): set<string> {
    set id | id in m && m[id].topic == topic
  }

  /** What a sweep at `now` leaves: the entries not older than `ttl`. */
  function Swept(m: Entries, ttl: int, now: int): Entries {
    map id | id in m && !(m[id].storedAt < now - ttl) :: m[id]
  }

  class Pending {
    var entries: Entries

    constructor ()
      ensures entries == map[]
    {
      entries := map[];
    }

    method Store(taskId: string, topic: string, msgId: string, now: int)
      modifies this
      ensures entries == old(entries)[taskId := PendingEntry(topic, msgId, now)]
    {
      entries := entries[taskId := PendingEntry(topic, msgId, now)];
    }

    method Load(taskId: string) returns (r: Option<(string, string)>)
      ensures r == if taskId in entries then Some((entries[taskId].topic, entries[taskId].msgId)) else None
    {
      if taskId !in entries { return None; }
      var e := entries[taskId];
      return Some((e.topic, e.msgId));
    }

    method Delete(taskId: string)
      modifies this
      ensures entries == old(entries) - {taskId}
    {
      entries := entries - {taskId};
    }

    /** Removes and returns in one step, so of two callers at most one gets the entry. */
    method LoadAndDelete(taskId: string) returns (r: Option<(string, string)>)
      modifies this
      ensures r == if taskId in old(entries) then Some((old(entries)[taskId].topic, old(entries)[taskId].msgId))
                   else None
      ensures entries == old(entries) - {taskId}
    {
      if taskId !in entries { return None; }
      var e := entries[taskId];
      entries := entries - {taskId};
      return Some((e.topic, e.msgId));
    }

    /** The loop over the map, in whatever order, counts exactly the agent's entries. */
    method CountByAgent(agent: string) returns (count: nat)
      ensures count == |IdsOfTopic(entries, "agent.tasks." + agent)|
    {
      var topic := TaskTopic(agent);
      count := 0;
      var todo := entries.Keys;
      ghost var counted: set<string> := {};
      while todo != {}
        invariant todo <= entries.Keys && count == |counted|
        invariant forall id :: id in counted <==> id in entries && id !in todo && entries[id].topic == topic
        decreases |todo|
      {
        var id :| id in todo;
        todo := todo - {id};
        if entries[id].topic == topic {
          count := count + 1;
          counted := counted + {id};
        }
      }
      assert counted == IdsOfTopic(entries, topic);
    }

    method Evict(ttl: int, now: int)
      modifies this
      ensures entries == Swept(old(entries), ttl, now)
    {
      var cutoff := now - ttl;
      var todo := entries.Keys;
      while todo != {}
        invariant todo <= old(entries).Keys
        invariant entries == map id | id in old(entries)
                                      && (id in todo || !(old(entries)[id].storedAt < cutoff)) :: old(entries)[id]
        decreases |todo|
      {
        var id :| id in todo;
        if entries[id].storedAt < cutoff {
          entries := entries - {id};
        }
        todo := todo - {id};
      }
    }
  }

  /** Two claims by LoadAndDelete, whatever is between them that stores nothing: only the first gets the entry. */
  method TwoClaims(p: Pending, taskId: string)
    returns (first: Option<(string, string)>, second: Option<(string, string)>)
    modifies p
    ensures (first.Some? <==> taskId in old(p.entries)) && second.None?
    ensures p.entries == old(p.entries) - {taskId}
  {
    first := p.LoadAndDelete(taskId);
    second := p.LoadAndDelete(taskId);
  }

  /** Two claims by Load and then Delete, interleaved: both get the entry. */
  method TwoRacingClaims(p: Pending, taskId: string)
    returns (first: Option<(string, string)>, second: Option<(string, string)>)
    modifies p
    ensures first == second && (first.Some? <==> taskId in old(p.entries))
    ensures p.entries == old(p.entries) - {taskId}
  {
    first := p.Load(taskId);
    second := p.Load(taskId);
    p.Delete(taskId);
    p.Delete(taskId);
  }

  // ---------------------------------------------------------------------
  // How old an entry is when the sweep removes it
  // ---------------------------------------------------------------------

  datatype Event =
    | StoreEvent(id: string, entry: PendingEntry)
    | ClaimEvent(id: string, at: int)
    | TickEvent(n: nat)

  /** The cleanup goroutine: started at `start`, sweeping every ttl / 2. */
  datatype Cleanup = Cleanup(start: int, ttl: int) {
    function Sweep(): int {
      ttl / 2
    }

    /** When the n-th tick fires; tick 0 stands for the start itself. */
    function TickAt(n: nat): int {
      start + n * Sweep()
    }

    function At(e: Event): int {
      match e
      case StoreEvent(_, entry) => entry.storedAt
      case ClaimEvent(_, at) => at
      case TickEvent(n) => TickAt(n)
    }

    function Step(m: Entries, e: Event): Entries {
      match e
      case StoreEvent(id, entry) => m[id := entry]
      case ClaimEvent(id, _) => m - {id}
      case TickEvent(n) => Swept(m, ttl, TickAt(n))
    }

    function After(events: seq<Event>, k: nat): Entries
      requires k <= |events|
    {
      if k == 0 then map[] else Step(After(events, k - 1), events[k - 1])
    }

    /** Ideal ticks: events happen in time order from the start on, and every tick fires when it is due. */
    ghost predicate Ideal(events: seq<Event>) {
      && ttl >= 2
      && (forall i :: 0 <= i < |events| ==> start <= At(events[i]))
      && (forall i, j :: 0 <= i < j < |events| ==> At(events[i]) <= At(events[j]))
      && (forall j :: 0 <= j < |events| && events[j].TickEvent? ==> events[j].n >= 1)
      && (forall j, n: nat :: 0 <= j < |events| && 1 <= n && TickAt(n) < At(events[j]) ==> FiredBefore(events, j, n))
    }

    ghost predicate FiredBefore(events: seq<Event>, j: nat, n: nat)
      requires j <= |events|
    {
      exists i :: 0 <= i < j && events[i] == TickEvent(n)
    }

    /** Event `i` stored the entry under `id`, and no event in between claimed or replaced it. */
    ghost predicate Unclaimed(events: seq<Event>, i: nat, j: nat, id: string) {
      && i < j <= |events|
      && events[i].StoreEvent? && events[i].id == id
      && (forall k :: i < k < j ==> events[k].TickEvent? || events[k].id != id)
    }

    /** An unclaimed entry is still there exactly when no tick later than its age limit has fired. */
    lemma {:induction false} PresentUnlessSwept(events: seq<Event>, i: nat, j: nat, id: string)
      requires Unclaimed(events, i, j, id)
      ensures id in After(events, j)
              <==> forall k :: i < k < j && events[k].TickEvent? ==>
                     TickAt(events[k].n) <= events[i].entry.storedAt + ttl
      ensures id in After(events, j) ==> After(events, j)[id] == events[i].entry
    {
      if j > i + 1 {
        PresentUnlessSwept(events, i, j - 1, id);
      }
    }

    /** Some tick is due in the half-open sweep interval after any instant since the start. */
    lemma TickDueAfter(t: int) returns (n: nat)
      requires ttl >= 2 && start <= t
      ensures n >= 1 && t < TickAt(n) <= t + Sweep()
    {
      n := (t - start) / Sweep() + 1;
      TickSpacing(n);
      assert (t - start) == (n - 1) * Sweep() + (t - start) % Sweep();
    }

    /**
     * Whatever the event, an unclaimed entry is there up to age ttl, and gone past
     * ttl + ttl/2: a tick was due in between and fired.
     */
    lemma LifetimeIsBounded(events: seq<Event>, i: nat, j: nat, id: string)
      requires Ideal(events) && j < |events| && Unclaimed(events, i, j, id)
      ensures At(events[j]) - events[i].entry.storedAt <= ttl ==> id in After(events, j)
      ensures At(events[j]) - events[i].entry.storedAt > ttl + Sweep() ==> id !in After(events, j)
    {
      var stored := events[i].entry.storedAt;
      PresentUnlessSwept(events, i, j, id);
      if At(events[j]) - stored <= ttl {
        forall k | i < k < j && events[k].TickEvent? ensures TickAt(events[k].n) <= stored + ttl {
          assert At(events[k]) <= At(events[j]);
        }
      }
      if At(events[j]) - stored > ttl + Sweep() {
        var late := LateTickFired(events, i, j);
      }
    }

    /** Past ttl + ttl/2, a tick older than ttl lies between the Store and the event. */
    lemma LateTickFired(events: seq<Event>, i: nat, j: nat) returns (k: nat)
      requires Ideal(events) && i < j < |events| && events[i].StoreEvent?
      requires At(events[j]) - events[i].entry.storedAt > ttl + Sweep()
      ensures i < k < j && events[k].TickEvent?
      ensures ttl < TickAt(events[k].n) - events[i].entry.storedAt <= ttl + Sweep()
    {
      var stored := events[i].entry.storedAt;
      assert At(events[i]) == stored;
      var n := TickDueAfter(stored + ttl);
      assert FiredBefore(events, j, n);
      k :| 0 <= k < j && events[k] == TickEvent(n);
    }

    /** No claim gets an entry older than ttl + ttl/2, and every claim up to age ttl gets it. */
    lemma ClaimsGetFreshEntries(events: seq<Event>, i: nat, j: nat, id: string)
      requires Ideal(events) && j < |events| && Unclaimed(events, i, j, id)
      requires events[j].ClaimEvent? && events[j].id == id
      ensures id in After(events, j) ==>
                After(events, j)[id] == events[i].entry && events[j].at - events[i].entry.storedAt <= ttl + Sweep()
      ensures events[j].at - events[i].entry.storedAt <= ttl ==> id in After(events, j)
    {
      LifetimeIsBounded(events, i, j, id);
      PresentUnlessSwept(events, i, j, id);
    }

    /** The sweep that removes an unclaimed entry does so at an age in (ttl, ttl + ttl/2]. */
    lemma EvictionAge(events: seq<Event>, i: nat, j: nat, id: string)
      requires Ideal(events) && j < |events| && Unclaimed(events, i, j, id)
      requires events[j].TickEvent?
      requires id in After(events, j) && id !in After(events, j + 1)
      ensures ttl < At(events[j]) - events[i].entry.storedAt <= ttl + Sweep()
    {
      PresentUnlessSwept(events, i, j, id);
      LifetimeIsBounded(events, i, j, id);
    }

    /**
     * Every entry left unclaimed for longer than ttl + ttl/2 is evicted by one sweep in
     * between, at an age in (ttl, ttl + ttl/2].
     */
    lemma UnclaimedEntriesAreEvicted(events: seq<Event>, i: nat, j: nat, id: string) returns (k: nat)
      requires Ideal(events) && j < |events| && Unclaimed(events, i, j, id)
      requires At(events[j]) - events[i].entry.storedAt > ttl + Sweep()
      ensures i < k < j && events[k].TickEvent? && id in After(events, k) && id !in After(events, k + 1)
      ensures ttl < At(events[k]) - events[i].entry.storedAt <= ttl + Sweep()
    {
      LifetimeIsBounded(events, i, j, id);
      k := Removal(events, i, j, id);
      EvictionAge(events, i, k, id);
    }

    /** An unclaimed entry that is gone was removed by some tick. */
    lemma {:induction false} Removal(events: seq<Event>, i: nat, j: nat, id: string) returns (k: nat)
      requires Unclaimed(events, i, j, id) && id !in After(events, j)
      ensures i < k < j && events[k].TickEvent? && id in After(events, k) && id !in After(events, k + 1)
    {
      if j > i + 1 && id !in After(events, j - 1) {
        k := Removal(events, i, j - 1, id);
      } else {
        k := j - 1;
      }
    }

    /** A tick keeps an unclaimed entry up to age ttl and leaves none past it. */
    lemma LifetimeAtTick(events: seq<Event>, i: nat, j: nat, id: string)
      requires Ideal(events) && j < |events| && Unclaimed(events, i, j, id) && events[j].TickEvent?
      ensures var age := At(events[j]) - events[i].entry.storedAt;
              && (age <= ttl ==> id in After(events, j + 1))
              && (age > ttl ==> id !in After(events, j + 1))
              && (age > ttl + Sweep() ==> id !in After(events, j))
    {
      PresentUnlessSwept(events, i, j, id);
      PresentUnlessSwept(events, i, j + 1, id);
      LifetimeIsBounded(events, i, j, id);
    }

    lemma TickSpacing(n: nat)
      requires n >= 1
      ensures TickAt(n) == TickAt(n - 1) + Sweep()
    {
      assert n * Sweep() == (n - 1) * Sweep() + Sweep();
    }
  }

  /** A Store just as cleanup starts, and three ticks. */
  function ThreeTicks(start: int, id: string): seq<Event> {
    [StoreEvent(id, PendingEntry("t", id, start)), TickEvent(1), TickEvent(2), TickEvent(3)]
  }

  lemma {:induction false} LaterTicks(c: Cleanup, m: nat, n: nat)
    requires c.ttl >= 2 && m <= n
    ensures c.TickAt(m) <= c.TickAt(n)
  {
    if m < n {
      LaterTicks(c, m, n - 1);
      c.TickSpacing(n);
    }
  }

  lemma ThreeTicksAreIdeal(start: int, half: int, id: string)
    requires half >= 1
    ensures var c := Cleanup(start, 2 * half);
            c.TickAt(1) == start + half && c.TickAt(2) == start + 2 * half && c.TickAt(3) == start + 3 * half
    ensures Cleanup(start, 2 * half).Ideal(ThreeTicks(start, id))
  {
    var c := Cleanup(start, 2 * half);
    var events := ThreeTicks(start, id);
    assert c.TickAt(1) == start + half && c.TickAt(2) == start + 2 * half && c.TickAt(3) == start + 3 * half;
    forall j, n: nat | 0 <= j < |events| && 1 <= n && c.TickAt(n) < c.At(events[j])
      ensures c.FiredBefore(events, j, n)
    {
      if n >= j {
        LaterTicks(c, j, n);
      }
      assert events[n] == TickEvent(n);
    }
  }

  /**
   * The endpoints: for every even ttl an entry stored just as cleanup starts is still
   * present at age exactly ttl and is removed at age exactly 1.5 ttl.
   */
  lemma EndpointsAreReached(start: int, half: int, id: string)
    requires half >= 1
    ensures var c := Cleanup(start, 2 * half);
            var events := ThreeTicks(start, id);
            && c.Ideal(events)
            && c.At(events[2]) - start == c.ttl && id in c.After(events, 3)
            && c.At(events[3]) - start == c.ttl + c.ttl / 2 && id in c.After(events, 3) && id !in c.After(events, 4)
  {
    var c := Cleanup(start, 2 * half);
    var events := ThreeTicks(start, id);
    ThreeTicksAreIdeal(start, half, id);
    assert c.After(events, 1) == map[][id := PendingEntry("t", id, start)];
    assert c.After(events, 2) == c.After(events, 1);
    assert c.After(events, 3) == c.After(events, 2);
  }
}
