// How often the usage API is called: the spacing holds over every run of polls and restarts.
module ClaudePacing {
  import opened Folds

  // Times are nanoseconds; 0 is the zero time, which stands for no time at all.
  const SECOND: nat := 1_000_000_000
  const MINUTE: nat := 60 * SECOND
  const MIN_INTERVAL: nat := 5 * MINUTE
  const MAX_BACKOFF: nat := 30 * MINUTE

  datatype Reply = Success | RateLimited | Failed

  /** A call that was made: when, how it was answered, and the backoff in force after it. */
  datatype Call = Call(at: nat, reply: Reply, backoff: nat)

  /** The state file: the last success, the time of the next call and the backoff. */
  datatype Saved = Saved(fetched: nat, nextTry: nat, backoff: int)

  function Max(a: nat, b: nat): nat {
    if a < b then b else a
  }

  function Min(a: nat, b: nat): nat {
    if a < b then a else b
  }

  /** Before this time there should be no other call. */
  function Due(call: Call): nat {
    call.at + Max(call.backoff, MIN_INTERVAL)
  }

  /** Each call that was answered with a success or a rate limit is due by t. */
  ghost predicate DueBy(calls: seq<Call>, t: nat) {
    forall i :: 0 <= i < |calls| && calls[i].reply != Failed ==> Due(calls[i]) <= t
  }

  /** No call comes before its predecessors are due, but for the second of slack. */
  ghost predicate Spaced(calls: seq<Call>) {
    forall i, j :: 0 <= i < j < |calls| && calls[i].reply != Failed ==> Due(calls[i]) <= calls[j].at + SECOND
  }

  ghost predicate Bounded(calls: seq<Call>) {
    forall i :: 0 <= i < |calls| ==> calls[i].backoff <= MAX_BACKOFF
  }

  /** The backoff after one more refused call. */
  function Refused(backoff: nat, poll: nat): nat {
    Min(2 * Max(Max(backoff, MIN_INTERVAL), poll), MAX_BACKOFF)
  }

  /** The backoff after a refused call for each of these polling intervals. */
  function RefusedAll(backoff: nat, polls: seq<nat>): nat {
    if polls == [] then backoff else Refused(RefusedAll(backoff, polls[..|polls| - 1]), polls[|polls| - 1])
  }

  /** d doubled n times. */
  function Doubled(d: nat, n: nat): (r: nat)
    ensures r >= d
  {
    if n == 0 then d else 2 * Doubled(d, n - 1)
  }

  /** Polled every five minutes or more often, refused calls double the interval, from five minutes or the backoff
      there was, until it is 30 minutes. */
  lemma {:induction false} RefusalsDouble(backoff: nat, polls: seq<nat>)
    requires polls != [] && backoff <= MAX_BACKOFF
    requires forall i :: 0 <= i < |polls| ==> polls[i] <= MIN_INTERVAL
    ensures RefusedAll(backoff, polls) == Min(Doubled(Max(backoff, MIN_INTERVAL), |polls|), MAX_BACKOFF)
  {
    var n := |polls| - 1;
    if n == 0 {
      assert polls[..0] == [];
    } else {
      RefusalsDouble(backoff, polls[..n]);
    }
  }

  /** However often it is polled, three refused calls are enough for the longest backoff, and more do not change it. */
  lemma {:induction false} ThreeRefusals(backoff: nat, polls: seq<nat>)
    requires |polls| >= 3
    ensures RefusedAll(backoff, polls) == MAX_BACKOFF
  {
    var n := |polls| - 1;
    if n > 2 {
      ThreeRefusals(backoff, polls[..n]);
    } else {
      assert polls[..2][..1] == polls[..1] && polls[..1][..0] == [];
      assert RefusedAll(backoff, polls[..1]) == Refused(backoff, polls[0]) >= 2 * MIN_INTERVAL;
      assert RefusedAll(backoff, polls[..2]) >= 4 * MIN_INTERVAL;
    }
  }

  /** One more call, made when all before it are due, keeps the spacing. */
  lemma OneMore(calls: seq<Call>, call: Call, due: nat, t: nat)
    requires Spaced(calls) && Bounded(calls) && DueBy(calls, due) && due <= call.at + SECOND
    requires call.backoff <= MAX_BACKOFF
    requires due <= t && (call.reply != Failed ==> Due(call) <= t)
    ensures Spaced(calls + [call]) && Bounded(calls + [call]) && DueBy(calls + [call], t)
  {
  }

  lemma FailedMore(calls: seq<Call>, call: Call, t: nat)
    requires DueBy(calls, t) && call.reply == Failed
    ensures DueBy(calls + [call], t)
  {
  }

  lemma NowOrLater(next: nat, now: nat)
    ensures Max(next, now) >= now
  {
  }

  lemma DueLater(calls: seq<Call>, due: nat, t: nat)
    requires DueBy(calls, due) && due <= t
    ensures DueBy(calls, t)
  {
  }

  /** What is saved after a call at a time. */
  ghost predicate Noted(s: Saved, at: nat) {
    && 0 < at
    && 0 <= s.backoff <= MAX_BACKOFF
    && s.nextTry == at + Max(s.backoff, MIN_INTERVAL)
    && (s.backoff == 0 ==> s.fetched == at)
  }

  /** What a process starts with: nothing, or what was saved, as far as it can be believed. */
  method Restored(saved: Option<Saved>, now: nat) returns (next: nat, backoff: nat, last: nat)
    ensures backoff <= MAX_BACKOFF
    ensures forall at: nat :: saved.Some? && Noted(saved.value, at) && at < now ==>
              && saved.value.nextTry <= Max(next, now)
              && backoff == if now < saved.value.nextTry + saved.value.backoff then saved.value.backoff else 0
  {
    next, backoff, last := 0, 0, 0;
    if saved.Some? && (saved.value.fetched != 0 || saved.value.nextTry != 0) {
      var state := saved.value;
      if state.fetched != 0 {
        last := state.fetched;
        if state.fetched < now {
          next := state.fetched + MIN_INTERVAL;
        }
      }
      var kept := if state.backoff < MAX_BACKOFF then state.backoff else MAX_BACKOFF;
      if kept > 0 && state.nextTry < now + MAX_BACKOFF && now < state.nextTry + kept {
        backoff := kept;
        if state.nextTry > next {
          next := state.nextTry;
        }
      }
    }
  }

  /** What outlives a process: the state file; and, to state what is proved, the calls made so far and the clock. */
  class Disk {
    var saved: Option<Saved>
    ghost var calls: seq<Call>
    ghost var clock: nat

    constructor (saved: Option<Saved>)
      ensures this.saved == saved && calls == [] && clock == 0 && Valid()
    {
      this.saved := saved;
      calls, clock := [], 0;
    }

    /** The file tells of the latest call that was answered, and every call is due by its next try. */
    ghost predicate Tells(s: Saved, at: nat)
      reads this
    {
      at <= clock && Noted(s, at) && DueBy(calls, s.nextTry)
    }

    ghost predicate Valid()
      reads this
    {
      && Spaced(calls)
      && Bounded(calls)
      && (forall i :: 0 <= i < |calls| ==> calls[i].at <= clock)
      && (DueBy(calls, 0) || (saved.Some? && exists at: nat :: Tells(saved.value, at)))
    }

    lemma Told() returns (at: nat)
      requires Valid()
      ensures || DueBy(calls, 0)
              || (saved.Some? && at <= clock && Noted(saved.value, at) && DueBy(calls, saved.value.nextTry))
    {
      if DueBy(calls, 0) {
        at := 0;
      } else {
        at :| Tells(saved.value, at);
      }
    }
  }

  class Collector {
    const disk: Disk
    var next: nat
    var backoff: nat
    // The time of the last success known, 0 when there is none.
    var last: nat

    /** No call comes before next unless it is past due anyhow. */
    ghost predicate Valid()
      reads this, disk
    {
      && disk.Valid()
      && backoff <= MAX_BACKOFF
      && DueBy(disk.calls, Max(next, disk.clock))
    }

    /** A process starts. */
    constructor (disk: Disk, now: nat)
      requires disk.Valid() && disk.clock < now
      modifies disk`clock
      ensures Valid() && this.disk == disk && disk.clock == now
      // Within one more backoff after the next try, the backoff goes on; later it starts again.
      ensures forall at: nat :: disk.saved.Some? && old(disk.Tells(disk.saved.value, at)) ==>
                backoff == if now < disk.saved.value.nextTry + disk.saved.value.backoff then disk.saved.value.backoff
                  else 0
    {
      hide Spaced, Bounded, DueBy, Noted, Max;
      this.disk := disk;
      var due, kept, at := Restored(disk.saved, now);
      next, backoff, last := due, kept, at;
      ghost var calls := disk.calls;
      ghost var called := disk.Told();
      new;
      NowOrLater(next, now);
      if DueBy(calls, 0) {
        DueLater(calls, 0, Max(next, now));
      } else {
        DueLater(calls, disk.saved.value.nextTry, Max(next, now));
      }
      disk.clock := now;
      assert disk.saved.Some? ==> forall at: nat :: old(disk.Tells(disk.saved.value, at)) ==>
        disk.Tells(disk.saved.value, at);
    }

    /** The interval in force: never below the least one, the backoff or the interval asked for. */
    function Every(poll: nat): (d: nat)
      reads this
      ensures d >= backoff && d >= MIN_INTERVAL && d >= poll && d in {backoff, MIN_INTERVAL, poll}
    {
      Max(Max(backoff, MIN_INTERVAL), poll)
    }

    function Retry(now: nat): (t: nat)
      reads this
    {
      now + Max(backoff, MIN_INTERVAL)
    }

    method Schedule(rateLimited: bool, now: nat, poll: nat)
      requires backoff <= MAX_BACKOFF
      modifies `next, `backoff
      ensures backoff == if rateLimited then Refused(old(backoff), poll) else old(backoff)
      ensures next == now + Every(poll)
    {
      if rateLimited {
        backoff := Min(2 * Every(poll), MAX_BACKOFF);
      }
      next := now + Every(poll);
    }

    /** One poll at a time when the API would answer with reply. */
    method Poll(now: nat, poll: nat, reply: Reply) returns (called: bool)
      requires Valid() && disk.clock < now
      modifies this, disk
      ensures Valid() && disk.clock == now
      ensures called <==> old(next) <= now + SECOND
      ensures called ==> disk.calls == old(disk.calls) + [Call(now, reply, backoff)]
      ensures !called ==> disk.calls == old(disk.calls) && disk.saved == old(disk.saved)
      ensures !called ==> next == old(next) && backoff == old(backoff)
      // The backoff doubles when the API refuses a call, and nothing makes it shorter.
      ensures old(backoff) <= backoff
      ensures called && reply == RateLimited ==> backoff == Refused(old(backoff), poll)
      ensures called && reply != RateLimited ==> backoff == old(backoff)
      ensures called && reply == Failed ==> disk.saved == old(disk.saved)
      ensures called && reply != Failed ==>
                disk.saved.Some? && disk.Tells(disk.saved.value, now) && disk.saved.value.backoff == backoff
    {
      hide Spaced, Bounded, DueBy;
      ghost var due := Max(next, disk.clock);
      ghost var calls := disk.calls;
      called := next <= now + SECOND;
      disk.clock := now;
      if !called {
        DueLater(calls, due, Max(next, now));
      } else {
        Schedule(reply == RateLimited, now, poll);
        OneMore(calls, Call(now, reply, backoff), due, next);
        if reply != Failed {
          OneMore(calls, Call(now, reply, backoff), due, Retry(now));
        }
        disk.calls := disk.calls + [Call(now, reply, backoff)];
        if reply == RateLimited {
          disk.saved := Some(Saved(last, Retry(now), backoff));
        }
        if reply == Success {
          last := now;
          disk.saved := Some(Saved(now, Retry(now), backoff));
        }
        assert reply != Failed ==> disk.Tells(disk.saved.value, now);
      }
      if called && reply == Failed && DueBy(calls, 0) {
        FailedMore(calls, Call(now, reply, backoff), 0);
      }
      if disk.saved == old(disk.saved) && disk.saved.Some? {
        forall at: nat | old(disk.Tells(disk.saved.value, at))
          ensures !called || reply == Failed ==> disk.Tells(disk.saved.value, at)
        {
          if called && reply == Failed {
            FailedMore(calls, Call(now, reply, backoff), disk.saved.value.nextTry);
          }
        }
      }
    }
  }

  datatype Event = Restart(at: nat) | Tick(at: nat, poll: nat, reply: Reply)

  /** Any run, one process after the other: no call comes too early, whatever the API answers and however often the
      process is restarted. */
  method Run(saved: Option<Saved>, start: nat, events: seq<Event>) returns (disk: Disk)
    requires 0 < start
    requires forall i :: 0 <= i < |events| ==> start < events[i].at
    requires forall i, j :: 0 <= i < j < |events| ==> events[i].at < events[j].at
    ensures Spaced(disk.calls) && Bounded(disk.calls)
  {
    disk := new Disk(saved);
    var collector := new Collector(disk, start);
    for k := 0 to |events|
      invariant collector.disk == disk && collector.Valid() && fresh(disk) && fresh(collector)
      invariant disk.clock == if k == 0 then start else events[k - 1].at
    {
      match events[k] {
        case Restart(at) =>
          collector := new Collector(disk, at);
        case Tick(at, poll, reply) =>
          var called := collector.Poll(at, poll, reply);
      }
    }
  }
}
