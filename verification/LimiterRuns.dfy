/** What the login limiter promises over whole runs: attempts and resets of many keys, with a
    clock that never goes back. */
module LimiterRuns {
  import opened Limiter

  datatype Event = Attempt(key: string, now: int) | Reset(key: string, now: int)

  predicate Clocked(events: seq<Event>) {
    forall i, j :: 0 <= i < j < |events| ==> events[i].now <= events[j].now
  }

  /** The logs after a run. */
  function StateAfter(max: int, window: int, events: seq<Event>): Logs {
    if events == [] then map[]
    else
      var m := StateAfter(max, window, events[..|events| - 1]);
      match events[|events| - 1]
      case Attempt(key, now) => AfterAttempt(max, window, m, key, now)
      case Reset(key, _) => m - {key}
  }

  /** Whether an attempt after a run is granted. */
  predicate Allowed(max: int, window: int, events: seq<Event>, key: string, now: int) {
    |Keep(Log(StateAfter(max, window, events), key), now, window)| < max
  }

  /** The times of all grants to a key since its last reset, forgotten by the limiter or not. */
  function Grants(max: int, window: int, events: seq<Event>, key: string): seq<int> {
    if events == [] then []
    else
      var before, last := events[..|events| - 1], events[|events| - 1];
      if last.key != key then Grants(max, window, before, key)
      else if last.Reset? then []
      else if Allowed(max, window, before, key, last.now) then Grants(max, window, before, key) + [last.now]
      else Grants(max, window, before, key)
  }

  /** How many of the times lie in the half-open interval. */
  function CountIn(times: seq<int>, a: int, b: int): nat {
    if times == [] then 0
    else CountIn(times[..|times| - 1], a, b) + if a <= times[|times| - 1] < b then 1 else 0
  }

  // ---------- filtering ----------

  lemma KeepSnoc(log: seq<int>, t: int, now: int, window: int)
    ensures Keep(log + [t], now, window) == if now - t < window then Keep(log, now, window) + [t] else Keep(log, now, window)
  {
    assert (log + [t])[..|log|] == log;
  }

  /** What an earlier compaction dropped, a later one would drop too. */
  lemma {:induction false} KeepTwice(log: seq<int>, t: int, now: int, window: int)
    requires t <= now
    ensures Keep(Keep(log, t, window), now, window) == Keep(log, now, window)
  {
    if log != [] {
      var rest, x := log[..|log| - 1], log[|log| - 1];
      KeepTwice(rest, t, now, window);
      KeepSnoc(Keep(rest, t, window), x, now, window);
    }
  }

  lemma {:induction false} KeepCounts(times: seq<int>, now: int, window: int)
    requires forall i :: 0 <= i < |times| ==> times[i] <= now
    ensures |Keep(times, now, window)| == CountIn(times, now - window + 1, now + 1)
  {
    if times != [] { KeepCounts(times[..|times| - 1], now, window); }
  }

  lemma CountSnoc(times: seq<int>, t: int, a: int, b: int)
    ensures CountIn(times + [t], a, b) == CountIn(times, a, b) + if a <= t < b then 1 else 0
  {
    assert (times + [t])[..|times|] == times;
  }

  // ---------- the log is the window of the grants ----------

  lemma LogSwept(m: Logs, key: string)
    ensures Log(Swept(m), key) == Log(m, key)
  {
  }

  lemma {:induction false} GrantsPast(max: int, window: int, events: seq<Event>, key: string, now: int)
    requires forall i :: 0 <= i < |events| ==> events[i].now <= now
    ensures forall i :: 0 <= i < |Grants(max, window, events, key)| ==> Grants(max, window, events, key)[i] <= now
  {
    hide Allowed;
    if events != [] { GrantsPast(max, window, events[..|events| - 1], key, now); }
  }

  /** Compaction and sweep lose nothing that still matters: inside the current window the log
      holds exactly the grants since the last reset. */
  lemma {:induction false} LogIsWindow(max: int, window: int, events: seq<Event>, key: string, now: int)
    requires Clocked(events + [Attempt(key, now)])
    ensures Keep(Log(StateAfter(max, window, events), key), now, window) == Keep(Grants(max, window, events, key), now, window)
  {
    hide Swept, Keep;
    if events != [] {
      var n := |events| - 1;
      var before, last := events[..n], events[n];
      assert Clocked(before + [Attempt(key, now)]) by { Earlier(events, key, now); }
      LogIsWindow(max, window, before, key, now);
      if last.key == key && last.Attempt? {
        Shorter(events, Attempt(key, now));
        assert events == before + [Attempt(key, last.now)];
        LogIsWindow(max, window, before, key, last.now);
        AttemptKeepsWindow(max, window, before, key, last.now, now);
      } else if last.Attempt? {
        OtherKey(max, window, StateAfter(max, window, before), last.key, last.now, key);
      }
    }
  }

  lemma Shorter(events: seq<Event>, e: Event)
    requires Clocked(events + [e])
    ensures Clocked(events) && forall i :: 0 <= i < |events| ==> events[i].now <= e.now
  {
    forall i, j | 0 <= i < j < |events| ensures events[i].now <= events[j].now {
      assert (events + [e])[i].now <= (events + [e])[j].now;
    }
    forall i | 0 <= i < |events| ensures events[i].now <= e.now {
      assert (events + [e])[i].now <= (events + [e])[|events|].now;
    }
  }

  lemma Earlier(events: seq<Event>, key: string, now: int)
    requires events != [] && Clocked(events + [Attempt(key, now)])
    ensures Clocked(events[..|events| - 1] + [Attempt(key, now)])
  {
    Shorter(events, Attempt(key, now));
  }

  lemma OtherKey(max: int, window: int, m: Logs, other: string, t: int, key: string)
    requires other != key
    ensures Log(AfterAttempt(max, window, m, other, t), key) == Log(m, key)
  {
    hide Keep, Swept;
    var kept := Keep(Log(m, other), t, window);
    LogSwept(m[other := kept + [t]], key);
  }

  lemma AttemptKeepsWindow(max: int, window: int, before: seq<Event>, key: string, t: int, now: int)
    requires t <= now
    requires Keep(Log(StateAfter(max, window, before), key), t, window) == Keep(Grants(max, window, before, key), t, window)
    ensures var m, g := StateAfter(max, window, before), Grants(max, window, before, key);
            Keep(Log(AfterAttempt(max, window, m, key, t), key), now, window) ==
            Keep(if Allowed(max, window, before, key, t) then g + [t] else g, now, window)
  {
    hide Keep, Swept;
    var m, g := StateAfter(max, window, before), Grants(max, window, before, key);
    var kept := Keep(Log(m, key), t, window);
    KeepTwice(g, t, now, window);
    KeepSnoc(kept, t, now, window);
    KeepSnoc(g, t, now, window);
    LogSwept(m[key := kept + [t]], key);
  }

  // ---------- the promises ----------

  /** An attempt is denied exactly when `max` grants since the last reset lie in the window
      that ends now. */
  lemma DeniedExactly(max: int, window: int, events: seq<Event>, key: string, now: int)
    requires Clocked(events + [Attempt(key, now)])
    ensures !Allowed(max, window, events, key, now)
       <==> CountIn(Grants(max, window, events, key), now - window + 1, now + 1) >= max
  {
    LogIsWindow(max, window, events, key, now);
    Shorter(events, Attempt(key, now));
    GrantsPast(max, window, events, key, now);
    KeepCounts(Grants(max, window, events, key), now, window);
  }

  lemma {:induction false} CountMonotone(times: seq<int>, a: int, b: int, c: int, d: int)
    requires c <= a && forall i :: 0 <= i < |times| ==> times[i] < d
    ensures CountIn(times, a, b) <= CountIn(times, c, d)
  {
    if times != [] { CountMonotone(times[..|times| - 1], a, b, c, d); }
  }

  /** No interval of the window's length, wherever it starts, holds more than `max` grants. */
  lemma {:induction false} RateIsLimited(max: int, window: int, events: seq<Event>, key: string, a: int)
    requires Clocked(events) && max >= 0
    ensures CountIn(Grants(max, window, events, key), a, a + window) <= max
  {
    hide Allowed;
    if events != [] {
      var before, last := events[..|events| - 1], events[|events| - 1];
      RateIsLimited(max, window, before, key, a);
      if last.key == key && last.Attempt? && Allowed(max, window, before, key, last.now) {
        var g, t := Grants(max, window, before, key), last.now;
        CountSnoc(g, t, a, a + window);
        if a <= t < a + window {
          assert events == before + [Attempt(key, t)];
          DeniedExactly(max, window, before, key, t);
          Shorter(before, last);
          GrantsPast(max, window, before, key, t);
          CountMonotone(g, a, a + window, t - window + 1, t + 1);
        }
      }
    }
  }

  predicate NoEmptyLog(m: Logs) { forall k :: k in m ==> m[k] != [] }

  lemma {:induction false} NoLogIsEmpty(max: int, window: int, events: seq<Event>)
    requires max >= 1
    ensures NoEmptyLog(StateAfter(max, window, events))
  {
    hide Keep;
    if events != [] { NoLogIsEmpty(max, window, events[..|events| - 1]); }
  }

  /** The sweep above 4096 keys deletes nothing, whatever `max` is: it runs only after a
      grant, and then no log is empty. */
  lemma SweepDeletesNothing(max: int, window: int, events: seq<Event>, key: string, now: int)
    requires Allowed(max, window, events, key, now)
    ensures var m := StateAfter(max, window, events);
            var grown := m[key := Keep(Log(m, key), now, window) + [now]];
            Swept(grown) == grown
  {
    hide Keep;
    NoLogIsEmpty(max, window, events);
  }

  predicate Below(m: Logs, n: nat) { forall k :: k in m ==> |k| < n }

  lemma FirstGrant(max: int, window: int, before: seq<Event>, key: string)
    requires max >= 1 && key !in StateAfter(max, window, before)
    ensures var m := StateAfter(max, window, before);
            AfterAttempt(max, window, m, key, 0) == m[key := [0]] && |m[key := [0]]| == |m| + 1
  {
    hide Swept;
    var m := StateAfter(max, window, before);
    assert Log(m, key) == [] && Keep([], 0, window) == [];
    SweepDeletesNothing(max, window, before, key, 0);
    assert [] + [0] == [0];
    assert m[key := [0]].Keys == m.Keys + {key};
  }

  /** Hence the number of keys has no bound: each new key that is granted once stays. */
  lemma {:induction false} KeysAreUnbounded(max: int, window: int, n: nat) returns (events: seq<Event>)
    requires max >= 1
    ensures Clocked(events) && |StateAfter(max, window, events)| == n
    ensures Below(StateAfter(max, window, events), n) && forall i :: 0 <= i < |events| ==> events[i].now == 0
  {
    hide AfterAttempt;
    events := [];
    if n > 0 {
      var before := KeysAreUnbounded(max, window, n - 1);
      var key := seq(n - 1, _ => 'k');
      events := before + [Attempt(key, 0)];
      assert events[..|before|] == before;
      FirstGrant(max, window, before, key);
    }
  }
}
