/** The login limiter (`loginLimiter`, internal/api/server.go): per key, the times of recent
    grants, compacted in place inside one shared buffer. */
module Limiter {
  type Logs = map<string, seq<int>>

  function Log(m: Logs, key: string): seq<int> { if key in m then m[key] else [] }

  /** The times still inside the window. */
  function Keep(log: seq<int>, now: int, window: int): (r: seq<int>)
    ensures |r| <= |log|
  {
    if log == [] then []
    else
      var rest, t := Keep(log[..|log| - 1], now, window), log[|log| - 1];
      if now - t < window then rest + [t] else rest
  }

  function Swept(m: Logs): Logs {
    if |m| > 4096 then map k | k in m && m[k] != [] :: m[k] else m
  }

  /** The logs after one attempt. */
  function AfterAttempt(max: int, window: int, m: Logs, key: string, now: int): Logs {
    var kept := Keep(Log(m, key), now, window);
    if |kept| >= max then m[key := kept] else Swept(m[key := kept + [now]])
  }

  // ---------- the code ----------

  /** A Go slice: a buffer and how much of it is in use. */
  datatype Slice = Slice(buf: array<int>, len: nat)

  /** The loop over `l.hits[key]` that appends to `l.hits[key][:0]`: the write position never
      passes the read position, so no entry is overwritten before it is read. */
  method Compact(buf: array<int>, len: nat, now: int, window: int) returns (n: nat)
    requires len <= buf.Length
    modifies buf
    ensures n <= len && buf[..n] == Keep(old(buf[..len]), now, window)
    ensures buf[len..] == old(buf[len..])
  {
    n := 0;
    ghost var was := buf[..];
    for r := 0 to len
      invariant n <= r
      invariant buf[..n] == Keep(was[..r], now, window)
      invariant buf[r..] == was[r..]
    {
      assert was[..r + 1][..r] == was[..r];
      var t := buf[r];
      assert t == was[r];
      if now - t < window {
        buf[n] := t;
        n := n + 1;
      }
    }
  }

  /** `append`: in place while the buffer has room, in a larger copy otherwise. */
  method Append(s: Slice, x: int) returns (r: Slice)
    requires s.len <= s.buf.Length
    modifies s.buf
    ensures r.len == s.len + 1 <= r.buf.Length && r.buf[..r.len] == old(s.buf[..s.len]) + [x]
    ensures r.buf == s.buf || fresh(r.buf)
  {
    if s.len < s.buf.Length {
      s.buf[s.len] := x;
      return Slice(s.buf, s.len + 1);
    }
    ghost var was := s.buf[..s.len];
    var bigger := new int[2 * s.len + 1];
    for i := 0 to s.len
      invariant bigger[..i] == was[..i] && s.buf[..s.len] == was
    {
      bigger[i] := s.buf[i];
    }
    bigger[s.len] := x;
    assert bigger[..s.len + 1] == bigger[..s.len] + [x];
    return Slice(bigger, s.len + 1);
  }

  /** The sweep: walk the keys in any order and delete those with an empty list. */
  method NonEmpty(hits: map<string, Slice>) returns (rest: map<string, Slice>)
    ensures rest == map k | k in hits && hits[k].len != 0 :: hits[k]
  {
    rest := hits;
    var keys := hits.Keys;
    while keys != {}
      invariant keys <= hits.Keys
      invariant forall k :: k in rest ==> k in hits && rest[k] == hits[k]
      invariant forall k :: k in hits ==> (k in rest <==> k in keys || hits[k].len != 0)
      decreases |keys|
    {
      var k :| k in keys;
      keys := keys - {k};
      if rest[k].len == 0 { rest := rest - {k}; }
    }
  }

  ghost predicate Fit(hits: map<string, Slice>) { forall k :: k in hits ==> hits[k].len <= hits[k].buf.Length }

  ghost function ContentsOf(hits: map<string, Slice>): Logs
    reads set k | k in hits :: hits[k].buf
    requires Fit(hits)
  {
    map k | k in hits :: hits[k].buf[..hits[k].len]
  }

  lemma PutContents(hits: map<string, Slice>, key: string, s: Slice)
    requires Fit(hits) && s.len <= s.buf.Length
    ensures Fit(hits[key := s]) && ContentsOf(hits[key := s]) == ContentsOf(hits)[key := s.buf[..s.len]]
  {
  }

  lemma DropContents(hits: map<string, Slice>)
    requires Fit(hits)
    ensures var rest := map k | k in hits && hits[k].len != 0 :: hits[k];
            Fit(rest) && ContentsOf(rest) == map k | k in ContentsOf(hits) && ContentsOf(hits)[k] != [] :: ContentsOf(hits)[k]
  {
    var rest := map k | k in hits && hits[k].len != 0 :: hits[k];
    assert forall k :: k in hits ==> |hits[k].buf[..hits[k].len]| == hits[k].len;
  }

  class LoginLimiter {
    const max: int
    const window: int
    var hits: map<string, Slice>

    constructor (max: int, window: int)
      ensures this.max == max && this.window == window
      ensures Valid() && Contents() == map[] && Bufs() == {}
    {
      this.max, this.window := max, window;
      hits := map[];
    }

    ghost function Bufs(): set<array<int>> reads this { set k | k in hits :: hits[k].buf }

    /** Slices fit their buffers, and no two keys share one. */
    ghost predicate Valid()
      reads this
    {
      && Fit(hits)
      && forall j, k :: j in hits && k in hits && j != k ==> hits[j].buf != hits[k].buf
    }

    ghost function Contents(): Logs
      reads this, Bufs()
      requires Valid()
    {
      ContentsOf(hits)
    }

    /** `allow`: an attempt is granted exactly when fewer than `max` logged grants lie in the
        window, and only a grant is logged. */
    method Allow(key: string, now: int) returns (granted: bool)
      requires Valid()
      modifies this, Bufs()
      ensures Valid() && fresh(Bufs() - old(Bufs()))
      ensures granted == (|Keep(Log(old(Contents()), key), now, window)| < max)
      ensures Contents() == AfterAttempt(max, window, old(Contents()), key, now)
    {
      hide Keep, Swept, Log, Valid, Bufs, Contents;
      var n := Recent(key, now);
      if n >= max { return false; }
      ghost var kept, bufs := Contents(), Bufs();
      label logging: Record(key, now);
      assert forall b :: b in Bufs() && b !in bufs ==> fresh@logging(b);
      assert forall b :: b in Bufs() && b !in bufs ==> fresh(b);
      assert old(Contents())[key := kept[key] + [now]] == kept[key := kept[key] + [now]];
      return true;
    }

    /** Log a grant, then bound the number of keys. */
    method Record(key: string, now: int)
      requires Valid() && key in Contents()
      modifies this, Bufs()
      ensures Valid() && fresh(Bufs() - old(Bufs()))
      ensures Contents() == Swept(old(Contents())[key := old(Contents())[key] + [now]])
    {
      hide Swept, Valid, Bufs, Contents;
      AppendKey(key, now);
      Sweep();
    }

    /** Forget the grants that left the window; the number of those that remain. */
    method Recent(key: string, now: int) returns (n: nat)
      requires Valid()
      modifies this, Bufs()
      ensures Valid() && fresh(Bufs() - old(Bufs())) && key in hits
      ensures Contents() == old(Contents())[key := Keep(Log(old(Contents()), key), now, window)]
      ensures n == |Keep(Log(old(Contents()), key), now, window)|
    {
      hide Keep, Log, Bufs, Contents;
      EnsureKey(key);
      CompactKey(key, now);
      n := hits[key].len;
    }

    /** Reading a missing key yields an empty slice. */
    method EnsureKey(key: string)
      requires Valid()
      modifies this
      ensures Valid() && fresh(Bufs() - old(Bufs())) && key in hits
      ensures key in Contents() && Contents() == old(Contents())[key := Log(old(Contents()), key)]
    {
      if key !in hits { AddEmpty(key); }
    }

    method AddEmpty(key: string)
      requires Valid() && key !in Contents()
      modifies this
      ensures Valid() && fresh(Bufs() - old(Bufs())) && key in hits
      ensures Contents() == old(Contents())[key := []]
    {
      hide Contents;
      var none := new int[0];
      Put(key, Slice(none, 0));
    }

    /** `l.hits[key] = s`, for a slice that no other key holds. */
    method Put(key: string, s: Slice)
      requires Valid() && s.len <= s.buf.Length && forall k :: k in hits && hits[k].buf == s.buf ==> k == key
      modifies this`hits
      ensures Valid() && hits == old(hits)[key := s] && Bufs() <= old(Bufs()) + {s.buf}
      ensures Contents() == old(Contents())[key := s.buf[..s.len]]
    {
      PutContents(hits, key, s);
      hits := hits[key := s];
    }

    /** `l.hits[key] = keep`. */
    method CompactKey(key: string, now: int)
      requires Valid() && key in Contents()
      modifies this, Bufs()
      ensures Valid() && Bufs() <= old(Bufs()) && key in hits
      ensures Contents() == old(Contents())[key := Keep(old(Contents())[key], now, window)]
      ensures hits[key].len == |Contents()[key]|
    {
      hide Keep;
      var s := hits[key];
      var n := Compact(s.buf, s.len, now, window);
      hits := hits[key := Slice(s.buf, n)];
    }

    /** `l.hits[key] = append(l.hits[key], now)`. */
    method AppendKey(key: string, now: int)
      requires Valid() && key in Contents()
      modifies this, Bufs()
      ensures Valid() && fresh(Bufs() - old(Bufs()))
      ensures Contents() == old(Contents())[key := old(Contents())[key] + [now]]
    {
      var s := Append(hits[key], now);
      hits := hits[key := s];
    }

    /** Above 4096 keys, delete the keys without a log. */
    method Sweep()
      requires Valid()
      modifies this
      ensures Valid() && Bufs() <= old(Bufs())
      ensures Contents() == Swept(old(Contents()))
    {
      assert Contents().Keys == hits.Keys;
      if |hits| > 4096 { DropEmpty(); }
    }

    method DropEmpty()
      requires Valid()
      modifies this
      ensures Valid() && Bufs() <= old(Bufs())
      ensures Contents() == map k | k in old(Contents()) && old(Contents())[k] != [] :: old(Contents())[k]
    {
      var rest := NonEmpty(hits);
      DropContents(hits);
      hits := rest;
    }

    /** `reset`. */
    method Reset(key: string)
      requires Valid()
      modifies this
      ensures Valid() && Bufs() <= old(Bufs()) && Contents() == old(Contents()) - {key}
    {
      hits := hits - {key};
    }
  }
}
