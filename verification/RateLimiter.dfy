/** The login rate limiter: a sliding window kept by pruning in place
    (src/cmd/web/ratelimit.go). */
module RateLimiter {
  import opened Sequences

  type Time = int

  // ---------------------------------------------------------------- specification

  function After(cutoff: Time): Time -> bool {
    t => t > cutoff
  }

  function Entries(m: map<string, seq<Time>>, key: string): seq<Time> {
    if key in m then m[key] else []
  }

  datatype Event = Allow(key: string) | Reset(key: string) | Sweep

  /** The stored attempts after an event at time `now`. */
  function Pruned(m: map<string, seq<Time>>, e: Event, now: Time, max: int, window: int): map<string, seq<Time>> {
    match e
    case Allow(key) =>
      var valid := Filter(After(now - window), Entries(m, key));
      m[key := if |valid| >= max then valid else valid + [now]]
    case Reset(key) => map k | k in m && k != key :: m[k]
    case Sweep =>
      map k | k in m && Filter(After(now - window), m[k]) != [] :: Filter(After(now - window), m[k])
  }

  function Answer(m: map<string, seq<Time>>, key: string, now: Time, max: int, window: int): bool {
    |Filter(After(now - window), Entries(m, key))| < max
  }

  /** What one turn of the sweep's loop does. */
  ghost function SweptKey(m: map<string, seq<Time>>, key: string, kept: seq<Time>): map<string, seq<Time>> {
    if kept == [] then map k | k in m && k != key :: m[k] else m[key := kept]
  }

  /** The sweep with `keys` still to visit. */
  ghost predicate Sweeping(before: map<string, seq<Time>>, m: map<string, seq<Time>>, keys: set<string>, cutoff: Time) {
    && keys <= m.Keys <= before.Keys
    && (forall k :: k in keys ==> m[k] == before[k])
    && (forall k :: k in before && k !in keys ==> (k in m <==> Filter(After(cutoff), before[k]) != []))
    && (forall k :: k in m && k !in keys ==> m[k] == Filter(After(cutoff), before[k]))
  }

  lemma SweepStep(before: map<string, seq<Time>>, m: map<string, seq<Time>>, keys: set<string>, cutoff: Time,
                  key: string)
    requires Sweeping(before, m, keys, cutoff) && key in keys
    ensures Sweeping(before, SweptKey(m, key, Filter(After(cutoff), m[key])), keys - {key}, cutoff)
  {
    hide Filter;
  }

  lemma SweepingKeys(before: map<string, seq<Time>>, m: map<string, seq<Time>>, keys: set<string>, cutoff: Time)
    requires Sweeping(before, m, keys, cutoff)
    ensures keys <= m.Keys
  {
  }

  lemma SweepBegins(m: map<string, seq<Time>>, cutoff: Time)
    ensures Sweeping(m, m, m.Keys, cutoff)
  {
    hide Filter;
  }

  lemma SweepEnds(before: map<string, seq<Time>>, m: map<string, seq<Time>>, now: Time, max: int, window: int)
    requires Sweeping(before, m, {}, now - window)
    ensures m == Pruned(before, Sweep, now, max, window)
  {
    hide Filter;
  }

  lemma Overwritten(m: map<string, seq<Time>>, key: string, a: seq<Time>, b: seq<Time>)
    ensures m[key := a][key := b] == m[key := b]
  {
  }

  // ---------------------------------------------------------------- the limiter

  /** A Go slice of times: the first `len` cells of its backing array. */
  datatype Slice = Slice(data: array<Time>, len: nat)

  class LoginRateLimiter {
    var attempts: map<string, Slice>
    const max: int
    const window: int
    ghost var Contents: map<string, seq<Time>>   // the entries of each key
    ghost var Owner: map<array<Time>, string>    // whose entries a backing array holds

    ghost predicate Valid()
      reads this, Owner.Keys
    {
      && attempts.Keys == Contents.Keys
      && (forall k :: k in attempts ==> attempts[k].data in Owner && Holds(k, attempts[k], Contents[k]))
    }

    ghost predicate Holds(key: string, s: Slice, entries: seq<Time>)
      reads this`Owner, s.data
    {
      && s.data in Owner && Owner[s.data] == key
      && s.len <= s.data.Length && s.data[..s.len] == entries
    }

    constructor (max: int, window: int)
      ensures Valid() && Owner == map[] && Contents == map[]
      ensures this.max == max && this.window == window
    {
      attempts, Contents, Owner := map[], map[], map[];
      this.max, this.window := max, window;
    }

    /** Keeps the entries after `cutoff` at the front of the same backing array. */
    static method Prune(data: array<Time>, len: nat, cutoff: Time) returns (n: nat)
      requires len <= data.Length
      modifies data
      ensures n <= len
      ensures data[..n] == Filter(After(cutoff), old(data[..len]))
    {
      hide Filter, After;
      ghost var before := data[..len];
      n := 0;
      NothingKept(cutoff, before[..0]);
      for i := 0 to len
        invariant n <= i
        invariant data[i..len] == before[i..]
        invariant data[..n] == Filter(After(cutoff), before[..i])
      {
        var t := data[i];
        ghost var kept, rest := data[..n], data[i + 1..len];
        assert t == before[i] && rest == before[i + 1..];
        KeptStep(cutoff, before, i);
        if t > cutoff {
          data[n] := t;
          n := n + 1;
          assert data[..n] == kept + [t] && data[i + 1..len] == rest;
        }
      }
      assert before[..len] == before;
    }

    static lemma KeptStep(cutoff: Time, s: seq<Time>, i: nat)
      requires i < |s|
      ensures Filter(After(cutoff), s[..i + 1]) == Filter(After(cutoff), s[..i]) + if s[i] > cutoff then [s[i]] else []
    {
      FilterSnoc(After(cutoff), s[..i], s[i]);
      assert s[..i + 1] == s[..i] + [s[i]];
    }

    static lemma NothingKept(cutoff: Time, s: seq<Time>)
      requires s == []
      ensures Filter(After(cutoff), s) == []
    {
    }

    /** Prunes the stored entries of one key; the other keys keep their own arrays. */
    method PruneKey(key: string, cutoff: Time)
      requires Valid() && key in attempts
      modifies this`attempts, this`Contents, attempts[key].data
      ensures Valid()
      ensures Contents == old(Contents)[key := Filter(After(cutoff), old(Contents)[key])]
    {
      hide Filter, After;
      var entries := attempts[key];
      OwnArray(key);
      hide Holds;
      ghost var kept := Filter(After(cutoff), Contents[key]);
      var n := Prune(entries.data, entries.len, cutoff);
      SetEntries(key, Slice(entries.data, n), kept);
    }

    method SetEntries(key: string, s: Slice, ghost entries: seq<Time>)
      requires key in attempts && attempts.Keys == Contents.Keys && s.data in Owner && Owner[s.data] == key
      requires s.len <= s.data.Length && s.data[..s.len] == entries
      requires forall k :: k in attempts && k != key ==> attempts[k].data in Owner && Holds(k, attempts[k], Contents[k])
      modifies this`attempts, this`Contents
      ensures Valid() && Contents == old(Contents)[key := entries]
    {
      attempts, Contents := attempts[key := s], Contents[key := entries];
      HoldsNow(key, s, entries);
      hide Holds;
    }

    /** The other keys keep their entries elsewhere. */
    lemma OwnArray(key: string)
      requires Valid() && key in attempts
      ensures attempts[key].data in Owner && Owner[attempts[key].data] == key
      ensures attempts[key].len <= attempts[key].data.Length && attempts[key].data[..attempts[key].len] == Contents[key]
      ensures forall k :: k in attempts && k != key ==> attempts[k].data != attempts[key].data
    {
      assert forall k :: k in attempts ==> Holds(k, attempts[k], Contents[k]);
    }

    lemma HoldsNow(key: string, s: Slice, entries: seq<Time>)
      requires s.data in Owner && Owner[s.data] == key && s.len <= s.data.Length && s.data[..s.len] == entries
      ensures Holds(key, s, entries)
    {
    }

    /** Go's append: into the spare cell when there is one, else into a larger copy. */
    static method Append(valid: Slice, t: Time) returns (longer: Slice)
      requires valid.len <= valid.data.Length
      modifies valid.data
      ensures longer.len == valid.len + 1 <= longer.data.Length
      ensures longer.data == valid.data || fresh(longer.data)
      ensures longer.data[..longer.len] == old(valid.data[..valid.len]) + [t]
    {
      var data := valid.data;
      if valid.len == data.Length {
        data := new Time[2 * valid.len + 1];
        for i := 0 to valid.len
          invariant data[..i] == valid.data[..i]
          invariant valid.data[..] == old(valid.data[..])
        {
          data[i] := valid.data[i];
        }
      }
      ghost var before := data[..valid.len];
      data[valid.len] := t;
      assert data[..valid.len] == before;
      longer := Slice(data, valid.len + 1);
    }

    method AppendTo(key: string, t: Time)
      requires Valid() && key in attempts
      modifies this`attempts, this`Contents, this`Owner, attempts[key].data
      ensures Valid() && fresh(Owner.Keys - old(Owner.Keys))
      ensures Contents == old(Contents)[key := old(Contents)[key] + [t]]
    {
      OwnArray(key);
      assert forall k :: k in attempts ==> Holds(k, attempts[k], Contents[k]);
      label appended:
      var longer := Append(attempts[key], t);
      attempts, Contents := attempts[key := longer], Contents[key := Contents[key] + [t]];
      Owner := Owner[longer.data := key];
      forall k | k in attempts ensures attempts[k].data in Owner && Holds(k, attempts[k], Contents[k]) {
        if k != key {
          assert old@appended(Holds(k, attempts[k], Contents[k]));
        }
      }
    }

    method AddEmpty(key: string)
      requires Valid() && key !in attempts
      modifies this`attempts, this`Contents, this`Owner
      ensures Valid() && fresh(Owner.Keys - old(Owner.Keys)) && key in attempts
      ensures Contents == old(Contents)[key := []]
    {
      assert forall k :: k in attempts ==> attempts[k].data in Owner && Holds(k, attempts[k], Contents[k]);
      var none := new Time[0];
      label added:
      attempts, Contents, Owner := attempts[key := Slice(none, 0)], Contents[key := []], Owner[none := key];
      assert none[..0] == [];
      forall k | k in attempts ensures attempts[k].data in Owner && Holds(k, attempts[k], Contents[k]) {
        if k != key {
          assert old@added(Holds(k, attempts[k], Contents[k]));
        }
      }
    }

    method Allow(key: string, now: Time) returns (ok: bool)
      requires Valid()
      modifies this`attempts, this`Contents, this`Owner, Owner.Keys
      ensures Valid() && fresh(Owner.Keys - old(Owner.Keys))
      ensures ok == Answer(old(Contents), key, now, max, window)
      ensures Contents == Pruned(old(Contents), Event.Allow(key), now, max, window)
    {
      hide Filter, Holds;
      ghost var valid := Filter(After(now - window), Entries(Contents, key));
      if key !in attempts {
        AddEmpty(key);
      }
      PruneKey(key, now - window);
      Overwritten(old(Contents), key, [], valid);
      Overwritten(old(Contents), key, valid, valid + [now]);
      var n := Len(key);
      if n >= max {
        return false;
      }
      AppendTo(key, now);
      return true;
    }

    method Len(key: string) returns (n: nat)
      requires Valid() && key in attempts
      ensures n == |Contents[key]|
    {
      assert Holds(key, attempts[key], Contents[key]);
      n := attempts[key].len;
    }

    method Reset(key: string)
      requires Valid()
      modifies this`attempts, this`Contents
      ensures Valid()
      ensures Contents == Pruned(old(Contents), Event.Reset(key), 0, max, window)
    {
      attempts := map k | k in attempts && k != key :: attempts[k];
      Contents := map k | k in Contents && k != key :: Contents[k];
    }

    method SweepKey(key: string, cutoff: Time)
      requires Valid() && key in attempts
      modifies this`attempts, this`Contents, attempts[key].data
      ensures Valid()
      ensures Contents == SweptKey(old(Contents), key, Filter(After(cutoff), old(Contents)[key]))
    {
      hide Filter, Holds;
      PruneKey(key, cutoff);
      var n := Len(key);
      if n == 0 {
        Reset(key);
      }
    }

    method Sweep(now: Time)
      requires Valid()
      modifies this`attempts, this`Contents, Owner.Keys
      ensures Valid()
      ensures Contents == Pruned(old(Contents), Event.Sweep, now, max, window)
    {
      hide Filter, Holds, SweptKey, Sweeping;
      var keys := attempts.Keys;
      SweepBegins(Contents, now - window);
      while keys != {}
        invariant Valid() && keys <= Contents.Keys
        invariant Sweeping(old(Contents), Contents, keys, now - window)
        decreases keys
      {
        var key :| key in keys;
        SweepStep(old(Contents), Contents, keys, now - window, key);
        keys := keys - {key};
        SweepKey(key, now - window);
        SweepingKeys(old(Contents), Contents, keys, now - window);
      }
      SweepEnds(old(Contents), Contents, now, max, window);
    }
  }

  // ---------------------------------------------------------------- whole histories

  /** One event as it happened; `ok` is the answer when it was an attempt. */
  datatype Entry = Entry(event: Event, at: Time, ok: bool)

  function Log(m: map<string, seq<Time>>, run: seq<(Event, Time)>, max: int, window: int): seq<Entry>
    decreases run
  {
    if run == [] then [] else
      var (e, t) := run[0];
      [Entry(e, t, Ok(m, e, t, max, window))] + Log(Pruned(m, e, t, max, window), run[1..], max, window)
  }

  /** Never pruned: the accepted attempts of `key` since its last reset. */
  function Accepted(log: seq<Entry>, key: string): seq<Time> {
    if log == [] then [] else
      var before, last := Accepted(log[..|log| - 1], key), log[|log| - 1];
      match last.event
      case Allow(k) => if k == key && last.ok then before + [last.at] else before
      case Reset(k) => if k == key then [] else before
      case Sweep => before
  }

  /** The entries that lie less than a window back. */
  function Recent(entries: seq<Time>, now: Time, window: int): seq<Time> {
    if entries == [] then [] else
      var last := entries[|entries| - 1];
      Recent(entries[..|entries| - 1], now, window) + if now - last < window then [last] else []
  }

  lemma {:induction false} RecentFilter(entries: seq<Time>, now: Time, window: int)
    ensures Recent(entries, now, window) == Filter(After(now - window), entries)
  {
    if entries != [] {
      RecentFilter(entries[..|entries| - 1], now, window);
    }
  }

  /** What an attempt does: it passes while fewer than `max` recent entries are stored, and is then stored
      itself; of its key only recent entries stay, and the other keys are as before. */
  lemma AllowExact(m: map<string, seq<Time>>, key: string, now: Time, max: int, window: int)
    ensures var recent := Recent(if key in m then m[key] else [], now, window);
            var ok := Answer(m, key, now, max, window);
            && (ok <==> |recent| < max)
            && Pruned(m, Allow(key), now, max, window) == m[key := recent + if ok then [now] else []]
            && (ok ==> |recent + [now]| <= max)
  {
    RecentFilter(Entries(m, key), now, window);
    hide Filter, Recent;
    var recent := Recent(Entries(m, key), now, window);
    assert recent + [] == recent;
  }

  /** A reset forgets its key and nothing else; a sweep keeps of every key the recent entries, and drops
      the keys that have none. */
  lemma CleanupExact(m: map<string, seq<Time>>, key: string, now: Time, max: int, window: int)
    ensures Pruned(m, Reset(key), now, max, window) == m - {key}
    ensures var swept := Pruned(m, Sweep, now, max, window);
            && (forall k :: k in swept <==> k in m && Recent(m[k], now, window) != [])
            && (forall k :: k in swept ==> swept[k] == Recent(m[k], now, window))
  {
    hide Filter, Recent;
    forall k | k in m ensures Recent(m[k], now, window) == Filter(After(now - window), m[k]) {
      RecentFilter(m[k], now, window);
    }
  }

  /** Every answer is the one the unpruned history gives. */
  ghost predicate Faithful(log: seq<Entry>, max: int, window: int) {
    log != [] ==>
      var init, last := log[..|log| - 1], log[|log| - 1];
      && Faithful(init, max, window)
      && (last.event.Allow? ==>
            last.ok == (|Recent(Accepted(init, last.event.key), last.at, window)| < max))
  }

  predicate Timely(run: seq<(Event, Time)>, from: Time)
    decreases run
  {
    run != [] ==> from <= run[0].1 && Timely(run[1..], run[0].1)
  }

  /** Pruning has lost nothing that is still inside the window. */
  ghost predicate Same(m: map<string, seq<Time>>, log: seq<Entry>, cutoff: Time) {
    forall key :: Filter(After(cutoff), Entries(m, key)) == Filter(After(cutoff), Accepted(log, key))
  }

  lemma SameLater(m: map<string, seq<Time>>, log: seq<Entry>, cutoff: Time, later: Time)
    requires Same(m, log, cutoff) && cutoff <= later
    ensures Same(m, log, later)
  {
    forall key ensures Filter(After(later), Entries(m, key)) == Filter(After(later), Accepted(log, key)) {
      FilterFilter(After(cutoff), After(later), Entries(m, key));
      FilterFilter(After(cutoff), After(later), Accepted(log, key));
    }
  }

  /** What an event does to the entries of `key` that are still inside the window. */
  function Outcome(e: Event, t: Time, ok: bool, key: string, live: seq<Time>, window: int): seq<Time> {
    match e
    case Allow(k) => if k == key && ok && t > t - window then live + [t] else live
    case Reset(k) => if k == key then [] else live
    case Sweep => live
  }

  function Ok(m: map<string, seq<Time>>, e: Event, t: Time, max: int, window: int): bool {
    e.Allow? ==> Answer(m, e.key, t, max, window)
  }

  lemma PrunedOutcome(m: map<string, seq<Time>>, e: Event, t: Time, max: int, window: int, key: string)
    ensures var keep := After(t - window);
            Filter(keep, Entries(Pruned(m, e, t, max, window), key))
            == Outcome(e, t, Ok(m, e, t, max, window), key, Filter(keep, Entries(m, key)), window)
  {
    hide Filter;
    var keep := After(t - window);
    var live := Filter(keep, Entries(m, key));
    FilterFilter(keep, keep, Entries(m, key));
    FilterSnoc(keep, live, t);
    NothingToKeep(keep);
  }

  lemma AcceptedOutcome(log: seq<Entry>, entry: Entry, key: string, window: int)
    ensures var keep := After(entry.at - window);
            Filter(keep, Accepted(log + [entry], key))
            == Outcome(entry.event, entry.at, entry.ok, key, Filter(keep, Accepted(log, key)), window)
  {
    hide Filter;
    var keep := After(entry.at - window);
    AcceptedSnoc(log, entry, key);
    hide Accepted;
    FilterSnoc(keep, Accepted(log, key), entry.at);
    NothingToKeep(keep);
  }

  lemma AcceptedSnoc(log: seq<Entry>, entry: Entry, key: string)
    ensures Accepted(log + [entry], key) ==
              match entry.event
              case Allow(k) => if k == key && entry.ok then Accepted(log, key) + [entry.at] else Accepted(log, key)
              case Reset(k) => if k == key then [] else Accepted(log, key)
              case Sweep => Accepted(log, key)
  {
    assert (log + [entry])[..|log|] == log;
  }

  lemma NothingToKeep(keep: Time -> bool)
    ensures Filter(keep, []) == []
  {
  }

  lemma SameStep(m: map<string, seq<Time>>, log: seq<Entry>, e: Event, t: Time, max: int, window: int)
    requires Same(m, log, t - window)
    ensures Same(Pruned(m, e, t, max, window), log + [Entry(e, t, Ok(m, e, t, max, window))], t - window)
  {
    hide Filter, Pruned, Accepted, Ok, Entries;
    var entry := Entry(e, t, Ok(m, e, t, max, window));
    forall key
      ensures Filter(After(t - window), Entries(Pruned(m, e, t, max, window), key))
           == Filter(After(t - window), Accepted(log + [entry], key))
    {
      PrunedOutcome(m, e, t, max, window, key);
      AcceptedOutcome(log, entry, key, window);
      hide Outcome;
    }
  }

  lemma {:induction false} LogFaithful(m: map<string, seq<Time>>, log: seq<Entry>, run: seq<(Event, Time)>, from: Time,
                                       max: int, window: int)
    requires Faithful(log, max, window) && Same(m, log, from - window) && Timely(run, from)
    ensures Faithful(log + Log(m, run, max, window), max, window)
    decreases |run|
  {
    hide Pruned, Filter, Same, Faithful, Ok;
    if run == [] {
      assert log + [] == log;
    } else {
      var (e, t) := run[0];
      var entry := Entry(e, t, Ok(m, e, t, max, window));
      var rest := Log(Pruned(m, e, t, max, window), run[1..], max, window);
      assert Log(m, run, max, window) == [entry] + rest;
      assert log + ([entry] + rest) == log + [entry] + rest;
      hide Log;
      SameLater(m, log, from - window, t - window);
      SameStep(m, log, e, t, max, window);
      FaithfulStep(m, log, e, t, max, window);
      LogFaithful(Pruned(m, e, t, max, window), log + [entry], run[1..], t, max, window);
    }
  }

  lemma FaithfulStep(m: map<string, seq<Time>>, log: seq<Entry>, e: Event, t: Time, max: int, window: int)
    requires Faithful(log, max, window) && Same(m, log, t - window)
    ensures Faithful(log + [Entry(e, t, Ok(m, e, t, max, window))], max, window)
  {
    if e.Allow? {
      RecentFilter(Accepted(log, e.key), t, window);
    }
    hide Filter, Accepted, Recent;
    assert (log + [Entry(e, t, Ok(m, e, t, max, window))])[..|log|] == log;
  }

  /** Over every history at nondecreasing times the limiter answers as the unpruned history would. */
  lemma LimiterIsFaithful(run: seq<(Event, Time)>, from: Time, max: int, window: int)
    requires Timely(run, from)
    ensures Faithful(Log(map[], run, max, window), max, window)
  {
    LogFaithful(map[], [], run, from, max, window);
    assert [] + Log(map[], run, max, window) == Log(map[], run, max, window);
  }

  function Within(low: Time, high: Time): Time -> bool {
    t => low < t <= high
  }

  lemma {:induction false} FewerKept(p: Time -> bool, q: Time -> bool, s: seq<Time>)
    requires forall t :: p(t) ==> q(t)
    ensures |Filter(p, s)| <= |Filter(q, s)|
  {
    if s != [] {
      FewerKept(p, q, s[..|s| - 1]);
    }
  }

  /** No window, wherever it ends, holds more than `max` attempts accepted since the last reset. */
  lemma {:induction false} WindowBound(log: seq<Entry>, key: string, end: Time, max: int, window: int)
    requires Faithful(log, max, window)
    ensures |Filter(Within(end - window, end), Accepted(log, key))| <= if max < 0 then 0 else max
  {
    hide Filter;
    NothingToKeep(Within(end - window, end));
    if log != [] {
      var init, last := log[..|log| - 1], log[|log| - 1];
      WindowBound(init, key, end, max, window);
      var acc := Accepted(init, key);
      FilterSnoc(Within(end - window, end), acc, last.at);
      RecentFilter(acc, last.at, window);
      if last.event == Allow(key) && last.ok && end - window < last.at <= end {
        FewerKept(Within(end - window, end), After(last.at - window), acc);
      }
    }
  }

  // ---------------------------------------------------------------- sweeps do not matter

  function WithoutSweeps(run: seq<(Event, Time)>): seq<(Event, Time)>
    decreases run
  {
    if run == [] then [] else
      (if run[0].0 == Sweep then [] else [run[0]]) + WithoutSweeps(run[1..])
  }

  function Answers(log: seq<Entry>): seq<Entry> {
    if log == [] then [] else
      (if log[0].event == Sweep then [] else [log[0]]) + Answers(log[1..])
  }

  /** The two stores agree on everything still inside the window. */
  ghost predicate Alike(m: map<string, seq<Time>>, n: map<string, seq<Time>>, cutoff: Time) {
    forall key :: Filter(After(cutoff), Entries(m, key)) == Filter(After(cutoff), Entries(n, key))
  }

  lemma AlikeLater(m: map<string, seq<Time>>, n: map<string, seq<Time>>, cutoff: Time, later: Time)
    requires Alike(m, n, cutoff) && cutoff <= later
    ensures Alike(m, n, later)
  {
    forall key ensures Filter(After(later), Entries(m, key)) == Filter(After(later), Entries(n, key)) {
      FilterFilter(After(cutoff), After(later), Entries(m, key));
      FilterFilter(After(cutoff), After(later), Entries(n, key));
    }
  }

  lemma SweepAlike(m: map<string, seq<Time>>, n: map<string, seq<Time>>, t: Time, max: int, window: int)
    requires Alike(m, n, t - window)
    ensures Alike(Pruned(m, Sweep, t, max, window), n, t - window)
  {
    forall key
      ensures Filter(After(t - window), Entries(Pruned(m, Sweep, t, max, window), key)) ==
          Filter(After(t - window), Entries(n, key))
    {
      PrunedOutcome(m, Sweep, t, max, window, key);
      hide Filter, Pruned, Ok;
    }
  }

  lemma EventAlike(m: map<string, seq<Time>>, n: map<string, seq<Time>>, e: Event, t: Time, max: int, window: int)
    requires Alike(m, n, t - window)
    ensures Ok(m, e, t, max, window) == Ok(n, e, t, max, window)
    ensures Alike(Pruned(m, e, t, max, window), Pruned(n, e, t, max, window), t - window)
  {
    hide Filter;
    forall key
      ensures Filter(After(t - window), Entries(Pruned(m, e, t, max, window), key))
           == Filter(After(t - window), Entries(Pruned(n, e, t, max, window), key))
    {
      PrunedOutcome(m, e, t, max, window, key);
      PrunedOutcome(n, e, t, max, window, key);
      hide Pruned;
    }
  }

  /** Whenever the sweeps run, every attempt gets the answer it would get without them. */
  lemma {:induction false} SweepsDoNotMatter(m: map<string, seq<Time>>, n: map<string, seq<Time>>,
                                             run: seq<(Event, Time)>, from: Time, max: int, window: int)
    requires Alike(m, n, from - window) && Timely(run, from)
    ensures Answers(Log(m, run, max, window)) == Log(n, WithoutSweeps(run), max, window)
    decreases run
  {
    hide Filter, Pruned, Ok;
    if run != [] {
      var (e, t) := run[0];
      var m', rest := Pruned(m, e, t, max, window), WithoutSweeps(run[1..]);
      AlikeLater(m, n, from - window, t - window);
      assert Log(m, run, max, window)[1..] == Log(m', run[1..], max, window);
      if e == Sweep {
        SweepAlike(m, n, t, max, window);
        SweepsDoNotMatter(m', n, run[1..], t, max, window);
        assert WithoutSweeps(run) == rest;
      } else {
        EventAlike(m, n, e, t, max, window);
        SweepsDoNotMatter(m', Pruned(n, e, t, max, window), run[1..], t, max, window);
        assert WithoutSweeps(run) == [run[0]] + rest && ([run[0]] + rest)[1..] == rest;
      }
    }
  }
}
