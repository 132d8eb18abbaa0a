// revocation_persist.go: a table of revoked sessions shared by any number of
// replicas, each with a cache in front of it. Every method of a replica is split
// at its locks and queries, and the parts of different calls may interleave.
module Revocation {
  import opened Options

  // A call between two of its steps: what it still has to do, and what it has
  // read so far.
  datatype Call =
    | Revoking(replica: nat, jti: string, expiry: int)
    | Asking(replica: nat, jti: string, now: int)
    | Missed(replica: nat, jti: string, now: int)
    | Found(replica: nat, jti: string, expiry: int)
    | Sweeping(replica: nat, now: int)
    | Swept(replica: nat, now: int)
    | Warming(replica: nat, rows: map<string, int>)
    | Over

  function Longest(m: map<string, int>, jti: string, expiry: int): map<string, int> {
    if jti in m && m[jti] >= expiry then m else m[jti := expiry]
  }

  // jti is revoked at a time when the greatest expiry committed for it is later.
  predicate RevokedAt(greatest: map<string, int>, jti: string, t: int) {
    jti in greatest && greatest[jti] > t
  }

  predicate Committed(greatest: map<string, int>, jti: string, expiry: int) {
    jti in greatest && expiry <= greatest[jti]
  }

  // A row is the greatest expiry, unless both are past; a missing row is past.
  predicate RowOk(table: map<string, int>, greatest: map<string, int>, clock: int, jti: string) {
    if jti in table
    then jti in greatest && table[jti] <= greatest[jti] && (table[jti] == greatest[jti] || greatest[jti] <= clock)
    else jti in greatest ==> greatest[jti] <= clock
  }

  ghost predicate TableOk(table: map<string, int>, greatest: map<string, int>, clock: int) {
    forall jti: string :: RowOk(table, greatest, clock, jti)
  }

  // A cache holds only what was committed at some time.
  ghost predicate CacheOk(cache: map<string, int>, greatest: map<string, int>) {
    forall jti :: jti in cache ==> Committed(greatest, jti, cache[jti])
  }

  ghost predicate CallOk(c: Call, greatest: map<string, int>, clock: int) {
    match c
    case Revoking(_, jti, expiry) => Committed(greatest, jti, expiry)
    case Asking(_, _, now) => now <= clock
    case Missed(_, _, now) => now <= clock
    case Found(_, jti, expiry) => Committed(greatest, jti, expiry)
    case Sweeping(_, now) => now <= clock
    case Swept(_, now) => now <= clock
    case Warming(_, rows) => CacheOk(rows, greatest)
    case Over => true
  }

  // The table and its caches stay right as more is committed and time passes.
  lemma CallStays(c: Call, greatest: map<string, int>, jti: string, expiry: int, clock: int, now: int)
    requires CallOk(c, greatest, clock) && clock <= now
    ensures CallOk(c, Longest(greatest, jti, expiry), now)
  {
  }

  lemma CacheStays(cache: map<string, int>, greatest: map<string, int>, jti: string, expiry: int)
    requires CacheOk(cache, greatest)
    ensures CacheOk(cache, Longest(greatest, jti, expiry))
  {
  }

  class Cluster {
    var table: map<string, int>
    var hot: seq<map<string, int>>
    var calls: seq<Call>
    // Of all expiries ever committed for a session, the greatest; and the time.
    ghost var greatest: map<string, int>
    var clock: int

    ghost predicate Valid()
      reads this
    {
      && TableOk(table, greatest, clock)
      && (forall r :: 0 <= r < |hot| ==> CacheOk(hot[r], greatest))
      && (forall c :: 0 <= c < |calls| ==> CallOk(calls[c], greatest, clock))
    }

    constructor (replicas: nat)
      ensures Valid() && table == map[] && |hot| == replicas && greatest == map[] && calls == []
    {
      table, calls, greatest, clock := map[], [], map[], 0;
      hot := seq(replicas, _ => map[]);
    }

    // Time does not run backwards.
    method Tick(seconds: nat)
      requires Valid()
      modifies this`clock
      ensures Valid() && clock == old(clock) + seconds
    {
      assert forall jti: string :: RowOk(table, greatest, clock, jti);
      clock := clock + seconds;
      forall jti: string ensures RowOk(table, greatest, clock, jti) {
        assert RowOk(table, greatest, old(clock), jti);
      }
      forall c | 0 <= c < |calls| ensures CallOk(calls[c], greatest, clock) {
        assert CallOk(calls[c], greatest, old(clock));
      }
    }

    // ----- Revoke -----

    // The transaction: insert unless there is a row, then lengthen but never shorten.
    method Commit(r: nat, jti: string, expiry: int)
      requires Valid()
      modifies this`table, this`calls, this`greatest
      ensures Valid()
      ensures greatest == if jti == "" || r >= |hot| then old(greatest) else Longest(old(greatest), jti, expiry)
      ensures calls == if jti == "" || r >= |hot| then old(calls) else old(calls) + [Revoking(r, jti, expiry)]
    {
      if jti == "" || r >= |hot| {
        return;
      }
      assert forall k: string :: RowOk(table, greatest, clock, k);
      forall i | 0 <= i < |calls| ensures CallOk(calls[i], Longest(greatest, jti, expiry), clock) {
        CallStays(calls[i], greatest, jti, expiry, clock, clock);
      }
      forall i | 0 <= i < |hot| ensures CacheOk(hot[i], Longest(greatest, jti, expiry)) {
        CacheStays(hot[i], greatest, jti, expiry);
      }
      if jti !in table {
        table := table[jti := expiry];
      }
      if table[jti] < expiry {
        table := table[jti := expiry];
      }
      greatest := Longest(greatest, jti, expiry);
      calls := calls + [Revoking(r, jti, expiry)];
      assert forall k: string :: RowOk(old(table), old(greatest), clock, k) ==> RowOk(table, greatest, clock, k);
    }

    // The cache update that follows it.
    method Remember(c: nat)
      requires Valid()
      modifies this`hot, this`calls
      ensures Valid() && |hot| == |old(hot)|
      ensures calls == if c < |old(calls)| && old(calls)[c].Revoking? then old(calls)[c := Over] else old(calls)
      ensures hot == if c < |old(calls)| && old(calls)[c].Revoking? && old(calls)[c].replica < |old(hot)|
                then var x := old(calls)[c];
                  old(hot)[x.replica := Longest(old(hot)[x.replica], x.jti, x.expiry)] else old(hot)
    {
      if c >= |calls| || !calls[c].Revoking? {
        return;
      }
      var x := calls[c];
      if x.replica < |hot| && (x.jti !in hot[x.replica] || x.expiry > hot[x.replica][x.jti]) {
        hot := hot[x.replica := hot[x.replica][x.jti := x.expiry]];
      }
      calls := calls[c := Over];
    }

    // ----- IsRevoked -----

    method Ask(r: nat, jti: string)
      requires Valid()
      modifies this`calls
      ensures Valid() && calls == old(calls) + [Asking(r, jti, clock)]
    {
      calls := calls + [Asking(r, jti, clock)];
    }

    // The cache, under its lock. The empty session is never revoked.
    method LookInCache(c: nat) returns (answer: Option<bool>)
      requires Valid()
      modifies this`calls
      ensures Valid() && |calls| == |old(calls)|
      ensures c < |old(calls)| && old(calls)[c].Asking? ==> calls == old(calls)[c := if answer.Some? then Over
                else Missed(old(calls)[c].replica, old(calls)[c].jti, old(calls)[c].now)]
      ensures answer == Some(true) ==>
        c < |old(calls)| && old(calls)[c].Asking? && RevokedAt(greatest, old(calls)[c].jti, old(calls)[c].now)
      ensures answer == Some(false) <==> c < |old(calls)| && old(calls)[c].Asking? && old(calls)[c].jti == ""
    {
      if c >= |calls| || !calls[c].Asking? {
        return None;
      }
      var x := calls[c];
      if x.jti == "" {
        calls := calls[c := Over];
        return Some(false);
      }
      if x.replica < |hot| && x.jti in hot[x.replica] && hot[x.replica][x.jti] > x.now {
        calls := calls[c := Over];
        return Some(true);
      }
      calls := calls[c := Missed(x.replica, x.jti, x.now)];
      answer := None;
    }

    // The table, on a miss: another replica may have revoked the session. Whatever
    // ran since the call began, a refusal names an expiry that was committed and is
    // later than the call's beginning, and a pass is right at this moment.
    method LookInTable(c: nat) returns (answer: Option<bool>)
      requires Valid()
      modifies this`calls
      ensures Valid()
      ensures answer.Some? <==> c < |old(calls)| && old(calls)[c].Missed?
      ensures answer == Some(true) ==> RevokedAt(greatest, old(calls)[c].jti, old(calls)[c].now)
      ensures answer == Some(false) ==> !RevokedAt(greatest, old(calls)[c].jti, clock)
      ensures answer.Some? ==> |calls| == |old(calls)|
      ensures answer == Some(true) ==>
        var x := old(calls)[c]; x.jti in table && calls == old(calls)[c := Found(x.replica, x.jti, table[x.jti])]
      ensures answer == Some(false) ==> calls == old(calls)[c := Over]
    {
      if c >= |calls| || !calls[c].Missed? {
        return None;
      }
      var x := calls[c];
      assert RowOk(table, greatest, clock, x.jti);
      if x.jti in table && table[x.jti] > x.now {
        calls := calls[c := Found(x.replica, x.jti, table[x.jti])];
        return Some(true);
      }
      calls := calls[c := Over];
      answer := Some(false);
    }

    // What was found goes into the cache, over whatever is there by now.
    method Keep(c: nat)
      requires Valid()
      modifies this`hot, this`calls
      ensures Valid() && |hot| == |old(hot)|
      ensures calls == if c < |old(calls)| && old(calls)[c].Found? then old(calls)[c := Over] else old(calls)
      ensures hot == if c < |old(calls)| && old(calls)[c].Found? && old(calls)[c].replica < |old(hot)|
                then var x := old(calls)[c]; old(hot)[x.replica := old(hot)[x.replica][x.jti := x.expiry]] else old(hot)
    {
      if c >= |calls| || !calls[c].Found? {
        return;
      }
      var x := calls[c];
      if x.replica < |hot| {
        hot := hot[x.replica := hot[x.replica][x.jti := x.expiry]];
      }
      calls := calls[c := Over];
    }

    // ----- CleanupExpired -----

    method BeginSweep(r: nat)
      requires Valid()
      modifies this`calls
      ensures Valid() && calls == old(calls) + [Sweeping(r, clock)]
    {
      calls := calls + [Sweeping(r, clock)];
    }

    method DeleteExpired(c: nat)
      requires Valid()
      modifies this`table, this`calls
      ensures Valid()
      ensures c < |old(calls)| && old(calls)[c].Sweeping? ==>
        table == (map jti | jti in old(table) && old(table)[jti] > old(calls)[c].now :: old(table)[jti])
        && calls == old(calls)[c := Swept(old(calls)[c].replica, old(calls)[c].now)]
      ensures !(c < |old(calls)| && old(calls)[c].Sweeping?) ==> table == old(table) && calls == old(calls)
    {
      if c >= |calls| || !calls[c].Sweeping? {
        return;
      }
      var x := calls[c];
      assert forall k: string :: RowOk(table, greatest, clock, k);
      table := map jti | jti in table && table[jti] > x.now :: table[jti];
      calls := calls[c := Swept(x.replica, x.now)];
      assert forall k: string :: RowOk(old(table), greatest, clock, k) ==> RowOk(table, greatest, clock, k);
    }

    method SweepCache(c: nat)
      requires Valid()
      modifies this`hot, this`calls
      ensures Valid() && |hot| == |old(hot)|
      ensures c < |old(calls)| && old(calls)[c].Swept? && old(calls)[c].replica < |hot| ==>
        var r := old(calls)[c].replica;
        hot == old(hot)[r := hot[r]]
        && hot[r] == map jti | jti in old(hot)[r] && old(hot)[r][jti] > old(calls)[c].now :: old(hot)[r][jti]
    {
      if c >= |calls| || !calls[c].Swept? || calls[c].replica >= |hot| {
        return;
      }
      var r, now := calls[c].replica, calls[c].now;
      var cache := Later(hot[r], now);
      hot := hot[r := cache];
      calls := calls[c := Over];
    }

    // CleanupExpired's loop over the cache.
    method Later(cache: map<string, int>, now: int) returns (kept: map<string, int>)
      ensures kept == map jti | jti in cache && cache[jti] > now :: cache[jti]
    {
      kept := cache;
      var todo := cache.Keys;
      while todo != {}
        invariant todo <= cache.Keys
        invariant kept == map jti | jti in cache && (jti in todo || cache[jti] > now) :: cache[jti]
        decreases |todo|
      {
        var jti :| jti in todo;
        if kept[jti] <= now {
          kept := kept - {jti};
        }
        todo := todo - {jti};
      }
    }

    // ----- a replica restarts -----

    // The process is gone: its cache is empty and its calls never finish.
    method Restart(r: nat)
      requires Valid()
      modifies this`hot, this`calls
      ensures Valid() && |hot| == |old(hot)|
      ensures hot == if r < |old(hot)| then old(hot)[r := map[]] else old(hot)
      ensures |calls| == |old(calls)|
      ensures forall c :: 0 <= c < |calls| ==>
                calls[c] == if r < |hot| && OwnedBy(old(calls)[c], r) then Over else old(calls)[c]
    {
      if r >= |hot| {
        return;
      }
      hot := hot[r := map[]];
      var before := calls;
      calls := seq(|before|, i requires 0 <= i < |before| => if OwnedBy(before[i], r) then Over else before[i]);
    }

    // warmCache: the live rows are read, and put into the cache afterwards.
    method ReadLiveRows(r: nat)
      requires Valid()
      modifies this`calls
      ensures Valid()
      ensures calls == old(calls) + [Warming(r, map jti | jti in table && table[jti] > clock :: table[jti])]
    {
      var rows := map jti | jti in table && table[jti] > clock :: table[jti];
      forall jti | jti in rows ensures Committed(greatest, jti, rows[jti]) {
        assert RowOk(table, greatest, clock, jti);
      }
      calls := calls + [Warming(r, rows)];
    }

    method FillCache(c: nat)
      requires Valid()
      modifies this`hot, this`calls
      ensures Valid() && |hot| == |old(hot)|
      ensures c < |old(calls)| && old(calls)[c].Warming? && old(calls)[c].replica < |hot| ==>
        hot == old(hot)[old(calls)[c].replica := old(hot)[old(calls)[c].replica] + old(calls)[c].rows]
    {
      if c >= |calls| || !calls[c].Warming? || calls[c].replica >= |hot| {
        return;
      }
      var r, rows := calls[c].replica, calls[c].rows;
      var cache := Fill(hot[r], rows);
      hot := hot[r := cache];
      calls := calls[c := Over];
    }

    // warmCache's loop.
    method Fill(cache: map<string, int>, rows: map<string, int>) returns (filled: map<string, int>)
      ensures filled == cache + rows
    {
      filled := cache;
      var todo := rows.Keys;
      while todo != {}
        invariant todo <= rows.Keys
        invariant filled.Keys == cache.Keys + (rows.Keys - todo)
        invariant forall jti :: jti in filled ==>
                    filled[jti] == if jti in rows && jti !in todo then rows[jti] else cache[jti]
        decreases |todo|
      {
        var jti :| jti in todo;
        filled := filled[jti := rows[jti]];
        todo := todo - {jti};
      }
    }

    // ----- calls that nothing interrupts -----

    method Revoke(r: nat, jti: string, expiry: int)
      requires Valid() && r < |hot|
      modifies this
      ensures Valid() && clock == old(clock) && |hot| == |old(hot)|
      ensures greatest == if jti == "" then old(greatest) else Longest(old(greatest), jti, expiry)
    {
      var c := |calls|;
      Commit(r, jti, expiry);
      if jti != "" {
        Remember(c);
      }
    }

    // On any replica, whatever the caches hold: refused exactly when the greatest
    // expiry ever committed is after the present.
    method IsRevoked(r: nat, jti: string) returns (revoked: bool)
      requires Valid()
      modifies this
      ensures Valid() && clock == old(clock) && greatest == old(greatest)
      ensures revoked <==> jti != "" && RevokedAt(greatest, jti, clock)
    {
      var c := |calls|;
      Ask(r, jti);
      var cached := LookInCache(c);
      if cached.Some? {
        return cached.value;
      }
      var read := LookInTable(c);
      Keep(c);
      revoked := read.value;
    }

    // ----- any run -----

    // Whatever steps of whatever calls follow each other, the cluster stays valid,
    // so every answer along the way is right in the sense of the steps that give it.
    method Run(steps: seq<Step>)
      requires Valid()
      modifies this
      ensures Valid() && clock >= old(clock)
    {
      for i := 0 to |steps|
        invariant Valid() && clock >= old(clock)
      {
        match steps[i]
        case Ticks(seconds) => Tick(seconds);
        case Commits(r, jti, expiry) => Commit(r, jti, expiry);
        case Remembers(c) => Remember(c);
        case Asks(r, jti) => Ask(r, jti);
        case LooksInCache(c) => var _ := LookInCache(c);
        case LooksInTable(c) => var _ := LookInTable(c);
        case Keeps(c) => Keep(c);
        case BeginsSweep(r) => BeginSweep(r);
        case DeletesExpired(c) => DeleteExpired(c);
        case SweepsCache(c) => SweepCache(c);
        case Restarts(r) => Restart(r);
        case ReadsLiveRows(r) => ReadLiveRows(r);
        case FillsCache(c) => FillCache(c);
      }
    }
  }

  predicate OwnedBy(c: Call, r: nat) { !c.Over? && c.replica == r }

  datatype Step =
    | Ticks(seconds: nat)
    | Commits(replica: nat, jti: string, expiry: int)
    | Remembers(call: nat)
    | Asks(replica: nat, jti: string)
    | LooksInCache(call: nat)
    | LooksInTable(call: nat)
    | Keeps(call: nat)
    | BeginsSweep(replica: nat)
    | DeletesExpired(call: nat)
    | SweepsCache(call: nat)
    | Restarts(replica: nat)
    | ReadsLiveRows(replica: nat)
    | FillsCache(call: nat)
}
