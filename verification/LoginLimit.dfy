// loginlimit.go: failed logins counted per account and per source address, held
// in memory. What the tracker answers is compared with a specification that keeps
// every failure since the last success and never forgets. Times are nanoseconds;
// 0 is the zero time, before any failure.
module LoginLimit {
  import opened Options

  const SECOND: int := 1_000_000_000
  const HOUR: int := 3600 * SECOND
  const ACCOUNT_FAIL_LIMIT: nat := 5
  const ACCOUNT_LOCK_BASE: int := 900 * SECOND
  const SOURCE_FAIL_LIMIT: nat := 50
  const SOURCE_LOCK: int := 900 * SECOND
  const MAX_LOCK: int := 86400 * SECOND
  const RECORD_TTL: int := 86400 * SECOND
  const MAX_RECORDS: nat := 100_000

  function Max(a: int, b: int): int { if a >= b then a else b }
  function Min(a: int, b: int): int { if a <= b then a else b }

  // ----- the specification -----

  function Power(n: nat): nat { if n == 0 then 1 else 2 * Power(n - 1) }

  // The lock after f failures in a row: doubling from 15 minutes up to a day.
  function LockFor(f: nat): int
    requires f >= ACCOUNT_FAIL_LIMIT
  {
    Min(ACCOUNT_LOCK_BASE * Power(f - ACCOUNT_FAIL_LIMIT), MAX_LOCK)
  }

  // Failures in a row, each within an hour of the one before.
  function Streak(h: seq<int>): nat {
    if |h| == 0 then 0
    else if |h| == 1 || h[|h| - 1] - h[|h| - 2] > HOUR then 1
    else Streak(h[..|h| - 1]) + 1
  }

  function AccountLock(h: seq<int>): int {
    if |h| == 0 then 0
    else
      var before := AccountLock(h[..|h| - 1]);
      if Streak(h) >= ACCOUNT_FAIL_LIMIT then Max(before, h[|h| - 1] + LockFor(Streak(h))) else before
  }

  // The failures of the last hour.
  function Recent(h: seq<int>, now: int): seq<int> {
    if |h| == 0 then []
    else
      var rest := Recent(h[..|h| - 1], now);
      if now - h[|h| - 1] <= HOUR then rest + [h[|h| - 1]] else rest
  }

  function SourceLock(h: seq<int>): int {
    if |h| == 0 then 0
    else
      var before := SourceLock(h[..|h| - 1]);
      if |Recent(h, h[|h| - 1])| >= SOURCE_FAIL_LIMIT then Max(before, h[|h| - 1] + SOURCE_LOCK) else before
  }

  ghost predicate Sorted(h: seq<int>) {
    forall i, j :: 0 <= i < j < |h| ==> h[i] <= h[j]
  }

  // A failure more or a failure less never shortens a lock.
  lemma LocksNeverShorten(h: seq<int>, now: int)
    ensures AccountLock(h) <= AccountLock(h + [now])
    ensures SourceLock(h) <= SourceLock(h + [now])
  {
    assert (h + [now])[..|h|] == h;
  }

  // The specification in figures, in seconds. Four failures lock nothing; the fifth
  // in a row, no more than an hour after the fourth, locks for a quarter of an hour,
  // each further one twice as long, and from the twelfth on for a day.
  lemma LocksInSeconds(f: nat)
    ensures LockFor(5) == 900 * SECOND && LockFor(6) == 1800 * SECOND && LockFor(7) == 3600 * SECOND
    ensures LockFor(8) == 7200 * SECOND && LockFor(9) == 14400 * SECOND && LockFor(10) == 28800 * SECOND
    ensures LockFor(11) == 57600 * SECOND && (f >= 12 ==> LockFor(f) == 86400 * SECOND)
    ensures SECOND == 1_000_000_000
  {
    SmallPowers();
    if f >= 12 { PowerGrows(7, f - 5); }
    hide Power;
  }

  lemma FailureInARow(h: seq<int>, t: int)
    ensures var quiet := |h| == 0 || t - h[|h| - 1] > 3600 * SECOND;
            && Streak(h + [t]) == (if quiet then 1 else Streak(h) + 1)
            && (Streak(h + [t]) < 5 ==> AccountLock(h + [t]) == AccountLock(h))
            && (Streak(h + [t]) >= 5 ==>
                AccountLock(h + [t]) == Max(AccountLock(h), t + LockFor(Streak(h + [t]))))
  {
    assert (h + [t])[..|h|] == h;
  }

  // A source is locked for a quarter of an hour by the fiftieth failure within an
  // hour, and by no earlier one.
  lemma FailureOfSource(h: seq<int>, t: int)
    ensures var last := h + [t];
            SourceLock(last) == if HourCount(last, t) >= 50 then Max(SourceLock(h), t + 900 * SECOND) else SourceLock(h)
  {
    assert (h + [t])[..|h|] == h;
    RecentCounts(h + [t], t);
  }

  function HourCount(h: seq<int>, now: int): nat {
    |set i | 0 <= i < |h| && now - h[i] <= 3600 * SECOND|
  }

  lemma {:induction false} RecentCounts(h: seq<int>, now: int)
    ensures |Recent(h, now)| == HourCount(h, now)
  {
    if |h| > 0 {
      var n := |h| - 1;
      RecentCounts(h[..n], now);
      var all := set i | 0 <= i < |h| && now - h[i] <= 3600 * SECOND;
      var rest := set i | 0 <= i < n && now - h[..n][i] <= 3600 * SECOND;
      assert all == if now - h[n] <= 3600 * SECOND then rest + {n} else rest;
    }
  }

  // ----- the shift -----

  const WORD: int := 0x1_0000_0000_0000_0000
  const HALF: int := 0x8000_0000_0000_0000

  // A 64-bit integer keeps what fits, and the top half stands for the negatives.
  function Wrap(x: int): int {
    if x % WORD >= HALF then x % WORD - WORD else x % WORD
  }

  function Shift64(x: int, n: nat): int { Wrap(x * Power(n)) }

  predicate NoLock(lock: int) { lock <= 0 || lock > MAX_LOCK }

  function LockByShift(f: nat): int
    requires f >= ACCOUNT_FAIL_LIMIT
  {
    var lock := Shift64(ACCOUNT_LOCK_BASE, f - ACCOUNT_FAIL_LIMIT);
    if lock <= 0 || lock > MAX_LOCK then MAX_LOCK else lock
  }

  lemma {:induction false} PowerGrows(m: nat, n: nat)
    requires m <= n
    ensures 1 <= Power(m) <= Power(n)
    decreases n
  {
    if m < n { PowerGrows(m, n - 1); } else if m > 0 { PowerGrows(m - 1, n - 1); }
  }

  lemma {:induction false} PowerSum(m: nat, n: nat)
    ensures Power(m + n) == Power(m) * Power(n)
  {
    if n > 0 {
      PowerSum(m, n - 1);
      assert Power(m + n) == 2 * Power(m + n - 1) && Power(n) == 2 * Power(n - 1);
      Twice(Power(m), Power(n - 1));
    }
  }

  lemma Twice(a: int, b: int)
    ensures 2 * (a * b) == a * (2 * b)
  {
  }

  lemma SmallPowers()
    ensures Power(0) == 1 && Power(1) == 2 && Power(2) == 4 && Power(3) == 8 && Power(4) == 16 && Power(5) == 32
    ensures Power(6) == 64 && Power(7) == 128 && Power(8) == 256 && Power(9) == 512 && Power(10) == 1024
      && Power(11) == 2048
  {
    assert Power(3) == 8;
    assert Power(6) == 64;
    assert Power(9) == 512;
  }

  lemma LargePowers()
    ensures Power(23) == 0x80_0000 && Power(24) == 0x100_0000 && Power(36) == 0x10_0000_0000
  {
    SmallPowers();
    hide Power;
    PowerSum(8, 8);
    PowerSum(16, 7);
    PowerSum(16, 8);
    PowerSum(24, 8);
    PowerSum(32, 4);
  }

  // However far the shift runs over, what is left is never mistaken for a lock of
  // legal length: the wrapped value is out of range exactly when the true one is.
  lemma ShiftIsExact(f: nat)
    requires f >= ACCOUNT_FAIL_LIMIT
    ensures LockByShift(f) == LockFor(f)
  {
    var n := f - ACCOUNT_FAIL_LIMIT;
    hide Power, Wrap;
    if n <= 23 {
      ShiftFits(n);
    } else {
      LongLock(n);
      if n < 36 { ShiftNear(n); } else { ShiftFar(n); }
    }
  }

  lemma ShiftFits(n: nat)
    requires n <= 23
    ensures Shift64(ACCOUNT_LOCK_BASE, n) == ACCOUNT_LOCK_BASE * Power(n) > 0
  {
    LargePowers();
    PowerGrows(0, n);
    PowerGrows(n, 23);
    hide Power;
    Fits(Power(n));
  }

  lemma LongLock(n: nat)
    requires n >= 7
    ensures ACCOUNT_LOCK_BASE * Power(n) > MAX_LOCK
  {
    SmallPowers();
    PowerGrows(7, n);
  }

  lemma Fits(p: nat)
    requires p <= 0x80_0000
    ensures Wrap(ACCOUNT_LOCK_BASE * p) == ACCOUNT_LOCK_BASE * p
  {
  }

  // Multiples of 2^47 are either not positive or longer than a day.
  lemma ShiftFar(n: nat)
    requires n >= 36
    ensures NoLock(Shift64(ACCOUNT_LOCK_BASE, n))
  {
    LargePowers();
    PowerSum(n - 36, 36);
    hide Power;
    var k := 439_453_125 * Power(n - 36);
    assert ACCOUNT_LOCK_BASE * Power(n) == 0x8000_0000_0000 * k;
    MultipleStays(k, 0x8000_0000_0000, 0x2_0000);
    var r := k % 0x2_0000;
    assert ACCOUNT_LOCK_BASE * Power(n) % WORD == 0x8000_0000_0000 * r;
  }

  lemma MultipleStays(k: int, unit: int, span: int)
    requires unit > 0 && span > 0
    ensures unit * k % (unit * span) == unit * (k % span)
  {
    var q, r := k / span, k % span;
    var d, x, s := unit * span, unit * k, unit * r;
    Split(unit, span, k, q, r);
    Larger(unit, r, span);
    Larger(unit, 0, r + 1);
    Larger(unit, 0, span);
    Remainder(x, d, q, s);
  }

  lemma Split(unit: int, span: int, k: int, q: int, r: int)
    requires k == span * q + r
    ensures unit * k == unit * span * q + unit * r
  {
  }

  lemma Larger(unit: int, a: int, b: int)
    requires unit > 0 && a < b
    ensures unit * a + unit <= unit * b
  {
    assert unit * b - unit * a == unit * (b - a);
    AtLeast(unit, b - a);
  }

  lemma AtLeast(d: int, k: int)
    requires d > 0 && k > 0
    ensures d * k >= d
  {
  }

  lemma Remainder(x: int, d: int, q: int, r: int)
    requires d > 0 && x == d * q + r && 0 <= r < d
    ensures x % d == r
  {
    var p, s := x / d, x % d;
    Difference(d, p, q);
    if p > q { AtLeast(d, p - q); } else if p < q { AtLeast(d, q - p); }
  }

  lemma Difference(d: int, p: int, q: int)
    ensures d * p - d * q == d * (p - q) == -(d * (q - p))
  {
  }

  lemma ShiftNear(n: nat)
    requires 24 <= n < 36
    ensures NoLock(Shift64(ACCOUNT_LOCK_BASE, n))
  {
    LargePowers();
    SmallPowers();
    PowerSum(24, n - 24);
    hide Power;
    if n < 28 {
      if n == 24 { Constant(0x100_0000); } else if n == 25 { Constant(0x200_0000); }
      else if n == 26 { Constant(0x400_0000); } else { Constant(0x800_0000); }
    } else if n < 32 {
      if n == 28 { Constant(0x1000_0000); } else if n == 29 { Constant(0x2000_0000); }
      else if n == 30 { Constant(0x4000_0000); } else { Constant(0x8000_0000); }
    } else {
      if n == 32 { Constant(0x1_0000_0000); } else if n == 33 { Constant(0x2_0000_0000); }
      else if n == 34 { Constant(0x4_0000_0000); } else { Constant(0x8_0000_0000); }
    }
  }

  // Between 2^24 and 2^36 the product runs over, and each remainder is checked.
  lemma Constant(p: nat)
    requires p in {0x100_0000, 0x200_0000, 0x400_0000, 0x800_0000, 0x1000_0000, 0x2000_0000, 0x4000_0000, 0x8000_0000,
                   0x1_0000_0000, 0x2_0000_0000, 0x4_0000_0000, 0x8_0000_0000}
    ensures NoLock(Wrap(ACCOUNT_LOCK_BASE * p))
  {
  }

  // ----- the window -----

  // The last SOURCE_FAIL_LIMIT entries.
  function Last(h: seq<int>): seq<int> {
    if |h| > SOURCE_FAIL_LIMIT then h[|h| - SOURCE_FAIL_LIMIT..] else h
  }

  // How many entries lie further back than an hour; in a sorted history they are
  // the first ones.
  function Stale(h: seq<int>, now: int): nat {
    if |h| == 0 then 0
    else Stale(h[..|h| - 1], now) + (if now - h[|h| - 1] <= HOUR then 0 else 1)
  }

  lemma {:induction false} RecentIsSuffix(h: seq<int>, now: int)
    requires Sorted(h)
    ensures Stale(h, now) <= |h| && Recent(h, now) == h[Stale(h, now)..]
    ensures Stale(h, now) == |h| || now - h[Stale(h, now)] <= HOUR
    ensures forall i :: 0 <= i < Stale(h, now) ==> now - h[i] > HOUR
  {
    if |h| > 0 {
      var n := |h| - 1;
      var rest := h[..n];
      RecentIsSuffix(rest, now);
      var s := Stale(rest, now);
      assert s < n ==> rest[s] == h[s] && h[s] <= h[n];
      assert forall i :: 0 <= i < s ==> rest[i] == h[i];
      if now - h[n] <= HOUR {
        assert rest[s..] + [h[n]] == h[s..];
      } else {
        assert s == n && h[n + 1..] == [] == rest[s..];
      }
    }
  }

  lemma StaleIs(h: seq<int>, now: int, s: nat)
    requires Sorted(h) && s <= |h|
    requires forall i :: 0 <= i < s ==> now - h[i] > HOUR
    requires s < |h| ==> now - h[s] <= HOUR
    ensures Stale(h, now) == s
  {
    RecentIsSuffix(h, now);
  }

  lemma SuffixStale(h: seq<int>, k: nat, now: int)
    requires Sorted(h) && k <= |h|
    ensures Stale(h[k..], now) == if Stale(h, now) >= k then Stale(h, now) - k else 0
  {
    RecentIsSuffix(h, now);
    var s := Stale(h, now);
    StaleIs(h[k..], now, if s >= k then s - k else 0);
  }

  lemma StaleGrows(h: seq<int>, before: int, now: int)
    requires Sorted(h) && before <= now
    ensures Stale(h, before) <= Stale(h, now)
  {
    RecentIsSuffix(h, before);
    RecentIsSuffix(h, now);
  }

  // Where the kept window starts.
  function KeptFrom(h: seq<int>, now: int): (k: int)
    requires Stale(h, now) <= |h|
    ensures 0 <= k <= |h|
  {
    Max(Stale(h, now), |h| - SOURCE_FAIL_LIMIT)
  }

  lemma KeptIs(h: seq<int>, now: int)
    requires Sorted(h)
    ensures Stale(h, now) <= |h| && Last(Recent(h, now)) == h[KeptFrom(h, now)..]
  {
    RecentIsSuffix(h, now);
    hide Stale, Recent;
    var s := Stale(h, now);
    if |h| - s > SOURCE_FAIL_LIMIT { assert h[s..][|h| - s - SOURCE_FAIL_LIMIT..] == h[|h| - SOURCE_FAIL_LIMIT..]; }
  }

  // Filtering the kept window, adding the new failure and cutting to the limit
  // gives what the same steps would give on the whole history.
  lemma WindowStep(h: seq<int>, before: int, now: int)
    requires Sorted(h + [now]) && before <= now
    ensures Last(Recent(Last(Recent(h, before)), now) + [now]) == Last(Recent(h + [now], now))
    ensures |Last(Recent(h + [now], now))| >= SOURCE_FAIL_LIMIT <==> |Recent(h + [now], now)| >= SOURCE_FAIL_LIMIT
  {
    assert (h + [now])[..|h|] == h;
    assert Sorted(h) by { assert forall i :: 0 <= i < |h| ==> h[i] == (h + [now])[i]; }
    KeptIs(h, before);
    RecentIsSuffix(h, now);
    StaleGrows(h, before, now);
    var k, t := KeptFrom(h, before), Stale(h, now);
    SuffixStale(h, k, now);
    RecentIsSuffix(h[k..], now);
    hide Sorted, Stale;
    assert Recent(h + [now], now) == h[t..] + [now];
    hide Recent;
    Cut(h, k, t, now);
  }

  lemma Cut(h: seq<int>, k: nat, t: nat, now: int)
    requires k <= |h| && t <= |h| && (k <= t || k == |h| - SOURCE_FAIL_LIMIT)
    ensures var m := if t >= k then t - k else 0;
            m <= |h[k..]| && Last(h[k..][m..] + [now]) == Last(h[t..] + [now])
  {
    if t >= k {
      assert h[k..][t - k..] == h[t..];
    } else {
      assert h[k..][0..] == h[k..];
      var kept, all := h[k..] + [now], h[t..] + [now];
      assert |kept| == SOURCE_FAIL_LIMIT + 1 && |all| - SOURCE_FAIL_LIMIT == k - t + 1;
      assert kept[1..] == h[k + 1..] + [now];
      assert all[k - t + 1..] == h[k + 1..] + [now];
    }
  }

  lemma AllStale(h: seq<int>, now: int)
    requires Sorted(h + [now]) && |h| > 0 && now - h[|h| - 1] > HOUR
    ensures Recent(h + [now], now) == [now] && Sorted(h)
  {
    assert (h + [now])[..|h|] == h;
    assert Sorted(h) by { assert forall i :: 0 <= i < |h| ==> h[i] == (h + [now])[i]; }
    StaleIs(h, now, |h|);
    RecentIsSuffix(h, now);
  }

  // ----- the tracker -----

  function Lower(ch: char): char {
    if 'A' <= ch <= 'Z' then (ch as int + 32) as char else ch
  }

  predicate Blank(ch: char) { ch == ' ' || ch == '\t' || ch == '\n' || ch == '\r' }

  function Trim(s: string): string {
    if |s| == 0 then ""
    else if Blank(s[0]) then Trim(s[1..])
    else if Blank(s[|s| - 1]) then Trim(s[..|s| - 1])
    else s
  }

  // Case and surrounding blanks do not make a different account; the entrance does.
  function AccountKey(scope: string, identifier: string): string {
    var id := Trim(identifier);
    scope + "|" + seq(|id|, i requires 0 <= i < |id| => Lower(id[i]))
  }

  // Entrances are named without the separator, so two keys are the same just when
  // entrance and account are, the account but for its case and the blanks around it.
  lemma AccountsApart(scope: string, identifier: string, other: string, name: string)
    requires '|' !in scope && '|' !in other
    ensures AccountKey(scope, identifier) == AccountKey(other, name)
       <==> scope == other && |Trim(identifier)| == |Trim(name)|
            && forall i :: 0 <= i < |Trim(name)| ==> Lower(Trim(identifier)[i]) == Lower(Trim(name)[i])
  {
    var a, b := AccountKey(scope, identifier), AccountKey(other, name);
    assert a[|scope|] == '|' == b[|other|];
    assert a[..|scope|] == scope && b[..|other|] == other;
    assert |scope| < |other| ==> b[|scope|] == other[|scope|] && other[|scope|] in other;
    assert |other| < |scope| ==> a[|other|] == scope[|other|] && scope[|other|] in scope;
    if a == b {
      assert a[|scope| + 1..] == b[|other| + 1..];
      forall i | 0 <= i < |Trim(name)| ensures Lower(Trim(identifier)[i]) == Lower(Trim(name)[i]) {
        assert a[|scope| + 1..][i] == b[|other| + 1..][i];
      }
    }
  }

  datatype AccountRecord = AccountRecord(failures: int, lockedUntil: int, lastFailure: int)
  datatype SourceRecord = SourceRecord(failures: seq<int>, lockedUntil: int, lastFailure: int)

  function Get<T>(m: map<string, T>, k: string): Option<T> { if k in m then Some(m[k]) else None }
  function HistoryOf(m: map<string, seq<int>>, k: string): seq<int> { if k in m then m[k] else [] }

  // Two locks that are the same, or both over.
  predicate SameLock(a: int, b: int, clock: int) { a == b || (a <= clock && b <= clock) }

  ghost predicate PastOnly(h: seq<int>, clock: int) {
    Sorted(h) && forall i :: 0 <= i < |h| ==> 0 < h[i] <= clock
  }

  // A record says what the account's history says; where there is none, either
  // nothing happened or nothing of it matters any more.
  ghost predicate AccountTracked(r: Option<AccountRecord>, h: seq<int>, clock: int) {
    && PastOnly(h, clock)
    && match r
       case None => |h| == 0 || (clock - h[|h| - 1] > HOUR && AccountLock(h) <= clock)
       case Some(x) => |h| > 0 && x.failures == Streak(h) && x.lastFailure == h[|h| - 1]
                       && SameLock(x.lockedUntil, AccountLock(h), clock)
  }

  ghost predicate SourceTracked(r: Option<SourceRecord>, h: seq<int>, clock: int) {
    && PastOnly(h, clock)
    && match r
       case None => |h| == 0 || (clock - h[|h| - 1] > HOUR && SourceLock(h) <= clock)
       case Some(x) => |h| > 0 && x.failures == Last(Recent(h, h[|h| - 1])) && x.lastFailure == h[|h| - 1]
                       && SameLock(x.lockedUntil, SourceLock(h), clock)
  }

  predicate KeepAccount(r: AccountRecord, now: int) { now - r.lastFailure <= RECORD_TTL || now <= r.lockedUntil }
  predicate KeepSource(r: SourceRecord, now: int) { now - r.lastFailure <= HOUR || now <= r.lockedUntil }

  function SweptAccounts(m: map<string, AccountRecord>, now: int): map<string, AccountRecord> {
    map k | k in m && KeepAccount(m[k], now) :: m[k]
  }

  function SweptSources(m: map<string, SourceRecord>, now: int): map<string, SourceRecord> {
    map k | k in m && KeepSource(m[k], now) :: m[k]
  }

  lemma PrefixSorted(h: seq<int>, clock: int, now: int)
    requires PastOnly(h, clock) && clock <= now && 0 < now
    ensures PastOnly(h + [now], now) && PastOnly(h, now)
  {
  }

  // One failure more, on the record and on the history.
  function FailAccount(r: AccountRecord, now: int): AccountRecord
    requires r.failures >= 0
  {
    var failures := (if now - r.lastFailure > HOUR then 0 else r.failures) + 1;
    var until := if failures >= ACCOUNT_FAIL_LIMIT then Max(r.lockedUntil, now + LockByShift(failures))
      else r.lockedUntil;
    AccountRecord(failures, until, now)
  }

  lemma FailTracksAccount(r: Option<AccountRecord>, h: seq<int>, clock: int, now: int)
    requires AccountTracked(r, h, clock) && clock <= now && 0 < now
    ensures var x := if r.Some? then r.value else AccountRecord(0, 0, 0);
            x.failures >= 0 && AccountTracked(Some(FailAccount(x, now)), h + [now], now)
  {
    var x := if r.Some? then r.value else AccountRecord(0, 0, 0);
    var g := h + [now];
    PrefixSorted(h, clock, now);
    assert g[..|h|] == h && g[|g| - 1] == now && (|h| > 0 ==> g[|g| - 2] == h[|h| - 1]);
    var quiet := |h| == 0 || now - h[|h| - 1] > HOUR;
    assert Streak(g) == if quiet then 1 else Streak(h) + 1;
    if Streak(g) >= ACCOUNT_FAIL_LIMIT { ShiftIsExact(Streak(g)); LockIsPositive(Streak(g)); }
    assert AccountLock(g) == if Streak(g) >= ACCOUNT_FAIL_LIMIT then Max(AccountLock(h), now + LockFor(Streak(g)))
      else AccountLock(h);
    var y := FailAccount(x, now);
    hide LockByShift, LockFor, PastOnly, Streak, AccountLock;
    assert SameLock(x.lockedUntil, AccountLock(h), now) || r.None?;
    assert y.failures == Streak(g);
  }

  lemma LockIsPositive(f: nat)
    requires f >= ACCOUNT_FAIL_LIMIT
    ensures LockFor(f) > 0
  {
    PowerGrows(0, f - ACCOUNT_FAIL_LIMIT);
  }

  lemma ClockAdvances(r: Option<AccountRecord>, s: Option<SourceRecord>, h: seq<int>, g: seq<int>, clock: int, now: int)
    requires AccountTracked(r, h, clock) && SourceTracked(s, g, clock) && clock <= now
    ensures AccountTracked(r, h, now) && SourceTracked(s, g, now)
  {
  }

  lemma WindowFollows(r: Option<SourceRecord>, h: seq<int>, clock: int, now: int, window: seq<int>)
    requires SourceTracked(r, h, clock) && Sorted(h + [now]) && clock <= now
    requires window == Last(Recent(if r.Some? then r.value.failures else [], now) + [now])
    ensures window == Last(Recent(h + [now], now))
    ensures |window| >= SOURCE_FAIL_LIMIT <==> |Recent(h + [now], now)| >= SOURCE_FAIL_LIMIT
  {
    if |h| == 0 {
      assert (h + [now])[..0] == [] && Recent(h + [now], now) == [now];
    } else if r.Some? {
      WindowStep(h, h[|h| - 1], now);
    } else {
      AllStale(h, now);
    }
  }

  lemma FailTracksSource(r: Option<SourceRecord>, h: seq<int>, clock: int, now: int, window: seq<int>)
    requires SourceTracked(r, h, clock) && clock <= now && 0 < now
    requires window == Last(Recent(if r.Some? then r.value.failures else [], now) + [now])
    ensures var before := if r.Some? then r.value.lockedUntil else 0;
            var until := if |window| >= SOURCE_FAIL_LIMIT then Max(before, now + SOURCE_LOCK) else before;
            SourceTracked(Some(SourceRecord(window, until, now)), h + [now], now)
  {
    PrefixSorted(h, clock, now);
    WindowFollows(r, h, clock, now, window);
    assert (h + [now])[..|h|] == h;
    hide PastOnly, Recent, Last;
  }

  class Tracker {
    var accounts: map<string, AccountRecord>
    var sources: map<string, SourceRecord>
    // What the specification remembers: each account's failures since its last
    // success, each source's failures ever, and the latest time seen.
    ghost var attempts: map<string, seq<int>>
    ghost var knocks: map<string, seq<int>>
    ghost var clock: int

    ghost predicate Valid()
      reads this
    {
      && clock >= 0
      && (forall k: string :: AccountTracked(Get(accounts, k), HistoryOf(attempts, k), clock))
      && (forall k: string :: SourceTracked(Get(sources, k), HistoryOf(knocks, k), clock))
    }

    constructor ()
      ensures Valid() && accounts == map[] && sources == map[] && attempts == map[] && knocks == map[] && clock == 0
    {
      accounts, sources, attempts, knocks, clock := map[], map[], map[], map[], 0;
    }

    // Check answers as the full histories would.
    method Check(scope: string, identifier: string, ip: string, now: int) returns (ok: bool, wait: int)
      requires Valid() && clock <= now
      modifies this`clock
      ensures Valid() && clock == now
      ensures var locked := Max(AccountLock(HistoryOf(attempts, AccountKey(scope, identifier))),
                                SourceLock(HistoryOf(knocks, ip)));
              wait == Max(0, locked - now) && (ok <==> locked <= now)
    {
      assert AccountLock([]) == 0 && SourceLock([]) == 0;
      hide AccountLock, SourceLock, Streak, Recent, AccountKey;
      Advance(now);
      wait := 0;
      var key := AccountKey(scope, identifier);
      assert AccountTracked(Get(accounts, key), HistoryOf(attempts, key), now);
      assert SourceTracked(Get(sources, ip), HistoryOf(knocks, ip), now);
      if key in accounts {
        var d := accounts[key].lockedUntil - now;
        if d > wait {
          wait := d;
        }
      }
      if ip in sources {
        var d := sources[ip].lockedUntil - now;
        if d > wait {
          wait := d;
        }
      }
      ok := wait <= 0;
    }

    // RecordFailure. The source always counts; the account does unless it is new
    // and the table is full even of records that still matter.
    method RecordFailure(scope: string, identifier: string, ip: string, now: int) returns (counted: bool)
      requires Valid() && clock <= now && 0 < now
      modifies this
      ensures Valid() && clock == now
      ensures counted <==> AccountKey(scope, identifier) in old(accounts) || |old(accounts)| < MAX_RECORDS
                           || |SweptAccounts(old(accounts), now)| < MAX_RECORDS
      ensures var key := AccountKey(scope, identifier);
              attempts == if counted then old(attempts)[key := HistoryOf(old(attempts), key) + [now]] else old(attempts)
      ensures knocks == old(knocks)[ip := HistoryOf(old(knocks), ip) + [now]]
    {
      counted := RecordAccountFailure(AccountKey(scope, identifier), now);
      RecordSourceFailure(ip, now);
    }

    method RecordAccountFailure(key: string, now: int) returns (counted: bool)
      requires Valid() && clock <= now && 0 < now
      modifies this
      ensures Valid() && clock == now && knocks == old(knocks)
      ensures counted <==>
        key in old(accounts) || |old(accounts)| < MAX_RECORDS || |SweptAccounts(old(accounts), now)| < MAX_RECORDS
      ensures attempts == if counted then old(attempts)[key := HistoryOf(old(attempts), key) + [now]] else old(attempts)
    {
      hide AccountTracked, SourceTracked;
      Advance(now);
      if key !in accounts && |accounts| >= MAX_RECORDS {
        Sweep(now);
        if |accounts| >= MAX_RECORDS {
          return false;
        }
      }
      var r := if key in accounts then accounts[key] else AccountRecord(0, 0, 0);
      assert AccountTracked(Get(accounts, key), HistoryOf(attempts, key), now);
      FailTracksAccount(Get(accounts, key), HistoryOf(attempts, key), now, now);
      // The first failure after a quiet hour starts a new count.
      if now - r.lastFailure > HOUR {
        r := r.(failures := 0);
      }
      r := r.(failures := r.failures + 1, lastFailure := now);
      if r.failures >= ACCOUNT_FAIL_LIMIT {
        var lock := Shift64(ACCOUNT_LOCK_BASE, r.failures - ACCOUNT_FAIL_LIMIT);
        if lock <= 0 || lock > MAX_LOCK {
          lock := MAX_LOCK;
        }
        if now + lock > r.lockedUntil {
          r := r.(lockedUntil := now + lock);
        }
      }
      ghost var before, past := accounts, attempts;
      accounts := accounts[key := r];
      attempts := attempts[key := HistoryOf(attempts, key) + [now]];
      forall k: string ensures AccountTracked(Get(accounts, k), HistoryOf(attempts, k), clock) {
        assert AccountTracked(Get(before, k), HistoryOf(past, k), clock);
      }
      counted := true;
    }

    // recordSourceFailure: the window is filtered, extended and cut to the limit.
    method RecordSourceFailure(ip: string, now: int)
      requires Valid() && clock <= now && 0 < now
      modifies this
      ensures Valid() && clock == now && attempts == old(attempts) && accounts == old(accounts)
      ensures knocks == old(knocks)[ip := HistoryOf(old(knocks), ip) + [now]]
    {
      hide AccountTracked, SourceTracked;
      Advance(now);
      var s := if ip in sources then sources[ip] else SourceRecord([], 0, 0);
      var window: seq<int> := [];
      var i := 0;
      while i < |s.failures|
        invariant 0 <= i <= |s.failures| && window == Recent(s.failures[..i], now)
      {
        assert s.failures[..i + 1][..i] == s.failures[..i];
        if now - s.failures[i] <= HOUR {
          window := window + [s.failures[i]];
        }
        i := i + 1;
      }
      assert s.failures[..i] == s.failures;
      window := window + [now];
      if |window| > SOURCE_FAIL_LIMIT {
        window := window[|window| - SOURCE_FAIL_LIMIT..];
      }
      assert SourceTracked(Get(sources, ip), HistoryOf(knocks, ip), now);
      FailTracksSource(Get(sources, ip), HistoryOf(knocks, ip), now, now, window);
      var until := s.lockedUntil;
      if |window| >= SOURCE_FAIL_LIMIT {
        if now + SOURCE_LOCK > until {
          until := now + SOURCE_LOCK;
        }
      }
      ghost var before, past := sources, knocks;
      sources := sources[ip := SourceRecord(window, until, now)];
      knocks := knocks[ip := HistoryOf(knocks, ip) + [now]];
      forall k: string ensures SourceTracked(Get(sources, k), HistoryOf(knocks, k), clock) {
        assert SourceTracked(Get(before, k), HistoryOf(past, k), clock);
      }
    }

    // RecordSuccess forgets the account's failures and nothing of the source's.
    method RecordSuccess(scope: string, identifier: string)
      requires Valid()
      modifies this`accounts, this`attempts
      ensures Valid()
      ensures attempts == old(attempts) - {AccountKey(scope, identifier)}
    {
      hide AccountKey, SourceTracked;
      var key := AccountKey(scope, identifier);
      ghost var before, past := accounts, attempts;
      accounts := accounts - {key};
      attempts := attempts - {key};
      forall k: string ensures AccountTracked(Get(accounts, k), HistoryOf(attempts, k), clock) {
        assert AccountTracked(Get(before, k), HistoryOf(past, k), clock);
      }
    }

    // sweepLocked. What is swept could no longer change an answer: the
    // specification's histories stay as they are.
    method Sweep(now: int)
      requires Valid() && clock <= now
      modifies this`accounts, this`sources, this`clock
      ensures Valid() && clock == now
      ensures accounts == SweptAccounts(old(accounts), now) && sources == SweptSources(old(sources), now)
    {
      hide AccountTracked, SourceTracked;
      Advance(now);
      accounts := KeptAccounts(accounts, now);
      sources := KeptSources(sources, now);
      forall k: string
        ensures AccountTracked(Get(accounts, k), HistoryOf(attempts, k), now)
        ensures SourceTracked(Get(sources, k), HistoryOf(knocks, k), now)
      {
        assert AccountTracked(Get(old(accounts), k), HistoryOf(attempts, k), now);
        assert SourceTracked(Get(old(sources), k), HistoryOf(knocks, k), now);
        SweepingIsSafe(Get(old(accounts), k), Get(old(sources), k), HistoryOf(attempts, k), HistoryOf(knocks, k), now);
      }
    }

    // Time passes.
    ghost method Advance(now: int)
      requires Valid() && clock <= now
      modifies this`clock
      ensures Valid() && clock == now
    {
      hide AccountTracked, SourceTracked;
      forall k: string
        ensures AccountTracked(Get(accounts, k), HistoryOf(attempts, k), now)
        ensures SourceTracked(Get(sources, k), HistoryOf(knocks, k), now)
      {
        ClockAdvances(Get(accounts, k), Get(sources, k), HistoryOf(attempts, k), HistoryOf(knocks, k), clock, now);
      }
      clock := now;
    }
  }

  method KeptAccounts(m: map<string, AccountRecord>, now: int) returns (kept: map<string, AccountRecord>)
    ensures kept == SweptAccounts(m, now)
  {
    kept := m;
    var todo := m.Keys;
    while todo != {}
      invariant todo <= m.Keys
      invariant kept == map k | k in m && (k in todo || KeepAccount(m[k], now)) :: m[k]
      decreases |todo|
    {
      var k :| k in todo;
      if now - m[k].lastFailure > RECORD_TTL && now > m[k].lockedUntil {
        kept := kept - {k};
      }
      todo := todo - {k};
    }
  }

  method KeptSources(m: map<string, SourceRecord>, now: int) returns (kept: map<string, SourceRecord>)
    ensures kept == SweptSources(m, now)
  {
    kept := m;
    var todo := m.Keys;
    while todo != {}
      invariant todo <= m.Keys
      invariant kept == map k | k in m && (k in todo || KeepSource(m[k], now)) :: m[k]
      decreases |todo|
    {
      var k :| k in todo;
      if now - m[k].lastFailure > HOUR && now > m[k].lockedUntil {
        kept := kept - {k};
      }
      todo := todo - {k};
    }
  }

  // A record that may be swept says nothing any more.
  lemma SweepingIsSafe(r: Option<AccountRecord>, s: Option<SourceRecord>, h: seq<int>, g: seq<int>, now: int)
    requires AccountTracked(r, h, now) && SourceTracked(s, g, now)
    ensures r.Some? && !KeepAccount(r.value, now) ==> AccountTracked(None, h, now)
    ensures s.Some? && !KeepSource(s.value, now) ==> SourceTracked(None, g, now)
  {
    hide AccountLock, SourceLock, PastOnly, Streak, Recent;
  }
}
