// billing.go and lifecycle.go: the quota written into a traffic invoice's line and
// read back when it is settled, and the metering that the quota is held against.
module Traffic {
  import opened Options

  // ----- the line of a traffic invoice -----

  const PREFIX: string := "流量包 "
  const UNIT: string := " GB"
  const MAX_TRAFFIC: nat := 10240

  predicate IsDigit(c: char) { '0' <= c <= '9' }

  function Decimal(n: nat): (s: string)
    ensures |s| > 0 && forall i :: 0 <= i < |s| ==> IsDigit(s[i])
  {
    var last := ('0' as int + n % 10) as char;
    if n < 10 then [last] else Decimal(n / 10) + [last]
  }

  function Number(s: string): nat
    requires forall i :: 0 <= i < |s| ==> IsDigit(s[i])
  {
    if |s| == 0 then 0
    else
      assert IsDigit(s[|s| - 1]);
      Number(s[..|s| - 1]) * 10 + (s[|s| - 1] as int - '0' as int)
  }

  lemma {:induction false} DecimalRoundTrip(n: nat)
    ensures Number(Decimal(n)) == n
  {
    if n >= 10 {
      DecimalRoundTrip(n / 10);
      assert Decimal(n)[..|Decimal(n)| - 1] == Decimal(n / 10);
    }
  }

  // trafficDescription.
  function Describe(gb: nat, name: string): string {
    PREFIX + Decimal(gb) + UNIT + "（" + name + "）"
  }

  // The run of digits a scanner takes for a number.
  function DigitRun(s: string): (n: nat)
    ensures n <= |s| && forall i :: 0 <= i < n ==> IsDigit(s[i])
    ensures n < |s| ==> !IsDigit(s[n])
  {
    if |s| == 0 || !IsDigit(s[0]) then 0 else 1 + DigitRun(s[1..])
  }

  // parseTrafficDescription: a prefix, a number in range, the unit, and whatever
  // follows. A sign would make the number negative or is not written by anyone.
  function Parse(line: string): Option<nat> {
    if |line| < |PREFIX| || line[..|PREFIX|] != PREFIX then None
    else
      var rest := line[|PREFIX|..];
      var n := DigitRun(rest);
      if n == 0 || |rest| < n + |UNIT| || rest[n..n + |UNIT|] != UNIT then None
      else
        var gb := Number(rest[..n]);
        if gb < 1 || gb > MAX_TRAFFIC then None else Some(gb)
  }

  lemma {:induction false} RunOfDecimal(s: string, rest: string)
    requires forall i :: 0 <= i < |s| ==> IsDigit(s[i])
    requires |rest| > 0 && !IsDigit(rest[0])
    ensures DigitRun(s + rest) == |s|
  {
    if |s| > 0 {
      RunOfDecimal(s[1..], rest);
      assert (s + rest)[1..] == s[1..] + rest;
    } else {
      assert s + rest == rest;
    }
  }

  // The quota that is settled is the quota that was sold, whatever the service is
  // called; a size outside the range that can be sold is not read back at all.
  lemma QuotaRoundTrip(gb: nat, name: string)
    ensures Parse(Describe(gb, name)) == if 1 <= gb <= 10240 then Some(gb) else None
  {
    var line := Describe(gb, name);
    var tail := UNIT + "（" + name + "）";
    var rest := line[|PREFIX|..];
    assert line[..|PREFIX|] == PREFIX;
    assert rest == Decimal(gb) + tail;
    RunOfDecimal(Decimal(gb), tail);
    DecimalRoundTrip(gb);
    assert rest[..|Decimal(gb)|] == Decimal(gb);
    assert rest[|Decimal(gb)|..|Decimal(gb)| + |UNIT|] == UNIT;
  }

  // ----- metering -----

  // accumulateTraffic, for one direction: a counter that fell has been reset.
  function Accumulate(used: nat, previous: nat, current: nat): (nat, nat) {
    (used + (if current >= previous then current - previous else current), current)
  }

  // What happened between two samples: traffic, then perhaps a restart that sets
  // the counter to zero, then more traffic.
  datatype Interval = Interval(before: nat, restart: bool, after: nat)

  function Counter(previous: nat, x: Interval): nat {
    if x.restart then x.after else previous + x.before + x.after
  }

  function Actual(xs: seq<Interval>): nat {
    if |xs| == 0 then 0 else Actual(xs[..|xs| - 1]) + xs[|xs| - 1].before + xs[|xs| - 1].after
  }

  // The counter, and what has been recorded, after a run of samples.
  function Metered(xs: seq<Interval>): (nat, nat) {
    if |xs| == 0 then (0, 0)
    else
      var m := Metered(xs[..|xs| - 1]);
      Accumulate(m.0, m.1, Counter(m.1, xs[|xs| - 1]))
  }

  // A restart loses nothing when nothing was counted since the last sample and the
  // counter comes back lower than it was, or from zero.
  predicate Seen(previous: nat, x: Interval) {
    !x.restart || (x.before == 0 && (x.after < previous || previous == 0))
  }

  ghost predicate AllSeen(xs: seq<Interval>) {
    |xs| == 0 || (AllSeen(xs[..|xs| - 1]) && Seen(Metered(xs[..|xs| - 1]).1, xs[|xs| - 1]))
  }

  // Nobody is charged for traffic that did not happen; and the record is exact
  // just when every restart was seen for what it was.
  lemma {:induction false} NeverOvercounts(xs: seq<Interval>)
    ensures Metered(xs).0 <= Actual(xs)
    ensures Metered(xs).0 == Actual(xs) <==> AllSeen(xs)
  {
    if |xs| > 0 { NeverOvercounts(xs[..|xs| - 1]); }
  }
}
