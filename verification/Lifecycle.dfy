// lifecycle.go: the patrol that suspends expired services and, after a grace
// period, has their hosts purged, while customers renew, change and resume the
// same service. Every conditional update is one step, a remote call is an outcome,
// and between any two steps of the patrol anything else may happen.
module Lifecycle {
  import opened Options
  import opened Calendar
  import opened Tables
  import opened Targets

  const GRACE: int := 72 * 3600

  // The columns of a service that the patrol reads and writes.
  datatype Row = Row(
    status: ServiceStatus, reason: Reason, suspendedAt: Option<Instant>, expires: Option<Instant>, changing: bool)

  // How far the patrol's work on the service has come. Doomed to Confirmed are the
  // way to termination.
  datatype Stage =
    | Idle
    | Listed(expires: Instant)
    | Claimed(expires: Instant)
    | Stopped(expires: Instant)
    | Doomed(since: Instant, expires: Instant)
    | Sentenced(since: Instant, expires: Instant)
    | Executed(since: Instant, expires: Instant)
    | Confirmed(since: Instant, expires: Instant)

  // A renewal between its read and its conditional update.
  datatype Renewal = Renewal(status: ServiceStatus, reason: Reason, expires: Option<Instant>)

  // A TERMINATE request that left the process: the row at that moment, and the time.
  datatype Sent = Sent(row: Row, at: Instant)

  // Failed means that nothing was done; Lost that it was, and the reply is an error.
  datatype Outcome = Done | Failed | Lost

  predicate HoldsSentence(s: Stage) { s.Sentenced? || s.Executed? || s.Confirmed? }

  // While the termination claim is held the row is exactly what was claimed.
  predicate Held(s: Stage, row: Row)
    requires HoldsSentence(s)
  {
    row == Row(ServiceSuspended, Terminating, Some(s.since), Some(s.expires), false)
  }

  predicate StageOk(s: Stage, row: Row, now: Instant) {
    match s
    case Idle => true
    case Listed(e) => e < now
    case Claimed(e) => e < now
    case Stopped(e) => e < now
    case Doomed(since, e) => since < now - GRACE && e < now
    case _ => s.since < now - GRACE && s.expires < now && Held(s, row)
  }

  // Where a renewal at this time leaves the expiry: at least 28 days a month past
  // the later of now and the old expiry.
  function Next(expires: Option<Instant>, at: Instant, cycle: Cycle): (next: Instant)
    ensures next >= at + 28 * RenewalMonths(cycle) * 86400
    ensures expires.Some? ==> next >= expires.value + 28 * RenewalMonths(cycle) * 86400
  {
    var base := if expires.Some? && expires.value > at then expires.value else at;
    AddMonthsGrows(base, RenewalMonths(cycle));
    AddMonths(base, RenewalMonths(cycle))
  }

  // A purge may be asked for only on these terms.
  predicate Justified(x: Sent) {
    && x.row.status == ServiceSuspended && !x.row.changing
    && x.row.suspendedAt.Some? && x.at - x.row.suspendedAt.value > GRACE
    && x.row.expires.Some? && x.row.expires.value < x.at
  }

  lemma HeldIsJustified(s: Stage, row: Row, now: Instant, clock: Instant)
    requires s.Sentenced? && StageOk(s, row, now) && now <= clock
    ensures Justified(Sent(row, clock))
  {
  }

  class Patrolled {
    const hosted: bool
    const cycle: Cycle
    var row: Row
    var clock: Instant
    var now: Instant
    var stage: Stage
    var renewals: seq<Renewal>
    var resumes: seq<Reason>
    // Renewals that moved the expiry, and debits that stand: a renewal under way
    // has debited already.
    var advanced: nat
    var debited: nat
    // What the world outside knows: purges asked for, whether the host is gone,
    // and whether the outcome of a purge that took effect was lost.
    ghost var sent: seq<Sent>
    ghost var purged: bool
    ghost var lost: bool
    // A renewal has committed since the patrol listed the service.
    ghost var renewed: bool

    ghost predicate Valid()
      reads this
    {
      && cycle != OneTime && now <= clock
      && StageOk(stage, row, now)
      && (forall i :: 0 <= i < |renewals| ==> RenewableIn(renewals[i].status, renewals[i].reason))
      && (forall i :: 0 <= i < |resumes| ==> resumes[i] == TrafficExceeded || resumes[i] == Expired)
      && (stage != Idle ==>
          row.expires.Some? && (if renewed then row.expires.value > stage.expires && !HoldsSentence(stage)
                                                  else row.expires.value == stage.expires))
      && (forall i :: 0 <= i < |sent| ==> Justified(sent[i]))
      && (purged ==> row.status == ServiceTerminated || stage.Executed? || stage.Confirmed? || lost)
      && (purged ==> hosted)
      && debited == advanced + |renewals|
    }

    constructor (row: Row, hosted: bool, cycle: Cycle)
      requires cycle != OneTime
      ensures Valid() && this.row == row && this.hosted == hosted && this.cycle == cycle && clock == 0 && stage == Idle
      ensures renewals == [] && advanced == 0 == debited && sent == [] && !purged && !lost
    {
      this.row, this.hosted, this.cycle := row, hosted, cycle;
      clock, now, stage, renewals, resumes, advanced, debited := 0, 0, Idle, [], [], 0, 0;
      sent, purged, lost, renewed := [], false, false, false;
    }

    method Tick(seconds: nat)
      requires Valid()
      modifies this`clock
      ensures Valid() && clock == old(clock) + seconds
    {
      clock := clock + seconds;
    }

    // ----- the patrol -----

    // A round begins: markers that a dead round left behind are taken back.
    method BeginRound()
      requires Valid()
      modifies this`row, this`now
      ensures Valid()
      ensures now == if stage == Idle then clock else old(now)
      ensures stage == Idle ==> row.reason != Enforcing && row.reason != Terminating
      ensures row == old(row).(reason := row.reason)
      ensures old(row).reason != Enforcing && old(row).reason != Terminating ==> row == old(row)
      ensures stage == Idle && old(row).reason == Enforcing ==> row.reason == NoReason
      ensures stage == Idle && old(row).reason == Terminating ==> row.reason == Expired
    {
      if stage != Idle {
        return;
      }
      now := clock;
      if row.reason == Enforcing {
        row := row.(reason := NoReason);
      }
      if row.reason == Terminating {
        row := row.(reason := Expired);
      }
    }

    method ListForSuspension()
      requires Valid()
      modifies this`stage, this`renewed
      ensures Valid()
      ensures stage.Listed? && old(stage) == Idle ==>
        !renewed && row.status == ServiceActive && row.expires == Some(stage.expires)
      ensures old(stage) == Idle ==>
        (stage.Listed? <==> row.status == ServiceActive && row.expires.Some? && row.expires.value < now)
    {
      if stage != Idle || row.status != ServiceActive || row.expires.None? || row.expires.value >= now {
        return;
      }
      stage, renewed := Listed(row.expires.value), false;
    }

    // claimExpiredSnapshot: only the listed expiry can be claimed.
    method ClaimExpired()
      requires Valid()
      modifies this`row, this`stage
      ensures Valid()
      ensures stage.Claimed? && old(stage).Listed? ==> !renewed && row == old(row).(reason := Enforcing)
      ensures !(stage.Claimed? && old(stage).Listed?) ==> row == old(row)
      ensures old(stage).Listed? ==>
        (stage.Claimed? <==> old(row).status == ServiceActive && old(row).reason == NoReason
                             && old(row).expires == Some(old(stage).expires))
    {
      if !stage.Listed? {
        return;
      }
      if row.status == ServiceActive && row.expires == Some(stage.expires) && row.reason == NoReason {
        row := row.(reason := Enforcing);
        stage := Claimed(stage.expires);
      } else {
        stage := Idle;
      }
    }

    // The SUSPEND call; a failure releases the claim.
    method SendSuspend(success: bool)
      requires Valid()
      modifies this`row, this`stage
      ensures Valid() && row == old(row).(reason := row.reason)
      ensures row.reason != old(row).reason ==> old(row).reason == Enforcing && row.reason == NoReason && stage == Idle
      ensures old(stage).Claimed? ==>
        (stage.Stopped? <==> !hosted || success) && (stage == Idle ==> row.reason != Enforcing)
    {
      if !stage.Claimed? {
        return;
      }
      if !hosted || success {
        stage := Stopped(stage.expires);
      } else {
        if row.reason == Enforcing {
          row := row.(reason := NoReason);
        }
        stage := Idle;
      }
    }

    // markSuspended. It writes exactly when the claim still stands on the listed
    // expiry, which no renewal that committed since leaves standing; otherwise the
    // row stays as the renewal wrote it, and the host is switched on again.
    method MarkSuspended() returns (written: bool)
      requires Valid()
      modifies this`row, this`stage
      ensures Valid()
      ensures written ==> old(stage).Stopped? && !renewed
      ensures written <==> old(stage).Stopped? && old(row).status == ServiceActive && old(row).reason == Enforcing
                           && old(row).expires == Some(old(stage).expires) && old(stage).expires < now
      ensures row == if written then old(row).(status := ServiceSuspended, reason := Expired, suspendedAt := Some(now))
        else old(row)
    {
      if !stage.Stopped? {
        return false;
      }
      written := row.status == ServiceActive && row.reason == Enforcing && row.expires == Some(stage.expires);
      if written {
        row := row.(status := ServiceSuspended, reason := Expired, suspendedAt := Some(now));
      }
      stage := Idle;
    }

    // The second list: suspended for the whole grace period, and still expired.
    method ListForTermination(enabled: bool)
      requires Valid()
      modifies this`stage, this`renewed
      ensures Valid()
      ensures old(stage) == Idle && row.status == ServiceSuspended && row.reason == Expired && enabled
              && row.suspendedAt.Some? && row.suspendedAt.value < now - GRACE && row.expires.Some?
                && row.expires.value < now
              <==> (old(stage) == Idle && stage.Doomed?)
      ensures stage.Doomed? && old(stage) == Idle ==>
        row.suspendedAt == Some(stage.since) && row.expires == Some(stage.expires)
    {
      if stage != Idle || row.status != ServiceSuspended || row.reason != Expired || row.suspendedAt.None?
         || row.suspendedAt.value >= now - GRACE || row.expires.None? || row.expires.value >= now || !enabled
      {
        return;
      }
      stage, renewed := Doomed(row.suspendedAt.value, row.expires.value), false;
    }

    // claimTerminateSnapshot.
    method ClaimTerminate()
      requires Valid()
      modifies this`row, this`stage
      ensures Valid()
      ensures HoldsSentence(stage) && old(stage).Doomed? ==> !renewed && row == old(row).(reason := Terminating)
      ensures old(stage).Doomed? ==>
        (stage.Sentenced? <==> (old(stage).expires < clock
          && old(row) == Row(ServiceSuspended, Expired, Some(old(stage).since), Some(old(stage).expires), false)))
      ensures !HoldsSentence(stage) ==> row == old(row)
    {
      if !stage.Doomed? {
        return;
      }
      if stage.expires < clock && row == Row(ServiceSuspended, Expired, Some(stage.since), Some(stage.expires), false) {
        row := row.(reason := Terminating);
        stage := Sentenced(stage.since, stage.expires);
      } else {
        stage := Idle;
      }
    }

    // The TERMINATE call. An error releases the claim, whatever happened upstream.
    method SendTerminate(outcome: Outcome)
      requires Valid()
      modifies this`row, this`stage, this`sent, this`purged, this`lost
      ensures Valid()
      ensures old(stage).Sentenced? && hosted ==> sent == old(sent) + [Sent(old(row), clock)]
      ensures !(old(stage).Sentenced? && hosted) ==> sent == old(sent) && purged == old(purged) && lost == old(lost)
      ensures old(stage).Sentenced? && hosted ==>
              purged == (old(purged) || outcome != Failed) && lost == (old(lost) || outcome == Lost)
      ensures old(stage).Sentenced? && hosted && !old(purged) ==>
              (purged && RenewableIn(row.status, row.reason) <==> outcome == Lost)
      ensures row == if old(stage).Sentenced? && hosted && outcome != Done then old(row).(reason := Expired)
        else old(row)
    {
      if !stage.Sentenced? {
        return;
      }
      if !hosted {
        stage := Confirmed(stage.since, stage.expires);
        return;
      }
      hide Justified;
      HeldIsJustified(stage, row, now, clock);
      sent := sent + [Sent(row, clock)];
      purged, lost := purged || outcome != Failed, lost || outcome == Lost;
      if outcome == Done {
        stage := Executed(stage.since, stage.expires);
      } else {
        if row.reason == Terminating {
          row := row.(reason := Expired);
        }
        stage := Idle;
      }
    }

    // recheckTerminateSnapshot: with one patrol the claim is always still there.
    method Recheck() returns (ok: bool)
      requires Valid()
      modifies this`row, this`stage
      ensures Valid() && row == old(row)
      ensures old(stage).Executed? ==> ok && stage.Confirmed?
    {
      if !stage.Executed? {
        return false;
      }
      ok := row.status == ServiceSuspended && row.reason == Terminating;
      if !ok {
        assert false;
      }
      stage := Confirmed(stage.since, stage.expires);
    }

    method MarkTerminated()
      requires Valid()
      modifies this`row, this`stage
      ensures Valid()
      ensures old(stage).Confirmed? ==>
        row == old(row).(status := ServiceTerminated, reason := NoReason, suspendedAt := None)
      ensures !old(stage).Confirmed? ==> row == old(row)
    {
      if !stage.Confirmed? {
        return;
      }
      if row.status == ServiceSuspended && (row.reason == Expired || row.reason == Terminating) {
        row := row.(status := ServiceTerminated, reason := NoReason, suspendedAt := None);
      }
      stage := Idle;
    }

    // The patrol's process dies. A TERMINATE on its way may still take effect.
    method Crash(takesEffect: bool)
      requires Valid()
      modifies this`stage, this`sent, this`purged, this`lost
      ensures Valid() && stage == Idle
      ensures lost ==> old(lost) || (hosted && HoldsSentence(old(stage)))
      ensures old(sent) <= sent
    {
      if hosted && stage.Sentenced? && takesEffect {
        sent := sent + [Sent(row, clock)];
        purged, lost := true, true;
      }
      if hosted && (stage.Executed? || stage.Confirmed?) {
        lost := true;
      }
      stage := Idle;
    }

    // ----- everybody else -----

    // A renewal reads the row in its transaction and debits the wallet.
    method BeginRenewal()
      requires Valid()
      modifies this`renewals, this`debited
      ensures Valid()
      ensures debited == old(debited) + |renewals| - |old(renewals)|
      ensures renewals == if RenewableIn(row.status, row.reason) && !row.changing
                then old(renewals) + [Renewal(row.status, row.reason, row.expires)] else old(renewals)
    {
      if RenewableIn(row.status, row.reason) && !row.changing {
        renewals := renewals + [Renewal(row.status, row.reason, row.expires)];
        debited := debited + 1;
      }
    }

    // Its conditional update: the debit stays with it, or is rolled back. While the
    // patrol holds a termination claim no renewal commits, whenever it read the row;
    // and one that commits while a suspension is under way leaves the service active
    // with a later expiry.
    method CommitRenewal(i: nat, at: Instant) returns (committed: bool)
      requires Valid()
      modifies this`row, this`renewals, this`advanced, this`debited, this`renewed
      ensures Valid()
      ensures |renewals| == if i < |old(renewals)| then |old(renewals)| - 1 else |old(renewals)|
      ensures debited == if i < |old(renewals)| && !committed then old(debited) - 1 else old(debited)
      ensures advanced == if committed then old(advanced) + 1 else old(advanced)
      ensures if committed then !HoldsSentence(old(stage)) else row == old(row)
      ensures committed <==> (i < |old(renewals)| && !old(row).changing
                              && old(renewals)[i] == Renewal(old(row).status, old(row).reason, old(row).expires))
      ensures committed ==> row.expires == Some(Next(old(row).expires, at, cycle))
      ensures committed && old(row).status == ServiceActive ==> row.status == ServiceActive && row.reason == NoReason
      ensures committed && old(row).status == ServiceSuspended ==>
        if hosted then row.status == ServiceSuspended && row.reason == old(row).reason
        else row.status == ServiceActive && row.reason == NoReason
      ensures row.suspendedAt == old(row).suspendedAt && row.changing == old(row).changing
    {
      hide Next;
      if i >= |renewals| {
        return false;
      }
      var x := renewals[i];
      renewals := renewals[..i] + renewals[i + 1..];
      committed := row.status == x.status && row.reason == x.reason && !row.changing && row.expires == x.expires;
      if committed {
        var kept := x.status == ServiceSuspended && hosted;
        row := row.(
          expires := Some(Next(x.expires, at, cycle)),
          status := if kept then ServiceSuspended else ServiceActive,
          reason := if kept then x.reason else NoReason);
        advanced, renewed := advanced + 1, true;
      } else {
        debited := debited - 1;
      }
    }

    // resumeSuspended: the upstream call, and afterwards the conditional update.
    method BeginResume()
      requires Valid()
      modifies this`resumes
      ensures Valid()
      ensures resumes == if row.status == ServiceSuspended && (row.reason == TrafficExceeded || row.reason == Expired)
                then old(resumes) + [row.reason] else old(resumes)
    {
      if row.status == ServiceSuspended && (row.reason == TrafficExceeded || row.reason == Expired) {
        resumes := resumes + [row.reason];
      }
    }

    method CommitResume(i: nat)
      requires Valid()
      modifies this`row, this`resumes
      ensures Valid()
      ensures HoldsSentence(stage) ==> row == old(row)
      ensures row == if i < |old(resumes)| && old(row).status == ServiceSuspended && old(row).reason == old(resumes)[i]
                then old(row).(status := ServiceActive, reason := NoReason, suspendedAt := None) else old(row)
    {
      if i >= |resumes| {
        return;
      }
      var reason := resumes[i];
      resumes := resumes[..i] + resumes[i + 1..];
      if row.status == ServiceSuspended && row.reason == reason {
        row := row.(status := ServiceActive, reason := NoReason, suspendedAt := None);
      }
    }

    // A change of product is reserved only on an active service.
    method ReserveChange()
      requires Valid()
      modifies this`row
      ensures Valid() && (HoldsSentence(stage) ==> row == old(row))
      ensures row == if old(row).status == ServiceActive && old(row).expires.Some? then old(row).(changing := true)
        else old(row)
    {
      if row.status == ServiceActive && !row.changing && row.expires.Some? {
        row := row.(changing := true);
      }
    }

    method CloseChange()
      requires Valid()
      modifies this`row
      ensures Valid() && (HoldsSentence(stage) ==> row == old(row))
      ensures row == old(row).(changing := false)
    {
      row := row.(changing := false);
    }

    method SuspendForTraffic()
      requires Valid()
      modifies this`row
      ensures Valid() && (HoldsSentence(stage) ==> row == old(row))
      ensures row == if old(row).status == ServiceActive && old(row).reason == NoReason
                then Row(ServiceSuspended, TrafficExceeded, Some(clock), old(row).expires, old(row).changing)
                  else old(row)
    {
      if row.status == ServiceActive && row.reason == NoReason {
        row := row.(status := ServiceSuspended, reason := TrafficExceeded, suspendedAt := Some(clock));
      }
    }

    // The closing transaction of a refund.
    method SuspendForRefund()
      requires Valid()
      modifies this`row
      ensures Valid() && (HoldsSentence(stage) ==> row == old(row))
      ensures row == if old(row).status == ServiceActive
                then Row(ServiceSuspended, RefundRevoked, Some(clock), old(row).expires, old(row).changing)
                  else old(row)
    {
      if row.status == ServiceActive {
        row := row.(status := ServiceSuspended, reason := RefundRevoked, suspendedAt := Some(clock));
      }
    }

    // ----- any run -----

    method Perform(s: Step)
      requires Valid()
      modifies this
      ensures Valid() && old(sent) <= sent
    {
      match s
      case Ticks(seconds) => Tick(seconds);
      case BeginsRound => BeginRound();
      case ListsForSuspension => ListForSuspension();
      case ClaimsExpired => ClaimExpired();
      case SendsSuspend(success) => SendSuspend(success);
      case MarksSuspended => var _ := MarkSuspended();
      case ListsForTermination(enabled) => ListForTermination(enabled);
      case ClaimsTerminate => ClaimTerminate();
      case SendsTerminate(outcome) => SendTerminate(outcome);
      case Rechecks => var _ := Recheck();
      case MarksTerminated => MarkTerminated();
      case Crashes(takesEffect) => Crash(takesEffect);
      case BeginsRenewal => BeginRenewal();
      case CommitsRenewal(i, at) => var _ := CommitRenewal(i, at);
      case BeginsResume => BeginResume();
      case CommitsResume(i) => CommitResume(i);
      case ReservesChange => ReserveChange();
      case ClosesChange => CloseChange();
      case SuspendsForTraffic => SuspendForTraffic();
      case SuspendsForRefund => SuspendForRefund();
    }

    // Whatever happens in whatever order: every purge that was asked for was
    // justified, the debits that stand are those of the renewals that took effect and
    // of those under way, so none is left once all have ended, and a purged host
    // can be renewed only if the outcome of its purge was lost.
    method Run(steps: seq<Step>)
      requires Valid()
      modifies this
      ensures Valid()
      ensures forall i :: 0 <= i < |sent| ==> && sent[i].row.status == ServiceSuspended && !sent[i].row.changing
                                              && sent[i].row.suspendedAt.Some? && sent[i].row.expires.Some?
                                              && sent[i].at - sent[i].row.suspendedAt.value > 72 * 3600
                                              && sent[i].row.expires.value < sent[i].at
      ensures debited == advanced + |renewals|
      ensures purged && RenewableIn(row.status, row.reason) ==> lost
    {
      for i := 0 to |steps|
        invariant Valid()
      {
        Perform(steps[i]);
      }
    }
  }

  datatype Step =
    | Ticks(seconds: nat)
    | BeginsRound
    | ListsForSuspension
    | ClaimsExpired
    | SendsSuspend(success: bool)
    | MarksSuspended
    | ListsForTermination(enabled: bool)
    | ClaimsTerminate
    | SendsTerminate(outcome: Outcome)
    | Rechecks
    | MarksTerminated
    | Crashes(takesEffect: bool)
    | BeginsRenewal
    | CommitsRenewal(i: nat, at: Instant)
    | BeginsResume
    | CommitsResume(i: nat)
    | ReservesChange
    | ClosesChange
    | SuspendsForTraffic
    | SuspendsForRefund

  // A purge whose reply is an error although it took effect.
  method PurgeIsLost() returns (s: Patrolled)
    ensures fresh(s) && s.Valid() && s.purged && s.lost && s.advanced == 0 == s.debited && s.renewals == []
    ensures s.row == Row(ServiceSuspended, Expired, Some(0), Some(0), false)
  {
    hide StageOk, Justified;
    s := new Patrolled(Row(ServiceSuspended, Expired, Some(0), Some(0), false), true, Monthly);
    s.Tick(GRACE + 1);
    s.BeginRound();
    s.ListForTermination(true);
    s.ClaimTerminate();
    s.SendTerminate(Lost);
  }

  // A lost outcome is enough: the claim was released, and the customer's renewal
  // of what is gone is accepted and paid for.
  method RenewsWhatIsGone() returns (s: Patrolled)
    ensures fresh(s) && s.Valid() && s.purged && s.lost && s.advanced == 1 == s.debited
  {
    hide StageOk, Justified, Next;
    s := PurgeIsLost();
    s.BeginRenewal();
    var committed := s.CommitRenewal(0, GRACE + 1);
  }
}
