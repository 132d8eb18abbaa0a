// service_change.go (Retry): a change of resources carried out upstream by calls
// whose replies, and by transactions whose commits, may be lost. One attempt runs
// at a time, which the lease on an abandoned one is there to ensure; what a call
// does upstream is there to be seen when the host is next looked at; and a call
// is rejected as invalid or unimplemented has done nothing. Meanwhile anybody may
// take any step of the money paths.
module Resize {
  import opened Options
  import opened Sums
  import opened Tables
  import opened Machine
  import Changes
  import Reservations

  // cpuMilli overrides cpu when it is set.
  datatype Resources = Resources(cpu: int, cpuMilli: int, memory: int, disk: int, bandwidth: int, traffic: int)

  function Cpu(r: Resources): int { if r.cpuMilli > 0 then r.cpuMilli else r.cpu * 1000 }

  // resourcesEqual.
  predicate Same(a: Resources, b: Resources) {
    Cpu(a) == Cpu(b) && a.memory == b.memory && a.disk == b.disk && a.bandwidth == b.bandwidth && a.traffic == b.traffic
  }

  // Where the running attempt is, with the status it found.
  datatype Attempt =
    | NoAttempt
    | Started(found: ChangeStatus)
    | Cleared
    | Refused
    | Succeeded
    | Confirmed

  // Applied and Partial say what reached the host; the reply may be an error all
  // the same.
  datatype Effect = Nothing | Whole | Partial(seen: Resources)

  predicate AttemptOk(a: Attempt, status: ChangeStatus, upstream: Resources, desired: Resources, previous: Resources) {
    match a
    case NoAttempt => true
    case Started(found) => status == ChangeApplying && Changes.Open(found)
    case Cleared => status == ChangeApplying && Same(upstream, previous) && !Same(upstream, desired)
    case Refused => status == ChangeApplying && Same(upstream, previous)
    case Succeeded => status == ChangeApplying
    case Confirmed => status == ChangeApplying && Same(upstream, desired)
  }

  // The steps that are the attempt's own to take.
  predicate Owns(c: Id, op: Op) {
    op.ProductChange? && (op.change.ClaimChange? || op.change.DoubtChange? || op.change.FinishChange?)
      && op.change.change == c
  }

  // What nobody else's step changes.
  lemma OthersKeepChange(d: Db, c: Id, op: Op)
    requires c < |d.changes| && !Owns(c, op)
    ensures c < |Step(d, op).changes| && Step(d, op).changes[c] == d.changes[c]
  {
    if op.ProductChange? {
      hide Changes.Fenced, Changes.TokenUsed, Changes.OfferFor;
    } else {
      Reservations.OthersAside(d, op);
      hide Step;
    }
  }

  class Task {
    const change: Id
    const desired: Resources
    const previous: Resources
    var db: Db
    var upstream: Resources
    var stopped: bool
    var attempt: Attempt
    // Each RESIZE that left the process: what the host had then. And whether any
    // attempt has ever seen the desired resources.
    ghost var sends: seq<Resources>
    ghost var seen: bool
    // What the host had when the change was closed.
    ghost var closedOn: Option<Resources>

    function Status(): ChangeStatus
      requires change < |db.changes|
      reads this
    {
      db.changes[change].status
    }

    // A change was closed on a host that agreed with it; a RESIZE was only ever sent
    // to a host with its previous resources; and once the desired ones have been seen
    // they are there until the change is closed. The ledger holds what each change
    // has cost.
    ghost predicate Valid()
      reads this
    {
      && change < |db.changes| && Reservations.Charged(db.bank, db.changes)
      && AttemptOk(attempt, Status(), upstream, desired, previous)
      && (closedOn.None? <==> Changes.Open(Status())) && (closedOn.Some? ==> attempt == NoAttempt)
      && (Status() == ChangeApplied ==> Same(closedOn.value, desired))
      && (Status() == ChangeFailed ==> Same(closedOn.value, previous))
      && (forall i :: 0 <= i < |sends| ==> Same(sends[i], previous) && !Same(sends[i], desired))
      && (seen && closedOn.None? ==> Same(upstream, desired))
    }

    // A change that was just reserved, whatever the host has by now.
    constructor (db: Db, change: Id, desired: Resources, previous: Resources, upstream: Resources, stopped: bool)
      requires change < |db.changes| && db.changes[change].status == ChangeReserved
      requires Reservations.Charged(db.bank, db.changes)
      ensures Valid() && this.db == db && this.change == change && sends == [] && !seen
      ensures this.desired == desired && this.previous == previous && this.upstream == upstream
    {
      this.db, this.change := db, change;
      this.desired, this.previous, this.upstream, this.stopped := desired, previous, upstream, stopped;
      attempt, sends, seen, closedOn := NoAttempt, [], false, None;
    }

    // One of the attempt's own writes.
    method Write(op: ChangeOp)
      requires Owns(change, ProductChange(op)) && change < |db.changes| && Reservations.Charged(db.bank, db.changes)
      modifies this`db
      ensures db == Step(old(db), ProductChange(op))
      ensures change < |db.changes| && Reservations.Charged(db.bank, db.changes)
      ensures DoChange(old(db), op).None? ==> db == old(db)
      ensures DoChange(old(db), op).Some? ==> Status() == match op
                                                         case ClaimChange(_) => ChangeApplying
                                                         case DoubtChange(_) => ChangeUncertain
                                                         case FinishChange(_, applied) =>
                                                           if applied then ChangeApplied else ChangeFailed
                                                         case _ => old(Status())
    {
      hide Reservations.Charged;
      Reservations.StepCharged(db, ProductChange(op));
      db := Step(db, ProductChange(op));
    }

    // Anybody else's step.
    method Others(op: Op)
      requires Valid()
      modifies this`db
      ensures Valid()
      ensures db == if Owns(change, op) then old(db) else Step(old(db), op)
    {
      if Owns(change, op) {
        return;
      }
      hide Reservations.Charged, Step;
      OthersKeepChange(db, change, op);
      Reservations.StepCharged(db, op);
      db := Step(db, op);
    }

    // The claim at the start of Retry, on an open change nobody is working on.
    method Claim()
      requires Valid()
      modifies this`db, this`attempt
      ensures Valid()
      ensures if old(attempt) == NoAttempt && Changes.Claim(old(db), change).Some?
              then attempt == Started(old(Status())) && Status() == ChangeApplying
              else attempt == old(attempt) && db == old(db)
    {
      hide Reservations.Charged, Step;
      if attempt == NoAttempt && Changes.Claim(db, change).Some? {
        attempt := Started(Status());
        Write(ClaimChange(change));
      }
    }

    // Before anything is sent the host is looked at. reached is whether the look
    // succeeded.
    method Observe(reached: bool)
      requires Valid()
      modifies this`db, this`attempt, this`seen
      ensures Valid()
      ensures attempt.Cleared? && old(attempt).Started? ==> !seen && stopped
      ensures old(attempt).Started? ==>
        attempt == if !reached then NoAttempt
                   else if Same(upstream, desired) then Confirmed
                   else if !Same(upstream, previous) then NoAttempt
                   else if stopped then Cleared
                   else if old(attempt).found == ChangeReserved then Refused
                   else NoAttempt
      ensures old(seen) ==> seen
    {
      if !attempt.Started? {
        return;
      }
      if !reached {
        Doubt();
        return;
      }
      if Same(upstream, desired) {
        seen := true;
        attempt := Confirmed;
      } else if !Same(upstream, previous) {
        Doubt();
      } else if !stopped {
        if attempt.found == ChangeReserved {
          attempt := Refused;
        } else {
          Doubt();
        }
      } else {
        attempt := Cleared;
      }
    }

    // RESIZE. A success reply is still checked; anything but a rejection before
    // the mutation leaves the outcome in doubt.
    method Send(rejected: bool, success: bool, effect: Effect)
      requires Valid()
      modifies this`db, this`attempt, this`upstream, this`sends
      ensures Valid()
      ensures old(attempt).Cleared? ==> sends == old(sends) + [old(upstream)] && Same(old(upstream), previous) && !seen
      ensures !old(attempt).Cleared? ==> sends == old(sends) && upstream == old(upstream)
      ensures rejected ==> upstream == old(upstream)
      ensures old(attempt).Cleared? ==>
        attempt == if rejected then Refused else if success then Succeeded else NoAttempt
    {
      if !attempt.Cleared? {
        return;
      }
      sends := sends + [upstream];
      if rejected {
        attempt := Refused;
        return;
      }
      Take(effect);
      if success {
        attempt := Succeeded;
      } else {
        Doubt();
      }
    }

    method Take(effect: Effect)
      modifies this`upstream
      ensures upstream == match effect
                          case Nothing => old(upstream)
                          case Whole => desired
                          case Partial(r) => r
    {
      match effect
      case Nothing =>
      case Whole => upstream := desired;
      case Partial(r) => upstream := r;
    }

    // The look after a success reply.
    method Verify(reached: bool)
      requires Valid()
      modifies this`db, this`attempt, this`seen
      ensures Valid() && (old(seen) ==> seen)
      ensures old(attempt).Succeeded? ==> attempt == if reached && Same(upstream, desired) then Confirmed else NoAttempt
    {
      if !attempt.Succeeded? {
        return;
      }
      if reached && Same(upstream, desired) {
        seen := true;
        attempt := Confirmed;
      } else {
        Doubt();
      }
    }

    // finishChange, as the attempt calls for; when its transaction is refused or
    // lost the change stays open and in doubt.
    method Finish(commits: bool)
      requires Valid()
      modifies this`db, this`attempt, this`closedOn
      ensures Valid()
      ensures closedOn.Some? && old(closedOn).None? ==> closedOn == Some(upstream)
      ensures Status() == ChangeApplied && old(Status()) != ChangeApplied ==> old(attempt) == Confirmed && commits
      ensures Status() == ChangeFailed && old(Status()) != ChangeFailed ==> old(attempt) == Refused && commits
      ensures (old(attempt) == Confirmed || old(attempt) == Refused) && commits ==>
                var r := Changes.Finish(old(db), change, old(attempt) == Confirmed); r.Some? ==> db == r.value
    {
      hide Reservations.Charged, Step, Changes.Finish;
      if attempt != Confirmed && attempt != Refused {
        return;
      }
      var applied := attempt == Confirmed;
      if commits && Changes.Finish(db, change, applied).Some? {
        FinishIsStep(db, change, applied);
        Write(FinishChange(change, applied));
        attempt, closedOn := NoAttempt, Some(upstream);
      } else {
        Doubt();
      }
    }

    // uncertain: nothing is released, and the attempt ends.
    method Doubt()
      requires change < |db.changes| && Reservations.Charged(db.bank, db.changes)
      modifies this`db, this`attempt
      ensures change < |db.changes| && Reservations.Charged(db.bank, db.changes)
      ensures Status() == if old(Status()) == ChangeApplying then ChangeUncertain else old(Status())
      ensures attempt == NoAttempt
    {
      hide Reservations.Charged, Step;
      Write(DoubtChange(change));
      attempt := NoAttempt;
    }

    // The process dies, perhaps with a RESIZE on its way.
    method Crash(sending: bool, effect: Effect)
      requires Valid()
      modifies this`attempt, this`upstream, this`sends
      ensures Valid() && attempt == NoAttempt
      ensures seen ==> sends == old(sends)
      ensures !(old(attempt).Cleared? && sending) ==> upstream == old(upstream) && sends == old(sends)
      ensures old(attempt).Cleared? && sending ==> sends == old(sends) + [old(upstream)]
    {
      if attempt.Cleared? && sending {
        sends := sends + [upstream];
        Take(effect);
      }
      attempt := NoAttempt;
    }

    // The customer switches the instance on or off.
    method Switch(off: bool)
      requires Valid()
      modifies this`stopped
      ensures Valid() && stopped == off
    {
      stopped := off;
    }

    // Once the change is closed a later one may resize the host.
    method ResizeLater(r: Resources)
      requires Valid()
      modifies this`upstream
      ensures Valid() && (Changes.Open(Status()) ==> upstream == old(upstream))
    {
      if !Changes.Open(Status()) {
        upstream := r;
      }
    }

    // Any run of attempts, failures and crashes, and of anybody else's steps: a
    // change is closed on a host that agrees with it, and what it has cost follows
    // the host. The charge, less the credit, is kept with the new resources, nothing
    // with the previous ones, and the whole charge is held while it is open.
    method Run(steps: seq<Event>)
      requires Valid()
      modifies this
      ensures Valid()
      ensures var x, spent := db.changes[change], -Sum(db.bank.log, Reservations.OfChange(change));
              match x.status
              case ChangeApplied =>
                closedOn.Some? && Same(closedOn.value, desired) && spent == x.charge - x.credit
              case ChangeFailed => closedOn.Some? && Same(closedOn.value, previous) && spent == 0
              case _ => closedOn.None? && spent == x.charge
      ensures old(seen) ==> sends == old(sends) && (Changes.Open(Status()) ==> Same(upstream, desired))
    {
      hide Reservations.Charged, Same, Sum;
      for i := 0 to |steps|
        invariant Valid()
        invariant old(seen) ==> seen && sends == old(sends)
      {
        match steps[i]
        case Claims => Claim();
        case Observes(reached) => Observe(reached);
        case Sends(rejected, success, effect) => Send(rejected, success, effect);
        case Verifies(reached) => Verify(reached);
        case Finishes(commits) => Finish(commits);
        case Crashes(sending, effect) => Crash(sending, effect);
        case Switches(off) => Switch(off);
        case Acts(op) => Others(op);
        case ResizesLater(r) => ResizeLater(r);
      }
      Stands(db, change);
    }
  }

  lemma FinishIsStep(d: Db, c: Id, applied: bool)
    requires Changes.Finish(d, c, applied).Some?
    ensures Step(d, ProductChange(FinishChange(c, applied))) == Changes.Finish(d, c, applied).value
  {
    hide Changes.Finish;
  }

  lemma Stands(d: Db, c: Id)
    requires c < |d.changes| && Reservations.Charged(d.bank, d.changes)
    ensures Sum(d.bank.log, Reservations.OfChange(c)) == Reservations.Standing(d.changes[c])
  {
    assert Sum(d.bank.log, Reservations.OfChange(c)) == Reservations.StandingAt(d.changes, c);
  }

  datatype Event =
    | Claims
    | Observes(reached: bool)
    | Sends(rejected: bool, success: bool, effect: Effect)
    | Verifies(reached: bool)
    | Finishes(commits: bool)
    | Crashes(sending: bool, effect: Effect)
    | Switches(off: bool)
    | Acts(op: Op)
    | ResizesLater(r: Resources)
}
