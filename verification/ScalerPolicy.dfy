/** The scaling policy (decide.go): one observation and the idle timer in, one action out. */
module ScalerPolicy {
  import opened Prelude

  datatype Limits = Limits(idle: int, maxAge: int, bootTimeout: int, minCredit: real, rentCooldown: int)

  /** Fresh queue numbers; `internal` of the waiting jobs need the internal image. */
  datatype Load = Load(waiting: nat, active: nat, internal: nat)

  /** The instance of the state file; `running` is the cloud's view, None when it is not listed. */
  datatype Ours = Ours(rentedAt: int, running: Option<bool>, public: bool)

  datatype Observation = Observation(
    now: int, load: Option<Load>, ours: Option<Ours>, credit: Option<real>, lastRentFailure: Option<int>)

  datatype Action = Keep | Rent | Destroy | Forget

  datatype Reason =
    | QueueUnknown | NothingWaiting | Cooldown | CreditUnknown | CreditGuard | JobsWait
    | NotListed | TooOld | NotBooted | WrongImage | Busy | TimerStarted | IdleTooLong | IdleYet

  datatype Decision = Decision(action: Action, reason: Reason, idleSince: Option<int>)

  function Decide(o: Observation, idleSince: Option<int>, l: Limits): Decision
  {
    if o.ours.Some? then DecideWithInstance(o, o.ours.value, idleSince, l)
    else if o.load.None? then Decision(Keep, QueueUnknown, None)
    else if o.load.value.waiting == 0 then Decision(Keep, NothingWaiting, None)
    else if o.lastRentFailure.Some? && o.now - o.lastRentFailure.value < l.rentCooldown then Decision(Keep, Cooldown, None)
    else if o.credit.None? then Decision(Keep, CreditUnknown, None)
    else if o.credit.value < l.minCredit then Decision(Keep, CreditGuard, None)
    else Decision(Rent, JobsWait, None)
  }

  function DecideWithInstance(o: Observation, ours: Ours, idleSince: Option<int>, l: Limits): Decision
  {
    var age := o.now - ours.rentedAt;
    if ours.running.None? then Decision(Forget, NotListed, idleSince)
    else if l.maxAge > 0 && age >= l.maxAge then Decision(Destroy, TooOld, idleSince)
    else if !ours.running.value && l.bootTimeout > 0 && age >= l.bootTimeout then Decision(Destroy, NotBooted, idleSince)
    else if o.load.None? then Decision(Keep, QueueUnknown, idleSince)
    else if ours.public && o.load.value.internal > 0 && o.load.value.active == 0 then Decision(Destroy, WrongImage, idleSince)
    else if o.load.value.waiting > 0 || o.load.value.active > 0 then Decision(Keep, Busy, None)
    else if idleSince.None? then Decision(Keep, TimerStarted, Some(o.now))
    else if o.now - idleSince.value >= l.idle then Decision(Destroy, IdleTooLong, idleSince)
    else Decision(Keep, IdleYet, idleSince)
  }

  // --- What the policy promises ---------------------------------------------------------

  /** Only fresh data that shows waiting jobs, enough credit and no recent failure rents, and only
      when there is no instance. */
  lemma RentsExactlyWhen(o: Observation, idleSince: Option<int>, l: Limits)
    ensures Decide(o, idleSince, l).action == Rent <==>
              && o.ours.None? && o.load.Some? && o.load.value.waiting > 0
              && (o.lastRentFailure.None? || o.now - o.lastRentFailure.value >= l.rentCooldown)
              && o.credit.Some? && o.credit.value >= l.minCredit
  {
  }

  /** Stale queue data never destroys a listed instance, except by age. */
  lemma StaleDataOnlyAges(o: Observation, idleSince: Option<int>, l: Limits)
    requires o.load.None? && o.ours.Some? && o.ours.value.running.Some?
    ensures var d := Decide(o, idleSince, l);
            && (d.action == Destroy <==>
                  var age := o.now - o.ours.value.rentedAt;
                  (l.maxAge > 0 && age >= l.maxAge) || (!o.ours.value.running.value && l.bootTimeout > 0 && age >= l.bootTimeout))
            && (d.action != Destroy ==> d.action == Keep)
            && d.idleSince == idleSince
  {
  }

  /** Running leases keep an instance until it is too old or fails to boot. */
  lemma ActiveLeasesKeepTheInstance(o: Observation, idleSince: Option<int>, l: Limits)
    requires o.load.Some? && o.load.value.active > 0 && o.ours.Some?
    ensures Decide(o, idleSince, l).action == Destroy ==>
              Decide(o, idleSince, l).reason == TooOld || Decide(o, idleSince, l).reason == NotBooted
  {
  }

  /** An idle instance goes as soon as the timer has run out, never before, and only then. */
  lemma IdleExactlyWhen(o: Observation, idleSince: Option<int>, l: Limits)
    requires l.maxAge <= 0 || o.ours.None? || o.now - o.ours.value.rentedAt < l.maxAge
    requires o.ours.Some? ==> o.ours.value.running == Some(true)
    ensures Decide(o, idleSince, l).reason == IdleTooLong <==>
              && o.ours.Some? && o.load.Some? && o.load.value.waiting == 0 && o.load.value.active == 0
              && !(o.ours.value.public && o.load.value.internal > 0)
              && idleSince.Some? && o.now - idleSince.value >= l.idle
    ensures Decide(o, idleSince, l).reason == IdleTooLong ==>
              Decide(o, idleSince, l).action == Destroy && Decide(o, idleSince, l).idleSince == idleSince
  {
  }
}
