/** billing/services.py: the subscription of a shop, its access and its trial. Times in seconds. */
module Billing {
  import opened Prelude
  import opened Calendar

  datatype Status = Trial | Active | PastDue | Canceled

  datatype Subscription = Subscription(
    status: Status, membershipId: string, checkoutId: string, whopStatus: string, manageUrl: string,
    periodEnd: Option<Time>, cancelAtPeriodEnd: bool,
    pastDueSince: Option<Time>, activatedAt: Option<Time>, canceledAt: Option<Time>,
    trialEndsOverride: Option<Time>)

  /** What Whop says about a membership that belongs to this shop. */
  datatype Membership = Membership(
    id: string, status: string, manageUrl: string, periodEnd: Option<Time>, cancelAtPeriodEnd: bool,
    checkoutId: string, canceledAt: Option<Time>)

  /** `WHOP_STATUS_MAP`; "drafted" and anything unknown change nothing. */
  function StatusOf(whop: string): (r: Option<Status>)
    ensures r != Some(Trial)
  {
    if whop == "trialing" || whop == "active" || whop == "canceling" then Some(Active)
    else if whop == "past_due" || whop == "unresolved" then Some(PastDue)
    else if whop == "canceled" || whop == "expired" || whop == "completed" then Some(Canceled)
    else None
  }

  function Cut(s: string, n: nat): string {
    if |s| <= n then s else s[..n]
  }

  function Or<T>(a: Option<T>, b: Option<T>): Option<T> {
    if a.Some? then a else b
  }

  predicate IsMembershipId(id: string) {
    |id| >= 4 && id[..4] == "mem_"
  }

  /** An event of a second membership that must not disturb the live one. */
  predicate IsStale(sub: Subscription, data: Membership) {
    && sub.membershipId != "" && sub.membershipId != data.id
    && StatusOf(data.status) != Some(Active) && sub.status == Active
  }

  /** The fields that copy what Whop sent. */
  function Recorded(sub: Subscription, data: Membership): Subscription {
    sub.(membershipId := data.id,
         whopStatus := Cut(data.status, 20),
         manageUrl := Cut(data.manageUrl, 500),
         periodEnd := data.periodEnd,
         cancelAtPeriodEnd := data.cancelAtPeriodEnd,
         checkoutId := if data.checkoutId != "" then Cut(data.checkoutId, 64) else sub.checkoutId,
         status := if StatusOf(data.status).Some? then StatusOf(data.status).value else sub.status)
  }

  /** `apply_membership` */
  function Apply(sub: Subscription, data: Membership, now: Time): Subscription {
    if !IsMembershipId(data.id) || IsStale(sub, data) then sub
    else
      var s := Recorded(sub, data);
      match s.status
      case Active => s.(activatedAt := Or(sub.activatedAt, Some(now)), pastDueSince := None)
      case PastDue => s.(pastDueSince := Or(sub.pastDueSince, Some(now)))
      case Canceled => s.(canceledAt := Or(data.canceledAt, Or(sub.canceledAt, Some(now))), pastDueSince := None)
      case Trial => s
  }

  // ---- one event, in the words of Whop and of the row --------------------------------------------------------

  predicate SaysActive(whop: string) {
    whop == "trialing" || whop == "active" || whop == "canceling"
  }

  predicate SaysPastDue(whop: string) {
    whop == "past_due" || whop == "unresolved"
  }

  predicate SaysCanceled(whop: string) {
    whop == "canceled" || whop == "expired" || whop == "completed"
  }

  /** What each status word of the payment provider makes of a shop; every other word leaves its status alone. */
  lemma StatusMeans(whop: string)
    ensures StatusOf(whop) == Some(Active) <==> SaysActive(whop)
    ensures StatusOf(whop) == Some(PastDue) <==> SaysPastDue(whop)
    ensures StatusOf(whop) == Some(Canceled) <==> SaysCanceled(whop)
    ensures StatusOf(whop) == None <==> !SaysActive(whop) && !SaysPastDue(whop) && !SaysCanceled(whop)
  {
    assert "trialing"[0] == 't' && "active"[0] == 'a' && |"canceling"| == 9;
    assert "past_due"[0] == 'p' && "unresolved"[0] == 'u' && |"canceled"| == 8;
    assert "canceled"[0] == 'c' && "expired"[0] == 'e' && "completed"[0] == 'c' && "canceling"[0] == 'c';
    assert "canceling"[1] == 'a' && "completed"[1] == 'o';
  }

  lemma CutMeans(s: string, n: nat)
    ensures Cut(s, n) <= s && |Cut(s, n)| == if |s| <= n then |s| else n
  {
  }

  /** An event that is not of a membership, or of another one than the live one and not active, is dropped. */
  predicate IsDropped(sub: Subscription, data: Membership) {
    || !(|data.id| >= 4 && data.id[..4] == "mem_")
    || (sub.membershipId != "" && sub.membershipId != data.id && sub.status == Active && !SaysActive(data.status))
  }

  /** Every field of the row after a membership event. */
  lemma ApplyMeans(sub: Subscription, data: Membership, now: Time)
    ensures var s := Apply(sub, data, now);
            if IsDropped(sub, data) then s == sub
            else
              && s.membershipId == data.id && s.periodEnd == data.periodEnd && s.cancelAtPeriodEnd == data.cancelAtPeriodEnd
              && s.whopStatus == Cut(data.status, 20) && s.manageUrl == Cut(data.manageUrl, 500)
              && s.checkoutId == (if data.checkoutId == "" then sub.checkoutId else Cut(data.checkoutId, 64))
              && s.trialEndsOverride == sub.trialEndsOverride
              && s.status == (if SaysActive(data.status) then Active else if SaysPastDue(data.status) then PastDue
                              else if SaysCanceled(data.status) then Canceled else sub.status)
              && s.activatedAt == (if s.status == Active && sub.activatedAt.None? then Some(now) else sub.activatedAt)
              && s.pastDueSince == (if s.status == Active || s.status == Canceled then None
                                    else if s.status == PastDue && sub.pastDueSince.None? then Some(now) else sub.pastDueSince)
              && s.canceledAt == (if s.status != Canceled then sub.canceledAt
                                  else if data.canceledAt.Some? then data.canceledAt
                                  else if sub.canceledAt.Some? then sub.canceledAt else Some(now))
  {
    StatusMeans(data.status);
    hide StatusOf, Cut, SaysActive, SaysPastDue, SaysCanceled;
  }

  // ---- runs -----------------------------------------------------------------------------------

  datatype Event =
    | MembershipEvent(data: Membership, at: Time)
    | PaymentEvent(membershipId: string)  // record_payment: links the membership when none is known
    | CheckoutEvent(checkoutId: string)   // start_checkout: remembers the checkout
    | OverrideEvent(endsAt: Option<Time>) // staff set another end of the trial

  function Handle(sub: Subscription, e: Event): Subscription {
    match e
    case MembershipEvent(data, at) => Apply(sub, data, at)
    case PaymentEvent(id) => if sub.membershipId == "" then sub.(membershipId := Cut(id, 64)) else sub
    case CheckoutEvent(id) => sub.(checkoutId := Cut(id, 64))
    case OverrideEvent(endsAt) => sub.(trialEndsOverride := endsAt)
  }

  const FRESH := Subscription(Trial, "", "", "", "", None, false, None, None, None, None)

  function Run(events: seq<Event>): Subscription {
    if events == [] then FRESH else Handle(Run(Front(events)), Last(events))
  }

  /** The other events: a payment links its membership where none is known, and each touches no other field. */
  lemma HandleMeans(sub: Subscription, id: string, endsAt: Option<Time>)
    ensures Handle(sub, PaymentEvent(id)) == sub.(membershipId := if sub.membershipId == "" then Cut(id, 64) else sub.membershipId)
    ensures Handle(sub, CheckoutEvent(id)) == sub.(checkoutId := Cut(id, 64))
    ensures Handle(sub, OverrideEvent(endsAt)) == sub.(trialEndsOverride := endsAt)
  {
  }

  /** When the current uninterrupted time of being past due began, read off the events alone. */
  function SpellStart(events: seq<Event>): Option<Time> {
    if events == [] || Run(events).status != PastDue then None
    else if Run(Front(events)).status == PastDue then SpellStart(Front(events))
    else if Last(events).MembershipEvent? then Some(Last(events).at)
    else None
  }

  /** The stored time is the first event of the spell, so no later event of it extends the grace. */
  lemma {:induction false} PastDueSinceIsSpellStart(events: seq<Event>)
    ensures Run(events).pastDueSince == SpellStart(events)
    ensures Run(events).status == PastDue ==> SpellStart(events).Some?
  {
    if events != [] {
      PastDueSinceIsSpellStart(Front(events));
    }
  }

  /** What every sequence of events leaves true. */
  lemma {:induction false} SubscriptionInvariant(events: seq<Event>)
    ensures var s := Run(events);
            && (s.status == Active ==> s.activatedAt.Some? && s.pastDueSince.None?)
            && (s.status == Canceled ==> s.canceledAt.Some? && s.pastDueSince.None?)
            && (s.status != Trial ==> IsMembershipId(s.membershipId))
            && (s.status == Trial ==> s.activatedAt.None? && s.canceledAt.None? && s.pastDueSince.None?)
  {
    hide StatusOf, Cut;
    if events != [] {
      SubscriptionInvariant(Front(events));
    }
  }

  /** Nothing leads back to the trial, and the first activation stays the first. */
  lemma {:induction false} OneWay(events: seq<Event>, more: seq<Event>)
    ensures Run(events).status != Trial ==> Run(events + more).status != Trial
    ensures Run(events).activatedAt.Some? ==> Run(events + more).activatedAt == Run(events).activatedAt
    decreases |more|
  {
    hide StatusOf, Cut, IsMembershipId;
    if more == [] {
      assert events + more == events;
    } else {
      OneWay(events, Front(more));
      assert Front(events + more) == events + Front(more);
    }
  }

  /** The first activation is the first event that made the subscription active. */
  lemma {:induction false} ActivatedAtFirstActivation(events: seq<Event>)
    ensures Run(events).activatedAt.Some? ==>
              exists i :: 0 <= i < |events| && events[i].MembershipEvent?
                       && Run(events).activatedAt == Some(events[i].at)
                       && Run(events[..i + 1]).status == Active
                       && forall j :: 0 <= j <= i ==> Run(events[..j]).status != Active
  {
    hide StatusOf, Cut, IsMembershipId;
    if events != [] {
      var front := Front(events);
      ActivatedAtFirstActivation(front);
      SubscriptionInvariant(front);
      if Run(front).activatedAt.Some? {
        OneWay(front, [Last(events)]);
        assert front + [Last(events)] == events;
        var i :| 0 <= i < |front| && front[i].MembershipEvent?
                && Run(front).activatedAt == Some(front[i].at)
                && Run(front[..i + 1]).status == Active
                && forall j :: 0 <= j <= i ==> Run(front[..j]).status != Active;
        assert forall j :: 0 <= j <= i + 1 ==> events[..j] == front[..j];
        assert events[i] == front[i];
      } else if Run(events).activatedAt.Some? {
        NeverActive(front);
        assert events[..|events|] == events;
        assert forall j :: 0 <= j <= |front| ==> events[..j] == front[..j];
      }
    }
  }

  lemma NeverActive(events: seq<Event>)
    requires Run(events).activatedAt.None?
    ensures forall j :: 0 <= j <= |events| ==> Run(events[..j]).status != Active
  {
    hide Run;
    forall j | 0 <= j <= |events| ensures Run(events[..j]).status != Active {
      SubscriptionInvariant(events[..j]);
      OneWay(events[..j], events[j..]);
      assert events[..j] + events[j..] == events;
    }
  }

  /** The same membership delivered twice is the membership delivered once, whenever it comes. */
  lemma RedeliveryChangesNothing(sub: Subscription, data: Membership, first: Time, second: Time)
    ensures Apply(Apply(sub, data, first), data, second) == Apply(sub, data, first)
  {
  }

  /** While a shop is active, only its own membership or a live one can change anything. */
  lemma OldMembershipIsIgnored(events: seq<Event>, data: Membership, at: Time)
    requires Run(events).status == Active && data.id != Run(events).membershipId
    requires StatusOf(data.status) != Some(Active)
    ensures Run(events + [MembershipEvent(data, at)]) == Run(events)
  {
    SubscriptionInvariant(events);
    assert Front(events + [MembershipEvent(data, at)]) == events;
  }

  // ---- trial and access -----------------------------------------------------------------------------

  datatype Config = Config(enabled: bool, startsAt: Option<Time>, trialDays: nat, graceDays: nat)

  datatype Account = Account(createdAt: Time, sub: Option<Subscription>)

  predicate Enforced(cfg: Config) {
    cfg.enabled && cfg.startsAt.Some?
  }

  /** `trial_ends_at` */
  function TrialEndsAt(cfg: Config, a: Account): Time {
    if a.sub.Some? && a.sub.value.trialEndsOverride.Some? then a.sub.value.trialEndsOverride.value
    else
      (if cfg.startsAt.Some? && cfg.startsAt.value > a.createdAt then cfg.startsAt.value else a.createdAt)
      + cfg.trialDays * DAY
  }

  /** `has_access` */
  predicate HasAccess(cfg: Config, a: Account, now: Time) {
    || !Enforced(cfg)
    || match (if a.sub.Some? then a.sub.value.status else Trial)
       case Active => true
       case PastDue =>
         now < (if a.sub.value.pastDueSince.Some? then a.sub.value.pastDueSince.value else now) + cfg.graceDays * DAY
       case _ => now < TrialEndsAt(cfg, a)
  }

  /** The trial ends where staff put its end, else its days after registration or the start of billing, the later one. */
  lemma TrialEndMeans(cfg: Config, a: Account)
    ensures a.sub.Some? && a.sub.value.trialEndsOverride.Some? ==> TrialEndsAt(cfg, a) == a.sub.value.trialEndsOverride.value
    ensures a.sub.None? || a.sub.value.trialEndsOverride.None? ==>
              var ends := TrialEndsAt(cfg, a);
              && ends >= a.createdAt + cfg.trialDays * 86400
              && (cfg.startsAt.Some? ==> ends >= cfg.startsAt.value + cfg.trialDays * 86400)
              && (ends == a.createdAt + cfg.trialDays * 86400
                  || (cfg.startsAt.Some? && ends == cfg.startsAt.value + cfg.trialDays * 86400))
  {
  }

  /** Who has access: everybody while billing is not enforced, active shops, shops in their trial, past-due shops in their grace. */
  lemma AccessMeans(cfg: Config, a: Account, now: Time)
    ensures !cfg.enabled || cfg.startsAt.None? ==> HasAccess(cfg, a, now)
    ensures a.sub.Some? && a.sub.value.status == Active ==> HasAccess(cfg, a, now)
    ensures cfg.enabled && cfg.startsAt.Some? && (a.sub.None? || a.sub.value.status == Trial || a.sub.value.status == Canceled) ==>
              (HasAccess(cfg, a, now) <==> now < TrialEndsAt(cfg, a))
    ensures cfg.enabled && cfg.startsAt.Some? && a.sub.Some? && a.sub.value.status == PastDue && a.sub.value.pastDueSince.Some? ==>
              (HasAccess(cfg, a, now) <==> now < a.sub.value.pastDueSince.value + cfg.graceDays * 86400)
  {
  }

  /** An event whose word is an active one gives the shop access from then on, whenever its trial ended, until another. */
  lemma ActiveHasAccess(cfg: Config, created: Time, events: seq<Event>, data: Membership, at: Time, now: Time)
    requires |data.id| >= 4 && data.id[..4] == "mem_"
    requires data.status == "trialing" || data.status == "active" || data.status == "canceling"
    ensures HasAccess(cfg, AccountAfter(created, Some(events + [MembershipEvent(data, at)])), now)
  {
    ApplyMeans(Run(events), data, at);
    assert Front(events + [MembershipEvent(data, at)]) == events;
    hide Apply;
  }

  function CeilDays(seconds: int): int {
    if seconds % DAY == 0 then seconds / DAY else seconds / DAY + 1
  }

  /** `trial_days_left` */
  function TrialDaysLeft(cfg: Config, a: Account, now: Time): nat {
    var days := CeilDays(TrialEndsAt(cfg, a) - now);
    if days > 0 then days else 0
  }

  /** Days are left exactly while the trial runs, and they cover the rest of it and less than a day more. */
  lemma TrialDaysCoverTheTrial(cfg: Config, a: Account, now: Time)
    ensures var left, ends := TrialDaysLeft(cfg, a, now), TrialEndsAt(cfg, a);
            && (left > 0 <==> now < ends)
            && (left > 0 ==> ends <= now + left * DAY < ends + DAY)
  {
  }

  /** The plan of a checkout: charged when its trial days are over, at once when there are none. */
  function ChargedAt(cfg: Config, a: Account, now: Time): Time {
    now + TrialDaysLeft(cfg, a, now) * DAY
  }

  /** A checkout never charges before the free trial ends, and gives away less than a day. */
  lemma CheckoutHonoursTheTrial(cfg: Config, a: Account, now: Time)
    ensures var charged, ends := ChargedAt(cfg, a, now), TrialEndsAt(cfg, a);
            && ends <= charged
            && charged < (if now < ends then ends else now + 1) + DAY
            && (charged == now <==> now >= ends)
  {
  }

  /** The account of a shop after these events, or of one that never had a subscription row. */
  function AccountAfter(created: Time, history: Option<seq<Event>>): Account {
    Account(created, if history.Some? then Some(Run(history.value)) else None)
  }

  /** While trial days are left a shop has access, with or without a subscription, unless a payment is past due. */
  lemma AccessUntilTheTrialEnds(cfg: Config, created: Time, history: Option<seq<Event>>, now: Time)
    ensures var a := AccountAfter(created, history);
            TrialDaysLeft(cfg, a, now) > 0 && !(history.Some? && Run(history.value).status == PastDue) ==> HasAccess(cfg, a, now)
  {
    TrialDaysCoverTheTrial(cfg, AccountAfter(created, history), now);
  }

  /** Between events lost access stays lost. */
  lemma AccessOnlyExpires(cfg: Config, created: Time, history: Option<seq<Event>>, now: Time, later: Time)
    requires now <= later && !HasAccess(cfg, AccountAfter(created, history), now)
    ensures !HasAccess(cfg, AccountAfter(created, history), later)
  {
    if history.Some? {
      PastDueSinceIsSpellStart(history.value);
    }
  }

  /** A past-due shop has access exactly until the grace after the first event of the spell is over. */
  lemma GraceRunsFromSpellStart(cfg: Config, created: Time, events: seq<Event>, now: Time)
    requires Enforced(cfg) && Run(events).status == PastDue
    ensures SpellStart(events).Some?
    ensures HasAccess(cfg, Account(created, Some(Run(events))), now)
       <==> now < SpellStart(events).value + cfg.graceDays * DAY
  {
    PastDueSinceIsSpellStart(events);
  }

  // ---- the row as the code updates it ------------------------------------------------------------------

  class SubscriptionRow {
    var status: Status
    var membershipId: string
    var checkoutId: string
    var whopStatus: string
    var manageUrl: string
    var periodEnd: Option<Time>
    var cancelAtPeriodEnd: bool
    var pastDueSince: Option<Time>
    var activatedAt: Option<Time>
    var canceledAt: Option<Time>
    var trialEndsOverride: Option<Time>

    function Value(): Subscription
      reads this
    {
      Subscription(status, membershipId, checkoutId, whopStatus, manageUrl, periodEnd, cancelAtPeriodEnd,
                   pastDueSince, activatedAt, canceledAt, trialEndsOverride)
    }

    constructor ()
      ensures Value() == FRESH
    {
      status, membershipId, checkoutId, whopStatus, manageUrl := Trial, "", "", "", "";
      periodEnd, cancelAtPeriodEnd := None, false;
      pastDueSince, activatedAt, canceledAt, trialEndsOverride := None, None, None, None;
    }

    method ApplyMembership(data: Membership, now: Time)
      modifies this
      ensures Value() == Apply(old(Value()), data, now)
    {
      hide StatusOf, Cut, IsMembershipId;
      if !IsMembershipId(data.id) {
        return;
      }
      if membershipId != "" && membershipId != data.id {
        if StatusOf(data.status) != Some(Active) && status == Active {
          return;
        }
      }
      CopyFields(data);
      StampTimes(data, now);
    }

    method CopyFields(data: Membership)
      modifies this
      ensures Value() == Recorded(old(Value()), data)
    {
      hide StatusOf, Cut;
      var newStatus := StatusOf(data.status);
      membershipId := data.id;
      whopStatus := Cut(data.status, 20);
      manageUrl := Cut(data.manageUrl, 500);
      periodEnd := data.periodEnd;
      cancelAtPeriodEnd := data.cancelAtPeriodEnd;
      if data.checkoutId != "" {
        checkoutId := Cut(data.checkoutId, 64);
      }
      if newStatus.Some? && newStatus.value != status {
        status := newStatus.value;
      }
    }

    method StampTimes(data: Membership, now: Time)
      modifies `pastDueSince, `activatedAt, `canceledAt
      ensures activatedAt == if status == Active then Or(old(activatedAt), Some(now)) else old(activatedAt)
      ensures canceledAt ==
        if status == Canceled then Or(data.canceledAt, Or(old(canceledAt), Some(now))) else old(canceledAt)
      ensures pastDueSince ==
        if status == PastDue then Or(old(pastDueSince), Some(now))
        else if status == Trial then old(pastDueSince)
        else None
    {
      if status == Active {
        activatedAt := Or(activatedAt, Some(now));
        pastDueSince := None;
      } else if status == PastDue {
        pastDueSince := Or(pastDueSince, Some(now));
      } else if status == Canceled {
        canceledAt := Or(data.canceledAt, Or(canceledAt, Some(now)));
        pastDueSince := None;
      }
    }

    method LinkPayment(id: string)
      modifies this
      ensures Value() == Handle(old(Value()), PaymentEvent(id))
    {
      if membershipId == "" {
        membershipId := Cut(id, 64);
      }
    }
  }
}
