/**
  The notification record and the three-rule urgent/deferred decision.
  Urgencies are integer hundredths of the source's [0, 1] scale.
 */
module Classifier {
  import opened Context

  /** The source kinds a notification can come from. */
  datatype Kind = Email | Slack | Calendar | Social | App

  /**
    One inbound item. `id` stands for the identity of the JavaScript object:
    two notifications are the same item exactly when their ids agree.
   */
  datatype Notification = Notification(id: nat, kind: Kind, sender: string, content: string, urgency: int)

  datatype Verdict = Urgent | Deferred

  /** Calendar events above this urgency are urgent whatever the mode. */
  const CalendarBar: int := 70

  /** The decision against an explicit threshold. */
  function ClassifyAt(n: Notification, threshold: int): (v: Verdict)
    ensures n.urgency >= threshold ==> v == Urgent
    ensures n.kind == Calendar && n.urgency > CalendarBar ==> v == Urgent
    ensures n.kind != Calendar ==> (v == Urgent <==> n.urgency >= threshold)
    ensures v == Urgent ==> n.urgency >= threshold || (n.kind == Calendar && n.urgency > CalendarBar)
  {
    if n.urgency >= threshold then Urgent
    else if n.kind == Calendar && n.urgency > CalendarBar then Urgent
    else Deferred
  }

  /** The decision under a context mode's threshold. */
  function Classify(n: Notification, mode: ContextMode): (v: Verdict)
    ensures v == Urgent <==> n.urgency >= mode.Threshold() || (n.kind == Calendar && n.urgency > CalendarBar)
  {
    ClassifyAt(n, mode.Threshold())
  }

  /**
    The manager's classifier reads the mode its detector holds from
    construction on: Deep Focus. There a calendar event is urgent exactly
    above the calendar bar, and anything else exactly from 80 up.
   */
  lemma ManagerVerdict(n: Notification)
    ensures n.kind == Calendar ==> (Classify(n, InitialMode) == Urgent <==> n.urgency > CalendarBar)
    ensures n.kind != Calendar ==> (Classify(n, InitialMode) == Urgent <==> n.urgency >= 80)
  {
  }

  /**
    The other two modes of the catalog: In Meeting lets a non-calendar item
    through exactly from 90 up and a calendar event exactly above 70;
    Available lets anything through exactly from 50 up.
   */
  lemma CatalogVerdicts(n: Notification)
    ensures n.kind != Calendar ==> (Classify(n, InMeeting) == Urgent <==> n.urgency >= 90)
    ensures n.kind == Calendar ==> (Classify(n, InMeeting) == Urgent <==> n.urgency > CalendarBar)
    ensures Classify(n, Available) == Urgent <==> n.urgency >= 50
  {
  }

  /** Lowering the threshold never turns an urgent verdict into a deferred one. */
  lemma LowerThresholdKeepsUrgent(n: Notification, t: int, t': int)
    requires t' <= t
    ensures ClassifyAt(n, t) == Urgent ==> ClassifyAt(n, t') == Urgent
  {
  }

  /** Raising the urgency never turns an urgent verdict into a deferred one. */
  lemma HigherUrgencyKeepsUrgent(n: Notification, u: int, t: int)
    requires n.urgency <= u
    ensures ClassifyAt(n, t) == Urgent ==> ClassifyAt(n.(urgency := u), t) == Urgent
  {
  }

  /** The calendar rule only matters for thresholds above the calendar bar. */
  lemma CalendarRuleIdleAtLowThresholds(n: Notification, t: int)
    requires t <= CalendarBar + 1
    ensures ClassifyAt(n, t) == ClassifyAt(n.(kind := Email), t)
  {
  }

  /** Modes ordered by strictness: Available, then Deep Focus, then In Meeting. */
  predicate AtLeastAsStrict(m1: ContextMode, m2: ContextMode) {
    m1.Threshold() >= m2.Threshold()
  }

  /** What a stricter mode lets through, a laxer mode lets through too. */
  lemma StricterModeUrgentImpliesLaxerUrgent(n: Notification, strict: ContextMode, lax: ContextMode)
    requires AtLeastAsStrict(strict, lax)
    ensures Classify(n, strict) == Urgent ==> Classify(n, lax) == Urgent
  {
    LowerThresholdKeepsUrgent(n, strict.Threshold(), lax.Threshold());
  }
}
