/**
  The notification manager's three FIFO queues and the timer continuations
  that move a notification through them, as a state machine whose steps are
  the callbacks: an admission (the batch's staggered call of
  `processNotification`), a decision (the classification callback) and a
  transfer (the routing callback). Which pending callback fires next is the
  caller's choice, so every interleaving of timers is covered.
 */
module Pipeline {
  import opened Context
  import opened Classifier

  /** The queues and the count of deferred notifications. */
  datatype Queues = Queues(incoming: seq<Notification>, urgent: seq<Notification>, deferred: seq<Notification>, blocked: nat)

  /** Some entry of `s` is the notification with identity `id` (`find(n => n.data === notification)`). */
  predicate Holds(s: seq<Notification>, id: nat) {
    exists i :: 0 <= i < |s| && s[i].id == id
  }

  /** Membership splits at the head of the queue. */
  lemma HoldsSplit(s: seq<Notification>, id: nat)
    requires s != []
    ensures Holds(s, id) <==> s[0].id == id || Holds(s[1..], id)
  {
    if Holds(s, id) && s[0].id != id {
      var i :| 0 <= i < |s| && s[i].id == id;
      assert s[1..][i - 1] == s[i];
    }
    if Holds(s[1..], id) {
      var i :| 0 <= i < |s[1..]| && s[1..][i].id == id;
      assert s[i + 1] == s[1..][i];
    }
  }

  /** `s` without any entry for `id` (`filter(n => n.data !== notification)`). */
  function Without(s: seq<Notification>, id: nat): (r: seq<Notification>)
    ensures !Holds(r, id)
    ensures forall x :: x in r <==> x in s && x.id != id
    ensures forall x: Notification :: x.id != id ==> multiset(r)[x] == multiset(s)[x]
    ensures Holds(s, id) ==> |r| < |s|
    ensures !Holds(s, id) ==> r == s
  {
    if s == [] then []
    else
      var rest := Without(s[1..], id);
      assert s == [s[0]] + s[1..];
      HoldsSplit(s, id);
      if s[0].id == id then rest
      else
        HoldsSplit([s[0]] + rest, id);
        assert ([s[0]] + rest)[1..] == rest;
        [s[0]] + rest
  }

  /** Removal works piecewise, so the entries that stay keep their relative order. */
  lemma {:induction false} WithoutAppend(a: seq<Notification>, b: seq<Notification>, id: nat)
    ensures Without(a + b, id) == Without(a, id) + Without(b, id)
    decreases |a|
  {
    if a == [] {
      assert a + b == b;
    } else {
      assert (a + b)[1..] == a[1..] + b;
      WithoutAppend(a[1..], b, id);
    }
  }

  // ---------------------------------------------------------------------
  // Queue operations
  // ---------------------------------------------------------------------

  /** `addToIncoming`: the notification joins the end of the incoming queue. */
  function AddToIncoming(q: Queues, n: Notification): (r: Queues)
    ensures r.incoming == q.incoming + [n] && Holds(r.incoming, n.id)
    ensures r.urgent == q.urgent && r.deferred == q.deferred && r.blocked == q.blocked
  {
    var r := q.(incoming := q.incoming + [n]);
    assert r.incoming[|q.incoming|] == n;
    r
  }

  /** The lane a verdict sends a notification to (`addToUrgent` or `addToDeferred`). */
  function AddToLane(q: Queues, n: Notification, v: Verdict): (r: Queues)
    ensures v == Urgent ==> r.urgent == q.urgent + [n] && r.deferred == q.deferred
    ensures v == Deferred ==> r.deferred == q.deferred + [n] && r.urgent == q.urgent
    ensures r.incoming == q.incoming && r.blocked == q.blocked
  {
    match v
    case Urgent => q.(urgent := q.urgent + [n])
    case Deferred => q.(deferred := q.deferred + [n])
  }

  /**
    The routing callback as the source writes it: drop every incoming entry
    for the notification and append it to its lane, without looking whether
    it is still there.
   */
  function MoveAsWritten(q: Queues, n: Notification, v: Verdict): (r: Queues)
    ensures r.incoming == Without(q.incoming, n.id) && !Holds(r.incoming, n.id)
    ensures v == Urgent ==> r.urgent == q.urgent + [n] && r.deferred == q.deferred
    ensures v == Deferred ==> r.deferred == q.deferred + [n] && r.urgent == q.urgent
    ensures r.blocked == q.blocked
  {
    AddToLane(q.(incoming := Without(q.incoming, n.id)), n, v)
  }

  /**
    `routeNotification` with the guard re-evaluated when the move runs: when
    the notification is not in the incoming queue nothing changes; otherwise
    every incoming entry for it is removed and it is appended to exactly one
    lane.
   */
  function Route(q: Queues, n: Notification, v: Verdict): (r: Queues)
    ensures !Holds(q.incoming, n.id) ==> r == q
    ensures Holds(q.incoming, n.id) ==>
              && r.incoming == Without(q.incoming, n.id)
              && (v == Urgent ==> r.urgent == q.urgent + [n] && r.deferred == q.deferred)
              && (v == Deferred ==> r.deferred == q.deferred + [n] && r.urgent == q.urgent)
    ensures r.blocked == q.blocked
    ensures |r.incoming| + |r.urgent| + |r.deferred| <= |q.incoming| + |q.urgent| + |q.deferred|
  {
    if Holds(q.incoming, n.id) then MoveAsWritten(q, n, v) else q
  }

  /** The clearing half of `simulateBatch`: all three queues become empty; the count stays. */
  function Clear(q: Queues): (r: Queues)
    ensures r.incoming == [] && r.urgent == [] && r.deferred == [] && r.blocked == q.blocked
  {
    Queues([], [], [], q.blocked)
  }

  // ---------------------------------------------------------------------
  // Timer callbacks as events
  // ---------------------------------------------------------------------

  /** A scheduled callback. */
  datatype Event =
    | Admit(n: Notification)                   // the batch's staggered `processNotification(n)`
    | Decide(n: Notification)                  // the classification callback of `processNotification`
    | Transfer(n: Notification, v: Verdict)    // the routing callback of `routeNotification`

  /** The verdict a decision reaches and the blocked count it leaves (app.js:195-203). */
  function Decided(q: Queues, n: Notification, mode: ContextMode): (r: Queues)
    ensures r.incoming == q.incoming && r.urgent == q.urgent && r.deferred == q.deferred
    ensures Classify(n, mode) == Deferred ==> r.blocked == q.blocked + 1
    ensures Classify(n, mode) == Urgent ==> r.blocked == q.blocked
  {
    q.(blocked := if Classify(n, mode) == Deferred then q.blocked + 1 else q.blocked)
  }

  /** What a decision schedules: the transfer, when the notification is still incoming. */
  function Scheduled(q: Queues, n: Notification, mode: ContextMode): (r: seq<Event>)
    ensures Holds(q.incoming, n.id) ==> r == [Transfer(n, Classify(n, mode))]
    ensures !Holds(q.incoming, n.id) ==> r == []
  {
    if Holds(q.incoming, n.id) then [Transfer(n, Classify(n, mode))] else []
  }

  /**
    Runs one callback against the queues as the source does; returns the new
    queues and the callbacks it schedules. The transfer moves the notification
    whether or not it is still incoming.
   */
  function Fire(q: Queues, e: Event, mode: ContextMode): (r: (Queues, seq<Event>))
    ensures e.Admit? ==> r.0 == AddToIncoming(q, e.n) && r.1 == [Decide(e.n)]
    ensures e.Decide? ==>
              && r.0.incoming == q.incoming && r.0.urgent == q.urgent && r.0.deferred == q.deferred
              && (Classify(e.n, mode) == Deferred ==> r.0.blocked == q.blocked + 1)
              && (Classify(e.n, mode) == Urgent ==> r.0.blocked == q.blocked)
              && (Holds(q.incoming, e.n.id) ==> r.1 == [Transfer(e.n, Classify(e.n, mode))])
              && (!Holds(q.incoming, e.n.id) ==> r.1 == [])
    ensures e.Transfer? ==>
              && r.0.incoming == Without(q.incoming, e.n.id)
              && (e.v == Urgent ==> r.0.urgent == q.urgent + [e.n] && r.0.deferred == q.deferred)
              && (e.v == Deferred ==> r.0.deferred == q.deferred + [e.n] && r.0.urgent == q.urgent)
              && r.1 == []
    ensures r.0.blocked >= q.blocked
  {
    match e
    case Admit(n) => (AddToIncoming(q, n), [Decide(n)])
    case Decide(n) => (Decided(q, n, mode), Scheduled(q, n, mode))
    case Transfer(n, v) => (MoveAsWritten(q, n, v), [])
  }

  /**
    The corrected callbacks: the same as `Fire`, except that the transfer
    re-checks that the notification is still incoming.
   */
  function FireCorrected(q: Queues, e: Event, mode: ContextMode): (r: (Queues, seq<Event>))
    ensures !e.Transfer? ==> r == Fire(q, e, mode)
    ensures e.Transfer? ==> r.0 == Route(q, e.n, e.v) && r.1 == []
    ensures e.Transfer? && Holds(q.incoming, e.n.id) ==> r == Fire(q, e, mode)
    ensures r.0.blocked >= q.blocked
  {
    match e
    case Transfer(n, v) => (Route(q, n, v), [])
    case _ => Fire(q, e, mode)
  }

  /** The manager's queues together with the callbacks still waiting on a timer. */
  datatype System = System(queues: Queues, pending: seq<Event>)

  /** The number of entries over all three queues. */
  function Size(q: Queues): nat {
    |q.incoming| + |q.urgent| + |q.deferred|
  }

  /** The pending callbacks once the `i`-th has fired and scheduled `scheduled`. */
  function Remaining(pending: seq<Event>, i: nat, scheduled: seq<Event>): (r: seq<Event>)
    requires i < |pending|
    ensures |r| == |pending| - 1 + |scheduled|
    ensures forall e :: e in r <==> e in pending[..i] + pending[i + 1..] || e in scheduled
  {
    pending[..i] + pending[i + 1..] + scheduled
  }

  /** A callback scheduled by a step is the last one pending. */
  lemma RemainingLast(pending: seq<Event>, i: nat, e: Event)
    requires i < |pending|
    ensures |Remaining(pending, i, [e])| > 0
    ensures Remaining(pending, i, [e])[|Remaining(pending, i, [e])| - 1] == e
  {
  }

  /**
    The `i`-th pending callback fires as the source runs it; what it schedules
    joins the pending set. A decision leaves the queues as they are; a
    transfer adds one lane entry and removes the incoming ones, so it grows
    the queues exactly when the notification was no longer incoming.
   */
  function Step(sys: System, i: nat, mode: ContextMode): (r: System)
    requires i < |sys.pending|
    ensures r.queues.blocked >= sys.queues.blocked
    ensures |r.pending| <= |sys.pending|
    ensures sys.pending[i].Admit? ==> r.pending == Remaining(sys.pending, i, [Decide(sys.pending[i].n)])
    ensures sys.pending[i].Decide? && Holds(sys.queues.incoming, sys.pending[i].n.id) ==>
              r.pending == Remaining(sys.pending, i, [Transfer(sys.pending[i].n, Classify(sys.pending[i].n, mode))])
    ensures sys.pending[i].Decide? && !Holds(sys.queues.incoming, sys.pending[i].n.id) ==>
              r.pending == Remaining(sys.pending, i, [])
    ensures sys.pending[i].Transfer? ==> r.pending == Remaining(sys.pending, i, [])
    ensures sys.pending[i].Decide? ==> Size(r.queues) == Size(sys.queues)
    ensures sys.pending[i].Transfer? && Holds(sys.queues.incoming, sys.pending[i].n.id) ==>
              Size(r.queues) <= Size(sys.queues)
    ensures sys.pending[i].Transfer? && !Holds(sys.queues.incoming, sys.pending[i].n.id) ==>
              Size(r.queues) == Size(sys.queues) + 1
  {
    var (q, scheduled) := Fire(sys.queues, sys.pending[i], mode);
    System(q, Remaining(sys.pending, i, scheduled))
  }

  /** The `i`-th pending callback fires with the corrected transfer. */
  function StepCorrected(sys: System, i: nat, mode: ContextMode): (r: System)
    requires i < |sys.pending|
    ensures r.queues.blocked >= sys.queues.blocked
    ensures |r.pending| <= |sys.pending|
    ensures sys.pending[i].Admit? ==> r.pending == Remaining(sys.pending, i, [Decide(sys.pending[i].n)])
    ensures sys.pending[i].Decide? && Holds(sys.queues.incoming, sys.pending[i].n.id) ==>
              r.pending == Remaining(sys.pending, i, [Transfer(sys.pending[i].n, Classify(sys.pending[i].n, mode))])
    ensures sys.pending[i].Decide? && !Holds(sys.queues.incoming, sys.pending[i].n.id) ==>
              r.pending == Remaining(sys.pending, i, [])
    ensures sys.pending[i].Transfer? ==> r.pending == Remaining(sys.pending, i, [])
    ensures !sys.pending[i].Admit? ==> Size(r.queues) <= Size(sys.queues)
  {
    var (q, scheduled) := FireCorrected(sys.queues, sys.pending[i], mode);
    System(q, Remaining(sys.pending, i, scheduled))
  }

  /**
    `simulateBatch` with the batch given: the queues are cleared and one
    admission per notification is scheduled. Callbacks already pending stay
    pending; the source cancels none of them.
   */
  function SimulateBatch(sys: System, batch: seq<Notification>): (r: System)
    ensures r.queues == Clear(sys.queues)
    ensures r.pending == sys.pending + seq(|batch|, i requires 0 <= i < |batch| => Admit(batch[i]))
  {
    System(Clear(sys.queues), sys.pending + seq(|batch|, i requires 0 <= i < |batch| => Admit(batch[i])))
  }

  // ---------------------------------------------------------------------
  // One notification's lifecycle
  // ---------------------------------------------------------------------

  /**
    An admission, then the decision it schedules, then the transfer that
    schedules, as the source runs them: the notification leaves the incoming
    queue, ends the lane its verdict names, and `blocked` rose by exactly one
    when the verdict is deferred.
   */
  lemma Lifecycle(sys: System, i: nat, n: Notification, mode: ContextMode)
    requires i < |sys.pending| && sys.pending[i] == Admit(n)
    ensures var s1 := Step(sys, i, mode);
            && |s1.pending| > 0 && s1.pending[|s1.pending| - 1] == Decide(n)
            && var s2 := Step(s1, |s1.pending| - 1, mode);
            && |s2.pending| > 0 && s2.pending[|s2.pending| - 1] == Transfer(n, Classify(n, mode))
            && var s3 := Step(s2, |s2.pending| - 1, mode);
            && !Holds(s3.queues.incoming, n.id)
            && (Classify(n, mode) == Urgent ==> s3.queues.urgent == s2.queues.urgent + [n])
            && (Classify(n, mode) == Deferred ==> s3.queues.deferred == s2.queues.deferred + [n])
            && s3.queues.blocked == sys.queues.blocked + (if Classify(n, mode) == Deferred then 1 else 0)
  {
    var v := Classify(n, mode);
    var s1 := Step(sys, i, mode);
    RemainingLast(sys.pending, i, Decide(n));
    assert Holds(s1.queues.incoming, n.id);
    var s2 := Step(s1, |s1.pending| - 1, mode);
    RemainingLast(s1.pending, |s1.pending| - 1, Transfer(n, v));
    assert s2.queues.incoming == s1.queues.incoming;
  }

  /** The same lifecycle with the corrected transfer ends the same way. */
  lemma LifecycleCorrected(sys: System, i: nat, n: Notification, mode: ContextMode)
    requires i < |sys.pending| && sys.pending[i] == Admit(n)
    ensures var s1 := StepCorrected(sys, i, mode);
            && |s1.pending| > 0 && s1.pending[|s1.pending| - 1] == Decide(n)
            && var s2 := StepCorrected(s1, |s1.pending| - 1, mode);
            && |s2.pending| > 0 && s2.pending[|s2.pending| - 1] == Transfer(n, Classify(n, mode))
            && var s3 := StepCorrected(s2, |s2.pending| - 1, mode);
            && !Holds(s3.queues.incoming, n.id)
            && (Classify(n, mode) == Urgent ==> s3.queues.urgent == s2.queues.urgent + [n])
            && (Classify(n, mode) == Deferred ==> s3.queues.deferred == s2.queues.deferred + [n])
            && s3.queues.blocked == sys.queues.blocked + (if Classify(n, mode) == Deferred then 1 else 0)
  {
    var v := Classify(n, mode);
    var s1 := StepCorrected(sys, i, mode);
    RemainingLast(sys.pending, i, Decide(n));
    assert Holds(s1.queues.incoming, n.id);
    var s2 := StepCorrected(s1, |s1.pending| - 1, mode);
    RemainingLast(s1.pending, |s1.pending| - 1, Transfer(n, v));
    assert s2.queues.incoming == s1.queues.incoming;
  }

  // ---------------------------------------------------------------------
  // Callbacks that outlive their notification
  // ---------------------------------------------------------------------

  /**
    With the corrected transfer, a decision or transfer whose notification is
    no longer incoming leaves all three queues as they are, at any point and
    with any batch in between.
   */
  lemma StaleCallbacksInert(sys: System, i: nat, mode: ContextMode)
    requires i < |sys.pending| && !sys.pending[i].Admit?
    requires !Holds(sys.queues.incoming, sys.pending[i].n.id)
    ensures StepCorrected(sys, i, mode).queues.incoming == sys.queues.incoming
    ensures StepCorrected(sys, i, mode).queues.urgent == sys.queues.urgent
    ensures StepCorrected(sys, i, mode).queues.deferred == sys.queues.deferred
  {
  }

  /**
    As the source runs it, a transfer whose notification is no longer
    incoming still puts that notification into its lane.
   */
  lemma StaleTransferAppends(sys: System, i: nat, mode: ContextMode)
    requires i < |sys.pending| && sys.pending[i].Transfer?
    requires !Holds(sys.queues.incoming, sys.pending[i].n.id)
    ensures Step(sys, i, mode).queues.incoming == sys.queues.incoming
    ensures sys.pending[i].v == Urgent ==> Step(sys, i, mode).queues.urgent == sys.queues.urgent + [sys.pending[i].n]
    ensures sys.pending[i].v == Deferred ==> Step(sys, i, mode).queues.deferred == sys.queues.deferred + [sys.pending[i].n]
  {
  }

  /**
    A new batch of any size, followed by a callback left over from the old
    batch. With the corrected transfer, a leftover decision or transfer keeps
    the queues empty, while a leftover admission still puts its notification
    into the incoming queue of the new batch. As the source runs it, a
    leftover transfer puts its notification into a lane of the new batch.
   */
  lemma ResetThenLeftover(sys: System, batch: seq<Notification>, i: nat, mode: ContextMode)
    requires i < |sys.pending|
    ensures SimulateBatch(sys, batch).pending[i] == sys.pending[i]
    ensures !sys.pending[i].Admit? ==> Size(StepCorrected(SimulateBatch(sys, batch), i, mode).queues) == 0
    ensures sys.pending[i].Admit? ==>
              StepCorrected(SimulateBatch(sys, batch), i, mode).queues == Queues([sys.pending[i].n], [], [], sys.queues.blocked)
    ensures sys.pending[i].Transfer? ==>
              sys.pending[i].n in Step(SimulateBatch(sys, batch), i, mode).queues.urgent
                                    + Step(SimulateBatch(sys, batch), i, mode).queues.deferred
  {
    var reset := SimulateBatch(sys, batch);
    assert reset.pending[i] == sys.pending[i];
    if !sys.pending[i].Admit? {
      StaleCallbacksInert(reset, i, mode);
    }
    if sys.pending[i].Transfer? {
      StaleTransferAppends(reset, i, mode);
    }
  }

  /**
    The routing callback as written re-admits a notification that a reset
    removed: the decision finds it in the incoming queue and schedules the
    transfer, the queues are cleared, and the transfer still appends it to a
    lane. With the guard re-evaluated, the same transfer changes nothing.
   */
  lemma PhantomAfterClear(q: Queues, n: Notification, mode: ContextMode)
    requires Holds(q.incoming, n.id)
    ensures Fire(q, Decide(n), mode).1 == [Transfer(n, Classify(n, mode))]
    ensures n in MoveAsWritten(Clear(Fire(q, Decide(n), mode).0), n, Classify(n, mode)).urgent
               + MoveAsWritten(Clear(Fire(q, Decide(n), mode).0), n, Classify(n, mode)).deferred
    ensures Route(Clear(Fire(q, Decide(n), mode).0), n, Classify(n, mode)) == Clear(Fire(q, Decide(n), mode).0)
  {
  }

  // ---------------------------------------------------------------------
  // Lane soundness
  // ---------------------------------------------------------------------

  /**
    Every notification in a lane got that lane's verdict under `mode`, and
    every pending transfer carries the verdict its notification gets.
   */
  predicate Sound(sys: System, mode: ContextMode) {
    && (forall x :: x in sys.queues.urgent ==> Classify(x, mode) == Urgent)
    && (forall x :: x in sys.queues.deferred ==> Classify(x, mode) == Deferred)
    && (forall e :: e in sys.pending && e.Transfer? ==> e.v == Classify(e.n, mode))
  }

  /** A fired callback schedules only transfers that carry their notification's verdict. */
  lemma ScheduledSound(q: Queues, e: Event, mode: ContextMode)
    ensures forall x :: x in Fire(q, e, mode).1 && x.Transfer? ==> x.v == Classify(x.n, mode)
    ensures forall x :: x in FireCorrected(q, e, mode).1 && x.Transfer? ==> x.v == Classify(x.n, mode)
  {
  }

  /** Firing any pending callback, as the source runs it, keeps the lanes sound. */
  lemma StepKeepsSound(sys: System, i: nat, mode: ContextMode)
    requires Sound(sys, mode) && i < |sys.pending|
    ensures Sound(Step(sys, i, mode), mode)
  {
    var e := sys.pending[i];
    ScheduledSound(sys.queues, e, mode);
    assert forall x :: x in sys.pending[..i] + sys.pending[i + 1..] ==> x in sys.pending;
    if e.Transfer? {
      assert e in sys.pending;
    }
  }

  /** Firing any pending callback with the corrected transfer keeps the lanes sound. */
  lemma StepCorrectedKeepsSound(sys: System, i: nat, mode: ContextMode)
    requires Sound(sys, mode) && i < |sys.pending|
    ensures Sound(StepCorrected(sys, i, mode), mode)
  {
    var e := sys.pending[i];
    ScheduledSound(sys.queues, e, mode);
    assert forall x :: x in sys.pending[..i] + sys.pending[i + 1..] ==> x in sys.pending;
    if e.Transfer? {
      assert e in sys.pending;
    }
  }

  /** Starting a batch keeps the lanes sound. */
  lemma SimulateBatchKeepsSound(sys: System, batch: seq<Notification>, mode: ContextMode)
    requires Sound(sys, mode)
    ensures Sound(SimulateBatch(sys, batch), mode)
  {
  }
}
