/**
 * Which rows a run takes to the cancel: over every run those of the period that the provider answered last,
 * and rows of an earlier period never.
 */
module DowngradePeriods {
  import opened Options
  import opened Downgrade
  import opened DowngradeSafety

  /** The last answer about the refund basis since the run of a job began. */
  function LastAnswer(events: seq<Event>): Option<Option<Basis>> {
    if events == [] then None
    else
      var e := events[|events| - 1];
      if e.Start? then None
      else if e.Step? && e.reply.BasisReply? then Some(e.reply.basis)
      else LastAnswer(events[..|events| - 1])
  }

  lemma LastAnswerAfter(events: seq<Event>, i: nat)
    requires i < |events|
    ensures LastAnswer(events[..i + 1]) == if events[i].Start? then None
                                           else if events[i].Step? && events[i].reply.BasisReply? then Some(events[i].reply.basis)
                                           else LastAnswer(events[..i])
  {
    assert events[..i + 1][..i] == events[..i];
  }

  // ----- The invariant -----

  /** The rows of one plan are of one period. */
  ghost predicate PlanPeriods(rows: seq<Remedy>) {
    forall a, b | 0 <= a < |rows| && 0 <= b < |rows| && rows[a].cause.Cancel? && rows[b].cause.Cancel?
                  && rows[a].plan == rows[b].plan :: rows[a].periodStart == rows[b].periodStart
  }

  ghost predicate OfPeriod(rows: seq<Remedy>, ids: seq<RemedyId>, start: int) {
    forall i | 0 <= i < |ids| :: ids[i] < |rows| && rows[ids[i]].periodStart == start
  }

  predicate HoldsBasis(at: Point) { at.AskPeriod? || at.ReadPayments? || at.Save? || at.CancelNow? }

  ghost predicate JobPeriod(s: State, last: Option<Option<Basis>>) {
    s.job.Running? ==>
      && (s.job.at.AskPeriod? || s.job.at.ReadPayments? ==> last == Some(Some(s.job.at.basis)))
      && (s.job.at.Save? ==>
            && last.Some? && last.value.Some?
            && forall i | 0 <= i < |s.job.at.rows| :: s.job.at.rows[i].periodStart == last.value.value.periodStart)
      && (s.job.at.CancelNow? && last.Some? && last.value.Some? ==>
            OfPeriod(s.remedies, s.job.at.queued, last.value.value.periodStart))
  }

  ghost predicate PeriodSound(s: State, last: Option<Option<Basis>>) { PlanPeriods(s.remedies) && JobPeriod(s, last) }

  lemma RowsKeepPeriods(a: seq<Remedy>, b: seq<Remedy>)
    requires PlanPeriods(a) && SameMoney(a, b)
    ensures PlanPeriods(b)
  {
  }

  /** A step that leads to no point that holds a basis. */
  lemma QuietPeriods(s: State, t: State, last: Option<Option<Basis>>)
    requires PlanPeriods(s.remedies) && SameMoney(s.remedies, t.remedies)
    requires t.job.Running? ==> !HoldsBasis(t.job.at)
    ensures PeriodSound(t, last)
  {
    RowsKeepPeriods(s.remedies, t.remedies);
  }

  // ----- Planning -----

  lemma FailedKeepsPeriods(s: State, queued: seq<RemedyId>, last: Option<Option<Basis>>)
    requires PlanPeriods(s.remedies)
    ensures s.job.Running? ==> PeriodSound(StepFailed(s, Planning, queued), last)
  {
    if s.job.Running? {
      QuietPeriods(s, StepFailed(s, Planning, queued), last);
    }
  }

  /** All queued rows are of the first one's period. */
  lemma QueueIsOfOnePeriod(s: State, queued: seq<RemedyId>)
    requires PlanPeriods(s.remedies) && OnePlanSound(s.remedies, s.provider.refunds) && AllQueued(s.remedies, queued)
    ensures queued != [] ==> OfPeriod(s.remedies, queued, RowAt(s.remedies, queued[0]).periodStart)
  {
    forall i | 0 <= i < |queued|
      ensures queued[i] < |s.remedies| && s.remedies[queued[i]].periodStart == RowAt(s.remedies, queued[0]).periodStart
    {
      assert QueuedAt(s.remedies, queued[0]) && QueuedAt(s.remedies, queued[i]);
    }
  }

  lemma ReplanBasisPeriods(s: State, queued: seq<RemedyId>, reply: Reply)
    requires PlanPeriods(s.remedies) && OnePlanSound(s.remedies, s.provider.refunds) && s.job.Running?
    requires AllQueued(s.remedies, queued) && queued != []
    ensures reply.BasisReply? ==> PeriodSound(ReplanBasisStep(s, queued, reply), Some(reply.basis))
    ensures !reply.BasisReply? ==> forall last :: PeriodSound(ReplanBasisStep(s, queued, reply), last)
  {
    QueueIsOfOnePeriod(s, queued);
    if !reply.BasisReply? {
      forall last ensures PeriodSound(ReplanBasisStep(s, queued, reply), last) {
        FailedKeepsPeriods(s, queued, last);
      }
    }
  }

  lemma PlanBasisPeriods(s: State, queued: seq<RemedyId>, reply: Reply, last: Option<Option<Basis>>)
    requires PlanPeriods(s.remedies) && s.job.Running? && (reply.BasisReply? ==> last == Some(reply.basis))
    ensures PeriodSound(PlanBasisStep(s, queued, reply), last)
  {
    FailedKeepsPeriods(s, queued, last);
  }

  lemma AskPeriodPeriods(s: State, queued: seq<RemedyId>, basis: Basis, reply: Reply, last: Option<Option<Basis>>)
    requires PlanPeriods(s.remedies) && s.job.Running? && (reply.PeriodReply? ==> last == Some(Some(basis)))
    ensures PeriodSound(AskPeriodStep(s, queued, basis, reply), last)
  {
    FailedKeepsPeriods(s, queued, last);
  }

  lemma ReadPaymentsPeriods(s: State, queued: seq<RemedyId>, basis: Basis, paid: bool, cards: seq<CardPayment>,
                            reply: Reply, last: Option<Option<Basis>>)
    requires PlanPeriods(s.remedies) && s.job.Running? && (reply.Payments? ==> last == Some(Some(basis)))
    ensures PeriodSound(ReadPaymentsStep(s, queued, basis, paid, cards, reply), last)
  {
    FailedKeepsPeriods(s, queued, last);
    if reply.Payments? {
      var parts := PlanParts(basis, paid, s.job.now, PlanPayments(s.remedies, reply.rows, cards, s.job.now));
      RowsOfArePlanned(parts, |s.plans|, SubscriptionOf(s.job), basis.periodStart, 0, 0);
    }
  }

  lemma SavePeriods(s: State, queued: seq<RemedyId>, plan: Plan, rows: seq<Remedy>, reply: Reply,
                    last: Option<Option<Basis>>)
    requires PlanPeriods(s.remedies) && RowsSound(s.remedies, s.plans) && s.job.Running? && SaveSound(s, plan, rows)
    requires reply.Done? ==>
               && last.Some? && last.value.Some?
               && forall i | 0 <= i < |rows| :: rows[i].periodStart == last.value.value.periodStart
    ensures PeriodSound(SaveStep(s, queued, plan, rows, reply), last)
  {
    FailedKeepsPeriods(s, queued, last);
    if reply.Done? {
      var t, n := SaveStep(s, queued, plan, rows, reply), |s.remedies|;
      assert forall id | 0 <= id < n :: t.remedies[id] == s.remedies[id];
      assert forall id | n <= id < |t.remedies| :: t.remedies[id] == rows[id - n];
    }
  }

  lemma EarlyPeriods(s: State, reply: Reply, last: Option<Option<Basis>>)
    requires PlanPeriods(s.remedies) && s.job.Running?
    requires s.job.at.Supersede? || s.job.at.CountUsers? || s.job.at.ReleaseCancel?
    ensures PeriodSound(PlanningStep(s, reply), last)
  {
    QuietPeriods(s, PlanningStep(s, reply), last);
  }

  function After(last: Option<Option<Basis>>, reply: Reply): Option<Option<Basis>> {
    if reply.BasisReply? then Some(reply.basis) else last
  }

  lemma PlanningPeriods(s: State, reply: Reply, last: Option<Option<Basis>>)
    requires Safe(s) && PeriodSound(s, last) && s.job.Running? && IsPlanning(s.job.at)
    ensures PeriodSound(PlanningStep(s, reply), After(last, reply))
  {
    match s.job.at
    case ReplanBasis(queued) =>
      ReplanBasisPeriods(s, queued, reply);
    case PlanBasis(queued) =>
      PlanBasisPeriods(s, queued, reply, After(last, reply));
    case AskPeriod(queued, basis) =>
      AskPeriodPeriods(s, queued, basis, reply, After(last, reply));
    case ReadPayments(queued, basis, paid, cards) =>
      ReadPaymentsPeriods(s, queued, basis, paid, cards, reply, After(last, reply));
    case Save(queued, plan, rows) =>
      SavePeriods(s, queued, plan, rows, reply, After(last, reply));
    case _ =>
      EarlyPeriods(s, reply, After(last, reply));
  }

  lemma ClosingPeriods(s: State, reply: Reply, last: Option<Option<Basis>>)
    requires PlanPeriods(s.remedies) && s.job.Running? && !IsPlanning(s.job.at) && !IsSending(s.job.at)
    ensures PeriodSound(ClosingStep(s, reply), last)
  {
    QuietPeriods(s, ClosingStep(s, reply), last);
  }

  lemma SendingPeriods(s: State, reply: Reply, last: Option<Option<Basis>>)
    requires PlanPeriods(s.remedies) && s.job.Running? && IsSending(s.job.at)
    ensures PeriodSound(SendingStep(s, reply), last)
  {
    QuietPeriods(s, SendingStep(s, reply), last);
  }

  lemma StepPeriods(s: State, reply: Reply, last: Option<Option<Basis>>)
    requires Safe(s) && PeriodSound(s, last) && s.job.Running?
    ensures PeriodSound(JobStep(s, reply), After(last, reply))
  {
    if IsPlanning(s.job.at) {
      PlanningPeriods(s, reply, last);
    } else if IsSending(s.job.at) {
      SendingPeriods(s, reply, After(last, reply));
    } else {
      ClosingPeriods(s, reply, After(last, reply));
    }
  }

  lemma OtherPeriods(s: State, e: Event, last: Option<Option<Basis>>)
    requires PeriodSound(s, last) && Enabled(s, e) && !e.Step? && !e.Start?
    ensures PeriodSound(Next(s, e), last)
  {
    if e.OperatorRefunds? {
      OperatorPeriods(s, e, last);
    } else if e.RefundUpdated? {
      SettledAdvances(s, e.id, e.refund, e.state, e.at);
      QuietPeriods(s, Next(s, e), last);
    }
  }

  lemma OperatorPeriods(s: State, e: Event, last: Option<Option<Basis>>)
    requires PeriodSound(s, last) && e.OperatorRefunds?
    ensures PeriodSound(Next(s, e), last)
  {
    var t, n := Next(s, e), |s.remedies|;
    assert forall id | 0 <= id < n :: t.remedies[id] == s.remedies[id];
  }

  lemma StartPeriods(s: State, now: int)
    requires PlanPeriods(s.remedies) && s.job.Idle?
    ensures PeriodSound(Begin(s, now), None)
  {
    QuietPeriods(s, Begin(s, now), None);
  }

  lemma NextPeriods(s: State, e: Event, last: Option<Option<Basis>>)
    requires Safe(s) && PeriodSound(s, last) && Enabled(s, e)
    ensures PeriodSound(Next(s, e), if e.Start? then None else if e.Step? then After(last, e.reply) else last)
  {
    if e.Step? {
      StepPeriods(s, e.reply, last);
    } else if e.Start? {
      StartPeriods(s, e.now);
    } else {
      OtherPeriods(s, e, last);
    }
  }

  lemma {:induction false} RunPeriods(states: seq<State>, events: seq<Event>, i: nat)
    requires IsRun(states, events) && i < |states|
    ensures PeriodSound(states[i], LastAnswer(events[..i]))
  {
    if i > 0 {
      var s, e := states[i - 1], events[i - 1];
      RunPeriods(states, events, i - 1);
      RunIsSafe(states, events, i - 1);
      LastAnswerAfter(events, i - 1);
      NextPeriods(s, e, LastAnswer(events[..i - 1]));
    }
  }

  // ----- Theorems -----

  /**
   * Over every run: when a job stands at the cancel and the provider answered it last with a period, every row
   * that it takes to the cancel, and so every queued row there is, is of that period.
   */
  lemma CancelIsOfTheAnsweredPeriod(states: seq<State>, events: seq<Event>, i: nat, basis: Basis)
    requires IsRun(states, events) && i < |states| && states[i].job.Running? && states[i].job.at.CancelNow?
    requires LastAnswer(events[..i]) == Some(Some(basis))
    ensures var s := states[i];
            && (forall id | id in s.job.at.queued :: id < |s.remedies| && s.remedies[id].periodStart == basis.periodStart)
            && (forall id | 0 <= id < |s.remedies| && s.remedies[id].cause.Cancel? && s.remedies[id].status.Queued? ::
                  id in s.job.at.queued)
  {
    RunPeriods(states, events, i);
    RunIsSafe(states, events, i);
    assert forall id | 0 <= id < |states[i].remedies| && states[i].remedies[id].cause.Cancel?
                       && states[i].remedies[id].status.Queued? :: QueuedAt(states[i].remedies, id);
  }

  /**
   * Over every run: asked with rows queued, a job whose answer names their period goes to the cancel with the
   * queue as it found it; where a row is of another one, the job begins to fail them all.
   */
  lemma QueueStaysExactlyForItsPeriod(states: seq<State>, events: seq<Event>, i: nat, basis: Basis)
    requires IsRun(states, events) && i < |events| && states[i].job.Running? && states[i].job.at.ReplanBasis?
    requires events[i] == Step(BasisReply(Some(basis)))
    ensures var s, t := states[i], states[i + 1];
            var queued := s.job.at.queued;
            && Exactly(s.remedies, queued) && queued != [] && t.remedies == s.remedies && t.job.Running?
            && t.job.at == if OfPeriod(s.remedies, queued, basis.periodStart) then CancelNow(queued)
                           else Supersede(queued, queued)
  {
    RunPeriods(states, events, i);
    RunIsSafe(states, events, i);
    ReplanDecides(states[i], states[i].job.at.queued, basis);
    assert states[i + 1] == ReplanBasisStep(states[i], states[i].job.at.queued, BasisReply(Some(basis)));
  }

  lemma ReplanDecides(s: State, queued: seq<RemedyId>, basis: Basis)
    requires PlanPeriods(s.remedies) && OnePlanSound(s.remedies, s.provider.refunds) && s.job.Running?
    requires AllQueued(s.remedies, queued) && queued != []
    ensures ReplanBasisStep(s, queued, BasisReply(Some(basis))) ==
            Goto(s, if OfPeriod(s.remedies, queued, basis.periodStart) then CancelNow(queued)
                    else Supersede(queued, queued))
  {
    QueueIsOfOnePeriod(s, queued);
    assert QueuedAt(s.remedies, queued[0]);
  }
}
