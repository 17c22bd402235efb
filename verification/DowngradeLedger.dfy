/**
 * Agreement between the cancel rows and the refund rows of the billing history, under crashes while
 * sending and repeated or reordered refund updates.
 */
module DowngradeLedger {
  import opened Options
  import opened Downgrade
  import opened DowngradeSafety
  import opened DowngradeProgress

  function RefundKey(refund: nat): H.Key { H.Key(refund, H.Refund) }

  predicate IsSettling(status: RemedyStatus) { !status.Queued? && !status.Failed? }

  /** How a remedy's status reads in the customer's history. */
  function HistoryOf(status: RemedyStatus): H.RefundStatus {
    match status
    case Approved => H.Approved
    case Rejected => H.Rejected
    case Reversed => H.Rejected
    case _ => H.Pending
  }

  ghost predicate HistoryRow(s: State, refund: nat, amount: int, status: H.RefundStatus) {
    && RefundKey(refund) in s.history
    && var row := s.history[RefundKey(refund)];
       row.RefundRow? && row.company == COMPANY && row.amount == amount && row.status == status
  }

  /** A cancel row with a refund has its one history row, in step with its status. */
  ghost predicate Agrees(s: State, id: nat)
    requires id < |s.remedies|
  {
    var row := s.remedies[id];
    row.ref.Some? ==>
      && IsSettling(row.status)
      && id in s.provider.refunds && s.provider.refunds[id].id == row.ref.value
      && HistoryRow(s, row.ref.value, row.amount, HistoryOf(row.status))
  }

  /** The history row that a crash left behind is the refund's own, whatever state it shows. */
  ghost predicate LeftBehind(s: State, id: nat)
    requires id < |s.remedies|
  {
    var row := s.remedies[id];
    row.ref.None? ==>
      && !IsSettling(row.status)
      && (id in s.provider.refunds ==> OwnRefundOf(s.history, s.provider.refunds[id].id, row.amount))
  }

  /** The history row of a refund, if there is one, is the company's own refund row. */
  predicate OwnRefund(table: H.Table, refund: nat) {
    RefundKey(refund) in table ==> table[RefundKey(refund)].RefundRow? && table[RefundKey(refund)].company == COMPANY
  }

  predicate OwnRefundOf(table: H.Table, refund: nat, amount: int) {
    OwnRefund(table, refund) && (RefundKey(refund) in table ==> table[RefundKey(refund)].amount == amount)
  }

  /** The status that the customer's history shows for a refund. */
  function Shown(s: State, refund: nat): Option<H.RefundStatus> {
    if RefundKey(refund) in s.history && s.history[RefundKey(refund)].RefundRow?
    then Some(s.history[RefundKey(refund)].status) else None
  }

  ghost predicate RowLedger(s: State, id: nat)
    requires id < |s.remedies|
  {
    s.remedies[id].cause.Cancel? ==> Agrees(s, id) && LeftBehind(s, id)
  }

  ghost predicate DistinctRefunds(refunds: map<RemedyId, ProviderRefund>) {
    forall a, b | a in refunds && b in refunds && refunds[a].id == refunds[b].id :: a == b
  }

  ghost predicate HistoryHasOwner(s: State) {
    forall refund: nat | RefundKey(refund) in s.history ::
      exists id :: id in s.provider.refunds && s.provider.refunds[id].id == refund
  }

  ghost predicate LedgerJob(s: State) {
    s.job.Running? ==>
      && (s.job.at.SendHistory? || s.job.at.SendStatus? ==>
            s.job.at.queued != [] && s.job.at.queued[0] in s.provider.refunds
            && s.provider.refunds[s.job.at.queued[0]].id == s.job.at.refund.id)
      && (s.job.at.SendStatus? ==> RefundKey(s.job.at.refund.id) in s.history)
  }

  ghost predicate Ledger(s: State) {
    && (forall id: nat | id < |s.remedies| :: RowLedger(s, id))
    && DistinctRefunds(s.provider.refunds) && HistoryHasOwner(s) && LedgerJob(s)
  }

  /** The status write of a sent row: what it writes reads as the history row does. */
  ghost predicate WritesWhatIsShown(s: State, e: Event) {
    e.Step? && e.reply.Done? && s.job.Running? && s.job.at.SendStatus? ==>
      Shown(s, s.job.at.refund.id) == Some(HistoryStatusOf(s.job.at.refund.state))
  }

  /** Rows, history and refunds that moved in step. */
  lemma LedgerStays(s: State, t: State)
    requires Ledger(s) && LedgerJob(t) && t.history == s.history && t.provider.refunds == s.provider.refunds
    requires SameMoney(s.remedies, t.remedies)
    requires forall id | 0 <= id < |s.remedies| && t.remedies[id].cause.Cancel? ::
               t.remedies[id].ref == s.remedies[id].ref
               && (t.remedies[id].status == s.remedies[id].status
                   || (s.remedies[id].status.Queued? && t.remedies[id].status.Failed?))
    ensures Ledger(t)
  {
    forall id: nat | id < |t.remedies| ensures RowLedger(t, id) {
      assert RowLedger(s, id);
    }
  }

  lemma SupersedeKeepsLedger(s: State, rest: seq<RemedyId>, queued: seq<RemedyId>, reply: Reply)
    requires Ledger(s) && s.job.Running?
    ensures Ledger(SupersedeStep(s, rest, queued, reply))
  {
    LedgerStays(s, SupersedeStep(s, rest, queued, reply));
  }

  lemma PlanningKeepsLedger(s: State, reply: Reply)
    requires Ledger(s) && s.job.Running? && IsPlanning(s.job.at) && !s.job.at.Supersede? && (s.job.at.Save? ==> !reply.Done?)
    ensures Ledger(PlanningStep(s, reply))
  {
    PlanningMovesTheJob(s, reply);
    PlanningPlansOn(s, reply);
    LedgerStays(s, PlanningStep(s, reply));
  }

  lemma SaveKeepsLedger(s: State, queued: seq<RemedyId>, plan: Plan, rows: seq<Remedy>)
    requires SentSound(s.remedies, s.provider) && Ledger(s) && s.job.Running?
    requires forall i | 0 <= i < |rows| :: IsQueued(rows[i]) && rows[i].ref.None?
    ensures Ledger(SaveStep(s, queued, plan, rows, Done))
  {
    var t, n := SaveStep(s, queued, plan, rows, Done), |s.remedies|;
    forall id: nat | id < |t.remedies| ensures RowLedger(t, id) {
      if id < n {
        assert RowLedger(s, id) && t.remedies[id] == s.remedies[id];
      } else {
        assert t.remedies[id] == rows[id - n];
        assert id !in s.provider.refunds;
      }
    }
  }

  /** What the end of a run leaves of the rows: each as it was, or given up. */
  ghost predicate OnlyGivenUp(s: State, t: State) {
    && t.history == s.history && t.provider.refunds == s.provider.refunds
    && (t.job.Running? ==> !t.job.at.SendHistory? && !t.job.at.SendStatus?)
    && SameMoney(s.remedies, t.remedies)
    && forall id | 0 <= id < |s.remedies| ::
         t.remedies[id].ref == s.remedies[id].ref
         && (t.remedies[id].status == s.remedies[id].status
             || (s.remedies[id].status.Queued? && t.remedies[id].status.Failed?))
  }

  lemma ReleaseGivesUp(s: State, rest: seq<RemedyId>, reply: Reply)
    requires s.job.Running?
    ensures OnlyGivenUp(s, ReleaseRowsStep(s, rest, reply))
  {
  }

  lemma CancelGivesUp(s: State, queued: seq<RemedyId>, reply: Reply)
    requires s.job.Running?
    ensures OnlyGivenUp(s, CancelStep(s, queued, reply))
  {
  }

  lemma ClosingGivesUp(s: State, reply: Reply)
    requires s.job.Running? && !IsPlanning(s.job.at) && !IsSending(s.job.at)
    ensures OnlyGivenUp(s, ClosingStep(s, reply))
  {
    match s.job.at
    case ReleaseRows(rest) => ReleaseGivesUp(s, rest, reply);
    case CancelNow(queued) => CancelGivesUp(s, queued, reply);
    case CheckEnded(queued) => CheckEndedGivesUp(s, queued, reply);
    case _ =>
  }

  lemma CheckEndedGivesUp(s: State, queued: seq<RemedyId>, reply: Reply)
    requires s.job.Running?
    ensures OnlyGivenUp(s, CheckEndedStep(s, queued, reply))
  {
  }

  lemma ClosingKeepsLedger(s: State, reply: Reply)
    requires Ledger(s) && s.job.Running? && !IsPlanning(s.job.at) && !IsSending(s.job.at)
    ensures Ledger(ClosingStep(s, reply))
  {
    ClosingGivesUp(s, reply);
    LedgerStays(s, ClosingStep(s, reply));
  }

  lemma SendCallKeepsLedger(s: State, id: RemedyId, refund: ProviderRefund, t: State)
    requires Ledger(s) && QueuedAt(s.remedies, id) && HonestRefund(s, id, refund)
    requires t == WithProviderRefund(s, id, refund).(job := t.job) && LedgerJob(t)
    ensures Ledger(t)
  {
    forall i: nat | i < |t.remedies| ensures RowLedger(t, i) {
      assert RowLedger(s, i);
    }
    forall r: nat | RefundKey(r) in t.history
      ensures exists i :: i in t.provider.refunds && t.provider.refunds[i].id == r
    {
      var i :| i in s.provider.refunds && s.provider.refunds[i].id == r;
      assert t.provider.refunds[i].id == r;
    }
  }

  lemma SendHistoryKeepsLedger(s: State, queued: seq<RemedyId>, refund: ProviderRefund)
    requires Ledger(s) && s.job.Running? && s.job.at == SendHistory(queued, refund)
    requires QueuedAt(s.remedies, queued[0])
    ensures Ledger(SendHistoryStep(s, queued, refund, Done))
  {
    var t := SendHistoryStep(s, queued, refund, Done);
    forall i: nat | i < |t.remedies| ensures RowLedger(t, i) {
      assert RowLedger(s, i);
    }
  }

  lemma SendStatusKeepsLedger(s: State, queued: seq<RemedyId>, refund: ProviderRefund)
    requires Ledger(s) && s.job.Running? && s.job.at == SendStatus(queued, refund)
    requires QueuedAt(s.remedies, queued[0]) && Shown(s, refund.id) == Some(HistoryStatusOf(refund.state))
    ensures Ledger(SendStatusStep(s, queued, refund, Done))
  {
    var t := SendStatusStep(s, queued, refund, Done);
    forall i: nat | i < |t.remedies| ensures RowLedger(t, i) {
      assert RowLedger(s, i);
    }
  }

  lemma SendFailedKeepsLedger(s: State, queued: seq<RemedyId>)
    requires Ledger(s) && s.job.Running? && queued != []
    ensures Ledger(RowDone(s, queued, FailedRow(RowAt(s.remedies, queued[0]))))
  {
    LedgerStays(s, RowDone(s, queued, FailedRow(RowAt(s.remedies, queued[0]))));
  }

  lemma GivenUpKeepsLedger(s: State, queued: seq<RemedyId>)
    requires Ledger(s)
    ensures Ledger(Goto(s, SendFailed(queued))) && Ledger(Crashed(s))
  {
    LedgerStays(s, Goto(s, SendFailed(queued)));
    LedgerStays(s, Crashed(s));
  }

  lemma SendKeepsLedger(s: State, queued: seq<RemedyId>, reply: Reply)
    requires Ledger(s) && s.job.Running? && queued != [] && QueuedAt(s.remedies, queued[0])
    requires reply.RefundReply? ==> HonestRefund(s, queued[0], reply.refund)
    requires reply.Error? && reply.effect.Created? ==> HonestRefund(s, queued[0], reply.effect.refund)
    ensures Ledger(SendCallStep(s, queued, reply))
  {
    var t := SendCallStep(s, queued, reply);
    if reply.RefundReply? {
      SendCallKeepsLedger(s, queued[0], reply.refund, t);
    } else if reply.Error? && reply.effect.Created? {
      SendCallKeepsLedger(s, queued[0], reply.effect.refund, t);
    } else {
      GivenUpKeepsLedger(s, queued);
    }
  }

  lemma SendingKeepsLedger(s: State, reply: Reply)
    requires JobSound(s) && Ledger(s) && s.job.Running? && IsSending(s.job.at)
    requires HonestReply(s, reply) && WritesWhatIsShown(s, Step(reply))
    ensures Ledger(SendingStep(s, reply))
  {
    assert QueuedAt(s.remedies, s.job.at.queued[0]);
    GivenUpKeepsLedger(s, s.job.at.queued);
    match s.job.at
    case Send(queued) =>
      SendKeepsLedger(s, queued, reply);
    case SendHistory(queued, refund) =>
      SendHistoryKeepsLedger(s, queued, refund);
    case SendStatus(queued, refund) =>
      if reply.Done? {
        SendStatusKeepsLedger(s, queued, refund);
      }
    case SendFailed(queued) =>
      SendFailedKeepsLedger(s, queued);
  }

  /** What the locked part of an update leaves of the history. */
  lemma SettledHistory(s: State, id: RemedyId, refund: nat, state: RefundState, at: int)
    requires id < |s.remedies| && s.remedies[id].status in SettleFrom(state) && s.remedies[id].cause.Cancel?
    requires OwnRefund(s.history, refund)
    requires RefundKey(refund) in s.history ==> s.history[RefundKey(refund)].amount == s.remedies[id].amount
    ensures var t := Settled(s, id, refund, state, at);
            && HistoryRow(t, refund, s.remedies[id].amount, HistoryStatusOf(state))
            && t.history == s.history[RefundKey(refund) := t.history[RefundKey(refund)]]
  {
  }

  lemma UpdateKeepsLedger(s: State, id: RemedyId, refund: nat, state: RefundState, at: int)
    requires Ledger(s) && s.job.Idle? && NamesItsRefund(s, id, refund)
    requires id < |s.remedies| && s.remedies[id].ref in {None, Some(refund)}
    ensures Ledger(Settled(s, id, refund, state, at))
  {
    var t := Settled(s, id, refund, state, at);
    if t != s {
      assert RowLedger(s, id);
      if s.remedies[id].cause.Cancel? {
        SettledHistory(s, id, refund, state, at);
      }
      forall i: nat | i < |t.remedies| ensures RowLedger(t, i) {
        assert RowLedger(s, i);
        assert i != id ==> t.remedies[i] == s.remedies[i];
      }
    }
  }

  lemma PaymentKeepsLedger(s: State, payment: H.PaymentEvent)
    requires Ledger(s)
    ensures Ledger(Next(s, PaymentArrives(payment)))
  {
    var t := Next(s, PaymentArrives(payment));
    forall refund: nat ensures RefundKey(refund) in t.history <==> RefundKey(refund) in s.history
                       ensures RefundKey(refund) in t.history ==> t.history[RefundKey(refund)] == s.history[RefundKey(refund)]
    {
    }
    forall i: nat | i < |t.remedies| ensures RowLedger(t, i) {
      assert RowLedger(s, i);
    }
  }

  lemma OperatorKeepsLedger(s: State, e: Event)
    requires Ledger(s) && e.OperatorRefunds?
    ensures Ledger(Next(s, e))
  {
    var t := Next(s, e);
    forall i: nat | i < |t.remedies| ensures RowLedger(t, i) {
      if i < |s.remedies| {
        assert RowLedger(s, i);
      }
    }
  }

  lemma PlanKeepsLedger(s: State, reply: Reply)
    requires Safe(s) && Ledger(s) && s.job.Running? && IsPlanning(s.job.at)
    ensures Ledger(PlanningStep(s, reply))
  {
    if s.job.at.Save? && reply.Done? {
      SaveKeepsLedger(s, s.job.at.queued, s.job.at.plan, s.job.at.rows);
    } else if s.job.at.Supersede? {
      SupersedeKeepsLedger(s, s.job.at.rest, s.job.at.queued, reply);
    } else {
      PlanningKeepsLedger(s, reply);
    }
  }

  lemma StepKeepsLedger(s: State, reply: Reply)
    requires Safe(s) && Ledger(s) && s.job.Running? && HonestReply(s, reply) && WritesWhatIsShown(s, Step(reply))
    ensures Ledger(JobStep(s, reply))
  {
    if IsSending(s.job.at) {
      SendingKeepsLedger(s, reply);
    } else if IsPlanning(s.job.at) {
      PlanKeepsLedger(s, reply);
    } else {
      ClosingKeepsLedger(s, reply);
    }
  }

  lemma QuietKeepsLedger(s: State, e: Event)
    requires Ledger(s)
    requires e.RequestDowngrade? || e.Withdraw? || e.Crash? || e.ProviderEnds? || e.CompanyChanges?
             || e.CustomerChanges?
    ensures Ledger(Next(s, e))
  {
    LedgerStays(s, Next(s, e));
  }

  lemma StartKeepsLedger(s: State, now: int)
    requires Ledger(s) && s.job.Idle?
    ensures Ledger(Begin(s, now))
  {
    LedgerStays(s, Begin(s, now));
  }

  lemma NextKeepsLedger(s: State, e: Event)
    requires Safe(s) && Ledger(s) && Enabled(s, e) && WritesWhatIsShown(s, e)
    ensures Ledger(Next(s, e))
  {
    match e
    case Step(reply) =>
      StepKeepsLedger(s, reply);
    case Start(now) =>
      StartKeepsLedger(s, now);
    case RefundUpdated(id, refund, state, at) =>
      UpdateKeepsLedger(s, id, refund, state, at);
    case PaymentArrives(payment) =>
      PaymentKeepsLedger(s, payment);
    case OperatorRefunds(_, _, _) =>
      OperatorKeepsLedger(s, e);
    case _ =>
      QuietKeepsLedger(s, e);
  }

  lemma {:induction false} LedgerWhileWritesMatch(states: seq<State>, events: seq<Event>, i: nat)
    requires IsRun(states, events) && i < |states|
    requires forall j | 0 <= j < i :: WritesWhatIsShown(states[j], events[j])
    ensures Ledger(states[i])
  {
    if i > 0 {
      LedgerWhileWritesMatch(states, events, i - 1);
      RunIsSafe(states, events, i - 1);
      NextKeepsLedger(states[i - 1], events[i - 1]);
    }
  }

  ghost predicate RowsAgree(s: State) {
    forall id: nat | id < |s.remedies| && s.remedies[id].cause.Cancel? :: Agrees(s, id)
  }

  /** A status write that reads otherwise than the history leaves its row in disagreement. */
  lemma MismatchDisagrees(s: State, e: Event)
    requires Safe(s) && !WritesWhatIsShown(s, e)
    ensures !RowsAgree(Next(s, e))
  {
    assert QueuedAt(s.remedies, s.job.at.queued[0]);
    MismatchedRow(s, s.job.at.queued, s.job.at.refund);
    assert Next(s, e) == SendStatusStep(s, s.job.at.queued, s.job.at.refund, Done);
  }

  lemma MismatchedRow(s: State, queued: seq<RemedyId>, refund: ProviderRefund)
    requires queued != [] && QueuedAt(s.remedies, queued[0])
    requires Shown(s, refund.id) != Some(HistoryStatusOf(refund.state))
    ensures !RowsAgree(SendStatusStep(s, queued, refund, Done))
  {
    assert !Agrees(SendStatusStep(s, queued, refund, Done), queued[0]);
  }

  lemma {:induction false} AgreementNeedsMatchingWrites(states: seq<State>, events: seq<Event>, j: nat)
    requires IsRun(states, events) && j < |events| && forall i | 0 <= i < |states| :: RowsAgree(states[i])
    ensures WritesWhatIsShown(states[j], events[j])
  {
    RunIsSafe(states, events, j);
    assert RowsAgree(states[j + 1]);
    if !WritesWhatIsShown(states[j], events[j]) {
      MismatchDisagrees(states[j], events[j]);
    }
  }

  /**
   * Over every run: in each state every cancel row with a refund has its one history row, in its own status,
   * exactly when each status write of a sent row wrote what that history row showed.
   */
  lemma LedgerAgreesExactlyWhenWritesMatch(states: seq<State>, events: seq<Event>)
    requires IsRun(states, events)
    ensures (forall i | 0 <= i < |states| :: RowsAgree(states[i])) <==>
            (forall j | 0 <= j < |events| :: WritesWhatIsShown(states[j], events[j]))
  {
    if forall j | 0 <= j < |events| :: WritesWhatIsShown(states[j], events[j]) {
      forall i | 0 <= i < |states| ensures RowsAgree(states[i]) {
        LedgerWhileWritesMatch(states, events, i);
        LedgerRowsAgree(states[i]);
      }
    }
    if forall i | 0 <= i < |states| :: RowsAgree(states[i]) {
      forall j | 0 <= j < |events| ensures WritesWhatIsShown(states[j], events[j]) {
        AgreementNeedsMatchingWrites(states, events, j);
      }
    }
  }

  lemma LedgerRowsAgree(s: State)
    requires Ledger(s)
    ensures RowsAgree(s)
  {
    forall id: nat | id < |s.remedies| && s.remedies[id].cause.Cancel? ensures Agrees(s, id) {
      assert RowLedger(s, id);
    }
  }

  // ----- What the provider answers -----

  /** The answer to a refund reads as the history row that is there already, if one is. */
  ghost predicate AnswersWhatIsShown(s: State, e: Event) {
    e.Step? && e.reply.RefundReply? && s.job.Running? && s.job.at.Send? && RefundKey(e.reply.refund.id) in s.history ==>
      Shown(s, e.reply.refund.id) == Some(HistoryStatusOf(e.reply.refund.state))
  }

  /** The refund that a job is recording reads as the history row that is there. */
  ghost predicate RecordsWhatIsShown(s: State) {
    s.job.Running?
    && (s.job.at.SendStatus? || (s.job.at.SendHistory? && RefundKey(s.job.at.refund.id) in s.history)) ==>
      Shown(s, s.job.at.refund.id) == Some(HistoryStatusOf(s.job.at.refund.state))
  }

  lemma SendingKeepsRecords(s: State, reply: Reply)
    requires RecordsWhatIsShown(s) && s.job.Running? && IsSending(s.job.at) && AnswersWhatIsShown(s, Step(reply))
    ensures RecordsWhatIsShown(SendingStep(s, reply))
  {
  }

  lemma StepKeepsRecords(s: State, reply: Reply)
    requires RecordsWhatIsShown(s) && s.job.Running? && AnswersWhatIsShown(s, Step(reply))
    ensures RecordsWhatIsShown(JobStep(s, reply))
  {
    if IsSending(s.job.at) {
      SendingKeepsRecords(s, reply);
    } else if IsPlanning(s.job.at) {
      PlanningPlansOn(s, reply);
    } else {
      ClosingGivesUp(s, reply);
    }
  }

  lemma NextKeepsRecords(s: State, e: Event)
    requires RecordsWhatIsShown(s) && Enabled(s, e) && AnswersWhatIsShown(s, e)
    ensures RecordsWhatIsShown(Next(s, e))
  {
    if e.Step? {
      StepKeepsRecords(s, e.reply);
    }
  }

  lemma {:induction false} RecordsInEveryRun(states: seq<State>, events: seq<Event>, i: nat)
    requires IsRun(states, events) && i < |states|
    requires forall j | 0 <= j < i :: AnswersWhatIsShown(states[j], events[j])
    ensures RecordsWhatIsShown(states[i])
  {
    if i > 0 {
      RecordsInEveryRun(states, events, i - 1);
      NextKeepsRecords(states[i - 1], events[i - 1]);
    }
  }

  /**
   * While each refund is answered as the history row left behind reads, rows and history agree in every
   * reachable state: each cancel row with a refund has exactly one refund row, in its status, and no refund
   * row is an orphan.
   */
  lemma LedgerAgreesInEveryRun(states: seq<State>, events: seq<Event>, i: nat)
    requires IsRun(states, events) && i < |states|
    requires forall j | 0 <= j < i :: AnswersWhatIsShown(states[j], events[j])
    ensures Ledger(states[i])
  {
    forall j | 0 <= j < i ensures WritesWhatIsShown(states[j], events[j]) {
      RecordsInEveryRun(states, events, j);
    }
    LedgerWhileWritesMatch(states, events, i);
  }

  // ----- A provider that repeats its answers -----

  /** A repeated refund answers with the state of the first answer, too. */
  ghost predicate SameAnswer(s: State, e: Event) {
    e.Step? && e.reply.RefundReply? && s.job.Running? && s.job.at.Send? && s.job.at.queued != []
    && s.job.at.queued[0] in s.provider.refunds ==>
      e.reply.refund == s.provider.refunds[s.job.at.queued[0]]
  }

  /** The history row of a row that is not sent yet shows the provider's first answer. */
  ghost predicate ShowsTheFirst(s: State, id: RemedyId)
    requires id in s.provider.refunds
  {
    var refund := s.provider.refunds[id];
    id < |s.remedies| && s.remedies[id].cause.Cancel? && s.remedies[id].ref.None?
    && RefundKey(refund.id) in s.history ==>
      Shown(s, refund.id) == Some(HistoryStatusOf(refund.state))
  }

  ghost predicate RecordsTheFirst(s: State) {
    s.job.Running? && (s.job.at.SendHistory? || s.job.at.SendStatus?) ==>
      s.job.at.queued != [] && s.job.at.queued[0] in s.provider.refunds
      && s.provider.refunds[s.job.at.queued[0]] == s.job.at.refund
  }

  ghost predicate FirstAnswers(s: State) {
    RecordsTheFirst(s) && forall id | id in s.provider.refunds :: ShowsTheFirst(s, id)
  }

  /** Refunds and their history as they were; a row without a refund was one before. */
  lemma FirstsStay(s: State, t: State)
    requires FirstAnswers(s) && RecordsTheFirst(t) && SentSound(s.remedies, s.provider) && RefsStay(s, t)
    requires t.provider.refunds == s.provider.refunds
    requires forall refund: nat :: Shown(t, refund) == Shown(s, refund)
                                   && (RefundKey(refund) in t.history <==> RefundKey(refund) in s.history)
    ensures FirstAnswers(t)
  {
    forall id | id in t.provider.refunds ensures ShowsTheFirst(t, id) {
      assert ShowsTheFirst(s, id) && id < |s.remedies|;
    }
  }

  lemma SendCallKeepsFirsts(s: State, queued: seq<RemedyId>, reply: Reply)
    requires FirstAnswers(s) && s.job.Running? && s.job.at == Send(queued) && queued != []
    requires HonestReply(s, reply) && SameAnswer(s, Step(reply))
    ensures FirstAnswers(SendCallStep(s, queued, reply))
  {
    var t := SendCallStep(s, queued, reply);
    forall id | id in t.provider.refunds ensures ShowsTheFirst(t, id) {
      assert id in s.provider.refunds ==> ShowsTheFirst(s, id);
    }
  }

  lemma SendHistoryKeepsFirsts(s: State, queued: seq<RemedyId>, refund: ProviderRefund, reply: Reply)
    requires FirstAnswers(s) && DistinctRefunds(s.provider.refunds) && s.job.Running?
             && s.job.at == SendHistory(queued, refund)
    ensures FirstAnswers(SendHistoryStep(s, queued, refund, reply))
  {
    var t := SendHistoryStep(s, queued, refund, reply);
    forall id | id in t.provider.refunds ensures ShowsTheFirst(t, id) {
      assert ShowsTheFirst(s, id);
    }
  }

  /** A write to a row moves neither a refund nor its history, and the next row begins with its call. */
  lemma RowWritesKeepRefunds(s: State, reply: Reply)
    requires s.job.Running? && (s.job.at.SendStatus? || s.job.at.SendFailed?)
    ensures var t := SendingStep(s, reply);
            && t.history == s.history && t.provider.refunds == s.provider.refunds
            && (t.job.Running? ==> !t.job.at.SendHistory? && !t.job.at.SendStatus?)
  {
  }

  lemma RowWritesKeepFirsts(s: State, reply: Reply)
    requires FirstAnswers(s) && JobSound(s) && SentSound(s.remedies, s.provider) && RefsSound(s) && s.job.Running?
    requires s.job.at.SendStatus? || s.job.at.SendFailed?
    ensures FirstAnswers(SendingStep(s, reply))
  {
    var t := SendingStep(s, reply);
    SendingKeepsRefs(s, reply);
    RowWritesKeepRefunds(s, reply);
    FirstsStay(s, t);
  }

  lemma SendingKeepsFirsts(s: State, reply: Reply)
    requires FirstAnswers(s) && JobSound(s) && SentSound(s.remedies, s.provider) && DistinctRefunds(s.provider.refunds)
    requires RefsSound(s) && s.job.Running? && IsSending(s.job.at)
    requires HonestReply(s, reply) && SameAnswer(s, Step(reply))
    ensures FirstAnswers(SendingStep(s, reply))
  {
    if s.job.at.Send? {
      SendCallKeepsFirsts(s, s.job.at.queued, reply);
    } else if s.job.at.SendHistory? {
      SendHistoryKeepsFirsts(s, s.job.at.queued, s.job.at.refund, reply);
    } else {
      RowWritesKeepFirsts(s, reply);
    }
  }

  lemma StepKeepsFirsts(s: State, reply: Reply)
    requires FirstAnswers(s) && Safe(s) && Ledger(s) && RefsSound(s) && s.job.Running?
    requires HonestReply(s, reply) && SameAnswer(s, Step(reply))
    ensures FirstAnswers(JobStep(s, reply))
  {
    if IsSending(s.job.at) {
      SendingKeepsFirsts(s, reply);
    } else if IsPlanning(s.job.at) {
      PlanningKeepsFirsts(s, reply);
    } else {
      ClosingGivesUp(s, reply);
      ClosingKeepsRefs(s, reply);
      FirstsStay(s, ClosingStep(s, reply));
    }
  }

  lemma PlanningKeepsFirsts(s: State, reply: Reply)
    requires FirstAnswers(s) && Safe(s) && RefsSound(s) && s.job.Running? && IsPlanning(s.job.at)
    ensures FirstAnswers(PlanningStep(s, reply))
  {
    PlanningPlansOn(s, reply);
    PlanningKeepsRefs(s, reply);
    PlanningKeepsRefunds(s, reply);
    FirstsStay(s, PlanningStep(s, reply));
  }

  lemma PlanningKeepsRefunds(s: State, reply: Reply)
    requires s.job.Running? && IsPlanning(s.job.at)
    ensures PlanningStep(s, reply).history == s.history && PlanningStep(s, reply).provider.refunds == s.provider.refunds
  {
    if !s.job.at.Supersede? && (s.job.at.Save? ==> !reply.Done?) {
      PlanningMovesTheJob(s, reply);
    }
  }

  lemma UpdateKeepsFirsts(s: State, id: RemedyId, refund: nat, state: RefundState, at: int)
    requires FirstAnswers(s) && SentSound(s.remedies, s.provider) && Ledger(s) && s.job.Idle?
             && NamesItsRefund(s, id, refund)
    requires id < |s.remedies|
    ensures FirstAnswers(Settled(s, id, refund, state, at))
  {
    var t := Settled(s, id, refund, state, at);
    forall i | i in t.provider.refunds ensures ShowsTheFirst(t, i) {
      assert ShowsTheFirst(s, i);
    }
  }

  lemma PaymentKeepsFirsts(s: State, payment: H.PaymentEvent)
    requires FirstAnswers(s) && SentSound(s.remedies, s.provider)
    ensures FirstAnswers(Next(s, PaymentArrives(payment)))
  {
    FirstsStay(s, Next(s, PaymentArrives(payment)));
  }

  lemma NextKeepsFirsts(s: State, e: Event)
    requires FirstAnswers(s) && Safe(s) && Ledger(s) && RefsSound(s) && Enabled(s, e) && SameAnswer(s, e)
    ensures FirstAnswers(Next(s, e))
  {
    if e.Step? {
      StepKeepsFirsts(s, e.reply);
    } else if e.RefundUpdated? {
      UpdateKeepsFirsts(s, e.id, e.refund, e.state, e.at);
    } else {
      OtherKeepsFirsts(s, e);
    }
  }

  lemma OtherKeepsFirsts(s: State, e: Event)
    requires FirstAnswers(s) && Safe(s) && RefsSound(s) && Enabled(s, e) && !e.Step? && !e.RefundUpdated?
    ensures FirstAnswers(Next(s, e))
  {
    if e.PaymentArrives? {
      PaymentKeepsFirsts(s, e.payment);
    } else {
      NextKeepsRefs(s, e);
      OthersMoveNoRefund(s, e);
      FirstsStay(s, Next(s, e));
    }
  }

  lemma OthersMoveNoRefund(s: State, e: Event)
    requires RecordsTheFirst(s) && !e.Step? && !e.RefundUpdated? && !e.PaymentArrives?
    ensures var t := Next(s, e);
            t.history == s.history && t.provider.refunds == s.provider.refunds && RecordsTheFirst(t)
  {
  }

  /** A repeated first answer reads as the history row left behind. */
  lemma FirstAnswersMatch(s: State, e: Event)
    requires FirstAnswers(s) && Safe(s) && Ledger(s) && Enabled(s, e) && SameAnswer(s, e)
    ensures AnswersWhatIsShown(s, e)
  {
    if e.Step? && e.reply.RefundReply? && s.job.at.Send? {
      var id := s.job.at.queued[0];
      assert QueuedAt(s.remedies, id) && RowLedger(s, id);
      if id in s.provider.refunds {
        assert ShowsTheFirst(s, id);
      }
    }
  }

  /** A provider that repeats its first answer is enough for rows and history to agree in every reachable state. */
  lemma {:induction false} RepeatedAnswersAgree(states: seq<State>, events: seq<Event>, i: nat)
    requires IsRun(states, events) && i < |states|
    requires forall j | 0 <= j < i :: SameAnswer(states[j], events[j])
    ensures Ledger(states[i]) && FirstAnswers(states[i])
    ensures forall j | 0 <= j < i :: AnswersWhatIsShown(states[j], events[j])
  {
    if i > 0 {
      RepeatedAnswersAgree(states, events, i - 1);
      RunIsSafe(states, events, i - 1);
      RefsInEveryRun(states, events, i - 1);
      FirstAnswersMatch(states[i - 1], events[i - 1]);
      NextKeepsFirsts(states[i - 1], events[i - 1]);
    }
    LedgerAgreesInEveryRun(states, events, i);
  }

  // ----- From the search to the lock -----

  /** Only the provider's own refund stands on a cancel row, and no other row is without one. */
  ghost predicate RefsSound(s: State) {
    forall id | 0 <= id < |s.remedies| :: RefSound(s.remedies[id], id, s.provider.refunds)
  }

  predicate RefSound(row: Remedy, id: RemedyId, refunds: map<RemedyId, ProviderRefund>) {
    if row.ref.None? then row.cause.Cancel? else row.cause.Cancel? ==> id in refunds && refunds[id].id == row.ref.value
  }

  /** Rows stay, and a refund once written on a row stays on it. */
  ghost predicate RefsStay(s: State, t: State) {
    && |s.remedies| <= |t.remedies|
    && forall id | 0 <= id < |s.remedies| ::
         t.remedies[id].cause == s.remedies[id].cause && t.remedies[id].amount == s.remedies[id].amount
         && (s.remedies[id].ref.Some? ==> t.remedies[id].ref == s.remedies[id].ref)
  }

  /** Refunds are made, never taken back. */
  predicate RefundsStay(s: State, t: State) {
    forall id | id in s.provider.refunds :: id in t.provider.refunds && t.provider.refunds[id] == s.provider.refunds[id]
  }

  predicate SameIdentity(a: Remedy, b: Remedy) { a.cause == b.cause && a.amount == b.amount && a.ref == b.ref }

  /** Old rows keep what they name. */
  lemma SameRefs(s: State, t: State)
    requires RefsSound(s) && RefundsStay(s, t) && |s.remedies| == |t.remedies|
    requires forall id | 0 <= id < |s.remedies| :: SameIdentity(s.remedies[id], t.remedies[id])
    ensures RefsSound(t) && RefsStay(s, t)
  {
    forall id | 0 <= id < |t.remedies| ensures RefSound(t.remedies[id], id, t.provider.refunds) {
      assert RefSound(s.remedies[id], id, s.provider.refunds);
    }
  }

  lemma SaveKeepsRefs(s: State, queued: seq<RemedyId>, plan: Plan, rows: seq<Remedy>)
    requires RefsSound(s) && forall i | 0 <= i < |rows| :: IsQueued(rows[i]) && rows[i].ref.None?
    ensures var t := SaveStep(s, queued, plan, rows, Done); RefsSound(t) && RefsStay(s, t)
  {
    var t, n := SaveStep(s, queued, plan, rows, Done), |s.remedies|;
    forall id | 0 <= id < |t.remedies| ensures RefSound(t.remedies[id], id, t.provider.refunds) {
      if id < n {
        assert RefSound(s.remedies[id], id, s.provider.refunds);
      } else {
        assert t.remedies[id] == rows[id - n];
      }
    }
  }

  lemma PlanningKeepsRefs(s: State, reply: Reply)
    requires JobSound(s) && RefsSound(s) && s.job.Running? && IsPlanning(s.job.at)
    ensures RefsSound(PlanningStep(s, reply)) && RefsStay(s, PlanningStep(s, reply))
  {
    if s.job.at.Save? && reply.Done? {
      SaveKeepsRefs(s, s.job.at.queued, s.job.at.plan, s.job.at.rows);
    } else if s.job.at.Supersede? {
      SameRefs(s, SupersedeStep(s, s.job.at.rest, s.job.at.queued, reply));
    } else {
      PlanningMovesTheJob(s, reply);
      SameRefs(s, PlanningStep(s, reply));
    }
  }

  lemma ClosingKeepsRefs(s: State, reply: Reply)
    requires RefsSound(s) && s.job.Running? && !IsPlanning(s.job.at) && !IsSending(s.job.at)
    ensures RefsSound(ClosingStep(s, reply)) && RefsStay(s, ClosingStep(s, reply))
  {
    ClosingGivesUp(s, reply);
    SameRefs(s, ClosingStep(s, reply));
  }

  lemma SendStatusKeepsRefs(s: State, queued: seq<RemedyId>, refund: ProviderRefund)
    requires RefsSound(s) && s.job.Running? && queued != [] && QueuedAt(s.remedies, queued[0])
    requires queued[0] in s.provider.refunds && s.provider.refunds[queued[0]].id == refund.id
    ensures var t := SendStatusStep(s, queued, refund, Done); RefsSound(t) && RefsStay(s, t)
  {
    var t := SendStatusStep(s, queued, refund, Done);
    assert RefSound(s.remedies[queued[0]], queued[0], s.provider.refunds);
    forall id | 0 <= id < |t.remedies| ensures RefSound(t.remedies[id], id, t.provider.refunds) {
      assert RefSound(s.remedies[id], id, s.provider.refunds);
    }
  }

  lemma SendingKeepsRefs(s: State, reply: Reply)
    requires JobSound(s) && RefsSound(s) && s.job.Running? && IsSending(s.job.at)
    ensures RefsSound(SendingStep(s, reply)) && RefsStay(s, SendingStep(s, reply))
  {
    if s.job.at.SendStatus? && reply.Done? {
      assert QueuedAt(s.remedies, s.job.at.queued[0]);
      SendStatusKeepsRefs(s, s.job.at.queued, s.job.at.refund);
    } else {
      OnlySendStatusNames(s, reply);
      SameRefs(s, SendingStep(s, reply));
    }
  }

  lemma OnlySendStatusNames(s: State, reply: Reply)
    requires s.job.Running? && IsSending(s.job.at) && !(s.job.at.SendStatus? && reply.Done?)
    ensures var t := SendingStep(s, reply);
            && RefundsStay(s, t) && |s.remedies| == |t.remedies|
            && forall id | 0 <= id < |s.remedies| :: SameIdentity(s.remedies[id], t.remedies[id])
  {
  }

  lemma StepKeepsRefs(s: State, reply: Reply)
    requires JobSound(s) && RefsSound(s) && s.job.Running?
    ensures RefsSound(JobStep(s, reply)) && RefsStay(s, JobStep(s, reply))
  {
    if IsPlanning(s.job.at) {
      PlanningKeepsRefs(s, reply);
    } else if IsSending(s.job.at) {
      SendingKeepsRefs(s, reply);
    } else {
      ClosingKeepsRefs(s, reply);
    }
  }

  lemma UpdateKeepsRefs(s: State, id: RemedyId, refund: nat, state: RefundState, at: int)
    requires RefsSound(s) && NamesItsRefund(s, id, refund)
    requires id < |s.remedies| && s.remedies[id].ref in {None, Some(refund)}
    ensures var t := Settled(s, id, refund, state, at); RefsSound(t) && RefsStay(s, t)
  {
    var t := Settled(s, id, refund, state, at);
    assert RefSound(s.remedies[id], id, s.provider.refunds);
    forall i | 0 <= i < |t.remedies| ensures RefSound(t.remedies[i], i, t.provider.refunds) {
      assert RefSound(s.remedies[i], i, s.provider.refunds);
    }
  }

  lemma OperatorKeepsRefs(s: State, e: Event)
    requires RefsSound(s) && e.OperatorRefunds?
    ensures RefsSound(Next(s, e)) && RefsStay(s, Next(s, e))
  {
    var t := Next(s, e);
    forall id | 0 <= id < |t.remedies| ensures RefSound(t.remedies[id], id, t.provider.refunds) {
      assert id < |s.remedies| ==> RefSound(s.remedies[id], id, s.provider.refunds);
    }
  }

  lemma NextKeepsRefs(s: State, e: Event)
    requires JobSound(s) && RefsSound(s) && Enabled(s, e)
    ensures RefsSound(Next(s, e)) && RefsStay(s, Next(s, e))
  {
    match e
    case Step(reply) =>
      StepKeepsRefs(s, reply);
    case RefundUpdated(id, refund, state, at) =>
      UpdateKeepsRefs(s, id, refund, state, at);
    case OperatorRefunds(_, _, _) =>
      OperatorKeepsRefs(s, e);
    case _ =>
      SameRefs(s, Next(s, e));
  }

  lemma {:induction false} RefsInEveryRun(states: seq<State>, events: seq<Event>, i: nat)
    requires IsRun(states, events) && i < |states|
    ensures RefsSound(states[i])
  {
    if i > 0 {
      RefsInEveryRun(states, events, i - 1);
      RunIsSafe(states, events, i - 1);
      NextKeepsRefs(states[i - 1], events[i - 1]);
    }
  }

  lemma RefsStayOn(s: State, t: State, u: State)
    requires RefsStay(s, t) && RefsStay(t, u)
    ensures RefsStay(s, u)
  {
    forall id | 0 <= id < |s.remedies| && s.remedies[id].ref.Some? ensures u.remedies[id].ref == s.remedies[id].ref {
      assert t.remedies[id].ref == s.remedies[id].ref;
    }
  }

  lemma {:induction false} RefsNeverChange(states: seq<State>, events: seq<Event>, i: nat, j: nat)
    requires IsRun(states, events) && i <= j < |states|
    ensures RefsStay(states[i], states[j])
    decreases j
  {
    if i < j {
      RefsNeverChange(states, events, i, j - 1);
      RefsInEveryRun(states, events, j - 1);
      RunIsSafe(states, events, j - 1);
      NextKeepsRefs(states[j - 1], events[j - 1]);
      RefsStayOn(states[i], states[j - 1], states[j]);
    }
  }

  /**
   * The search of an update before the lock is enough: whatever comes between, the row that it found keeps
   * its cause and amount, and never names another refund once the lock is held.
   */
  lemma FoundRowKeepsItsRefund(states: seq<State>, events: seq<Event>, i: nat, j: nat, id: RemedyId, refund: nat,
                               byReference: bool)
    requires IsRun(states, events) && i <= j < |states|
    requires Finds(states[i], id, refund, byReference) && NamesItsRefund(states[j], id, refund)
    ensures id < |states[j].remedies| && states[j].remedies[id].ref in {None, Some(refund)}
    ensures states[j].remedies[id].cause == states[i].remedies[id].cause
    ensures states[j].remedies[id].amount == states[i].remedies[id].amount
    ensures byReference ==> Finds(states[j], id, refund, byReference)
  {
    RefsNeverChange(states, events, i, j);
    RefsInEveryRun(states, events, i);
    RefsInEveryRun(states, events, j);
    assert RefSound(states[i].remedies[id], id, states[i].provider.refunds);
    assert RefSound(states[j].remedies[id], id, states[j].provider.refunds);
  }

  // ----- Single updates -----

  lemma RepeatedUpdateChangesNothing(s: State, id: RemedyId, refund: nat, state: RefundState, byReference: bool,
                                     at: int, again: int)
    ensures var t := Updated(s, id, refund, state, byReference, at);
            Updated(t, id, refund, state, byReference, again) == t
  {
  }

  lemma RefundRowsStayOurs(s: State, e: Event, refund: nat)
    requires OwnRefund(s.history, refund)
    ensures OwnRefund(Next(s, e).history, refund)
  {
    match e
    case Step(reply) => StepKeepsOwnRefund(s, reply, refund);
    case _ =>
  }

  lemma StepKeepsOwnRefund(s: State, reply: Reply, refund: nat)
    requires OwnRefund(s.history, refund)
    ensures OwnRefund(JobStep(s, reply).history, refund)
  {
    if s.job.Running? && IsPlanning(s.job.at) {
      PlanningKeepsHistory(s, reply);
    } else if s.job.Running? && !IsSending(s.job.at) {
      ClosingGivesUp(s, reply);
    }
  }

  lemma PlanningKeepsHistory(s: State, reply: Reply)
    requires s.job.Running? && IsPlanning(s.job.at)
    ensures PlanningStep(s, reply).history == s.history
  {
    if !s.job.at.Supersede? && (s.job.at.Save? ==> !reply.Done?) {
      PlanningMovesTheJob(s, reply);
    }
  }

  lemma {:induction false} RefundRowsAreOurs(states: seq<State>, events: seq<Event>, i: nat, refund: nat)
    requires IsRun(states, events) && i < |states|
    ensures OwnRefund(states[i].history, refund)
  {
    if i > 0 {
      RefundRowsAreOurs(states, events, i - 1, refund);
      RefundRowsStayOurs(states[i - 1], events[i - 1], refund);
    }
  }

  /** The row after an update that names it. */
  function RowAfter(row: Remedy, refund: nat, state: RefundState): Remedy {
    if row.status in SettleFrom(state) then row.(status := StatusOf(state), ref := Some(refund)) else row
  }

  /** The history row after an update of a cancel row that moves: the time of an earlier row stays. */
  function HistoryAfter(table: H.Table, row: Remedy, refund: nat, state: RefundState, at: int): H.Row {
    var first := if RefundKey(refund) in table && table[RefundKey(refund)].RefundRow? then table[RefundKey(refund)]
                 else RefundHistoryRow(row.amount, state, at);
    first.(status := HistoryStatusOf(state))
  }

  lemma UpdateMovesTheRow(s: State, id: RemedyId, refund: nat, state: RefundState, at: int)
    requires id < |s.remedies| && s.remedies[id].ref in {None, Some(refund)} && OwnRefund(s.history, refund)
    ensures var t, row := Updated(s, id, refund, state, true, at), s.remedies[id];
            && t.remedies == s.remedies[id := RowAfter(row, refund, state)]
            && t.history == (if row.cause.Cancel? && row.status in SettleFrom(state)
                             then s.history[RefundKey(refund) := HistoryAfter(s.history, row, refund, state, at)]
                             else s.history)
  {
  }

  function AfterBoth(s: State, id: RemedyId, refund: nat, first: RefundState, second: RefundState, at: int,
                     then': int): State {
    Updated(Updated(s, id, refund, first, true, at), id, refund, second, true, then')
  }

  lemma BothMove(s: State, id: RemedyId, refund: nat, first: RefundState, second: RefundState, at: int, then': int)
    requires id < |s.remedies| && s.remedies[id].ref in {None, Some(refund)} && OwnRefund(s.history, refund)
    ensures var row := s.remedies[id];
            var t, after := AfterBoth(s, id, refund, first, second, at, then'), RowAfter(row, refund, first);
            var table := if row.cause.Cancel? && row.status in SettleFrom(first)
                         then s.history[RefundKey(refund) := HistoryAfter(s.history, row, refund, first, at)]
                         else s.history;
            && t.remedies == s.remedies[id := RowAfter(after, refund, second)]
            && t.history == if row.cause.Cancel? && after.status in SettleFrom(second)
                            then table[RefundKey(refund) := HistoryAfter(table, after, refund, second, then')]
                            else table
  {
    UpdateMovesTheRow(s, id, refund, first, at);
    UpdateMovesTheRow(Updated(s, id, refund, first, true, at), id, refund, second, then');
  }

  /** Approved and reversed leave the same remedy rows in either order, exactly when the row was not given up. */
  lemma ApprovedAndReversedCommute(s: State, id: RemedyId, refund: nat, at: int, again: int)
    requires id < |s.remedies| && s.remedies[id].ref in {None, Some(refund)} && OwnRefund(s.history, refund)
    ensures var a := AfterBoth(s, id, refund, RefundState.Approved, RefundState.Reversed, at, again).remedies;
            var b := AfterBoth(s, id, refund, RefundState.Reversed, RefundState.Approved, again, at).remedies;
            && (a == b <==> !s.remedies[id].status.Failed?)
            && (s.remedies[id].status.Queued? || s.remedies[id].status.Initiated? ==>
                  a[id].status == RemedyStatus.Reversed && b[id].status == RemedyStatus.Reversed)
            && (s.remedies[id].status.Failed? ==>
                  a[id].status == RemedyStatus.Reversed && b[id].status == RemedyStatus.Approved)
  {
    BothMove(s, id, refund, RefundState.Approved, RefundState.Reversed, at, again);
    BothMove(s, id, refund, RefundState.Reversed, RefundState.Approved, again, at);
  }

  /**
   * The customer's history after approved and reversed: it shows the same status in either order exactly when
   * the row was not given up, and is the same to the last field exactly when, besides, no first row was
   * written between two different times.
   */
  lemma HistoryAfterApprovedAndReversed(s: State, id: RemedyId, refund: nat, at: int, again: int)
    requires id < |s.remedies| && s.remedies[id].ref in {None, Some(refund)} && OwnRefund(s.history, refund)
    requires s.remedies[id].cause.Cancel?
    ensures var status := s.remedies[id].status;
            var a := AfterBoth(s, id, refund, RefundState.Approved, RefundState.Reversed, at, again);
            var b := AfterBoth(s, id, refund, RefundState.Reversed, RefundState.Approved, again, at);
            && (Shown(a, refund) == Shown(b, refund) <==> !status.Failed?)
            && (a.history == b.history <==>
                  !status.Failed?
                  && (status.Queued? || status.Initiated? ==> RefundKey(refund) in s.history || at == again))
            && (status.Queued? || status.Initiated? ==> Shown(a, refund) == Some(H.Rejected))
            && (status.Failed? ==> Shown(a, refund) == Some(H.Rejected) && Shown(b, refund) == Some(H.Approved))
  {
    BothMove(s, id, refund, RefundState.Approved, RefundState.Reversed, at, again);
    BothMove(s, id, refund, RefundState.Reversed, RefundState.Approved, again, at);
  }

  // ----- An answer that differs from the first -----

  /** A refund carried through: the call, the history row, the row's own status. */
  lemma SentThrough(s: State, refund: ProviderRefund)
    requires s.job.Running? && s.job.at.Send? && s.job.at.queued != [] && QueuedAt(s.remedies, s.job.at.queued[0])
    ensures var id := s.job.at.queued[0];
            var t := JobStep(JobStep(JobStep(s, RefundReply(refund)), Done), Done);
            && t.remedies == s.remedies[id := SentRow(s.remedies[id], refund)]
            && t.history == H.WithRefund(s.history, refund.id, RefundHistoryRow(s.remedies[id].amount, refund.state, s.job.now))
            && t.provider == WithProviderRefund(s, id, refund).provider
  {
  }

  /**
   * Sending a row whose history row a crash left behind ends in agreement exactly when the answer now
   * reads as that history row.
   */
  lemma SendingAgreesExactlyWhenAnswersMatch(s: State, refund: ProviderRefund)
    requires Safe(s) && Ledger(s) && s.job.Running? && s.job.at.Send?
    requires HonestRefund(s, s.job.at.queued[0], refund)
    ensures var id := s.job.at.queued[0];
            var t := JobStep(JobStep(JobStep(s, RefundReply(refund)), Done), Done);
            && id < |t.remedies|
            && (Agrees(t, id) <==>
                (RefundKey(refund.id) in s.history ==> Shown(s, refund.id) == Some(HistoryStatusOf(refund.state))))
  {
    var id := s.job.at.queued[0];
    assert QueuedAt(s.remedies, id);
    assert RowLedger(s, id);
    SentThrough(s, refund);
  }

  /** A disagreement is final for the customer: no later approval of the refund corrects the history. */
  lemma ApprovalDoesNotRepair(s: State, id: RemedyId, refund: nat, byReference: bool, at: int)
    requires id < |s.remedies| && s.remedies[id].status == RemedyStatus.Approved
    ensures Updated(s, id, refund, RefundState.Approved, byReference, at) == s
  {
  }

  // ----- A run that strands the history -----

  lemma Extend(states: seq<State>, events: seq<Event>, e: Event) returns (more: seq<State>, done: seq<Event>)
    requires IsRun(states, events) && Enabled(states[|events|], e)
    ensures IsRun(more, done) && more[|done|] == Next(states[|events|], e) && done == events + [e]
  {
    more, done := states + [Next(states[|events|], e)], events + [e];
  }

  const Late: int := DOWNGRADE_DELAY_MS + RENEWAL_WAIT_MS
  const Paying: Company := Company(Some(Request(0, 1)), 0, Some(1), true, false)
  const CreditOnly: Basis := Basis(0, 0, 0, [], 0, 100)
  const OneCard: seq<CardPayment> := [CardPayment(7, 100, 0)]
  const OneRow: Remedy := Remedy(Cancel, 0, 1, 0, 7, 100, Queued, 0, None)
  const OnePlan: Plan := Plan(1, [Counted(7, 100, 0)])

  /** The cancel is through and one refund of 100 waits to be sent. */
  function Waiting(provider: Provider, history: H.Table, row: Remedy, job: Job, sendRuns: nat): State {
    State(Paying.(request := None), [row], history, provider, [OnePlan], job, 0, sendRuns)
  }

  lemma RunToDueRequest() returns (states: seq<State>, events: seq<Event>)
    ensures IsRun(states, events)
    ensures states[|events|] ==
            State(Paying, [], map[], Provider({}, map[]), [], Running(Late, Paying, CountUsers([])), 0, 0)
  {
    states, events := [Start0], [];
    states, events := Extend(states, events, CompanyChanges(Some(1), false));
    states, events := Extend(states, events, CustomerChanges(true));
    states, events := Extend(states, events, RequestDowngrade(0, 1));
    states, events := Extend(states, events, Start(Late));
  }

  lemma RunToBasis() returns (states: seq<State>, events: seq<Event>)
    ensures IsRun(states, events)
    ensures states[|events|] ==
            State(Paying, [], map[], Provider({}, map[]), [], Running(Late, Paying, PlanBasis([])), 0, 0)
  {
    states, events := RunToDueRequest();
    states, events := Extend(states, events, Step(Users(1)));
    states, events := Extend(states, events, Step(Done));
  }

  lemma RunToPlanning() returns (states: seq<State>, events: seq<Event>)
    ensures IsRun(states, events)
    ensures states[|events|] ==
            State(Paying, [], map[], Provider({}, map[]), [],
                  Running(Late, Paying, ReadPayments([], CreditOnly, true, OneCard)), 0, 0)
  {
    states, events := RunToBasis();
    states, events := Extend(states, events, Step(BasisReply(Some(CreditOnly))));
    states, events := Extend(states, events, Step(PeriodReply(true, false, OneCard)));
  }

  lemma OneCardIsPlanned(s: State)
    requires s.remedies == []
    ensures SortByTime([] + Unrecorded(OneCard, [], Late - REFUND_WINDOW_MS)) == OneCard
    ensures CountAll(s.remedies, OneCard) == [Counted(7, 100, 0)]
    ensures RowsOf(PlanParts(CreditOnly, true, Late, [Counted(7, 100, 0)]), 0, 1, 0) == [OneRow]
    ensures PlanParts(CreditOnly, true, Late, [Counted(7, 100, 0)]) != []
  {
    assert OneCard[..0] == [];
    assert [] + Unrecorded(OneCard, [], Late - REFUND_WINDOW_MS) == OneCard;
    var counted := [Counted(7, 100, 0)];
    assert counted[..0] == [];
    var refundables := Refundables(counted);
    assert refundables == [CancelRefund.RefundablePayment(7, 100)];
    assert refundables[..0] == [] && refundables[..1] == refundables;
    assert CancelRefund.TotalRefundable(refundables) == 100;
    assert CancelRefund.Shares(100, refundables, 1) == [CancelRefund.Part(7, 100)];
    var parts := [CancelRefund.Part(7, 100)];
    assert parts[..0] == [];
  }

  lemma OneCardIsRead(s: State)
    requires s.job == Running(Late, Paying, ReadPayments([], CreditOnly, true, OneCard))
    requires s.remedies == [] && s.plans == [] && s.history == map[]
    ensures JobStep(s, Payments([])) == Goto(s, Save([], OnePlan, [OneRow]))
    ensures HonestReply(s, Payments([])) && HonestLists(s, Payments([]))
  {
    OneCardIsPlanned(s);
    PaymentsAreSaved(s, CreditOnly, OneCard, [Counted(7, 100, 0)], [OneRow]);
    NoRowsIsHonest(s);
  }

  /** Reading the payments of a paid period leads to the save of the rows they give. */
  lemma PaymentsAreSaved(s: State, basis: Basis, cards: seq<CardPayment>, counted: seq<Counted>, rows: seq<Remedy>)
    requires s.job.Running? && s.job.at == ReadPayments([], basis, true, cards) && s.plans == []
    requires counted == PlanPayments(s.remedies, [], cards, s.job.now) && PlanParts(basis, true, s.job.now, counted) != []
    requires rows == RowsOf(PlanParts(basis, true, s.job.now, counted), 0, SubscriptionOf(s.job), basis.periodStart)
    ensures JobStep(s, Payments([])) == Goto(s, Save([], Plan(SubscriptionOf(s.job), counted), rows))
  {
  }

  lemma NoRowsIsHonest(s: State)
    requires s.job.Running? && s.job.at.ReadPayments? && s.history == map[]
    ensures HonestReply(s, Payments([])) && HonestLists(s, Payments([]))
  {
  }

  lemma RunToSave() returns (states: seq<State>, events: seq<Event>)
    ensures IsRun(states, events)
    ensures states[|events|] ==
            State(Paying, [], map[], Provider({}, map[]), [], Running(Late, Paying, Save([], OnePlan, [OneRow])), 0, 0)
  {
    states, events := RunToPlanning();
    OneCardIsRead(states[|events|]);
    states, events := Extend(states, events, Step(Payments([])));
  }

  lemma RunToSaved() returns (states: seq<State>, events: seq<Event>)
    ensures IsRun(states, events)
    ensures states[|events|] ==
            State(Paying, [OneRow], map[], Provider({}, map[]), [OnePlan], Running(Late, Paying, CancelNow([0])), 0, 0)
  {
    states, events := RunToSave();
    assert NewIds(states[|events|], [OneRow]) == [0];
    states, events := Extend(states, events, Step(Done));
  }

  lemma RunToSending() returns (states: seq<State>, events: seq<Event>)
    ensures IsRun(states, events)
    ensures states[|events|] == Waiting(Provider({1}, map[]), map[], OneRow, Running(Late, Paying, Send([0])), 0)
  {
    states, events := RunToSaved();
    states, events := Extend(states, events, Step(Done));
    states, events := Extend(states, events, Step(Done));
  }

  const FirstAnswer: ProviderRefund := ProviderRefund(9, RefundState.Pending)
  const LaterAnswer: ProviderRefund := ProviderRefund(9, RefundState.Approved)
  const Refunding: Provider := Provider({1}, map[0 := FirstAnswer])
  const PendingHistory: H.Table := map[RefundKey(9) := RefundHistoryRow(100, RefundState.Pending, Late)]

  lemma RunToAnswer() returns (states: seq<State>, events: seq<Event>)
    ensures IsRun(states, events)
    ensures states[|events|] ==
            Waiting(Refunding, map[], OneRow, Running(Late, Paying, SendHistory([0], FirstAnswer)), 0)
  {
    states, events := RunToSending();
    assert WithProviderRefund(states[|events|], 0, FirstAnswer).provider == Refunding;
    states, events := Extend(states, events, Step(RefundReply(FirstAnswer)));
  }

  /** The provider answers pending, the job records the history row and crashes. */
  lemma RunToCrash() returns (states: seq<State>, events: seq<Event>)
    ensures IsRun(states, events)
    ensures states[|events|] == Waiting(Refunding, PendingHistory, OneRow, Idle, 0)
  {
    states, events := RunToAnswer();
    assert H.WithRefund(map[], 9, RefundHistoryRow(100, RefundState.Pending, Late)) == PendingHistory;
    states, events := Extend(states, events, Step(Done));
    states, events := Extend(states, events, Crash);
  }

  /** The refund is made again, and the provider answers with what has become of it. */
  lemma CallAgain(states: seq<State>, events: seq<Event>) returns (more: seq<State>, done: seq<Event>)
    requires IsRun(states, events)
    requires states[|events|] == Waiting(Refunding, PendingHistory, OneRow, Running(Late, Paying.(request := None), Send([0])), 0)
    ensures IsRun(more, done)
    ensures more[|done|] == Waiting(Refunding, PendingHistory, OneRow,
                                    Running(Late, Paying.(request := None), SendHistory([0], LaterAnswer)), 0)
  {
    more, done := Extend(states, events, Step(RefundReply(LaterAnswer)));
  }

  lemma SendAgain(states: seq<State>, events: seq<Event>) returns (more: seq<State>, done: seq<Event>)
    requires IsRun(states, events)
    requires states[|events|] == Waiting(Refunding, PendingHistory, OneRow, Running(Late, Paying.(request := None), Send([0])), 0)
    ensures IsRun(more, done)
    ensures more[|done|] == Waiting(Refunding, PendingHistory, SentRow(OneRow, LaterAnswer), Idle, 1)
  {
    more, done := CallAgain(states, events);
    more, done := Extend(more, done, Step(Done));
    more, done := Extend(more, done, Step(Done));
  }

  /**
   * After the crash the refund is approved, and the next job is told so. The remedy is approved, the
   * history stays pending, and the update that announces the approval changes nothing any more.
   */
  lemma StrandedHistoryIsReachable() returns (states: seq<State>, events: seq<Event>)
    ensures IsRun(states, events)
    ensures var s := states[|events|];
            && s.job.Idle? && |s.remedies| == 1 && s.remedies[0].status == RemedyStatus.Approved
            && Shown(s, 9) == Some(H.Pending) && !Agrees(s, 0)
            && Updated(s, 0, 9, RefundState.Approved, true, Late) == s
  {
    states, events := RunToCrash();
    assert QueuedIds([OneRow]) == [0] by {
      assert [OneRow][..0] == [];
    }
    states, events := Extend(states, events, Start(Late));
    states, events := SendAgain(states, events);
  }

  // ----- A run that gives a refunded row up -----

  lemma LoseAnswer(states: seq<State>, events: seq<Event>) returns (more: seq<State>, done: seq<Event>)
    requires IsRun(states, events)
    requires states[|events|] == Waiting(Provider({1}, map[]), map[], OneRow, Running(Late, Paying, Send([0])), 0)
    ensures IsRun(more, done)
    ensures more[|done|] == Waiting(Refunding, map[], OneRow, Running(Late, Paying, SendFailed([0])), 0)
  {
    assert WithProviderRefund(states[|events|], 0, FirstAnswer).provider == Refunding;
    more, done := Extend(states, events, Step(Error(Created(FirstAnswer))));
  }

  /** The provider makes the refund, and the answer is lost on the way. */
  lemma RunToLostAnswer() returns (states: seq<State>, events: seq<Event>)
    ensures IsRun(states, events)
    ensures states[|events|] == Waiting(Refunding, map[], OneRow.(attempts := 1), Idle, 1)
  {
    states, events := RunToSending();
    states, events := LoseAnswer(states, events);
    states, events := Extend(states, events, Step(Done));
  }

  /** One more sending run that fails. */
  lemma FailAgain(states: seq<State>, events: seq<Event>, tried: nat) returns (more: seq<State>, done: seq<Event>)
    requires IsRun(states, events) && 0 < tried < MAX_PROVIDER_ATTEMPTS
    requires states[|events|] == Waiting(Refunding, map[], OneRow.(attempts := tried), Idle, tried)
    ensures IsRun(more, done)
    ensures more[|done|] == Waiting(Refunding, map[], FailedRow(OneRow.(attempts := tried)), Idle, tried + 1)
  {
    var row := OneRow.(attempts := tried);
    assert QueuedIds([row]) == [0] by {
      assert [row][..0] == [];
    }
    more, done := Extend(states, events, Start(Late));
    more, done := Extend(more, done, Step(Error(NoEffect)));
    more, done := Extend(more, done, Step(Done));
  }

  const GivenUp: Remedy := OneRow.(attempts := 5, status := RemedyStatus.Failed)

  /** Five times the answer is lost: the row is given up, although the provider has made its refund. */
  lemma RunToGivenUp() returns (states: seq<State>, events: seq<Event>)
    ensures IsRun(states, events) && states[|events|] == Waiting(Refunding, map[], GivenUp, Idle, 5)
  {
    states, events := RunToLostAnswer();
    states, events := FailAgain(states, events, 1);
    states, events := FailAgain(states, events, 2);
    states, events := FailAgain(states, events, 3);
    states, events := FailAgain(states, events, 4);
  }

  /** Two updates of the refund, with nothing between. */
  lemma UpdateTwice(states: seq<State>, events: seq<Event>, first: RefundState, second: RefundState)
      returns (more: seq<State>, done: seq<Event>)
    requires IsRun(states, events) && states[|events|] == Waiting(Refunding, map[], GivenUp, Idle, 5)
    ensures IsRun(more, done) && done == events + [RefundUpdated(0, 9, first, Late), RefundUpdated(0, 9, second, Late)]
    ensures more[|done|] == AfterBoth(states[|events|], 0, 9, first, second, Late, Late)
  {
    more, done := Extend(states, events, RefundUpdated(0, 9, first, Late));
    more, done := Extend(more, done, RefundUpdated(0, 9, second, Late));
  }

  /**
   * Two runs that differ in nothing but the order of approved and reversed: the customer's history ends
   * rejected in one and approved in the other.
   */
  lemma ApprovedAndReversedCanDiffer()
      returns (before: seq<Event>, a: seq<State>, aDone: seq<Event>, b: seq<State>, bDone: seq<Event>)
    ensures IsRun(a, aDone) && IsRun(b, bDone)
    ensures aDone == before + [RefundUpdated(0, 9, RefundState.Approved, Late),
                               RefundUpdated(0, 9, RefundState.Reversed, Late)]
    ensures bDone == before + [RefundUpdated(0, 9, RefundState.Reversed, Late),
                               RefundUpdated(0, 9, RefundState.Approved, Late)]
    ensures var s, t := a[|aDone|], b[|bDone|];
            && |s.remedies| == 1 && |t.remedies| == 1
            && s.remedies[0].status == RemedyStatus.Reversed && Shown(s, 9) == Some(H.Rejected)
            && t.remedies[0].status == RemedyStatus.Approved && Shown(t, 9) == Some(H.Approved)
  {
    var states;
    states, before := RunToGivenUp();
    a, aDone := UpdateTwice(states, before, RefundState.Approved, RefundState.Reversed);
    b, bDone := UpdateTwice(states, before, RefundState.Reversed, RefundState.Approved);
    ApprovedAndReversedCommute(states[|before|], 0, 9, Late, Late);
    HistoryAfterApprovedAndReversed(states[|before|], 0, 9, Late, Late);
  }
}
