/**
 * The compensation workflow (backend/src/compensation/compensation.service.ts):
 * an employee asks to take banked hours off, a manager approves (which
 * debits the ledger once) or rejects it, and HR can schedule a forced
 * compensation. Requests start PENDING; approval moves them to APPROVED,
 * rejection to REJECTED from any state, forced ones are created SCHEDULED.
 *
 * Compensation ids are drawn from a counter; the user directory is a map
 * from user id to `User`; notifications are a log.
 */
module Compensation {
  import opened Common
  import opened HourBalance

  datatype CompensationStatus = Pending | Approved | Rejected | Scheduled

  datatype CompensationRecord = CompensationRecord(
    userId: string,
    requestedHours: real,
    compensationDate: int,
    reason: Option<string>,
    status: CompensationStatus,
    requestedBy: string,
    approvedBy: Option<string>,
    rejectionReason: Option<string>)

  datatype NotificationKind =
    | CompensationRequest | CompensationApproved | CompensationRejected | ForcedCompensation

  datatype Notification = Notification(recipient: string, kind: NotificationKind)

  datatype CompensationError = InsufficientBalance | NotFound | AlreadyProcessed

  /** What the service keeps, together with the ledger it debits. */
  datatype Workflow = Workflow(
    compensations: map<nat, CompensationRecord>,
    nextId: nat,
    notifications: seq<Notification>,
    ledger: Ledger)

  /** The state after an operation and what the operation returned or threw. */
  datatype Step<+T> = Step(after: Workflow, result: Result<T, CompensationError>)

  /** Every stored id was drawn before the counter's current value. */
  predicate IdsIssued(w: Workflow)
  {
    forall id :: id in w.compensations ==> id < w.nextId
  }

  const ForcedReason: string := "Compensa\U{00E7}\U{00E3}o for\U{00E7}ada pelo DP/RH"
  const NoReason: string := "Sem motivo"

  /** The ledger description of an approval: the request's reason, or "Sem motivo" when it has none. */
  function ApprovalDescription(reason: Option<string>): string
  {
    "Compensa\U{00E7}\U{00E3}o aprovada - " + (if reason.Some? && reason.value != "" then reason.value else NoReason)
  }

  /** `user?.managerId`: the manager to notify, when the user exists and has one. */
  function ManagerOf(users: map<string, User>, userId: string): Option<string>
  {
    if userId in users && users[userId].managerId.Some? && users[userId].managerId.value != ""
    then users[userId].managerId
    else None
  }

  // ---------------------------------------------------------------------
  // The operations on a workflow value

  /**
   * `create`: read (and refresh) the balance; refuse when it is below the
   * requested hours; otherwise store a PENDING request and notify the manager,
   * if the user has one.
   */
  function CreateStep(w: Workflow, users: map<string, User>, userId: string, requestedHours: real,
                      compensationDate: int, reason: Option<string>, now: int): Step<nat>
  {
    var ledger := Refreshed(w.ledger, userId, now);
    if ledger.balances[userId].balance < requestedHours then
      Step(w.(ledger := ledger), Err(InsufficientBalance))
    else
      var rec := CompensationRecord(userId, requestedHours, compensationDate, reason, Pending, userId, None, None);
      var manager := ManagerOf(users, userId);
      var sent := if manager.Some? then [Notification(manager.value, CompensationRequest)] else [];
      Step(Workflow(w.compensations[w.nextId := rec], w.nextId + 1, w.notifications + sent, ledger), Ok(w.nextId))
  }

  /**
   * `approve`: a missing id or a request that is no longer PENDING is refused
   * with nothing changed; otherwise debit the requested hours, mark the
   * request APPROVED and notify the requester.
   */
  function ApproveStep(w: Workflow, id: nat, approverId: string, now: int): Step<CompensationRecord>
  {
    if id !in w.compensations then Step(w, Err(NotFound))
    else
      var c := w.compensations[id];
      if c.status != Pending then Step(w, Err(AlreadyProcessed))
      else
        var ledger := Recorded(w.ledger, c.userId, Exit, c.requestedHours, ApprovalDescription(c.reason), now);
        var updated := c.(status := Approved, approvedBy := Some(approverId));
        Step(
          Workflow(w.compensations[id := updated], w.nextId,
                   w.notifications + [Notification(c.userId, CompensationApproved)], ledger),
          Ok(updated))
  }

  /** `reject`: any existing request, whatever its status, becomes REJECTED; the ledger is not touched. */
  function RejectStep(w: Workflow, id: nat, reason: string, rejectorId: string): Step<CompensationRecord>
  {
    if id !in w.compensations then Step(w, Err(NotFound))
    else
      var c := w.compensations[id];
      var updated := c.(status := Rejected, approvedBy := Some(rejectorId), rejectionReason := Some(reason));
      Step(
        w.(compensations := w.compensations[id := updated],
           notifications := w.notifications + [Notification(c.userId, CompensationRejected)]),
        Ok(updated))
  }

  /** `scheduleForcedCompensation`: the same balance check, then a SCHEDULED record and a notice to the employee. */
  function ScheduleStep(w: Workflow, userId: string, hours: real, date: int, scheduledBy: string, now: int): Step<nat>
  {
    var ledger := Refreshed(w.ledger, userId, now);
    if ledger.balances[userId].balance < hours then
      Step(w.(ledger := ledger), Err(InsufficientBalance))
    else
      var rec := CompensationRecord(userId, hours, date, Some(ForcedReason), Scheduled, scheduledBy, None, None);
      Step(
        Workflow(w.compensations[w.nextId := rec], w.nextId + 1,
                 w.notifications + [Notification(userId, ForcedCompensation)], ledger),
        Ok(w.nextId))
  }

  // ---------------------------------------------------------------------
  // The service

  class CompensationService {
    var compensations: map<nat, CompensationRecord>
    var nextId: nat
    var notifications: seq<Notification>
    const users: map<string, User>
    const ledger: HourBalanceService

    function Snapshot(): Workflow
      reads this, ledger
    {
      Workflow(compensations, nextId, notifications, ledger.State())
    }

    constructor (users: map<string, User>, ledger: HourBalanceService)
      ensures this.users == users && this.ledger == ledger
      ensures compensations == map[] && nextId == 0 && notifications == []
    {
      this.users := users;
      this.ledger := ledger;
      compensations := map[];
      nextId := 0;
      notifications := [];
    }

    method Create(userId: string, requestedHours: real, compensationDate: int, reason: Option<string>, now: int)
      returns (result: Result<nat, CompensationError>)
      modifies this, ledger
      ensures Snapshot() == CreateStep(old(Snapshot()), users, userId, requestedHours, compensationDate, reason, now).after
      ensures result == CreateStep(old(Snapshot()), users, userId, requestedHours, compensationDate, reason, now).result
    {
      var balance := ledger.GetBalance(userId, now);
      if balance.balance < requestedHours {
        return Err(InsufficientBalance);
      }
      var id := nextId;
      compensations := compensations[id := CompensationRecord(userId, requestedHours, compensationDate, reason, Pending, userId, None, None)];
      nextId := nextId + 1;
      var manager := ManagerOf(users, userId);
      if manager.Some? {
        notifications := notifications + [Notification(manager.value, CompensationRequest)];
      }
      result := Ok(id);
    }

    method Approve(id: nat, approverId: string, now: int) returns (result: Result<CompensationRecord, CompensationError>)
      modifies this, ledger
      ensures Snapshot() == ApproveStep(old(Snapshot()), id, approverId, now).after
      ensures result == ApproveStep(old(Snapshot()), id, approverId, now).result
    {
      if id !in compensations {
        return Err(NotFound);
      }
      var c := compensations[id];
      if c.status != Pending {
        return Err(AlreadyProcessed);
      }
      var _ := ledger.SubtractHours(c.userId, c.requestedHours, ApprovalDescription(c.reason), now);
      var updated := c.(status := Approved, approvedBy := Some(approverId));
      compensations := compensations[id := updated];
      notifications := notifications + [Notification(c.userId, CompensationApproved)];
      result := Ok(updated);
    }

    method Reject(id: nat, reason: string, rejectorId: string) returns (result: Result<CompensationRecord, CompensationError>)
      modifies this
      ensures Snapshot() == RejectStep(old(Snapshot()), id, reason, rejectorId).after
      ensures result == RejectStep(old(Snapshot()), id, reason, rejectorId).result
    {
      if id !in compensations {
        return Err(NotFound);
      }
      var c := compensations[id];
      var updated := c.(status := Rejected, approvedBy := Some(rejectorId), rejectionReason := Some(reason));
      compensations := compensations[id := updated];
      notifications := notifications + [Notification(c.userId, CompensationRejected)];
      result := Ok(updated);
    }

    method ScheduleForcedCompensation(userId: string, hours: real, date: int, scheduledBy: string, now: int)
      returns (result: Result<nat, CompensationError>)
      modifies this, ledger
      ensures Snapshot() == ScheduleStep(old(Snapshot()), userId, hours, date, scheduledBy, now).after
      ensures result == ScheduleStep(old(Snapshot()), userId, hours, date, scheduledBy, now).result
    {
      var balance := ledger.GetBalance(userId, now);
      if balance.balance < hours {
        return Err(InsufficientBalance);
      }
      var id := nextId;
      compensations := compensations[id := CompensationRecord(userId, hours, date, Some(ForcedReason), Scheduled, scheduledBy, None, None)];
      nextId := nextId + 1;
      notifications := notifications + [Notification(userId, ForcedCompensation)];
      result := Ok(id);
    }
  }

  // ---------------------------------------------------------------------
  // Properties

  /** Reading the balance changes no amount and logs no movement. */
  ghost predicate SameAmounts(before: Ledger, after: Ledger)
  {
    after.movements == before.movements && forall u :: BalanceOf(after, u) == BalanceOf(before, u)
  }

  /**
   * A request is refused exactly when the balance is below the hours asked
   * for (equal is enough); a granted one is a new PENDING record under a
   * fresh id. Either way no amount and no movement of the ledger changes.
   */
  lemma CreateChecksBalance(w: Workflow, users: map<string, User>, userId: string, requestedHours: real,
                            compensationDate: int, reason: Option<string>, now: int)
    requires IdsIssued(w)
    ensures var s := CreateStep(w, users, userId, requestedHours, compensationDate, reason, now);
      && (s.result.Err? <==> BalanceOf(w.ledger, userId) < requestedHours)
      && (s.result.Err? ==> s.result.error == InsufficientBalance && s.after.compensations == w.compensations)
      && (s.result.Ok? ==>
            s.result.value !in w.compensations
            && s.after.compensations == w.compensations[s.result.value := s.after.compensations[s.result.value]]
            && s.after.compensations[s.result.value].status == Pending
            && s.after.compensations[s.result.value].requestedHours == requestedHours)
      && IdsIssued(s.after)
      && SameAmounts(w.ledger, s.after.ledger)
  {
  }

  /** Only a user with a manager causes a notification on request, and it goes to that manager. */
  lemma CreateNotifiesManager(w: Workflow, users: map<string, User>, userId: string, requestedHours: real,
                              compensationDate: int, reason: Option<string>, now: int)
    requires CreateStep(w, users, userId, requestedHours, compensationDate, reason, now).result.Ok?
    ensures var s := CreateStep(w, users, userId, requestedHours, compensationDate, reason, now);
      && (ManagerOf(users, userId).None? ==> s.after.notifications == w.notifications)
      && (ManagerOf(users, userId).Some? ==>
            s.after.notifications == w.notifications + [Notification(users[userId].managerId.value, CompensationRequest)])
  {
  }

  /** Forced compensation applies the same check, stores a SCHEDULED record and never debits. */
  lemma ScheduleChecksBalance(w: Workflow, userId: string, hours: real, date: int, scheduledBy: string, now: int)
    requires IdsIssued(w)
    ensures var s := ScheduleStep(w, userId, hours, date, scheduledBy, now);
      && (s.result.Err? <==> BalanceOf(w.ledger, userId) < hours)
      && (s.result.Ok? ==>
            s.result.value !in w.compensations
            && s.after.compensations[s.result.value].status == Scheduled
            && s.after.notifications == w.notifications + [Notification(userId, ForcedCompensation)])
      && IdsIssued(s.after)
      && SameAmounts(w.ledger, s.after.ledger)
  {
  }

  /**
   * Approval of a missing id or of a processed request fails with nothing
   * changed; a PENDING request is debited by exactly its hours, with one EXIT
   * movement, and becomes APPROVED.
   */
  lemma ApproveDebitsPendingOnly(w: Workflow, id: nat, approverId: string, now: int)
    ensures var s := ApproveStep(w, id, approverId, now);
      && (id !in w.compensations ==> s == Step(w, Err(NotFound)))
      && (id in w.compensations && w.compensations[id].status != Pending ==> s == Step(w, Err(AlreadyProcessed)))
      && (id in w.compensations && w.compensations[id].status == Pending ==>
            var c := w.compensations[id];
            && s.result.Ok?
            && s.after.compensations[id].status == Approved
            && s.after.ledger.movements == w.ledger.movements + [Movement(c.userId, Exit, c.requestedHours, ApprovalDescription(c.reason), now)]
            && BalanceOf(s.after.ledger, c.userId) == BalanceOf(w.ledger, c.userId) - c.requestedHours)
  {
    if id in w.compensations && w.compensations[id].status == Pending {
      var c := w.compensations[id];
      RecordedEffect(w.ledger, c.userId, Exit, c.requestedHours, ApprovalDescription(c.reason), now);
    }
  }

  /** Approving the same request twice debits it once: the second call is refused and changes nothing. */
  lemma ApproveTwiceDebitsOnce(w: Workflow, id: nat, a1: string, a2: string, t1: int, t2: int)
    ensures var s1 := ApproveStep(w, id, a1, t1);
      ApproveStep(s1.after, id, a2, t2).after == s1.after
      && ApproveStep(s1.after, id, a2, t2).result.Err?
  {
  }

  /** Rejection works from any state, approved ones included, and never refunds or touches the ledger. */
  lemma RejectNeverRefunds(w: Workflow, id: nat, reason: string, rejectorId: string)
    requires id in w.compensations
    ensures var s := RejectStep(w, id, reason, rejectorId);
      && s.result.Ok?
      && s.after.compensations[id].status == Rejected
      && s.after.ledger == w.ledger
  {
  }

  /**
   * Requests reserve nothing and approval does not re-check the balance: two
   * requests of 8 hours against a balance of 8 are both accepted, and
   * approving both leaves the balance at -8.
   */
  lemma DoubleBookingOverdraws(w: Workflow, users: map<string, User>, userId: string, date: int, now: int)
    requires IdsIssued(w) && BalanceOf(w.ledger, userId) == 8.0
    ensures var s1 := CreateStep(w, users, userId, 8.0, date, None, now);
      var s2 := CreateStep(s1.after, users, userId, 8.0, date, None, now);
      && s1.result.Ok? && s2.result.Ok?
      && var s3 := ApproveStep(s2.after, s1.result.value, userId, now);
         var s4 := ApproveStep(s3.after, s2.result.value, userId, now);
         s3.result.Ok? && s4.result.Ok? && BalanceOf(s4.after.ledger, userId) == -8.0
  {
    var s1 := CreateStep(w, users, userId, 8.0, date, None, now);
    CreateChecksBalance(w, users, userId, 8.0, date, None, now);
    var s2 := CreateStep(s1.after, users, userId, 8.0, date, None, now);
    CreateChecksBalance(s1.after, users, userId, 8.0, date, None, now);
    var id1 := s1.result.value;
    var id2 := s2.result.value;
    assert id1 != id2;
    ApproveDebitsPendingOnly(s2.after, id1, userId, now);
    var s3 := ApproveStep(s2.after, id1, userId, now);
    ApproveDebitsPendingOnly(s3.after, id2, userId, now);
  }
}
