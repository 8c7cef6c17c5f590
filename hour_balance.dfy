/**
 * The hour-balance ledger (backend/src/hour-balance/hour-balance.service.ts):
 * one running balance per user, an append-only log of movements (one per
 * write, ENTRY for a credit and EXIT for a debit) and the alerts raised after
 * each write. The database becomes the fields of `HourBalanceService`; the
 * clock becomes a `now` parameter (an instant in minutes).
 *
 * The pure functions below (`EnsureBalance`, `Refreshed`, `Recorded`, ...)
 * describe each operation on a `Ledger` value; each method of the class is
 * proved to move its fields exactly as the matching function says.
 */
module HourBalance {
  import opened Common

  datatype BalanceStatus = Normal | Warning | Critical | Expired

  datatype BalanceRecord = BalanceRecord(balance: real, status: BalanceStatus, validUntil: Option<int>)

  datatype MovementType = Entry | Exit

  datatype Movement = Movement(userId: string, kind: MovementType, hours: real, description: string, referenceDate: int)

  /** `BALANCE_WARNING` alerts have severity HIGH, `BALANCE_CRITICAL` ones CRITICAL. */
  datatype AlertKind = BalanceWarning | BalanceCritical

  datatype Alert = Alert(userId: string, kind: AlertKind, balance: real)

  /** The record `findOrCreateBalance` creates: balance 0, status NORMAL, no expiry. */
  const FreshBalance: BalanceRecord := BalanceRecord(0.0, Normal, None)

  /** Everything the service keeps: balances by user, the movement log and the emitted alerts. */
  datatype Ledger = Ledger(balances: map<string, BalanceRecord>, movements: seq<Movement>, alerts: seq<Alert>)

  const EmptyLedger: Ledger := Ledger(map[], [], [])

  // ---------------------------------------------------------------------
  // Classification

  /**
   * `updateBalanceStatus`: EXPIRED once the validity date has passed;
   * otherwise CRITICAL above 40 hours, WARNING above 30, else NORMAL.
   */
  function StatusFor(rec: BalanceRecord, now: int): BalanceStatus
  {
    if rec.validUntil.Some? && now > rec.validUntil.value then Expired
    else if rec.balance > 40.0 then Critical
    else if rec.balance > 30.0 then Warning
    else Normal
  }

  /** `checkAlerts`: a critical alert from 32 hours, a warning from 24, nothing below. */
  function AlertsFor(userId: string, balance: real): seq<Alert>
  {
    if balance >= 32.0 then [Alert(userId, BalanceCritical, balance)]
    else if balance >= 24.0 then [Alert(userId, BalanceWarning, balance)]
    else []
  }

  // ---------------------------------------------------------------------
  // Operations on a ledger value

  /** `findOrCreateBalance`: a fresh record for a user without one; nothing otherwise. */
  function EnsureBalance(l: Ledger, userId: string): (r: Ledger)
    ensures userId in r.balances
  {
    if userId in l.balances then l
    else l.(balances := l.balances[userId := FreshBalance])
  }

  /** `getBalance`: find or create the record, then store its recomputed status. */
  function Refreshed(l: Ledger, userId: string, now: int): (r: Ledger)
    ensures userId in r.balances
  {
    var l1 := EnsureBalance(l, userId);
    var rec := l1.balances[userId];
    l1.(balances := l1.balances[userId := rec.(status := StatusFor(rec, now))])
  }

  /** `addHours` (ENTRY) and `subtractHours` (EXIT): move the balance, log the movement, raise alerts. */
  function Recorded(l: Ledger, userId: string, kind: MovementType, hours: real, description: string, now: int): (r: Ledger)
    ensures userId in r.balances
  {
    var l1 := EnsureBalance(l, userId);
    var rec := l1.balances[userId];
    var newBalance := if kind == Entry then rec.balance + hours else rec.balance - hours;
    Ledger(
      l1.balances[userId := rec.(balance := newBalance)],
      l1.movements + [Movement(userId, kind, hours, description, now)],
      l1.alerts + AlertsFor(userId, newBalance))
  }

  /** The user's balance, or 0 when the user has no record yet. */
  function BalanceOf(l: Ledger, userId: string): real
  {
    if userId in l.balances then l.balances[userId].balance else 0.0
  }

  /** The user's movements in the order they were logged. */
  function MovementsOf(ms: seq<Movement>, userId: string): (r: seq<Movement>)
    ensures |r| <= |ms|
    ensures forall k :: 0 <= k < |r| ==> r[k].userId == userId && r[k] in ms
  {
    if ms == [] then []
    else
      var init := MovementsOf(ms[..|ms| - 1], userId);
      if ms[|ms| - 1].userId == userId then init + [ms[|ms| - 1]] else init
  }

  function Reverse<T>(s: seq<T>): (r: seq<T>)
    ensures |r| == |s|
    ensures forall k :: 0 <= k < |s| ==> r[k] == s[|s| - 1 - k]
  {
    if s == [] then [] else [s[|s| - 1]] + Reverse(s[..|s| - 1])
  }

  /** `getHistory`: the user's movements, newest first, at most `limit` of them. */
  function History(l: Ledger, userId: string, limit: nat): seq<Movement>
  {
    Take(Reverse(MovementsOf(l.movements, userId)), limit)
  }

  const DefaultHistoryLimit: nat := 50

  /** The sum of the user's ENTRY hours minus the sum of their EXIT hours. */
  function Net(ms: seq<Movement>, userId: string): real
  {
    if ms == [] then 0.0
    else
      var m := ms[|ms| - 1];
      Net(ms[..|ms| - 1], userId) + (if m.userId != userId then 0.0 else if m.kind == Entry then m.hours else -m.hours)
  }

  /** Every balance is the net of its user's movements, and users without a record have none. */
  ghost predicate Consistent(l: Ledger)
  {
    forall u :: Net(l.movements, u) == BalanceOf(l, u)
  }

  // ---------------------------------------------------------------------
  // The service

  class HourBalanceService {
    var balances: map<string, BalanceRecord>
    var movements: seq<Movement>
    var alerts: seq<Alert>

    function State(): Ledger
      reads this
    {
      Ledger(balances, movements, alerts)
    }

    constructor ()
      ensures State() == EmptyLedger
    {
      balances := map[];
      movements := [];
      alerts := [];
    }

    method FindOrCreateBalance(userId: string) returns (rec: BalanceRecord)
      modifies this
      ensures State() == EnsureBalance(old(State()), userId)
      ensures rec == balances[userId]
    {
      if userId !in balances {
        balances := balances[userId := FreshBalance];
      }
      rec := balances[userId];
    }

    method GetBalance(userId: string, now: int) returns (rec: BalanceRecord)
      modifies this
      ensures State() == Refreshed(old(State()), userId, now)
      ensures rec == balances[userId]
    {
      var _ := FindOrCreateBalance(userId);
      rec := UpdateBalanceStatus(userId, now);
    }

    method AddHours(userId: string, hours: real, description: string, now: int) returns (rec: BalanceRecord)
      modifies this
      ensures State() == Recorded(old(State()), userId, Entry, hours, description, now)
      ensures rec == balances[userId]
    {
      var current := FindOrCreateBalance(userId);
      var newBalance := current.balance + hours;
      balances := balances[userId := current.(balance := newBalance)];
      movements := movements + [Movement(userId, Entry, hours, description, now)];
      CheckAlerts(userId, newBalance);
      rec := balances[userId];
    }

    method SubtractHours(userId: string, hours: real, description: string, now: int) returns (rec: BalanceRecord)
      modifies this
      ensures State() == Recorded(old(State()), userId, Exit, hours, description, now)
      ensures rec == balances[userId]
    {
      var current := FindOrCreateBalance(userId);
      var newBalance := current.balance - hours;
      balances := balances[userId := current.(balance := newBalance)];
      movements := movements + [Movement(userId, Exit, hours, description, now)];
      CheckAlerts(userId, newBalance);
      rec := balances[userId];
    }

    method GetHistory(userId: string, limit: nat) returns (history: seq<Movement>)
      modifies this
      ensures State() == EnsureBalance(old(State()), userId)
      ensures history == History(old(State()), userId, limit)
    {
      var _ := FindOrCreateBalance(userId);
      history := Take(Reverse(MovementsOf(movements, userId)), limit);
    }

    method UpdateBalanceStatus(userId: string, now: int) returns (rec: BalanceRecord)
      requires userId in balances
      modifies this
      ensures balances == old(balances)[userId := old(balances)[userId].(status := StatusFor(old(balances)[userId], now))]
      ensures movements == old(movements) && alerts == old(alerts)
      ensures rec == balances[userId]
    {
      var current := balances[userId];
      var status := Normal;
      if current.validUntil.Some? && now > current.validUntil.value {
        status := Expired;
      } else if current.balance > 40.0 {
        status := Critical;
      } else if current.balance > 30.0 {
        status := Warning;
      }
      balances := balances[userId := current.(status := status)];
      rec := balances[userId];
    }

    method CheckAlerts(userId: string, balance: real)
      modifies this
      ensures alerts == old(alerts) + AlertsFor(userId, balance)
      ensures balances == old(balances) && movements == old(movements)
    {
      if balance >= 32.0 {
        alerts := alerts + [Alert(userId, BalanceCritical, balance)];
      } else if balance >= 24.0 {
        alerts := alerts + [Alert(userId, BalanceWarning, balance)];
      }
    }
  }

  // ---------------------------------------------------------------------
  // Properties

  /** A record is created only for a user without one; an existing one is returned untouched. */
  lemma EnsureBalanceCreatesOnlyWhenMissing(l: Ledger, userId: string)
    ensures userId in l.balances ==> EnsureBalance(l, userId) == l
    ensures userId !in l.balances ==>
      EnsureBalance(l, userId).balances[userId] == FreshBalance
      && EnsureBalance(l, userId).movements == l.movements
      && EnsureBalance(l, userId).alerts == l.alerts
      && EnsureBalance(l, userId).balances.Keys == l.balances.Keys + {userId}
  {
  }

  /**
   * A write moves the user's balance by the hours (up for ENTRY, down for
   * EXIT, with no floor), appends exactly one movement carrying them, keeps
   * the status and the validity, and leaves every other user's record alone.
   */
  lemma RecordedEffect(l: Ledger, userId: string, kind: MovementType, hours: real, description: string, now: int)
    ensures var r := Recorded(l, userId, kind, hours, description, now);
      && r.balances[userId].balance == BalanceOf(l, userId) + (if kind == Entry then hours else -hours)
      && r.movements == l.movements + [Movement(userId, kind, hours, description, now)]
      && (userId in l.balances ==>
            r.balances[userId].status == l.balances[userId].status
            && r.balances[userId].validUntil == l.balances[userId].validUntil)
      && (userId !in l.balances ==> r.balances[userId].status == Normal)
      && (forall v :: v != userId && v in l.balances ==> v in r.balances && r.balances[v] == l.balances[v])
      && r.balances.Keys == l.balances.Keys + {userId}
  {
  }

  /** Each write raises at most one alert, and which one depends only on the new balance. */
  lemma AlertTiers(userId: string, balance: real)
    ensures |AlertsFor(userId, balance)| <= 1
    ensures AlertsFor(userId, balance) == [] <==> balance < 24.0
    ensures AlertsFor(userId, balance) != [] ==>
      AlertsFor(userId, balance)[0].userId == userId && AlertsFor(userId, balance)[0].balance == balance
      && (AlertsFor(userId, balance)[0].kind == BalanceCritical <==> balance >= 32.0)
  {
  }

  /** The status thresholds are strict: 30 hours is still NORMAL and 40 still WARNING. */
  lemma StatusThresholds(rec: BalanceRecord, now: int)
    requires rec.validUntil.None? || now <= rec.validUntil.value
    ensures StatusFor(rec, now) == Critical <==> rec.balance > 40.0
    ensures StatusFor(rec, now) == Warning <==> 30.0 < rec.balance <= 40.0
    ensures StatusFor(rec, now) == Normal <==> rec.balance <= 30.0
    ensures rec.balance == 30.0 ==> StatusFor(rec, now) == Normal
    ensures rec.balance == 40.0 ==> StatusFor(rec, now) == Warning
  {
  }

  /** An expired validity wins over any balance. */
  lemma ExpiryWins(rec: BalanceRecord, now: int)
    requires rec.validUntil.Some? && now > rec.validUntil.value
    ensures StatusFor(rec, now) == Expired
  {
  }

  /** Only `getBalance` recomputes the status: after a write the old status stays, even when stale. */
  lemma WriteKeepsStaleStatus(userId: string, description: string, now: int)
    ensures var r := Recorded(EmptyLedger, userId, Entry, 50.0, description, now);
      r.balances[userId].status == Normal && StatusFor(r.balances[userId], now) == Critical
  {
  }

  /** From a user with no record, crediting h1 and then debiting h2 leaves h1 - h2 and two movements. */
  lemma CreditThenDebitFromFresh(l: Ledger, userId: string, h1: real, h2: real, d1: string, d2: string, t1: int, t2: int)
    requires userId !in l.balances
    ensures var r := Recorded(Recorded(l, userId, Entry, h1, d1, t1), userId, Exit, h2, d2, t2);
      && r.balances[userId].balance == h1 - h2
      && r.movements == l.movements + [Movement(userId, Entry, h1, d1, t1), Movement(userId, Exit, h2, d2, t2)]
  {
    RecordedEffect(l, userId, Entry, h1, d1, t1);
    var l1 := Recorded(l, userId, Entry, h1, d1, t1);
    RecordedEffect(l1, userId, Exit, h2, d2, t2);
  }

  lemma NetAppend(ms: seq<Movement>, m: Movement, u: string)
    ensures Net(ms + [m], u) == Net(ms, u) + (if m.userId != u then 0.0 else if m.kind == Entry then m.hours else -m.hours)
  {
    assert (ms + [m])[..|ms|] == ms;
  }

  /** Every write keeps each balance equal to the net of its user's movements. */
  lemma RecordedKeepsConsistent(l: Ledger, userId: string, kind: MovementType, hours: real, description: string, now: int)
    requires Consistent(l)
    ensures Consistent(Recorded(l, userId, kind, hours, description, now))
  {
    var r := Recorded(l, userId, kind, hours, description, now);
    var m := Movement(userId, kind, hours, description, now);
    forall u
      ensures Net(r.movements, u) == BalanceOf(r, u)
    {
      NetAppend(l.movements, m, u);
      assert Net(l.movements, u) == BalanceOf(l, u);
    }
  }

  /** Creating a record and refreshing a status keep the ledger consistent too. */
  lemma RefreshKeepsConsistent(l: Ledger, userId: string, now: int)
    requires Consistent(l)
    ensures Consistent(EnsureBalance(l, userId)) && Consistent(Refreshed(l, userId, now))
  {
    forall u
      ensures Net(EnsureBalance(l, userId).movements, u) == BalanceOf(EnsureBalance(l, userId), u)
      ensures Net(Refreshed(l, userId, now).movements, u) == BalanceOf(Refreshed(l, userId, now), u)
    {
      assert Net(l.movements, u) == BalanceOf(l, u);
    }
  }

  lemma {:induction false} MovementsOfAppend(ms: seq<Movement>, m: Movement, u: string)
    ensures MovementsOf(ms + [m], u) == if m.userId == u then MovementsOf(ms, u) + [m] else MovementsOf(ms, u)
  {
    assert (ms + [m])[..|ms|] == ms;
  }

  /**
   * The history holds at most `limit` movements, all the user's own, and
   * after a write its first entry is the movement just logged.
   */
  lemma HistoryAfterWrite(l: Ledger, userId: string, kind: MovementType, hours: real, description: string, now: int, limit: nat)
    requires limit >= 1
    ensures var h := History(Recorded(l, userId, kind, hours, description, now), userId, limit);
      |h| >= 1 && h[0] == Movement(userId, kind, hours, description, now)
  {
    var r := Recorded(l, userId, kind, hours, description, now);
    var m := Movement(userId, kind, hours, description, now);
    assert r.movements == EnsureBalance(l, userId).movements + [m];
    MovementsOfAppend(EnsureBalance(l, userId).movements, m, userId);
  }

  /** The history is a newest-first window on the user's movements. */
  lemma HistoryShape(l: Ledger, userId: string, limit: nat)
    ensures |History(l, userId, limit)| == Min(limit, |MovementsOf(l.movements, userId)|)
    ensures forall k :: 0 <= k < |History(l, userId, limit)| ==>
      History(l, userId, limit)[k].userId == userId
      && History(l, userId, limit)[k] == MovementsOf(l.movements, userId)[|MovementsOf(l.movements, userId)| - 1 - k]
  {
  }
}
