/** The admin script that sets every alert's last check to two days before now, so
    that the next worker pass checks the daily alerts again. */
module ResetAlerts {
  import opened Basics
  import opened JobBoard
  import opened App
  import opened Worker

  /** Sets `lastCheck` of every alert, active or not, to two days before the clock
      reading `now`, taken once for the whole table, then commits once; no other field
      and no other table changes. */
  method ResetAlerts(store: Store, now: int)
    modifies store
    ensures store.users == old(store.users)
    ensures store.nextUserId == old(store.nextUserId) && store.nextAlertId == old(store.nextAlertId)
    ensures |store.alerts| == |old(store.alerts)|
    ensures forall i :: 0 <= i < |store.alerts| ==>
      store.alerts[i] == old(store.alerts)[i].(lastCheck := Some(now - 2 * Day))
    ensures old(store.Valid()) ==> store.Valid()
  {
    var alerts := store.alerts;
    var table := alerts;
    var twoDaysAgo := now - 2 * Day;
    for i := 0 to |table|
      invariant |table| == |alerts|
      invariant forall k :: 0 <= k < |table| ==>
        table[k] == if k < i then alerts[k].(lastCheck := Some(twoDaysAgo)) else alerts[k]
    {
      table := table[i := table[i].(lastCheck := Some(twoDaysAgo))];
    }
    if store.Valid() {
      RekeyedConsistent(store.users, alerts, table, store.nextUserId, store.nextAlertId);
    }
    store.alerts := table;
  }

  /** What the reset is for. In a worker pass that reaches the table within five days
      of the reset, the due check no longer raises, so the pass visits every alert;
      every active daily alert is due again and is searched, whether the search then
      succeeds or fails (at least two whole days have passed),
      while active weekly and monthly alerts are still skipped (fewer than seven). */
  lemma PassAfterReset(alerts: seq<Alert>, users: seq<User>, clock: nat -> int, pages: nat -> Fetch, resetAt: int)
    requires forall i :: 0 <= i < |alerts| ==> alerts[i].lastCheck == Some(resetAt - 2 * Day)
    requires forall i :: 0 <= i < |alerts| ==> resetAt <= clock(alerts[i].id) < resetAt + 5 * Day
    ensures var r := Pass(alerts, users, clock, pages);
      && |r| == |alerts|
      && (forall i :: 0 <= i < |r| ==> !r[i].DueCheckFailed?)
      && forall i :: 0 <= i < |alerts| && alerts[i].isActive ==>
          && (alerts[i].frequency == Daily ==> r[i].Checked? || r[i].CheckFailed?)
          && (alerts[i].frequency == Weekly || alerts[i].frequency == Monthly ==> r[i].Skipped?)
  {
    PassIsolatesFailures(alerts, users, clock, pages);
    var r := Pass(alerts, users, clock, pages);
    forall i | 0 <= i < |r|
      ensures !r[i].DueCheckFailed?
      ensures alerts[i].isActive ==>
          && (alerts[i].frequency == Daily ==> !r[i].Skipped?)
          && (alerts[i].frequency == Weekly || alerts[i].frequency == Monthly ==> r[i].Skipped?)
    {
      VisitOutcomes(alerts[i], users, clock(alerts[i].id), pages(alerts[i].id));
    }
  }
}
