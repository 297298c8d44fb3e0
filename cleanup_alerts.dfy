/** The admin script that deletes the test account: its alerts first, then the user. */
module CleanupAlerts {
  import opened Basics
  import opened App

  const TestEmail: string := "test@example.com"

  /** Removing one user keeps the remaining ids and emails unique and below the
      next id. */
  lemma RemovedUsersUnique(users: seq<User>, nextUserId: nat, k: nat)
    requires k < |users|
    requires forall i, j :: 0 <= i < j < |users| ==> users[i].id != users[j].id && users[i].email != users[j].email
    requires forall i :: 0 <= i < |users| ==> users[i].id < nextUserId
    ensures var rest := users[..k] + users[k + 1..];
      && (forall i, j :: 0 <= i < j < |rest| ==> rest[i].id != rest[j].id && rest[i].email != rest[j].email)
      && (forall i :: 0 <= i < |rest| ==> rest[i].id < nextUserId)
  {
    var rest := users[..k] + users[k + 1..];
    assert forall i :: 0 <= i < |rest| ==> rest[i] == users[if i < k then i else i + 1];
  }

  /** Every alert not owned by user `k` still has its owner once user `k` is gone. */
  lemma RemainingAlertsOwned(users: seq<User>, alerts: seq<Alert>, k: nat)
    requires k < |users| && OwnersExist(alerts, users)
    requires forall i, j :: 0 <= i < j < |users| ==> users[i].id != users[j].id
    ensures OwnersExist(AlertsNotOf(alerts, users[k].id), users[..k] + users[k + 1..])
  {
    var rest := users[..k] + users[k + 1..];
    var kept := AlertsNotOf(alerts, users[k].id);
    forall i | 0 <= i < |kept|
      ensures UserWithId(rest, kept[i].userId).Some?
    {
      var a := kept[i];
      assert a in alerts;
      var m :| 0 <= m < |alerts| && alerts[m] == a;
      var j := UserWithId(users, a.userId).value;
      var j' := if j < k then j else j - 1;
      assert rest[j'] == users[j];
    }
  }

  /** Removing user `k` together with all of that user's alerts keeps the tables
      consistent: no remaining alert refers to the removed user. */
  lemma RemovalConsistent(users: seq<User>, alerts: seq<Alert>, nextUserId: nat, nextAlertId: nat, k: nat)
    requires Consistent(users, alerts, nextUserId, nextAlertId) && k < |users|
    ensures Consistent(users[..k] + users[k + 1..], AlertsNotOf(alerts, users[k].id), nextUserId, nextAlertId)
  {
    var uid := users[k].id;
    RemovedUsersUnique(users, nextUserId, k);
    RemainingAlertsOwned(users, alerts, k);
    FilterKeepsDistinct(alerts, (a: Alert) => a.userId != uid, (a: Alert) => a.id);
    var kept := AlertsNotOf(alerts, uid);
    forall i | 0 <= i < |kept|
      ensures kept[i].id < nextAlertId
    {
      assert kept[i] in alerts;
    }
  }

  /** When a user has the test address, deletes that user's alerts and then the user;
      otherwise changes nothing. */
  method CleanupAlerts(store: Store) returns (removed: bool)
    modifies store
    ensures removed <==> UserWithEmail(old(store.users), TestEmail).Some?
    ensures !removed ==> store.users == old(store.users) && store.alerts == old(store.alerts)
    ensures removed ==>
      var k := UserWithEmail(old(store.users), TestEmail).value;
      && store.alerts == AlertsNotOf(old(store.alerts), old(store.users)[k].id)
      && store.users == old(store.users)[..k] + old(store.users)[k + 1..]
    ensures store.nextUserId == old(store.nextUserId) && store.nextAlertId == old(store.nextAlertId)
    ensures old(store.Valid()) ==> store.Valid()
  {
    var found := UserWithEmail(store.users, TestEmail);
    if found.None? {
      return false;
    }
    var k := found.value;
    if store.Valid() {
      RemovalConsistent(store.users, store.alerts, store.nextUserId, store.nextAlertId, k);
    }
    store.alerts := AlertsNotOf(store.alerts, store.users[k].id);
    store.users := store.users[..k] + store.users[k + 1..];
    removed := true;
  }
}
