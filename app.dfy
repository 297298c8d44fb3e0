/** The web application's two tables and the request handlers that change them.
    Routing, templates, flash messages, sessions and password hashing are not
    modelled: the logged-in user's id, the clock and the computed password hash
    are parameters. */
module App {
  import opened Basics

  /** Seconds in a day; timestamps are whole seconds, UTC. */
  const Day: int := 86400
  /** The three frequencies the worker knows; the form may store any other string. */
  const Daily: string := "daily"
  const Weekly: string := "weekly"
  const Monthly: string := "monthly"
  /** The column default of an alert's frequency. */
  const DefaultFrequency: string := Daily

  datatype User = User(id: nat, email: string, passwordHash: string)

  /** One row of the alert table. `location` may be NULL; `lastCheck` is NULL only in
      rows written by something outside this model. */
  datatype Alert = Alert(
    id: nat,
    userId: nat,
    query: string,
    location: Option<string>,
    frequency: string,
    lastCheck: Option<int>,
    isActive: bool)

  datatype Registration = Registered(id: nat) | EmailInUse | Rejected

  datatype ToggleResponse = NotFound | NotOwner | Flipped(isActive: bool)

  function UserWithEmail(users: seq<User>, email: string): Option<nat>
  {
    FirstIndex(users, (u: User) => u.email == email)
  }

  function UserWithId(users: seq<User>, id: nat): Option<nat>
  {
    FirstIndex(users, (u: User) => u.id == id)
  }

  function AlertWithId(alerts: seq<Alert>, id: nat): Option<nat>
  {
    FirstIndex(alerts, (a: Alert) => a.id == id)
  }

  /** Every alert's `userId` names an existing user. */
  ghost predicate OwnersExist(alerts: seq<Alert>, users: seq<User>)
  {
    forall i :: 0 <= i < |alerts| ==> UserWithId(users, alerts[i].userId).Some?
  }

  /** What the two tables promise: unique user ids and emails, unique alert ids, ids
      below the next ones handed out, and no alert without its user. */
  ghost predicate Consistent(users: seq<User>, alerts: seq<Alert>, nextUserId: nat, nextAlertId: nat)
  {
    && (forall i, j :: 0 <= i < j < |users| ==> users[i].id != users[j].id && users[i].email != users[j].email)
    && (forall i :: 0 <= i < |users| ==> users[i].id < nextUserId)
    && DistinctBy(alerts, (a: Alert) => a.id)
    && (forall i :: 0 <= i < |alerts| ==> alerts[i].id < nextAlertId)
    && OwnersExist(alerts, users)
  }

  /** The alerts the dashboard lists for user `uid`. */
  function AlertsOf(alerts: seq<Alert>, uid: nat): (r: seq<Alert>)
    ensures forall a :: a in r <==> a in alerts && a.userId == uid
    ensures Subsequence(r, alerts)
  {
    FilterIsSubsequence(alerts, (a: Alert) => a.userId == uid);
    Filter(alerts, (a: Alert) => a.userId == uid)
  }

  /** The alerts left after deleting those of user `uid`. */
  function AlertsNotOf(alerts: seq<Alert>, uid: nat): (r: seq<Alert>)
    ensures forall a :: a in r <==> a in alerts && a.userId != uid
    ensures Subsequence(r, alerts)
  {
    FilterIsSubsequence(alerts, (a: Alert) => a.userId != uid);
    Filter(alerts, (a: Alert) => a.userId != uid)
  }

  /** The alert table after user `current` asks to toggle alert `id`: only the
      owner's request flips `isActive`, and nothing else changes. */
  function Toggled(alerts: seq<Alert>, current: nat, id: nat): (r: seq<Alert>)
    ensures |r| == |alerts|
    ensures forall i :: 0 <= i < |r| ==>
      r[i] == alerts[i] ||
      (alerts[i].id == id && alerts[i].userId == current && r[i] == alerts[i].(isActive := !alerts[i].isActive))
    ensures var f := AlertWithId(alerts, id);
      f.Some? && alerts[f.value].userId == current ==>
        r == alerts[f.value := alerts[f.value].(isActive := !alerts[f.value].isActive)]
    ensures var f := AlertWithId(alerts, id);
      f.None? || alerts[f.value].userId != current ==> r == alerts
  {
    match AlertWithId(alerts, id)
    case None => alerts
    case Some(k) =>
      if alerts[k].userId != current then alerts
      else alerts[k := alerts[k].(isActive := !alerts[k].isActive)]
  }

  /** Toggling the same alert twice as the same user restores the table. */
  lemma ToggleTwiceRestores(alerts: seq<Alert>, current: nat, id: nat)
    ensures Toggled(Toggled(alerts, current, id), current, id) == alerts
  {
    var once := Toggled(alerts, current, id);
    assert forall i :: 0 <= i < |alerts| ==> once[i].id == alerts[i].id;
    SameIdsSameIndex(alerts, once, id);
  }

  lemma SameIdsSameIndex(s: seq<Alert>, t: seq<Alert>, id: nat)
    requires |s| == |t| && forall i :: 0 <= i < |s| ==> s[i].id == t[i].id
    ensures AlertWithId(s, id) == AlertWithId(t, id)
  {
    var p := (a: Alert) => a.id == id;
    assert forall i :: 0 <= i < |s| ==> p(s[i]) == p(t[i]);
  }

  /** Changing alerts in place without touching their ids or owners keeps the tables
      consistent. */
  lemma RekeyedConsistent(users: seq<User>, before: seq<Alert>, after: seq<Alert>, nextUserId: nat, nextAlertId: nat)
    requires Consistent(users, before, nextUserId, nextAlertId)
    requires |after| == |before|
    requires forall i :: 0 <= i < |after| ==> after[i].id == before[i].id && after[i].userId == before[i].userId
    ensures Consistent(users, after, nextUserId, nextAlertId)
  {
    var key := (a: Alert) => a.id;
    assert forall i :: 0 <= i < |after| ==> key(after[i]) == key(before[i]);
  }

  class Store {
    var users: seq<User>
    var alerts: seq<Alert>
    var nextUserId: nat
    var nextAlertId: nat

    ghost predicate Valid()
      reads this
    {
      Consistent(users, alerts, nextUserId, nextAlertId)
    }

    constructor ()
      ensures Valid() && users == [] && alerts == []
    {
      users, alerts := [], [];
      nextUserId, nextAlertId := 1, 1;
    }

    /** Sign-up: an email already present is refused; a missing email or password
        makes the insert fail. */
    method Register(email: Option<string>, passwordHash: Option<string>) returns (r: Registration)
      requires Valid()
      modifies this
      ensures Valid()
      ensures alerts == old(alerts) && nextAlertId == old(nextAlertId)
      ensures r.EmailInUse? <==> email.Some? && UserWithEmail(old(users), email.value).Some?
      ensures r.Registered? <==> email.Some? && passwordHash.Some? && UserWithEmail(old(users), email.value).None?
      ensures r.Registered? ==>
        && r.id == old(nextUserId)
        && users == old(users) + [User(r.id, email.value, passwordHash.value)]
        && nextUserId == old(nextUserId) + 1
      ensures !r.Registered? ==> users == old(users) && nextUserId == old(nextUserId)
    {
      if email.Some? && UserWithEmail(users, email.value).Some? {
        return EmailInUse;
      }
      if email.None? || passwordHash.None? {
        return Rejected;
      }
      var user := User(nextUserId, email.value, passwordHash.value);
      ghost var users0 := users;
      users := users + [user];
      forall i | 0 <= i < |alerts|
        ensures UserWithId(users, alerts[i].userId).Some?
      {
        var k := UserWithId(users0, alerts[i].userId).value;
        assert users[k] == users0[k];
      }
      forall i | 0 <= i < |users0|
        ensures users0[i].email != email.value
      {
        assert users0[i] in users0;
      }
      r := Registered(nextUserId);
      nextUserId := nextUserId + 1;
    }

    /** A new alert for the logged-in user: active, checked "now", frequency
        defaulting to daily; a missing search query makes the insert fail. */
    method NewAlert(current: nat, query: Option<string>, location: Option<string>, frequency: Option<string>, now: int)
      returns (r: Option<nat>)
      requires Valid() && UserWithId(users, current).Some?
      modifies this
      ensures Valid()
      ensures users == old(users) && nextUserId == old(nextUserId)
      ensures r.Some? <==> query.Some?
      ensures r.Some? ==>
        && r.value == old(nextAlertId)
        && alerts == old(alerts) + [Alert(r.value, current, query.value, location, frequency.GetOr(DefaultFrequency), Some(now), true)]
        && nextAlertId == old(nextAlertId) + 1
      ensures r.None? ==> alerts == old(alerts) && nextAlertId == old(nextAlertId)
    {
      if query.None? {
        return None;
      }
      var alert := Alert(nextAlertId, current, query.value, location, frequency.GetOr(DefaultFrequency), Some(now), true);
      ghost var alerts0 := alerts;
      alerts := alerts + [alert];
      var key := (a: Alert) => a.id;
      assert forall i :: 0 <= i < |alerts0| ==> alerts[i] == alerts0[i] && key(alerts0[i]) < nextAlertId;
      r := Some(nextAlertId);
      nextAlertId := nextAlertId + 1;
    }

    /** Flips an alert's `isActive`, but only for its owner; an unknown id is a 404. */
    method ToggleAlert(current: nat, alertId: nat) returns (r: ToggleResponse)
      requires Valid()
      modifies this
      ensures Valid()
      ensures users == old(users) && nextUserId == old(nextUserId) && nextAlertId == old(nextAlertId)
      ensures alerts == Toggled(old(alerts), current, alertId)
      ensures r.NotFound? <==> AlertWithId(old(alerts), alertId).None?
      ensures r.NotOwner? <==> (AlertWithId(old(alerts), alertId).Some? &&
                                 old(alerts)[AlertWithId(old(alerts), alertId).value].userId != current)
      ensures r.Flipped? ==> alerts[AlertWithId(old(alerts), alertId).value].isActive == r.isActive
    {
      var found := AlertWithId(alerts, alertId);
      if found.None? {
        return NotFound;
      }
      var k := found.value;
      if alerts[k].userId != current {
        return NotOwner;
      }
      ghost var alerts0 := alerts;
      alerts := alerts[k := alerts[k].(isActive := !alerts[k].isActive)];
      RekeyedConsistent(users, alerts0, alerts, nextUserId, nextAlertId);
      r := Flipped(alerts[k].isActive);
    }

    /** The alerts the logged-in user's dashboard shows. */
    function Dashboard(current: nat): (r: seq<Alert>)
      reads this
      ensures forall a :: a in r <==> a in alerts && a.userId == current
      ensures Subsequence(r, alerts)
    {
      AlertsOf(alerts, current)
    }
  }
}
