/** One pass of the alert worker over the alert table: which alerts it selects, the
    due rule, the search, the mail, and the per-alert commit of `lastCheck`. The HTTP
    request and HTML parsing, the SMTP session and the hourly loop are not modelled:
    what the job board returns to each alert's request and what the clock reads when
    each alert is reached are parameters. */
module Worker {
  import opened Basics
  import opened JobBoard
  import opened MailText
  import opened App

  /** The search location used when an alert has none. */
  const DefaultLocation: string := "nederland"

  /** Whole days elapsed, as `timedelta.days`: rounded down, also for a negative span. */
  function ElapsedDays(lastCheck: int, now: int): (d: int)
    ensures d * Day <= now - lastCheck < (d + 1) * Day
  {
    (now - lastCheck) / Day
  }

  /** The fewest whole days that must have elapsed before an alert of this frequency
      is checked again; None for any other frequency. */
  function MinDays(frequency: string): (r: Option<int>)
    ensures r.Some? <==> frequency == Daily || frequency == Weekly || frequency == Monthly
    ensures frequency == Daily ==> r == Some(1)
    ensures frequency == Weekly ==> r == Some(7)
    ensures frequency == Monthly ==> r == Some(30)
  {
    if frequency == Daily then Some(1)
    else if frequency == Weekly then Some(7)
    else if frequency == Monthly then Some(30)
    else None
  }

  /** The due check's three outcomes; `Raises` is the TypeError of subtracting a NULL
      `lastCheck`, which happens outside the per-alert try block. */
  datatype Verdict = Due | NotDue | Raises

  /** The due rule. An alert of another frequency is always due and its `lastCheck` is
      never read; otherwise it is skipped exactly when fewer than its minimum number of
      days, counted in seconds, have passed. */
  function DueCheck(frequency: string, lastCheck: Option<int>, now: int): (v: Verdict)
    ensures MinDays(frequency).None? ==> v == Due
    ensures MinDays(frequency).Some? && lastCheck.None? ==> v == Raises
    ensures MinDays(frequency).Some? && lastCheck.Some? ==>
      v != Raises && (v == NotDue <==> now - lastCheck.value < MinDays(frequency).value * Day)
  {
    match MinDays(frequency)
    case None => Due
    case Some(days) =>
      match lastCheck
      case None => Raises
      case Some(last) => if ElapsedDays(last, now) < days then NotDue else Due
  }

  /** The search location: the alert's own when it is a non-empty string. */
  function SearchLocation(location: Option<string>): string
  {
    if location.Some? && location.value != "" then location.value else DefaultLocation
  }

  const SearchBase: string := "https://www.indeed.nl/jobs?q="
  const LocationParam: string := "&l="

  function SearchUrl(query: string, location: string): string
  {
    SearchBase + query + LocationParam + location
  }

  /** The jobs on a page, when every result block has its three texts. */
  function AllJobs(listings: seq<Listing>): (r: Option<seq<Job>>)
    ensures r.Some? <==> forall i :: 0 <= i < |listings| ==> listings[i].job.Some?
    ensures r.Some? ==>
      (|r.value| == |listings| && forall i :: 0 <= i < |listings| ==> r.value[i] == listings[i].job.value)
  {
    if listings == [] then Some([])
    else if listings[0].job.None? then None
    else match AllJobs(listings[1..])
      case None => None
      case Some(rest) => Some([listings[0].job.value] + rest)
  }

  /** The jobs the worker's scraping loop collects from a page; None when a block lacks
      one of its texts, which raises inside the try block. */
  method ScrapeJobs(listings: seq<Listing>) returns (jobs: Option<seq<Job>>)
    ensures jobs == AllJobs(listings)
  {
    var found: seq<Job> := [];
    for i := 0 to |listings|
      invariant |found| == i
      invariant forall k :: 0 <= k < i ==> listings[k].job.Some? && found[k] == listings[k].job.value
    {
      if listings[i].job.None? {
        return None;
      }
      found := found + [listings[i].job.value];
    }
    assert found == AllJobs(listings).value;
    jobs := Some(found);
  }

  const SubjectLead: string := "Nieuwe Vacatures Gevonden voor \""
  const IntroLead: string := "Er zijn "
  const IntroMiddle: string := " nieuwe vacatures gevonden voor uw zoekopdracht '"
  const IntroEnd: string := "':\n\n"

  function AlertSubject(query: string): string
  {
    SubjectLead + query + "\""
  }

  function AlertIntro(count: nat, query: string): string
  {
    IntroLead + Decimal(count) + IntroMiddle + query + IntroEnd
  }

  /** The mail about `jobs` found for `query`. */
  function AlertMail(to: string, query: string, jobs: seq<Job>): Mail
  {
    Mail(to, AlertSubject(query), AlertIntro(|jobs|, query) + Blocks(jobs))
  }

  /** The subject quotes the query, and the opening line states the number of jobs:
      the digits after "Er zijn " read back as that number. */
  lemma MailNamesQueryAndCount(to: string, query: string, jobs: seq<Job>)
    ensures AlertMail(to, query, jobs).subject[32..32 + |query|] == query
    ensures var digits := AlertMail(to, query, jobs).body[8..8 + |Decimal(|jobs|)|];
      (forall i :: 0 <= i < |digits| ==> '0' <= digits[i] <= '9') && DecimalValue(digits) == |jobs|
  {
    var m := AlertMail(to, query, jobs);
    assert m.body[8..8 + |Decimal(|jobs|)|] == Decimal(|jobs|);
    DecimalRoundTrip(|jobs|);
  }

  /** Builds the mail body with the notifier's loop; the SMTP session, whose failure is
      caught and only logged, is not modelled. */
  method SendJobAlert(userEmail: string, query: string, jobs: seq<Job>) returns (mail: Mail)
    ensures mail == AlertMail(userEmail, query, jobs)
  {
    var body := AlertIntro(|jobs|, query);
    for i := 0 to |jobs|
      invariant body == AlertIntro(|jobs|, query) + Blocks(jobs[..i])
    {
      assert jobs[..i + 1][..i] == jobs[..i];
      body := body + JobBlock(jobs[i]);
    }
    assert jobs[..|jobs|] == jobs;
    mail := Mail(userEmail, AlertSubject(query), body);
  }

  /** What one pass does with one alert. */
  datatype Visit =
    | NotSelected                                       // inactive: the query never returns it
    | Skipped                                           // not due: nothing fetched, sent or written
    | DueCheckFailed                                    // the due check raised: the pass ends here
    | CheckFailed(url: string)                          // an exception in the try block, logged
    | Checked(url: string, at: int, mail: Option<Mail>) // lastCheck := at, committed

  /** The per-alert step, given the clock reading taken when the alert is reached and
      the job board's answer to its search. */
  function VisitOf(a: Alert, users: seq<User>, now: int, fetch: Fetch): Visit
  {
    if !a.isActive then NotSelected
    else match DueCheck(a.frequency, a.lastCheck, now)
      case Raises => DueCheckFailed
      case NotDue => Skipped
      case Due =>
        var url := SearchUrl(a.query, SearchLocation(a.location));
        var jobs := if fetch.Page? then AllJobs(fetch.listings) else None;
        if jobs.None? then CheckFailed(url)
        else if jobs.value == [] then Checked(url, now, None)
        else match UserWithId(users, a.userId)
          case None => CheckFailed(url)
          case Some(k) => Checked(url, now, Some(AlertMail(users[k].email, a.query, jobs.value)))
  }

  /** The body of the pass's loop for one alert. */
  method CheckAlert(alert: Alert, users: seq<User>, now: int, fetch: Fetch) returns (v: Visit)
    ensures v == VisitOf(alert, users, now, fetch)
  {
    if !alert.isActive {
      return NotSelected;
    }
    var verdict := DueCheck(alert.frequency, alert.lastCheck, now);
    if verdict == Raises {
      return DueCheckFailed;
    } else if verdict == NotDue {
      return Skipped;
    }
    var url := SearchUrl(alert.query, SearchLocation(alert.location));
    var jobs: Option<seq<Job>> := None;
    if fetch.Page? {
      jobs := ScrapeJobs(fetch.listings);
    }
    if jobs.None? {
      v := CheckFailed(url);
    } else if jobs.value == [] {
      v := Checked(url, now, None);
    } else {
      var owner := UserWithId(users, alert.userId);
      if owner.None? {
        v := CheckFailed(url);
      } else {
        var mail := SendJobAlert(users[owner.value].email, alert.query, jobs.value);
        v := Checked(url, now, Some(mail));
      }
    }
  }

  /** What a visit amounts to. Inactive alerts are not selected; an active alert is
      skipped exactly when the due rule says so; a due alert whose search succeeds is
      checked at the clock reading taken before the search, and it sends a mail exactly
      when the search found jobs, to the owner, about those jobs; the search uses the
      default location when the alert's is empty. */
  lemma VisitOutcomes(a: Alert, users: seq<User>, now: int, fetch: Fetch)
    ensures var v := VisitOf(a, users, now, fetch);
      && (v.NotSelected? <==> !a.isActive)
      && (v.Skipped? <==> a.isActive && DueCheck(a.frequency, a.lastCheck, now) == NotDue)
      && (v.DueCheckFailed? <==> a.isActive && DueCheck(a.frequency, a.lastCheck, now) == Raises)
      && ((v.Checked? || v.CheckFailed?) <==> a.isActive && DueCheck(a.frequency, a.lastCheck, now) == Due)
      && ((v.Checked? || v.CheckFailed?) ==> v.url == SearchUrl(a.query, SearchLocation(a.location)))
      && (v.Checked? <==>
            && a.isActive && DueCheck(a.frequency, a.lastCheck, now) == Due
            && fetch.Page? && AllJobs(fetch.listings).Some?
            && (AllJobs(fetch.listings).value == [] || UserWithId(users, a.userId).Some?))
      && (v.Checked? ==> v.at == now && (v.mail.Some? <==> AllJobs(fetch.listings).value != []))
      && (v.Checked? && v.mail.Some? ==>
            v.mail.value == AlertMail(users[UserWithId(users, a.userId).value].email, a.query, AllJobs(fetch.listings).value))
  {
  }

  /** The alert row after its visit: only a checked alert changes, and only its
      `lastCheck`. */
  function Commit(a: Alert, v: Visit): (r: Alert)
    ensures r == a || (v.Checked? && r == a.(lastCheck := Some(v.at)))
    ensures r.lastCheck == (if v.Checked? then Some(v.at) else a.lastCheck)
  {
    if v.Checked? then a.(lastCheck := Some(v.at)) else a
  }

  /** The visits of one pass over the table in order: alert by alert, until a due
      check raises. */
  function Pass(alerts: seq<Alert>, users: seq<User>, clock: nat -> int, pages: nat -> Fetch): (r: seq<Visit>)
    ensures |r| <= |alerts|
  {
    if alerts == [] then []
    else
      var v := VisitOf(alerts[0], users, clock(alerts[0].id), pages(alerts[0].id));
      if v.DueCheckFailed? then [v] else [v] + Pass(alerts[1..], users, clock, pages)
  }

  /** Failure isolation. Every alert the pass reaches gets its own visit, whatever
      happened to the alerts before it (a failed search included); only a due check
      that raises ends the pass, it is then the last visit, and a pass in which no due
      check raises reaches every alert. */
  lemma {:induction false} PassIsolatesFailures(alerts: seq<Alert>, users: seq<User>, clock: nat -> int, pages: nat -> Fetch)
    ensures var r := Pass(alerts, users, clock, pages);
      && (forall i :: 0 <= i < |r| ==> r[i] == VisitOf(alerts[i], users, clock(alerts[i].id), pages(alerts[i].id)))
      && (forall i :: 0 <= i < |r| - 1 ==> !r[i].DueCheckFailed?)
      && (|r| < |alerts| ==> |r| > 0 && r[|r| - 1].DueCheckFailed?)
  {
    if alerts != [] {
      PassIsolatesFailures(alerts[1..], users, clock, pages);
      var r := Pass(alerts, users, clock, pages);
      forall i | 0 <= i < |r|
        ensures r[i] == VisitOf(alerts[i], users, clock(alerts[i].id), pages(alerts[i].id))
      {
        if i > 0 {
          assert alerts[1..][i - 1] == alerts[i];
        }
      }
    }
  }

  /** The converse of `PassIsolatesFailures`: a sequence of visits with those three
      properties is the pass. */
  lemma {:induction false} PassFromVisits(alerts: seq<Alert>, users: seq<User>, clock: nat -> int, pages: nat -> Fetch, visits: seq<Visit>)
    requires |visits| <= |alerts|
    requires forall k :: 0 <= k < |visits| ==> visits[k] == VisitOf(alerts[k], users, clock(alerts[k].id), pages(alerts[k].id))
    requires forall k :: 0 <= k < |visits| - 1 ==> !visits[k].DueCheckFailed?
    requires |visits| < |alerts| ==> |visits| > 0 && visits[|visits| - 1].DueCheckFailed?
    ensures Pass(alerts, users, clock, pages) == visits
  {
    if alerts != [] {
      assert visits[0] == VisitOf(alerts[0], users, clock(alerts[0].id), pages(alerts[0].id));
      if visits[0].DueCheckFailed? {
        assert |visits| == 1;
      } else {
        var rest := visits[1..];
        forall k | 0 <= k < |rest|
          ensures rest[k] == VisitOf(alerts[1..][k], users, clock(alerts[1..][k].id), pages(alerts[1..][k].id))
        {
          assert rest[k] == visits[k + 1] && alerts[1..][k] == alerts[k + 1];
        }
        forall k | 0 <= k < |rest| - 1
          ensures !rest[k].DueCheckFailed?
        {
          assert rest[k] == visits[k + 1];
        }
        PassFromVisits(alerts[1..], users, clock, pages, rest);
        assert visits == [visits[0]] + rest;
      }
    }
  }

  /** The mails of a pass, in the order they are sent. */
  function MailsOf(visits: seq<Visit>): seq<Mail>
  {
    if visits == [] then []
    else
      var v := visits[|visits| - 1];
      MailsOf(visits[..|visits| - 1]) + if v.Checked? && v.mail.Some? then [v.mail.value] else []
  }

  /** A pass sends exactly the mails of its checked visits that found jobs. */
  lemma {:induction false} MailsOfSent(visits: seq<Visit>, m: Mail)
    ensures m in MailsOf(visits) <==> exists i :: 0 <= i < |visits| && visits[i].Checked? && visits[i].mail == Some(m)
  {
    if visits != [] {
      var init := visits[..|visits| - 1];
      MailsOfSent(init, m);
      if exists i :: 0 <= i < |visits| && visits[i].Checked? && visits[i].mail == Some(m) {
        var i :| 0 <= i < |visits| && visits[i].Checked? && visits[i].mail == Some(m);
        if i < |init| {
          assert init[i] == visits[i];
        }
      }
      if exists i :: 0 <= i < |init| && init[i].Checked? && init[i].mail == Some(m) {
        var i :| 0 <= i < |init| && init[i].Checked? && init[i].mail == Some(m);
        assert visits[i] == init[i];
      }
    }
  }

  /** What a pass does to the table. An alert the pass does not reach, and one it
      reaches but does not check (inactive, not due, or failed), keeps its row; a
      checked alert gets `lastCheck` set to its own clock reading and nothing else. */
  lemma PassCommits(alerts: seq<Alert>, users: seq<User>, clock: nat -> int, pages: nat -> Fetch, i: nat)
    requires i < |alerts|
    ensures var r := Pass(alerts, users, clock, pages);
      var after := if i < |r| then Commit(alerts[i], r[i]) else alerts[i];
      && (!alerts[i].isActive ==> after == alerts[i])
      && (after != alerts[i] ==> i < |r| && r[i].Checked?)
      && (i < |r| && r[i].Checked? ==> after == alerts[i].(lastCheck := Some(clock(alerts[i].id))))
  {
    PassIsolatesFailures(alerts, users, clock, pages);
    var r := Pass(alerts, users, clock, pages);
    if i < |r| {
      VisitOutcomes(alerts[i], users, clock(alerts[i].id), pages(alerts[i].id));
    }
  }

  /** A search that fails for one alert does not stop the pass: the next alert is
      still visited. */
  lemma FailureDoesNotStopPass(alerts: seq<Alert>, users: seq<User>, clock: nat -> int, pages: nat -> Fetch, i: nat)
    requires i + 1 < |alerts|
    requires i < |Pass(alerts, users, clock, pages)| && Pass(alerts, users, clock, pages)[i].CheckFailed?
    ensures i + 1 < |Pass(alerts, users, clock, pages)|
  {
    PassIsolatesFailures(alerts, users, clock, pages);
  }

  /** Committing visits changes only `lastCheck`, so the tables stay consistent. */
  lemma CommitsKeepConsistent(users: seq<User>, alerts: seq<Alert>, visits: seq<Visit>, table: seq<Alert>, nextUserId: nat, nextAlertId: nat)
    requires Consistent(users, alerts, nextUserId, nextAlertId)
    requires |table| == |alerts| && |visits| <= |alerts|
    requires forall k :: 0 <= k < |alerts| ==> table[k] == if k < |visits| then Commit(alerts[k], visits[k]) else alerts[k]
    ensures Consistent(users, table, nextUserId, nextAlertId)
  {
    forall k | 0 <= k < |table|
      ensures table[k].id == alerts[k].id && table[k].userId == alerts[k].userId
    {
    }
    RekeyedConsistent(users, alerts, table, nextUserId, nextAlertId);
  }

  /** The loop of `check_jobs` over a snapshot of the alert table: visits each alert in
      turn, stops right after a due check that raises, and returns the visits and the
      table with each checked alert's new `lastCheck`. Each visit carries the mail it
      sent, so the mails of the pass are `MailsOf(visits)`. */
  method RunPass(alerts: seq<Alert>, users: seq<User>, clock: nat -> int, pages: nat -> Fetch)
    returns (visits: seq<Visit>, table: seq<Alert>)
    ensures |visits| <= |alerts|
    ensures forall k :: 0 <= k < |visits| ==> visits[k] == VisitOf(alerts[k], users, clock(alerts[k].id), pages(alerts[k].id))
    ensures forall k :: 0 <= k < |visits| - 1 ==> !visits[k].DueCheckFailed?
    ensures |visits| < |alerts| ==> |visits| > 0 && visits[|visits| - 1].DueCheckFailed?
    ensures |table| == |alerts|
    ensures forall k :: 0 <= k < |alerts| ==> table[k] == if k < |visits| then Commit(alerts[k], visits[k]) else alerts[k]
  {
    table := alerts;
    visits := [];
    for i := 0 to |alerts|
      invariant |table| == |alerts| && |visits| == i
      invariant forall k :: 0 <= k < i ==> visits[k] == VisitOf(alerts[k], users, clock(alerts[k].id), pages(alerts[k].id))
      invariant DueCheckFailed !in visits
      invariant forall k :: 0 <= k < |alerts| ==> table[k] == if k < i then Commit(alerts[k], visits[k]) else alerts[k]
    {
      var alert := alerts[i];
      var v := CheckAlert(alert, users, clock(alert.id), pages(alert.id));
      ghost var before := visits;
      visits := visits + [v];
      assert visits[..i] == before;
      if v.DueCheckFailed? {
        return;
      } else if v.Checked? {
        table := table[i := alert.(lastCheck := Some(v.at))];
      }
    }
  }

  /** One pass of `check_jobs` over the store's alert table. A pass cut short by a
      raising due check keeps the `lastCheck` commits made before it; only the alert
      table changes. */
  method CheckJobs(store: Store, clock: nat -> int, pages: nat -> Fetch) returns (visits: seq<Visit>)
    modifies store
    ensures store.users == old(store.users)
    ensures store.nextUserId == old(store.nextUserId) && store.nextAlertId == old(store.nextAlertId)
    ensures visits == Pass(old(store.alerts), store.users, clock, pages)
    ensures |store.alerts| == |old(store.alerts)|
    ensures forall i :: 0 <= i < |store.alerts| ==>
      store.alerts[i] == if i < |visits| then Commit(old(store.alerts)[i], visits[i]) else old(store.alerts)[i]
    ensures old(store.Valid()) ==> store.Valid()
  {
    var table;
    visits, table := RunPass(store.alerts, store.users, clock, pages);
    PassFromVisits(store.alerts, store.users, clock, pages, visits);
    if store.Valid() {
      CommitsKeepConsistent(store.users, store.alerts, visits, table, store.nextUserId, store.nextAlertId);
    }
    store.alerts := table;
  }
}
