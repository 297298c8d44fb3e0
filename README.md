# jobalert in Dafny

jobalert lets registered users store job-search alerts. An alert has a query, an
optional location, a frequency and an active flag. A worker goes over the alert
table every hour and scrapes a job board for every active alert that is due. It
mails the owner whatever the search found, then records the time of the check. A
second, stand-alone script runs one fixed search every day. It keeps the ids of the
postings it has already reported in a JSON file and mails only the new ones. Two
admin scripts change the tables directly: one sets every alert's last check to two
days before now, the other deletes the test account and its alerts.

This project models those parts and proves what each one promises:

- `App` (`app.dfy`): the two tables as the fields of a `Store` class, and the
  handlers that change them: sign-up, new alert, owner-only toggle and dashboard.
  The ghost invariant `Valid` says that user ids and emails are unique, alert ids
  are unique, ids are below the next ids handed out, and every alert's owner exists.
  Every handler keeps it.
- `Worker` (`worker.dfy`): one pass of `check_jobs`. It covers the due rule on
  whole elapsed days, the default search location, the scraping loop, the mail that
  `send_job_alert` builds and the per-alert `last_check` commit. The pass is
  specified by the function `Pass`, which gives the visit each alert gets, and
  `Commit`, which gives the row each visit leaves. The method `RunPass` runs the
  loop and `CheckJobs` applies the result to the store. The lemmas state failure
  isolation: a search that raises is logged and the pass goes on, while a due check
  that raises (a NULL `last_check`) ends the pass. They also state that only checked
  alerts change, and that the mails sent are those of the checked alerts that found
  jobs.
- `JobAlertScript` (`job_alert.dfy`): the `JobAlert` class with its seen-id set
  and its file. `ScanPage` specifies the scan in `search_jobs`. The lemmas about it
  state that:
  - the new ids are exactly the ids returned;
  - returned ids are unseen, non-empty and pairwise distinct;
  - the result keeps page order;
  - each posting carries the texts of the first block with its id;
  - every unseen id on the page is found;
  - a second search of the same page finds nothing.
  Saving and then loading the file gives the set back.
- `MailText` (`mail_text.dfy`): the plain-text body both notifiers build. Each job
  gets one four-line block, in input order. The decimal count in the opening line
  reads back as the number of jobs.
- `ResetAlerts` and `CleanupAlerts`: the two admin scripts as methods on the same
  `Store`. `PassAfterReset` states what the reset is for: the next pass reaches
  every alert, searches for every active daily alert and still skips active weekly
  and monthly ones.
- `Basics` and `JobBoard`: an option type, order-preserving filtering (a query's
  WHERE clause), `.first()`, and the outcome of a search request as the parsers
  deliver it.

Timestamps are whole seconds in UTC. `timedelta.days` is floor division by 86400
seconds, and for a positive divisor Dafny's `/` is the same. In these points the
model follows what the code does:

- The worker has no sent-id filter, no eviction and no separate error categories
  for the job source. It re-sends every job it scrapes and catches any exception
  in its try block.
- A `frequency` left out of the form is stored as the column default `'daily'`.
  A missing `location` is stored as NULL, and the worker then searches `nederland`.
- An alert whose owner no longer exists fails inside the try block only when jobs
  were found, because only then is `alert.user.email` read. An empty result is
  still committed as checked.

## Model

| member | source | states |
|---|---|---|
| Basics.Filter | cleanup_alerts.py:10 | the rows kept are exactly those of the table that satisfy the condition, and there are no more of them than rows |
| Basics.FilterIsSubsequence | app.py:78 | a filtered query returns its rows in table order, as a subsequence of the table |
| Basics.FilterKeepsDistinct | cleanup_alerts.py:10 | deleting rows keeps rows that had unique keys unique |
| Basics.FirstIndex | app.py:51 | `.first()` returns the first matching row, and None only when no row matches |
| MailText.Dashes | worker.py:79 | `"-" * n` is n dashes |
| MailText.JoinedAppend | worker.py:75-79 | the body of a list of jobs is the body of its first part followed by the body of the rest |
| MailText.JoinedInPlace | worker.py:75-79 | each job's block sits in the body between the blocks of the jobs before it and after it, so input order is kept |
| MailText.Decimal | worker.py:74 | `str(len(jobs))` is a non-empty string of digits with no leading zero, except for 0 itself |
| MailText.DecimalRoundTrip | worker.py:74 | the count written into the mail reads back as the same number |
| App.AlertsOf | app.py:78 | an alert is listed exactly when it is in the table and owned by the user; listed alerts keep table order |
| App.AlertsNotOf | cleanup_alerts.py:10 | an alert survives the delete exactly when it is in the table and not owned by the user; the survivors keep table order |
| App.Toggled | app.py:100-104 | the table after a toggle request: when the alert exists and the requester owns it, exactly that row has `is_active` negated; for an unknown id or another user the table is unchanged; no other row ever changes |
| App.ToggleTwiceRestores | app.py:103-104 | toggling the same alert twice as the same user restores the table |
| App.RekeyedConsistent | app.py:26-33 | changing alert rows without touching their ids or owners keeps both tables consistent |
| App.Store.Register | app.py:46-60 | an email already present gives EmailInUse and no change; otherwise a user is added exactly when email and password are present, with the next id and that email; the invariant is kept |
| App.Store.NewAlert | app.py:83-95 | an alert is added exactly when the query is present: the next id, owned by the current user, location as given, frequency defaulting to daily, `last_check` now, active; users unchanged; the invariant is kept |
| App.Store.ToggleAlert | app.py:99-105 | an unknown id is NotFound and a non-owner is NotOwner, both iff their conditions hold and both with no change; the owner flips only that alert's `is_active` |
| App.Store.Dashboard | app.py:75-79 | exactly the current user's alerts, in table order |
| Worker.ElapsedDays | worker.py:24 | whole days elapsed, rounded down: d days cover at most the span, d + 1 days exceed it |
| Worker.MinDays | worker.py:24-29 | only daily, weekly and monthly have a minimum interval: 1 day for daily, 7 for weekly, 30 for monthly |
| Worker.DueCheck | worker.py:21-29 | another frequency is always due; a known frequency with NULL `last_check` raises; otherwise it is not due iff less than its minimum days in seconds has passed |
| Worker.AllJobs | worker.py:43-53 | the scrape succeeds iff every result block has its three texts, and then it returns them all in page order |
| Worker.ScrapeJobs | worker.py:43-53 | the scraping loop returns `AllJobs` of the page |
| Worker.MailNamesQueryAndCount | worker.py:72-74 | the subject quotes the query; the digits after "Er zijn " read back as the number of jobs |
| Worker.SendJobAlert | worker.py:65-81 | the loop-built mail goes to the owner and is `AlertMail`: subject, count line and one block per job in order |
| Worker.CheckAlert | worker.py:19-63 | the loop body for one alert yields `VisitOf` that alert |
| Worker.VisitOutcomes | worker.py:17-63 | inactive alerts are not selected; an active alert is skipped iff not due and fails the pass iff its due check raises; a due alert is checked at `now` exactly when the scrape succeeds (and its owner exists if jobs were found), searching the default location for an empty one; a mail is sent iff jobs were found, to the owner, about those jobs |
| Worker.Commit | worker.py:58-60 | only a checked visit changes the row, and then only `last_check`, to the time of the check |
| Worker.Pass | worker.py:17-19 | a pass gives at most one visit per alert row |
| Worker.PassIsolatesFailures | worker.py:19-63 | every alert the pass reaches gets its own visit, whatever happened before it; only a raising due check ends the pass early, and it is then the last visit |
| Worker.PassFromVisits | worker.py:19-63 | any visit sequence with those properties is the pass, so the pass is fully determined by them |
| Worker.MailsOfSent | worker.py:55-56 | a pass sends a mail exactly when some checked alert's search found jobs and that mail is its mail |
| Worker.PassCommits | worker.py:17-19 | inactive, unreached, skipped and failed alerts keep their row; a checked alert gets `last_check` set to its own clock reading and nothing else |
| Worker.FailureDoesNotStopPass | worker.py:39-63 | a failed search does not stop the pass: the next alert is still visited |
| Worker.CommitsKeepConsistent | worker.py:59-60 | the `last_check` commits keep the tables consistent |
| Worker.RunPass | worker.py:19-63 | the loop's visits satisfy the properties that determine `Pass`, and its table has `Commit` applied to each visited alert and nothing else |
| Worker.CheckJobs | worker.py:14-63 | one pass: the visits are `Pass` of the old table; each row is its `Commit` if visited and unchanged otherwise; users unchanged; the invariant is kept |
| JobAlertScript.Loaded | job_alert.py:21-26 | a missing file loads as the empty set; a saved file loads as exactly the ids in it |
| JobAlertScript.ScanRecordsFound | job_alert.py:44-57 | the seen set grows by exactly the ids returned, and every returned id is non-empty and was not seen before |
| JobAlertScript.ScanFindsDistinct | job_alert.py:46-57 | the returned ids are pairwise distinct, even when the page lists an id twice |
| JobAlertScript.ScanKeepsOrder | job_alert.py:44-56 | the returned postings are a subsequence, in page order, of the page's blocks that have an id and all three texts |
| JobAlertScript.ScanReportsFirstBlocks | job_alert.py:44-57 | each posting reported carries the id and texts of the first block on the page with that id, and postings come in the order of those blocks; a repeated id's later blocks are ignored |
| JobAlertScript.ScanCoversPage | job_alert.py:44-57 | after a scan that gets through the page, every id on the page is seen |
| JobAlertScript.FindsAllUnseen | job_alert.py:44-57 | a scan that gets through the page returns every id on it that was not seen before |
| JobAlertScript.NothingUnseen | job_alert.py:46 | a page whose ids are all seen returns nothing and changes nothing |
| JobAlertScript.ScanIdempotent | job_alert.py:46-57 | searching the same page again right after returns nothing and changes nothing |
| JobAlertScript.SetToList | job_alert.py:30 | `list(seen_jobs)` holds exactly the ids of the set, each once |
| JobAlertScript.JobAlert.constructor | job_alert.py:17-19 | the script starts from the set stored in the file |
| JobAlertScript.JobAlert.LoadSeenJobs | job_alert.py:21-26 | the set becomes what the file holds, or empty for a missing file |
| JobAlertScript.JobAlert.SaveSeenJobs | job_alert.py:28-30 | the file holds each id of the set once, and loading it gives the same set |
| JobAlertScript.JobAlert.SearchJobs | job_alert.py:32-60 | a failed request changes nothing; otherwise the set becomes the scan's set; a complete scan returns its postings and saves the set, while a block missing a text raises and leaves the file as it was |
| JobAlertScript.JobAlert.SendEmail | job_alert.py:62-92 | no mail for an empty list; otherwise the dated summary mail with one block per posting, in order |
| JobAlertScript.CheckJobs | job_alert.py:97-104 | the set becomes the scan's set; a complete scan saves it to the file, while a failed request or a raising block leaves the file as it was; a mail is built iff the search returned postings, and it is the summary of exactly those |
| ResetAlerts.ResetAlerts | reset_alerts.py:4-18 | every alert, active or not, gets the same `last_check`, two days back, and no other field or table changes; the invariant is kept |
| ResetAlerts.PassAfterReset | reset_alerts.py:10-13 | a pass within five days of a reset visits every alert and no due check raises; every active daily alert is due and searched (checked or failed), and active weekly and monthly ones are still skipped |
| CleanupAlerts.RemovedUsersUnique | cleanup_alerts.py:13 | deleting one user keeps ids and emails unique |
| CleanupAlerts.RemainingAlertsOwned | cleanup_alerts.py:10-13 | after the user and their alerts are deleted, every remaining alert still has its owner |
| CleanupAlerts.RemovalConsistent | cleanup_alerts.py:10-15 | deleting a user together with all their alerts keeps the tables consistent |
| CleanupAlerts.CleanupAlerts | cleanup_alerts.py:4-18 | something is deleted iff a user has the test address; then exactly that user's alerts and that user are removed and the other rows are untouched; otherwise nothing changes; the invariant is kept |

## Left out

- HTTP requests and BeautifulSoup parsing: a search's outcome is a parameter, either the page's result blocks with their stripped texts or a failed request.
- The SMTP session, MIME assembly and `os.getenv`/dotenv: both notifiers return the mail they would send. A send failure is only logged in the source, so it changes nothing.
- The forever loops with `time.sleep` and `schedule`: one pass or one round is modelled.
- Flask routing, templates, `flash`, login sessions and password hashing: the logged-in user's id and the computed hash are parameters.
- `init_db.py`, `recreate_db.py`, `update_db.py`, `config.py`, `wsgi.py`, `reset_password.py` and `create_test_alert.py` have no logic in the modelled core and are not part of this model.
- Database ids: rows get the next value of a counter. SQLite's possible reuse of a deleted highest rowid is not modelled.
- Failing commits, a malformed seen-id file, the `String(n)` column lengths (SQLite does not enforce them), and naive versus aware datetimes.
- Worker.CheckJobs: the source commits each checked alert's `last_check` as soon as that alert is done. The model applies all these commits to the store when the pass ends. The final table is the same provided no other process writes the tables during a pass: each commit changes only its own alert's row, so a later row re-read after a commit (worker.py:21) still holds its original values. Intermediate states of the store are not modelled.
- Worker.CheckJobs: writes by the web app or the admin scripts while a pass runs are not modelled. An example is a cleanup that deletes a later alert, whose re-read then raises outside the try block. The model has one process at a time on the tables.
- Worker.CheckJobs: the clock reading for each alert is a function of the alert's id, `clock`. The source reads `utcnow()` once per alert, so nothing is assumed about how the readings of different alerts relate.
- Worker.CheckJobs: the mails are not a separate output. Each is the `mail` of a `Checked` visit, and `MailsOf(visits)` lists them in sending order.
- JobAlertScript.JobAlert.SendEmail: the date is a parameter, standing for the `dd-mm-YYYY` text of `datetime.now()`. The receiver is a parameter, standing for the value of `EMAIL_RECEIVER`; an unset variable is not modelled.
- JobAlertScript.SetToList: the order of `list(set)` is unspecified in the source, and the model picks an arbitrary order.
