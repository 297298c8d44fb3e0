/** The stand-alone alert script: one fixed search, a set of posting ids already
    reported, kept in a JSON file between runs, and a daily summary mail of the
    postings not reported before. The HTTP request, HTML parsing and SMTP session are
    not modelled: the page the search returns is a parameter, and the mail is the
    value the script would send. */
module JobAlertScript {
  import opened Basics
  import opened JobBoard
  import opened MailText

  /** A posting the search reports: its `data-jk` id and its three texts. */
  datatype Posting = Posting(id: string, job: Job)

  /** The seen-ids file: absent, or holding a JSON list of ids. */
  datatype SeenFile = Missing | Saved(ids: seq<string>)

  /** The set `load_seen_jobs` reads from the file; a missing file reads as empty. */
  function Loaded(file: SeenFile): (s: set<string>)
    ensures file.Missing? ==> s == {}
    ensures file.Saved? ==> forall id :: id in s <==> id in file.ids
  {
    if file.Missing? then {} else set id | id in file.ids
  }

  /** A result block's id when it has a non-empty `data-jk` attribute. */
  function KeyOf(l: Listing): Option<string>
  {
    if l.jobKey.Some? && l.jobKey.value != "" then l.jobKey else None
  }

  /** A block the search reports: it has an id, and the id was not seen before. */
  predicate Fresh(l: Listing, seen: set<string>)
  {
    KeyOf(l).Some? && KeyOf(l).value !in seen
  }

  /** The state of a scan: the postings collected, the seen set, and whether the scan
      got through the page (false when a fresh block lacked one of its texts, which
      raises out of the search). */
  datatype Scan = Scan(found: seq<Posting>, seen: set<string>, ok: bool)

  /** The scan `search_jobs` makes over a page, block by block: a fresh block is
      collected and its id marked seen at once, so a later block with the same id is
      no longer fresh. */
  function ScanPage(listings: seq<Listing>, seen: set<string>): Scan
  {
    if listings == [] then Scan([], seen, true)
    else
      var l := listings[0];
      if !Fresh(l, seen) then ScanPage(listings[1..], seen)
      else if l.job.None? then Scan([], seen, false)
      else
        var rest := ScanPage(listings[1..], seen + {KeyOf(l).value});
        Scan([Posting(KeyOf(l).value, l.job.value)] + rest.found, rest.seen, rest.ok)
  }

  function Ids(postings: seq<Posting>): set<string>
  {
    set p | p in postings :: p.id
  }

  /** The blocks of a page that have an id and all three texts, in page order. */
  function Candidates(listings: seq<Listing>): seq<Posting>
  {
    if listings == [] then []
    else
      var l := listings[0];
      if KeyOf(l).Some? && l.job.Some? then [Posting(KeyOf(l).value, l.job.value)] + Candidates(listings[1..])
      else Candidates(listings[1..])
  }

  /** The seen set only grows, by exactly the ids collected, and every collected id
      is non-empty and was not seen before; this holds also when the scan fails
      part-way, for the ids collected up to then. */
  lemma {:induction false} ScanRecordsFound(listings: seq<Listing>, seen: set<string>)
    ensures var r := ScanPage(listings, seen);
      && r.seen == seen + Ids(r.found)
      && forall p :: p in r.found ==> p.id != "" && p.id !in seen
  {
    if listings != [] {
      var l := listings[0];
      if !Fresh(l, seen) {
        ScanRecordsFound(listings[1..], seen);
      } else if l.job.Some? {
        var k := KeyOf(l).value;
        ScanRecordsFound(listings[1..], seen + {k});
        var rest := ScanPage(listings[1..], seen + {k});
        var found := [Posting(k, l.job.value)] + rest.found;
        assert Ids(found) == {k} + Ids(rest.found) by {
          forall id ensures id in Ids(found) <==> id in {k} + Ids(rest.found)
          {
            if id in Ids(rest.found) {
              var p :| p in rest.found && p.id == id;
              assert p in found;
            }
          }
        }
      }
    }
  }

  /** The postings collected have pairwise distinct ids, even when the page lists an
      id twice. */
  lemma {:induction false} ScanFindsDistinct(listings: seq<Listing>, seen: set<string>)
    ensures var found := ScanPage(listings, seen).found;
      forall i, j :: 0 <= i < j < |found| ==> found[i].id != found[j].id
  {
    if listings != [] {
      var l := listings[0];
      if !Fresh(l, seen) {
        ScanFindsDistinct(listings[1..], seen);
        var found := ScanPage(listings, seen).found;
        assert found == ScanPage(listings[1..], seen).found;
        forall i, j | 0 <= i < j < |found|
          ensures found[i].id != found[j].id
        {
        }
      } else if l.job.Some? {
        var k := KeyOf(l).value;
        ScanFindsDistinct(listings[1..], seen + {k});
        ScanRecordsFound(listings[1..], seen + {k});
        var rest := ScanPage(listings[1..], seen + {k}).found;
        var found := [Posting(k, l.job.value)] + rest;
        forall i, j | 0 <= i < j < |found|
          ensures found[i].id != found[j].id
        {
          assert found[j] == rest[j - 1];
          if i > 0 {
            assert found[i] == rest[i - 1];
          } else {
            assert rest[j - 1] in rest;
          }
        }
      }
    }
  }

  /** The postings collected are blocks of the page, in page order. */
  lemma {:induction false} ScanKeepsOrder(listings: seq<Listing>, seen: set<string>)
    ensures Subsequence(ScanPage(listings, seen).found, Candidates(listings))
  {
    if listings != [] {
      var l := listings[0];
      var rest := Candidates(listings[1..]);
      if !Fresh(l, seen) {
        ScanKeepsOrder(listings[1..], seen);
        if KeyOf(l).Some? && l.job.Some? {
          SubsequenceSkip(ScanPage(listings, seen).found, rest, Posting(KeyOf(l).value, l.job.value));
        }
      } else if l.job.Some? {
        var k := KeyOf(l).value;
        ScanKeepsOrder(listings[1..], seen + {k});
        var found := ScanPage(listings, seen).found;
        assert found[1..] == ScanPage(listings[1..], seen + {k}).found;
        assert Candidates(listings)[1..] == rest;
      }
    }
  }

  /** The position of the first block on the page whose id is `id`. */
  function FirstWithId(listings: seq<Listing>, id: string): Option<nat>
  {
    FirstIndex(listings, (l: Listing) => KeyOf(l) == Some(id))
  }

  /** Each posting reported comes from the first block on the page with its id, with
      that block's texts, and the postings are reported in the order of those blocks;
      a later block repeating the id is ignored. */
  lemma {:induction false} ScanReportsFirstBlocks(listings: seq<Listing>, seen: set<string>)
    ensures var found := ScanPage(listings, seen).found;
      && (forall i :: 0 <= i < |found| ==>
            FirstWithId(listings, found[i].id).Some? &&
            listings[FirstWithId(listings, found[i].id).value].job == Some(found[i].job))
      && (forall i, j :: 0 <= i < j < |found| ==>
            FirstWithId(listings, found[i].id).value < FirstWithId(listings, found[j].id).value)
  {
    if listings != [] {
      var l := listings[0];
      var seen' := if Fresh(l, seen) then seen + {KeyOf(l).value} else seen;
      if !Fresh(l, seen) || l.job.Some? {
        ScanReportsFirstBlocks(listings[1..], seen');
        ScanRecordsFound(listings[1..], seen');
        var rest := ScanPage(listings[1..], seen').found;
        forall p | p in rest
          ensures FirstWithId(listings, p.id).Some? && FirstWithId(listings[1..], p.id).Some?
          ensures FirstWithId(listings, p.id).value == FirstWithId(listings[1..], p.id).value + 1
        {
          assert KeyOf(l) != Some(p.id);
        }
      }
    }
  }

  /** A scan that gets through the page leaves every id on the page seen. */
  lemma {:induction false} ScanCoversPage(listings: seq<Listing>, seen: set<string>)
    ensures var r := ScanPage(listings, seen);
      r.ok ==> forall i :: 0 <= i < |listings| && KeyOf(listings[i]).Some? ==> KeyOf(listings[i]).value in r.seen
  {
    if listings != [] {
      var l := listings[0];
      var seen' := if Fresh(l, seen) then seen + {KeyOf(l).value} else seen;
      if !Fresh(l, seen) || l.job.Some? {
        ScanCoversPage(listings[1..], seen');
        ScanRecordsFound(listings[1..], seen');
        forall i | 1 <= i < |listings|
          ensures listings[i] == listings[1..][i - 1]
        {
        }
      }
    }
  }

  /** A scan that gets through the page reports every id on the page that was not
      seen before. */
  lemma FindsAllUnseen(listings: seq<Listing>, seen: set<string>)
    ensures var r := ScanPage(listings, seen);
      r.ok ==> forall i :: 0 <= i < |listings| && Fresh(listings[i], seen) ==> KeyOf(listings[i]).value in Ids(r.found)
  {
    ScanCoversPage(listings, seen);
    ScanRecordsFound(listings, seen);
  }

  /** A page whose ids are all seen yields nothing and changes nothing. */
  lemma {:induction false} NothingUnseen(listings: seq<Listing>, seen: set<string>)
    requires forall i :: 0 <= i < |listings| && KeyOf(listings[i]).Some? ==> KeyOf(listings[i]).value in seen
    ensures ScanPage(listings, seen) == Scan([], seen, true)
  {
    if listings != [] {
      assert forall i :: 1 <= i < |listings| ==> listings[i] == listings[1..][i - 1];
      NothingUnseen(listings[1..], seen);
    }
  }

  /** Searching the same page again right after a search that got through it reports
      nothing new. */
  lemma ScanIdempotent(listings: seq<Listing>, seen: set<string>)
    ensures var r := ScanPage(listings, seen);
      r.ok ==> ScanPage(listings, r.seen) == Scan([], r.seen, true)
  {
    var r := ScanPage(listings, seen);
    if r.ok {
      ScanCoversPage(listings, seen);
      NothingUnseen(listings, r.seen);
    }
  }

  /** The scan continued by the part of the page after `found`. */
  function Then(found: seq<Posting>, s: Scan): Scan
  {
    Scan(found + s.found, s.seen, s.ok)
  }

  lemma ScanStep(listings: seq<Listing>, i: nat, seen: set<string>)
    requires i < |listings|
    ensures var l := listings[i];
      ScanPage(listings[i..], seen) ==
        if !Fresh(l, seen) then ScanPage(listings[i + 1..], seen)
        else if l.job.None? then Scan([], seen, false)
        else Then([Posting(KeyOf(l).value, l.job.value)], ScanPage(listings[i + 1..], seen + {KeyOf(l).value}))
  {
    assert listings[i..][1..] == listings[i + 1..];
  }

  /** `list(seen_jobs)`: the ids of a set, each once, in some order. */
  method SetToList(s: set<string>) returns (ids: seq<string>)
    ensures forall id :: id in ids <==> id in s
    ensures forall i, j :: 0 <= i < j < |ids| ==> ids[i] != ids[j]
  {
    ids := [];
    var rest := s;
    while rest != {}
      invariant rest <= s
      invariant forall id :: id in ids <==> id in s && id !in rest
      invariant forall i, j :: 0 <= i < j < |ids| ==> ids[i] != ids[j]
      decreases |rest|
    {
      var id :| id in rest;
      ids := ids + [id];
      rest := rest - {id};
    }
  }

  const SummaryHeader: string := "De volgende nieuwe vacatures zijn gevonden:\n\n"
  const SummarySubject: string := "Nieuwe Vacatures Gevonden - "

  function PostingBlock(p: Posting): string
  {
    JobBlock(p.job)
  }

  /** The summary mail of `postings`, dated with the day's `dd-mm-YYYY` date. */
  function SummaryMail(receiver: string, date: string, postings: seq<Posting>): Mail
  {
    Mail(receiver, SummarySubject + date, SummaryHeader + Joined(postings, PostingBlock))
  }

  /** The script's state: the ids already reported, and the file they are kept in. */
  class JobAlert {
    var seen: set<string>
    var disk: SeenFile

    /** Starts from the ids in the file, or none when there is no file. */
    constructor (file: SeenFile)
      ensures disk == file && seen == Loaded(file)
    {
      disk := file;
      seen := {};
      new;
      LoadSeenJobs();
    }

    method LoadSeenJobs()
      modifies this
      ensures disk == old(disk) && seen == Loaded(disk)
    {
      if disk.Missing? {
        seen := {};
      } else {
        seen := set id | id in disk.ids;
      }
    }

    /** Writes the set to the file; loading the file gives the same set back. */
    method SaveSeenJobs()
      modifies this
      ensures seen == old(seen) && disk.Saved? && Loaded(disk) == seen
      ensures forall i, j :: 0 <= i < j < |disk.ids| ==> disk.ids[i] != disk.ids[j]
    {
      var ids := SetToList(seen);
      disk := Saved(ids);
    }

    /** `search_jobs` on the page the request returned. A failed request raises before
        anything changes; a block that raises part-way leaves the ids marked so far in
        memory and the file as it was; a complete scan returns the postings found and
        saves the grown set. */
    method SearchJobs(fetch: Fetch) returns (postings: Option<seq<Posting>>)
      modifies this
      ensures fetch.RequestFailed? ==> postings.None? && seen == old(seen) && disk == old(disk)
      ensures fetch.Page? ==>
        var r := ScanPage(fetch.listings, old(seen));
        && seen == r.seen
        && (r.ok ==> postings == Some(r.found) && disk.Saved? && Loaded(disk) == seen)
        && (!r.ok ==> postings.None? && disk == old(disk))
    {
      if fetch.RequestFailed? {
        return None;
      }
      var listings := fetch.listings;
      var found: seq<Posting> := [];
      for i := 0 to |listings|
        invariant disk == old(disk)
        invariant ScanPage(listings, old(seen)) == Then(found, ScanPage(listings[i..], seen))
      {
        ScanStep(listings, i, seen);
        var l := listings[i];
        if l.jobKey.Some? && l.jobKey.value != "" && l.jobKey.value !in seen {
          if l.job.None? {
            assert found + [] == found;
            return None;
          }
          var p := Posting(l.jobKey.value, l.job.value);
          assert found + ([p] + ScanPage(listings[i + 1..], seen + {p.id}).found)
            == (found + [p]) + ScanPage(listings[i + 1..], seen + {p.id}).found;
          found := found + [p];
          seen := seen + {p.id};
        }
      }
      assert listings[|listings|..] == [] && found + [] == found;
      SaveSeenJobs();
      postings := Some(found);
    }

    /** `send_email`: nothing for an empty list, otherwise the summary mail built with
        the notifier's loop; the SMTP session, whose failure is only logged, is not
        modelled. */
    method SendEmail(postings: seq<Posting>, receiver: string, date: string) returns (mail: Option<Mail>)
      ensures postings == [] ==> mail.None?
      ensures postings != [] ==> mail == Some(SummaryMail(receiver, date, postings))
    {
      if postings == [] {
        return None;
      }
      var body := SummaryHeader;
      for i := 0 to |postings|
        invariant body == SummaryHeader + Joined(postings[..i], PostingBlock)
      {
        assert postings[..i + 1][..i] == postings[..i];
        body := body + PostingBlock(postings[i]);
      }
      assert postings[..|postings|] == postings;
      mail := Some(Mail(receiver, SummarySubject + date, body));
    }
  }

  /** One round of the script's `check_jobs`: search, and mail the postings when there
      are any. A search that raises ends the script (None). */
  method CheckJobs(alert: JobAlert, fetch: Fetch, receiver: string, date: string)
    returns (postings: Option<seq<Posting>>, mail: Option<Mail>)
    modifies alert
    ensures fetch.RequestFailed? ==> postings.None? && alert.seen == old(alert.seen) && alert.disk == old(alert.disk)
    ensures fetch.Page? ==>
      var r := ScanPage(fetch.listings, old(alert.seen));
      && alert.seen == r.seen
      && (r.ok ==> postings == Some(r.found) && alert.disk.Saved? && Loaded(alert.disk) == alert.seen)
      && (!r.ok ==> postings.None? && alert.disk == old(alert.disk))
    ensures mail.Some? <==> postings.Some? && postings.value != []
    ensures mail.Some? ==> mail.value == SummaryMail(receiver, date, postings.value)
  {
    postings := alert.SearchJobs(fetch);
    mail := None;
    if postings.Some? && postings.value != [] {
      mail := alert.SendEmail(postings.value, receiver, date);
    }
  }
}
