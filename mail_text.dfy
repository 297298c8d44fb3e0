/** The plain-text mail both notifiers build: one four-line block per job, and the
    decimal job count that the alert worker puts in its opening line. */
module MailText {
  import opened JobBoard

  datatype Mail = Mail(to: string, subject: string, body: string)

  /** Python's `"-" * n`. */
  function Dashes(n: nat): (s: string)
    ensures |s| == n && forall i :: 0 <= i < n ==> s[i] == '-'
  {
    if n == 0 then "" else Dashes(n - 1) + "-"
  }

  const TitleLabel: string := "Titel: "
  const CompanyLabel: string := "Bedrijf: "
  const LocationLabel: string := "Locatie: "

  /** The block for one job: title, company and location lines, then a rule of 50 dashes. */
  function JobBlock(job: Job): string
  {
    TitleLabel + job.title + "\n" + CompanyLabel + job.company + "\n" + LocationLabel + job.location + "\n" + Dashes(50) + "\n"
  }

  /** The texts `block(x)` of the items of `xs`, appended one item at a time. */
  function Joined<T>(xs: seq<T>, block: T -> string): string
  {
    if xs == [] then "" else Joined(xs[..|xs| - 1], block) + block(xs[|xs| - 1])
  }

  lemma {:induction false} JoinedAppend<T>(a: seq<T>, b: seq<T>, block: T -> string)
    ensures Joined(a + b, block) == Joined(a, block) + Joined(b, block)
    decreases |b|
  {
    if b == [] {
      assert a + b == a;
    } else {
      var b', last := b[..|b| - 1], b[|b| - 1];
      assert (a + b)[..|a + b| - 1] == a + b' && (a + b)[|a + b| - 1] == last;
      JoinedAppend(a, b', block);
    }
  }

  /** The blocks of all jobs as the notifiers' loops append them, one job at a time. */
  function Blocks(jobs: seq<Job>): string
  {
    Joined(jobs, JobBlock)
  }

  /** A mail body lists its items in input order: the block of an item sits between
      the blocks of the items before it and those of the items after it. */
  lemma JoinedInPlace<T>(before: seq<T>, x: T, after: seq<T>, block: T -> string)
    ensures Joined(before + [x] + after, block) == Joined(before, block) + block(x) + Joined(after, block)
  {
    JoinedAppend(before + [x], after, block);
    assert (before + [x])[..|before|] == before;
  }

  /** Python's `str` of a non-negative int. */
  function Decimal(n: nat): (s: string)
    ensures |s| >= 1 && forall i :: 0 <= i < |s| ==> '0' <= s[i] <= '9'
    ensures (s[0] == '0') == (n == 0)
  {
    if n < 10 then [DigitChar(n)] else Decimal(n / 10) + [DigitChar(n % 10)]
  }

  function DigitChar(d: nat): (c: char)
    requires d < 10
    ensures '0' <= c <= '9'
  {
    ('0' as int + d) as char
  }

  /** Reads a string of decimal digits back as a number. */
  function DecimalValue(s: string): nat
    requires forall i :: 0 <= i < |s| ==> '0' <= s[i] <= '9'
  {
    if s == [] then 0 else DecimalValue(s[..|s| - 1]) * 10 + (s[|s| - 1] as int - '0' as int)
  }

  /** The count written into a mail reads back as the same number. */
  lemma {:induction false} DecimalRoundTrip(n: nat)
    ensures DecimalValue(Decimal(n)) == n
  {
    var s := Decimal(n);
    if n >= 10 {
      assert s[..|s| - 1] == Decimal(n / 10);
      DecimalRoundTrip(n / 10);
    }
  }
}
