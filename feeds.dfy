/**
 * The feed collector (`fetch_entries`): walks the feeds in list order and
 * each feed's entries in arrival order, keeps the entries published today,
 * and returns the first thirty of them.
 *
 * A feed is the sequence of entries its parser produced. An entry's
 * `published_parsed` key is absent, present but `None` (a date text the
 * parser could not read), or a (year, month, day) triple. Converting a
 * present value into a `date` raises (`TypeError` on `None`, `ValueError`
 * on a triple that is not a calendar date), which aborts the run.
 */
module Feeds {
  import opened Wrappers
  import opened Text
  import opened Calendar

  /** What an entry carries under `published_parsed`. */
  datatype Published = NoDate | Unparsed | Parsed(date: Date)

  datatype Entry = Entry(title: string, summary: string, link: string, published: Published)

  /** The conversion of some entry's publication date raised. */
  datatype FetchError = DateConversionFailed

  /** The cap on the number of entries of one run. */
  const MaxEntries := 30

  /** The entry carries a publication date and that date is today. */
  predicate Qualifies(e: Entry, today: Date)
  {
    e.published == Parsed(today)
  }

  /** Converting the entry's publication date, when it has the key, does not raise. */
  predicate DateConvertible(e: Entry)
  {
    match e.published
    case NoDate => true
    case Unparsed => false
    case Parsed(d) => ValidDate(d)
  }

  predicate AllDatesConvertible(feeds: seq<seq<Entry>>)
  {
    forall i, j :: 0 <= i < |feeds| && 0 <= j < |feeds[i]| ==> DateConvertible(feeds[i][j])
  }

  /** The qualifying entries of one feed, in arrival order. */
  function Filtered(feed: seq<Entry>, today: Date): (r: seq<Entry>)
    ensures |r| <= |feed|
  {
    if |feed| == 0 then []
    else
      var last := feed[|feed| - 1];
      Filtered(feed[..|feed| - 1], today) + (if Qualifies(last, today) then [last] else [])
  }

  /** The qualifying entries of all feeds, feed after feed. */
  function Qualifying(feeds: seq<seq<Entry>>, today: Date): seq<Entry>
  {
    if |feeds| == 0 then []
    else Qualifying(feeds[..|feeds| - 1], today) + Filtered(feeds[|feeds| - 1], today)
  }

  /** What `fetch_entries` returns, or the error that aborts it. */
  function Fetch(feeds: seq<seq<Entry>>, today: Date): (r: Result<seq<Entry>, FetchError>)
    ensures r.Ok? <==> AllDatesConvertible(feeds)
    ensures r.Ok? ==> |r.value| == Min(MaxEntries, |Qualifying(feeds, today)|)
    ensures r.Ok? ==> r.value <= Qualifying(feeds, today)
    ensures r.Ok? ==> forall e :: e in r.value ==> e.published.Parsed? && e.published.date == today
  {
    QualifyingToday(feeds, today);
    PrefixMembers(Take(Qualifying(feeds, today), MaxEntries), Qualifying(feeds, today));
    if AllDatesConvertible(feeds) then Ok(Take(Qualifying(feeds, today), MaxEntries))
    else Err(DateConversionFailed)
  }

  /** `fetch_entries`, with the feeds already parsed and today's date given. */
  method FetchEntries(feeds: seq<seq<Entry>>, today: Date) returns (r: Result<seq<Entry>, FetchError>)
    ensures r == Fetch(feeds, today)
  {
    var entries: seq<Entry> := [];
    var i := 0;
    while i < |feeds|
      invariant 0 <= i <= |feeds|
      invariant entries == Qualifying(feeds[..i], today)
      invariant forall k, j :: 0 <= k < i && 0 <= j < |feeds[k]| ==> DateConvertible(feeds[k][j])
    {
      var feed := feeds[i];
      var j := 0;
      while j < |feed|
        invariant 0 <= j <= |feed|
        invariant entries == Qualifying(feeds[..i], today) + Filtered(feed[..j], today)
        invariant forall k :: 0 <= k < j ==> DateConvertible(feed[k])
      {
        var e := feed[j];
        FilteredStep(feed, j, today);
        match e.published {
          case NoDate =>
          case Unparsed =>
            // `None[:3]` raises TypeError
            assert !DateConvertible(feeds[i][j]);
            return Err(DateConversionFailed);
          case Parsed(pub) =>
            if !ValidDate(pub) {
              // `datetime(...)` raises ValueError
              assert !DateConvertible(feeds[i][j]);
              return Err(DateConversionFailed);
            }
            if pub == today {
              entries := entries + [e];
            }
        }
        j := j + 1;
      }
      assert feed[..j] == feed;
      QualifyingStep(feeds, i, today);
      i := i + 1;
    }
    assert feeds[..i] == feeds;
    r := Ok(Take(entries, MaxEntries));
  }

  lemma FilteredStep(feed: seq<Entry>, j: nat, today: Date)
    requires j < |feed|
    ensures Filtered(feed[..j + 1], today) ==
            Filtered(feed[..j], today) + (if Qualifies(feed[j], today) then [feed[j]] else [])
  {
    assert feed[..j + 1][..j] == feed[..j];
  }

  lemma QualifyingStep(feeds: seq<seq<Entry>>, i: nat, today: Date)
    requires i < |feeds|
    ensures Qualifying(feeds[..i + 1], today) == Qualifying(feeds[..i], today) + Filtered(feeds[i], today)
  {
    assert feeds[..i + 1][..i] == feeds[..i];
  }

  /** Filtering the concatenation of two stretches of a feed filters each in place: order is kept. */
  lemma {:induction false} FilteredAppend(a: seq<Entry>, b: seq<Entry>, today: Date)
    ensures Filtered(a + b, today) == Filtered(a, today) + Filtered(b, today)
    decreases |b|
  {
    if |b| == 0 {
      assert a + b == a;
    } else {
      assert (a + b)[..|a + b| - 1] == a + b[..|b| - 1];
      FilteredAppend(a, b[..|b| - 1], today);
    }
  }

  /** The qualifying entries of a list of feeds split as the list does: earlier feeds come first. */
  lemma {:induction false} QualifyingAppend(fa: seq<seq<Entry>>, fb: seq<seq<Entry>>, today: Date)
    ensures Qualifying(fa + fb, today) == Qualifying(fa, today) + Qualifying(fb, today)
    decreases |fb|
  {
    if |fb| == 0 {
      assert fa + fb == fa;
    } else {
      assert (fa + fb)[..|fa + fb| - 1] == fa + fb[..|fb| - 1];
      QualifyingAppend(fa, fb[..|fb| - 1], today);
    }
  }

  /** An entry is kept from a feed exactly when it is in the feed and published today. */
  lemma {:induction false} FilteredMembers(feed: seq<Entry>, today: Date, e: Entry)
    ensures e in Filtered(feed, today) <==> e in feed && Qualifies(e, today)
  {
    if |feed| > 0 {
      var last := feed[|feed| - 1];
      assert feed == feed[..|feed| - 1] + [last];
      FilteredMembers(feed[..|feed| - 1], today, e);
    }
  }

  /** Every collected entry is published today. */
  lemma {:induction false} QualifyingToday(feeds: seq<seq<Entry>>, today: Date)
    ensures forall e :: e in Qualifying(feeds, today) ==> Qualifies(e, today)
  {
    if |feeds| > 0 {
      QualifyingToday(feeds[..|feeds| - 1], today);
      forall e | e in Filtered(feeds[|feeds| - 1], today)
        ensures Qualifies(e, today)
      {
        FilteredMembers(feeds[|feeds| - 1], today, e);
      }
    }
  }

  /** An entry is qualifying exactly when it is published today in one of the feeds. */
  lemma {:induction false} QualifyingMembers(feeds: seq<seq<Entry>>, today: Date, e: Entry)
    ensures e in Qualifying(feeds, today) <==>
            Qualifies(e, today) && exists i :: 0 <= i < |feeds| && e in feeds[i]
  {
    if |feeds| > 0 {
      var init := feeds[..|feeds| - 1];
      QualifyingMembers(init, today, e);
      FilteredMembers(feeds[|feeds| - 1], today, e);
      if e in Qualifying(feeds, today) && e !in Filtered(feeds[|feeds| - 1], today) {
        var i :| 0 <= i < |init| && e in init[i];
        assert e in feeds[i];
      }
      if Qualifies(e, today) && (exists i :: 0 <= i < |feeds| && e in feeds[i]) {
        var i :| 0 <= i < |feeds| && e in feeds[i];
        if i < |feeds| - 1 {
          assert e in init[i];
        }
      }
    }
  }

  /** Every returned entry was published today in one of the feeds; when no more than thirty
      qualify, every one of them is returned. */
  lemma FetchMembers(feeds: seq<seq<Entry>>, today: Date, e: Entry)
    requires AllDatesConvertible(feeds)
    ensures e in Fetch(feeds, today).value ==>
            Qualifies(e, today) && exists i :: 0 <= i < |feeds| && e in feeds[i]
    ensures |Qualifying(feeds, today)| <= MaxEntries ==>
            (e in Fetch(feeds, today).value <==>
             Qualifies(e, today) && exists i :: 0 <= i < |feeds| && e in feeds[i])
  {
    QualifyingMembers(feeds, today, e);
    var q := Qualifying(feeds, today);
    var r := Fetch(feeds, today).value;
    if e in r {
      var k :| 0 <= k < |r| && r[k] == e;
      assert q[k] == e;
    }
    if |q| <= MaxEntries {
      assert r == q;
    }
  }

  /** Once the first `k` feeds supply thirty qualifying entries, the later feeds change nothing. */
  lemma EarlierFeedsDominate(feeds: seq<seq<Entry>>, k: nat, today: Date)
    requires k <= |feeds|
    requires |Qualifying(feeds[..k], today)| >= MaxEntries
    requires AllDatesConvertible(feeds)
    ensures Fetch(feeds, today) == Fetch(feeds[..k], today)
  {
    assert feeds == feeds[..k] + feeds[k..];
    QualifyingAppend(feeds[..k], feeds[k..], today);
    var front := Qualifying(feeds[..k], today);
    assert AllDatesConvertible(feeds[..k]) by {
      forall i, j | 0 <= i < k && 0 <= j < |feeds[..k][i]|
        ensures DateConvertible(feeds[..k][i][j])
      {
        assert feeds[..k][i] == feeds[i];
      }
    }
    assert Take(Qualifying(feeds, today), MaxEntries) == front[..MaxEntries];
  }

  /** An entry whose date cannot be converted aborts the run wherever it is, even in a feed
      that comes after thirty qualifying entries. */
  lemma BadDateAbortsAnywhere(feeds: seq<seq<Entry>>, today: Date, i: nat, j: nat)
    requires i < |feeds| && j < |feeds[i]|
    requires !DateConvertible(feeds[i][j])
    ensures Fetch(feeds, today) == Err(DateConversionFailed)
  {
  }
}
