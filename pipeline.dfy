/**
 * One run of the digest: collect today's entries, compose the summaries,
 * the caption lines, the spoken text and the file name, and cut the caption.
 * The audio synthesis and the upload consume these values and are not
 * modelled.
 */
module DailyDigest {
  import opened Wrappers
  import opened Text
  import opened Calendar
  import opened Feeds
  import opened Compose
  import opened Delivery

  datatype Digest = Digest(textBlock: string, captions: seq<string>, caption: string, fileName: string)

  /** What `main` hands to the narrator and to the delivery channel. */
  function Pipeline(feeds: seq<seq<Entry>>, today: Date, summarize: Summarizer): (r: Result<Digest, FetchError>)
    requires ValidDate(today)
    ensures r.Ok? <==> AllDatesConvertible(feeds)
    ensures r.Ok? ==>
      var entries := Fetch(feeds, today).value;
      var d := r.value;
      |d.captions| == |entries| <= MaxEntries &&
      (forall i :: 0 <= i < |entries| ==>
         d.captions[i] == Bullet(summarize(entries[i].title, entries[i].summary), entries[i].link)) &&
      d.textBlock == TextBlock(SummariesOf(entries, summarize)) &&
      Header <= d.textBlock &&
      |d.textBlock| >= |Closing| && d.textBlock[|d.textBlock| - |Closing|..] == Closing &&
      d.caption <= Join("\n", d.captions) && |d.caption| <= CaptionLimit &&
      (|Join("\n", d.captions)| <= CaptionLimit ==> d.caption == Join("\n", d.captions)) &&
      (|Join("\n", d.captions)| > CaptionLimit ==> |d.caption| == CaptionLimit) &&
      d.fileName == FileName(today)
  {
    match Fetch(feeds, today)
    case Err(e) => Err(e)
    case Ok(entries) =>
      var summaries := SummariesOf(entries, summarize);
      var lines := CaptionLines(entries, summaries);
      Ok(Digest(TextBlock(summaries), lines, Caption(lines), FileName(today)))
  }

  /** `main`, up to the calls into speech synthesis and delivery. */
  method RunPipeline(feeds: seq<seq<Entry>>, today: Date, summarize: Summarizer)
    returns (r: Result<Digest, FetchError>)
    requires ValidDate(today)
    ensures r == Pipeline(feeds, today, summarize)
  {
    var fetched := FetchEntries(feeds, today);
    if fetched.Err? {
      return Err(fetched.error);
    }
    var entries := fetched.value;
    var summaries, summariesWithLinks := ComposeSummaries(entries, summarize);
    var closing := Closing;
    var textBlock := Header + Join("\n", summaries) + "\n" + closing;
    var outputPath := FileName(today);
    r := Ok(Digest(textBlock, summariesWithLinks, Caption(summariesWithLinks), outputPath));
  }

  /** With nothing published today the run still speaks the header and the closing line,
      and sends an empty caption. */
  lemma NoNewsDigest(feeds: seq<seq<Entry>>, today: Date, summarize: Summarizer)
    requires ValidDate(today)
    requires AllDatesConvertible(feeds)
    requires Qualifying(feeds, today) == []
    ensures Pipeline(feeds, today, summarize) ==
            Ok(Digest(Header + "\n" + Closing, [], "", FileName(today)))
  {
  }

  /** The stand-in summarizer of the scenario below. */
  function StubSummary(title: string, content: string): string
  {
    if title == "A" then "Sum-A" else "Sum-B"
  }

  /** Two entries of today titled A and B with links L1 and L2, one entry of another day and
      one without a date; the summarizer answers Sum-A and Sum-B. */
  lemma TwoEntryScenario()
    ensures
      var today := Date(2024, 5, 1);
      var feeds := [[Entry("A", "a text", "L1", Parsed(today)), Entry("C", "c text", "L3", Parsed(Date(2024, 4, 30)))],
                    [Entry("D", "d text", "L4", NoDate), Entry("B", "b text", "L2", Parsed(today))]];
      Pipeline(feeds, today, StubSummary) ==
        Ok(Digest(Header + "Sum-A\nSum-B\n" + Closing,
                  ["\U{2022} Sum-A\nL1", "\U{2022} Sum-B\nL2"],
                  "\U{2022} Sum-A\nL1\n\U{2022} Sum-B\nL2",
                  "digest_2024-05-01.mp3"))
  {
    var today := Date(2024, 5, 1);
    var a := Entry("A", "a text", "L1", Parsed(today));
    var b := Entry("B", "b text", "L2", Parsed(today));
    var stale := Entry("C", "c text", "L3", Parsed(Date(2024, 4, 30)));
    var undated := Entry("D", "d text", "L4", NoDate);
    var feeds := [[a, stale], [undated, b]];
    ScenarioFetch(feeds, a, b, stale, undated, today);
    ScenarioCompose(a, b);
    ScenarioFileName();
  }

  lemma ScenarioCompose(a: Entry, b: Entry)
    requires a == Entry("A", "a text", "L1", Parsed(Date(2024, 5, 1)))
    requires b == Entry("B", "b text", "L2", Parsed(Date(2024, 5, 1)))
    ensures SummariesOf([a, b], StubSummary) == ["Sum-A", "Sum-B"]
    ensures TextBlock(["Sum-A", "Sum-B"]) == Header + "Sum-A\nSum-B\n" + Closing
    ensures CaptionLines([a, b], ["Sum-A", "Sum-B"]) == ["\U{2022} Sum-A\nL1", "\U{2022} Sum-B\nL2"]
    ensures Caption(["\U{2022} Sum-A\nL1", "\U{2022} Sum-B\nL2"]) == "\U{2022} Sum-A\nL1\n\U{2022} Sum-B\nL2"
  {
    var summaries := SummariesOf([a, b], StubSummary);
    assert summaries[0] == "Sum-A" && summaries[1] == "Sum-B";
    var lines := CaptionLines([a, b], ["Sum-A", "Sum-B"]);
    assert lines[0] == Bullet("Sum-A", "L1") == "\U{2022} Sum-A\nL1";
    assert lines[1] == Bullet("Sum-B", "L2") == "\U{2022} Sum-B\nL2";
    assert Join("\n", ["Sum-A", "Sum-B"]) == "Sum-A\nSum-B";
    assert TextBlock(["Sum-A", "Sum-B"]) == Header + "Sum-A\nSum-B\n" + Closing by {
      assert "Sum-A\nSum-B" + "\n" == "Sum-A\nSum-B\n";
      assert Header + "Sum-A\nSum-B" + "\n" == Header + "Sum-A\nSum-B\n";
    }
    assert Join("\n", ["\U{2022} Sum-A\nL1", "\U{2022} Sum-B\nL2"]) == "\U{2022} Sum-A\nL1\n\U{2022} Sum-B\nL2";
  }

  lemma ScenarioFetch(feeds: seq<seq<Entry>>, a: Entry, b: Entry, stale: Entry, undated: Entry, today: Date)
    requires today == Date(2024, 5, 1)
    requires a == Entry("A", "a text", "L1", Parsed(today)) && b == Entry("B", "b text", "L2", Parsed(today))
    requires stale == Entry("C", "c text", "L3", Parsed(Date(2024, 4, 30)))
    requires undated == Entry("D", "d text", "L4", NoDate)
    requires feeds == [[a, stale], [undated, b]]
    ensures Fetch(feeds, today) == Ok([a, b])
  {
    assert feeds[..1] == [[a, stale]];
    assert [a, stale][..1] == [a];
    assert [undated, b][..1] == [undated];
    assert Filtered([a], today) == [a];
    assert Filtered([a, stale], today) == [a];
    assert Filtered([undated], today) == [];
    assert Filtered([undated, b], today) == [b];
    assert Qualifying(feeds[..1], today) == [a];
    assert Qualifying(feeds, today) == [a, b];
  }

  lemma ScenarioYear()
    ensures PadDecimal(2024, 4) == "2024"
  {
    assert Pow10(4) == 10000;
    assert PadDecimal(0, 0) == "";
    assert PadDecimal(2, 1) == "" + ['2'];
    assert PadDecimal(20, 2) == "2" + ['0'];
    assert PadDecimal(202, 3) == "20" + ['2'];
    assert 2024 / 10 == 202 && 2024 % 10 == 4 && DigitChar(4) == '4';
    assert PadDecimal(2024, 4) == PadDecimal(202, 3) + [DigitChar(4)];
  }

  lemma ScenarioFileName()
    ensures FileName(Date(2024, 5, 1)) == "digest_2024-05-01.mp3"
  {
    ScenarioYear();
    assert PadDecimal(0, 1) == "0";
    assert PadDecimal(5, 2) == "05";
    assert PadDecimal(1, 2) == "01";
    assert IsoFormat(Date(2024, 5, 1)) == "2024" + "-" + "05" + "-" + "01";
  }
}
