/**
 * The digest composer (the loop and string building of `main`): one summary
 * per fetched entry, a caption line per entry pairing its summary with its
 * link, the spoken text block, and the audio file name.
 *
 * The language-model call `summarize(title, content)` is a parameter: any
 * total function from (title, summary) to text.
 */
module Compose {
  import opened Text
  import opened Calendar
  import opened Feeds

  type Summarizer = (string, string) -> string

  /** The header line of the spoken text, without its line break. */
  const HeaderLine: string := "以下是今天的新聞摘要："
  /** The text the spoken block starts with. */
  const Header: string := HeaderLine + "\n"
  /** The scripted closing line of the spoken text. */
  const Closing: string := "今天的新聞就到這裡了唷～祝你有個超棒的一天，啾咪！"

  /** The summaries of the entries, in entry order. */
  function SummariesOf(entries: seq<Entry>, summarize: Summarizer): (r: seq<string>)
    ensures |r| == |entries|
    ensures forall i :: 0 <= i < |entries| ==> r[i] == summarize(entries[i].title, entries[i].summary)
  {
    if |entries| == 0 then []
    else
      var last := entries[|entries| - 1];
      SummariesOf(entries[..|entries| - 1], summarize) + [summarize(last.title, last.summary)]
  }

  /** One caption line: `f"• {summary}\n{link}"`. */
  function Bullet(summary: string, link: string): (r: string)
    ensures |r| == |summary| + |link| + 3
    ensures r[..2] == "\U{2022} " && r[2..2 + |summary|] == summary && r[2 + |summary|] == '\n'
    ensures r[|r| - |link|..] == link
  {
    "\U{2022} " + summary + "\n" + link
  }

  /** A caption line reads as two lines, the bulleted summary and the link, when neither
      contains a line break. */
  lemma BulletLines(summary: string, link: string)
    requires '\n' !in summary && '\n' !in link
    ensures Split(Bullet(summary, link), '\n') == ["\U{2022} " + summary, link]
  {
    var head := "\U{2022} " + summary;
    assert '\n' !in head;
    assert Bullet(summary, link) == head + ['\n'] + link;
    SplitAfterPiece(head, link, '\n');
    SplitNoSeparator(link, '\n');
  }

  /** The caption lines, element `i` pairing summary `i` with the link of entry `i`. */
  function CaptionLines(entries: seq<Entry>, summaries: seq<string>): (r: seq<string>)
    requires |summaries| == |entries|
    ensures |r| == |entries|
    ensures forall i :: 0 <= i < |entries| ==> r[i] == Bullet(summaries[i], entries[i].link)
  {
    if |entries| == 0 then []
    else
      var n := |entries| - 1;
      CaptionLines(entries[..n], summaries[..n]) + [Bullet(summaries[n], entries[n].link)]
  }

  /** The loop of `main`: summarize each entry and build its caption line. */
  method ComposeSummaries(entries: seq<Entry>, summarize: Summarizer)
    returns (summaries: seq<string>, summariesWithLinks: seq<string>)
    ensures summaries == SummariesOf(entries, summarize)
    ensures summariesWithLinks == CaptionLines(entries, summaries)
  {
    summaries := [];
    summariesWithLinks := [];
    for i := 0 to |entries|
      invariant summaries == SummariesOf(entries[..i], summarize)
      invariant summariesWithLinks == CaptionLines(entries[..i], summaries)
    {
      var e := entries[i];
      var summary := summarize(e.title, e.summary);
      assert entries[..i + 1][..i] == entries[..i];
      summaries := summaries + [summary];
      assert summaries[..i] == summaries[..|summaries| - 1];
      summariesWithLinks := summariesWithLinks + [Bullet(summary, e.link)];
    }
    assert entries[..|entries|] == entries;
  }

  /** The spoken text: header, the summaries one per line, then the closing line. */
  function TextBlock(summaries: seq<string>): (r: string)
    ensures Header <= r
    ensures |r| >= |Closing| && r[|r| - |Closing|..] == Closing
    ensures summaries == [] ==> r == Header + "\n" + Closing
  {
    Header + Join("\n", summaries) + "\n" + Closing
  }

  /** Read line by line, the text block is the header line, the summaries (one empty line
      when there are none) and the closing line, provided no summary contains a line break. */
  lemma TextBlockLines(summaries: seq<string>)
    requires forall i :: 0 <= i < |summaries| ==> '\n' !in summaries[i]
    ensures Split(TextBlock(summaries), '\n') ==
            [HeaderLine] + (if summaries == [] then [""] else summaries) + [Closing]
  {
    var body := if summaries == [] then [""] else summaries;
    assert Join("\n", body) == Join("\n", summaries);
    var lines := [HeaderLine] + body + [Closing];
    TextBlockAsJoin(summaries, body);
    forall i | 0 <= i < |lines|
      ensures '\n' !in lines[i]
    {
      if 0 < i < |lines| - 1 {
        assert lines[i] == body[i - 1];
      } else {
        FixedLinesHaveNoBreak();
      }
    }
    SplitJoin(lines, '\n');
  }

  lemma FixedLinesHaveNoBreak()
    ensures '\n' !in HeaderLine && '\n' !in Closing
  {
  }

  /** The text block is the join of its lines. */
  lemma TextBlockAsJoin(summaries: seq<string>, body: seq<string>)
    requires body == if summaries == [] then [""] else summaries
    ensures TextBlock(summaries) == Join("\n", [HeaderLine] + body + [Closing])
  {
    assert Join("\n", body) == Join("\n", summaries);
    JoinAppend("\n", [HeaderLine], body);
    JoinAppend("\n", [HeaderLine] + body, [Closing]);
  }

  /** The audio file name: `f"digest_{TODAY}.mp3"`. */
  function FileName(today: Date): (r: string)
    requires ValidDate(today)
    ensures |r| == 21 && r[..7] == "digest_" && r[7..17] == IsoFormat(today) && r[17..] == ".mp3"
  {
    "digest_" + IsoFormat(today) + ".mp3"
  }

  /** The file name determines the date and the date the file name: two runs share a file
      exactly when they run on the same day. */
  lemma FileNameInjective(a: Date, b: Date)
    requires ValidDate(a) && ValidDate(b)
    ensures FileName(a) == FileName(b) <==> a == b
  {
    if FileName(a) == FileName(b) {
      assert FileName(a)[7..17] == IsoFormat(a);
      assert FileName(b)[7..17] == IsoFormat(b);
      IsoFormatInjective(a, b);
    }
  }
}
