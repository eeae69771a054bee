/**
 * The delivery channel (`send_to_telegram`): only the caption is modelled,
 * the caption lines joined by line breaks and cut to the transport's limit
 * as a Python slice does. Python strings are sequences of code points and
 * Dafny strings sequences of Unicode scalar values, so for every text without
 * lone surrogates the cut means the same in both.
 */
module Delivery {
  import opened Text

  /** The chat transport's caption limit, in characters. */
  const CaptionLimit := 1024

  /** `"\n".join(summaries_with_links)[:1024]`. */
  function Caption(lines: seq<string>): (r: string)
    ensures r <= Join("\n", lines)
    ensures |r| <= CaptionLimit
    ensures |Join("\n", lines)| <= CaptionLimit ==> r == Join("\n", lines)
    ensures |Join("\n", lines)| > CaptionLimit ==> |r| == CaptionLimit
  {
    Take(Join("\n", lines), CaptionLimit)
  }
}
