# Daily RSS voice digest — a verified model of its deterministic core

The program (`main.py`) collects today's entries from a list of RSS feeds,
asks a language model for a short summary of each, reads the summaries out
through a speech-synthesis service and posts the audio file to a chat
channel, with one "• summary / link" line per entry as caption.

This project models the part of that run that is plain sequence and string
logic, and proves what it promises:

- **Feed collection** (`fetch_entries`), module `Feeds`: a method with the
  source's nested loops, proved equal to the specification function `Fetch`.
  Entries are kept when they carry a publication date equal to today, in
  feed order and arrival order, and at most 30 are returned. As in the
  source, converting a present publication date raises and aborts the run
  (`Err(DateConversionFailed)`) when it is `None` or a triple that is not a
  calendar date, whichever feed or position it is in, since the whole list
  is scanned before the cut to 30.
- **Digest composition** (the loop of `main`), module `Compose`: a method
  with the source's loop building the summaries and the parallel caption
  lines; the spoken text block (header, summaries one per line, closing
  line); the audio file name `digest_YYYY-MM-DD.mp3`.
- **Caption** (`send_to_telegram`), module `Delivery`: the caption lines
  joined by line breaks and cut to 1024 characters.
- **Voice pick** (`random.choice(VOICE_IDS)`), module `Narration`, with the
  random draw as a parameter.
- **A whole run**, module `DailyDigest`: `Pipeline(feeds, today, summarize)`
  returns the text block, the caption lines, the caption and the file name
  (or the abort), and the method `RunPipeline` follows `main` step by step.

Supporting modules: `Wrappers` (Option, Result), `Text` (Python's
`sep.join`, `s.split(c)`, `s[:n]`, zero-padded decimals, with round-trip
lemmas), `Calendar` (the dates `datetime.date` accepts and `str(date)`).

Inputs the program reads from the outside are parameters: the parsed feeds
(a sequence of feeds, each a sequence of entries with title, summary, link
and a `published_parsed` value that is absent, `None` or a (year, month,
day) triple), today's UTC date, the summarizer (any total function from
title and summary to text) and, for the voice pick, the random index.
Python strings are sequences of code points and Dafny strings sequences of
Unicode scalar values, so for every text without lone surrogates the
1024-character cut means the same in both.

## Model

| member | source | states |
|---|---|---|
| Text.Take | main.py:44 | A slice `s[:n]` is the prefix of `s` whose length is the smaller of n and the length of `s` |
| Text.Join | main.py:64-86 | `sep.join(parts)` is empty for no parts, starts with the first part, and is as long as the parts together plus one separator between each pair of neighbours |
| Text.Split | main.py:86 | Not a call of the source: Python's `s.split(c)`, used as the inverse that reads back the join at line 86; it gives at least one piece and no piece contains the separator |
| Text.JoinAppend | main.py:86 | Joining two non-empty lists equals joining their joins with the separator |
| Text.SplitJoin | main.py:86 | Splitting a join of separator-free pieces returns exactly those pieces |
| Text.JoinSplit | main.py:86 | Joining the pieces of any split with the separator returns the original string |
| Text.PadDecimal | main.py:87 | Zero-padded decimal text has exactly the requested width and only digits |
| Text.DecodePadDecimal | main.py:87 | Decoding a zero-padded decimal gives back the number |
| Calendar.ValidDate | main.py:41 | The (year, month, day) triples `datetime(...)` accepts without raising `ValueError` |
| Calendar.DaysInMonth | main.py:41 | Month lengths are 28 to 31 days, 29 exactly for February of a leap year |
| Calendar.IsoFormat | main.py:87 | `str(date)` is ten characters, digits with dashes at positions 4 and 7 |
| Calendar.IsoRoundTrip | main.py:87 | The year, month and day can be read back from `str(date)` |
| Calendar.IsoFormatInjective | main.py:87 | Two valid dates print the same exactly when they are equal |
| Feeds.Qualifies | main.py:40-42 | An entry is kept iff it has `published_parsed` and its date equals today |
| Feeds.DateConvertible | main.py:40-41 | An entry's date conversion does not raise iff it has no `published_parsed`, or a triple that is a calendar date (a `None` value raises) |
| Feeds.Qualifying | main.py:37-43 | The entries collected over all feeds: those of earlier feeds, then the kept entries of the last feed |
| Feeds.Filtered | main.py:39-43 | A feed never contributes more entries than it has |
| Feeds.FilteredMembers | main.py:39-43 | An entry is kept from a feed iff it is in the feed and its publication date is today; entries without a date are never kept |
| Feeds.QualifyingToday | main.py:37-43 | Every entry collected over all feeds is published today |
| Feeds.Fetch | main.py:35-44 | The run aborts iff some entry's `published_parsed` is `None` or a triple that is not a calendar date; otherwise the result is the first min(30, n) of the n collected entries, a prefix of them, each with a publication date equal to today |
| Feeds.FetchEntries | main.py:35-44 | The nested loops with `append` and the final `[:30]` compute exactly `Fetch`, including the abort on a bad date |
| Feeds.FilteredAppend | main.py:39-43 | Filtering a feed keeps arrival order: the filter of a concatenation is the concatenation of the filters |
| Feeds.QualifyingAppend | main.py:37-43 | Collection keeps feed order: the entries of earlier feeds come before those of later feeds |
| Feeds.QualifyingMembers | main.py:37-43 | An entry is collected iff it is published today and belongs to one of the feeds |
| Feeds.FetchMembers | main.py:40-44 | Each returned entry is published today and comes from one of the feeds; when at most 30 qualify, every qualifying entry is returned |
| Feeds.EarlierFeedsDominate | main.py:37-44 | When no feed holds a date that fails to convert, once the first k feeds supply 30 qualifying entries the later feeds do not change the result |
| Feeds.BadDateAbortsAnywhere | main.py:39-44 | An entry whose date fails to convert aborts the run wherever it is, even in a feed after thirty qualifying entries |
| Compose.SummariesOf | main.py:80-82 | One summary per entry, summary i being the summarizer's answer for entry i's title and summary |
| Compose.Bullet | main.py:83 | A caption line is "• ", then the summary, then a line break, then the link, and as long as those three together |
| Compose.BulletLines | main.py:83 | A caption line reads as two lines, the bulleted summary and the link, when neither contains a line break |
| Compose.CaptionLines | main.py:80-83 | One caption line per entry, line i being "• " + summary i + line break + link of entry i |
| Compose.ComposeSummaries | main.py:78-83 | The loop of `main` builds exactly those two parallel lists |
| Compose.TextBlock | main.py:85-86 | The spoken text starts with the header and ends with the closing line; with no summaries it is header, line break, closing |
| Compose.TextBlockAsJoin | main.py:85-86 | The spoken text is the newline join of the header line, the summaries (one empty string when there are none) and the closing line |
| Compose.TextBlockLines | main.py:85-86 | Read line by line, the spoken text is the header line, the summaries (one empty line when there are none) and the closing line, when no summary contains a line break |
| Compose.FileName | main.py:87 | The audio file name is 21 characters: `digest_`, then `str(today)`, then `.mp3` |
| Compose.FileNameInjective | main.py:87 | Two runs share the file name exactly when they run on the same date |
| Delivery.Caption | main.py:64-70 | The caption is a prefix of the joined caption lines, at most 1024 characters, the whole text when it fits and exactly 1024 characters otherwise |
| Narration.ChooseVoice | main.py:58 | The voice used is one of the configured voice identifiers |
| DailyDigest.Pipeline | main.py:76-89 | A run aborts iff some entry's date fails to convert; otherwise it yields one caption line per fetched entry (at most 30) pairing that entry's summary and link, the text block of the fetched entries' summaries (starting with the header, ending with the closing line), a caption that is a prefix of the joined lines, the whole of them when they fit in 1024 characters and exactly 1024 otherwise, and the date's file name |
| DailyDigest.RunPipeline | main.py:76-89 | `main`'s sequence of steps computes exactly `Pipeline` |
| DailyDigest.NoNewsDigest | main.py:77-89 | With no entry published today the text block is header, line break, closing; there are no caption lines and the caption is empty |
| DailyDigest.TwoEntryScenario | main.py:76-89 | Entries A and B of today (links L1, L2) among an older and an undated entry, summarized as Sum-A and Sum-B, give the text block header + "Sum-A\nSum-B\n" + closing, the lines "• Sum-A\nL1" and "• Sum-B\nL2", their join as caption and `digest_2024-05-01.mp3` |
| DailyDigest.ScenarioFetch | main.py:35-44 | In that scenario the collector returns exactly A then B |
| DailyDigest.ScenarioCompose | main.py:78-86 | In that scenario the summaries, caption lines, text block and caption are the strings listed above |
| DailyDigest.ScenarioFileName | main.py:87 | The file name for 1 May 2024 is `digest_2024-05-01.mp3` |

## Left out

- Feed retrieval and parsing (`feedparser.parse`, main.py:38): the feeds are given as already parsed sequences of entries. A feed that cannot be fetched yields no entries there, which the model expresses as an empty feed.
- Reading the clock (`datetime.utcnow()`, main.py:32): today's date is a parameter, required to be a valid date, as `utcnow()` always gives.
- The language-model call inside `summarize` (main.py:47-54): a network call whose answer is unspecified; it is the function parameter `summarize`, and its prompt text is not modelled.
- `summarize` is modelled as deterministic: two entries with the same title and summary get the same summary in the model, while in the source each call is a separate language-model request whose answers may differ.
- Speech synthesis and saving the audio (`generate`, `save`, main.py:59-60): foreign calls; only the text and file name handed to them are modelled. The random draw of `random.choice` (main.py:58) is a parameter below the number of voices.
- The HTTP upload, the opened audio file and the chat identifiers (main.py:65-73): I/O; only the caption string is modelled.
- Loading the environment and splitting `VOICE_IDS` (main.py:11-16): configuration plumbing over library calls.
- Errors from network calls, and `AttributeError` from an entry lacking `title`, `summary` or `link` (main.py:81, 83): these abort the run in the source with no handling; the model's entries always carry the three texts.
- The second deployment variant (a cap of 3 entries, one combined summary, document archiving, an HTTP trigger) is not part of this model; the cap modelled is the 30 written at main.py:44.
