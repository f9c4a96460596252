# DiscordV2Bot summariser core, modelled in Dafny

DiscordV2Bot reads the recent history of a set of Discord channels,
merges it into one transcript, has a language model summarise it and
posts the summary to an output channel, cut into messages of at most
2000 characters. The bot client posts first. A fallback that posts with a
user token takes over when the bot fails. This project models the
deterministic core of that pipeline and proves what it promises:

- `chunker.dfy`: `split_message` of `utils.py`. Lines are packed
  greedily into parts; over-long lines are cut into slices; each part is
  right-stripped and empty parts are dropped.
- `fetcher.py` is modelled in `fetcher.dfy`:
  - `_fetch_messages` paginates with a `before` cursor until a page
    reaches the time cutoff.
  - `_fetch_channel_info` names the channels, and a message's
    `global_name`/`username` names its author.
  - The per-channel lists are merged and stably sorted by the raw
    timestamp text.
- `main.py` is modelled in `pipeline.dfy`:
  - `build_summary_text` and `process_and_summarize`;
  - the fallback's quoting and splitting (`run_fallback`);
  - `on_ready`'s count of delivered parts and its decision to fall back.
- `fast_summarizer.py` is modelled in `fast_summarizer.dfy`:
  - the word-based `split_message`;
  - the lexicographic timestamp filter of `fetch_messages`;
  - the transcript loop of `main`.
- `configuration.dfy`: `Config.__init__` (environment lookups,
  comma-separated channel ids, output channel id) and `Config.validate`.
- Support modules:
  - `wrappers.dfy`: `Option`.
  - `seqs.dfy`: filter, map and concatenation on sequences.
  - `text.dfy`: Python's `strip`, `split` and `join`, plus string
    ordering.
  - `numerals.dfy`: `str`/`int` on integers.

Everything outside the process is a parameter:

- **Network.** A `ChannelServer` answers the info request and the k-th
  history request. A `sendOk` sequence says which bot sends succeed.
- **Summary.** The language model is a function `World.summarize`.
- **Clock.** The clock is a `cutoff` instant.
- **Environment.** The environment is a map.

The model follows the code in these cases:

- A message whose timestamp `fromisoformat` rejects does not skip just
  that message. The exception escapes the page loop into the `try` of
  `fetcher.py:44-68`. The whole page's kept messages are lost and
  pagination stops. Pages already read are kept.
- A failed request (an exception or a non-200 status) does not empty
  the channel's list either. It ends the loop, and the pages read so far
  are kept (`Fetcher.ScanOfMeaning`, `Fetcher.PaginateStop`).
- `split_message("")` returns `[""]`, not an empty list
  (`utils.py:2-3`).
- A part produced by splitting gets no `> ` prefix back, and no URL
  handling takes place.

## Model

| member | source | states |
|---|---|---|
| Chunker.Terminated | utils.py:18-20 | the text accumulated from lines is empty iff there are no lines, and otherwise ends with a newline |
| Chunker.SplitMessage | utils.py:1-25 | the loop computes `Split`. A message that fits comes back whole. Every part is at most `max_length` long. When the message is cut, no part is empty. The parts together carry the message's non-whitespace characters in order |
| Chunker.PlaceLine | utils.py:10-20 | one turn of the line loop: the parts and `current` afterwards are the rendering of the layout with the line placed |
| Chunker.FlushPart | utils.py:11-12 | closing the pending part appends exactly the rendering of the flushed layout, and nothing when `current` is empty |
| Chunker.AppendSlices | utils.py:13-15 | the slicing loop appends exactly the slices of the line |
| Chunker.PlaceGood | utils.py:9-20 | placing a line keeps the invariant. Every packed part holds at least one line, no line over `max_length`, and at most `max_length + 1` characters counting newlines. The pending text satisfies the same bounds. Only lines over `max_length` are sliced |
| Chunker.PlaceCovers | utils.py:9-20 | placing a line uses it exactly once, after all earlier lines |
| Chunker.ArrangeInvariant | utils.py:9-20 | after the loop, the invariant holds and the closed groups followed by the pending lines are exactly the input lines in order |
| Chunker.GroupsInvariant | utils.py:9-23 | the final groups satisfy the invariant and hold every line exactly once, in order |
| Chunker.SlicesSpan | utils.py:14-15 | the slices of a line concatenate to the line. Each slice is non-empty and at most `max_length` long. All but the last slice are exactly `max_length` long |
| Chunker.RenderAllFits | utils.py:12-23 | every rendered part of well-formed groups is at most `max_length` long |
| Chunker.NoSpaceRenderAll | utils.py:12-23 | rendering loses only whitespace: the non-whitespace characters of the parts are those of the lines |
| Chunker.SplitBounds | utils.py:1-25 | every part of `split_message` fits, and when the message is cut no part is empty |
| Chunker.SplitKeepsText | utils.py:1-25 | splitting keeps every non-whitespace character, in order |
| Chunker.SplitNonEmpty | utils.py:22-25 | a message that is not all whitespace yields at least one part |
| Chunker.PackedLineIntact | utils.py:18-23 | a short line with visible text sits whole in its part, after the lines before it, up to trailing whitespace |
| Chunker.ShortLineKept | utils.py:9-25 | when a message is cut, line `i` is never cut if it fits and has visible text. It is line `k` of some chunk `j`, where `k` plus the number of lines in the chunks before `j` equals `i`. That chunk's part is one of the parts, and it holds the lines before line `k` and then line `k` itself, right-stripped |
| Chunker.LineAt | utils.py:9-23 | each line of the groups has a group and a position in it that add up to its index |
| Chunker.ChunkHoldsLine | utils.py:18-23 | a chunk's part is non-empty and holds each of its visible lines, right-stripped |
| Chunker.PlaceGreedy | utils.py:10-20 | placing a line keeps the greedy invariant: each closed part was closed because the next line did not fit |
| Chunker.ArrangeGreedy | utils.py:9-20 | the greedy invariant holds after the whole loop |
| Chunker.GroupsGreedy | utils.py:9-23 | a packed part is closed only when the first line of the next group would not fit in it |
| Text.StripEmptyIffBlank | main.py:26 | `s.strip()` is empty iff `s` is all whitespace |
| Text.JoinSplitOn | utils.py:6 | `"\n".join(s.split("\n")) == s` |
| Text.SplitOnJoin | main.py:65 | splitting a separator-join of separator-free pieces gives the pieces back |
| Text.LexLessTotal | fetcher.py:100 | string order is total, as the sort key requires |
| Text.LexLessTransitive | fetcher.py:100 | string order is transitive |
| Numerals.ParseIntToString | config.py:25 | `int(str(n)) == n` |
| Fetcher.ScanOfMeaning | fetcher.py:53-61 | the page loop raises iff some timestamp is unparsable. Otherwise it keeps exactly the messages after the cutoff, in page order, and `hit_cutoff` holds iff some message is at or before the cutoff. Messages without a timestamp are skipped |
| Fetcher.ScanPage | fetcher.py:51-61 | the `for msg in msgs` loop computes `ScanOf` |
| Fetcher.RaisedSticks | fetcher.py:57-68 | once a page's scan has raised, no later message of the page changes that |
| Fetcher.Paginate | fetcher.py:39-43 | the first request is sent without a `before` cursor |
| Fetcher.PaginateStep | fetcher.py:62-65 | a page that continues contributes its kept messages, and the next request uses the id of its last message as the cursor |
| Fetcher.PaginateStop | fetcher.py:44-68 | a page that stops the loop is the last request and contributes only its kept messages: none on an exception, a non-200 status or an empty list |
| Fetcher.PaginateStops | fetcher.py:40-68 | when pages j..k-1 continue and page k stops, exactly k-j+1 requests are made. Request i uses the last id of page i-1. The messages gathered are the pages' kept messages in order |
| Fetcher.PastHistoryStops | fetcher.py:49-50 | the empty page past the end of the history ends pagination |
| Fetcher.PaginateInWindow | fetcher.py:58-62 | every gathered message is strictly after the cutoff |
| Fetcher.RecheckKeepsAll | fetcher.py:69-72 | the final list comprehension removes nothing |
| Fetcher.RequestPage | fetcher.py:41-65 | one request adds the page's kept messages and either ends pagination or yields the next cursor, as `Paginate` says |
| Fetcher.FetchMessages | fetcher.py:35-72 | `_fetch_messages` returns `ChannelMessages`. With a token, it makes exactly the requests `Paginate` lists. Without one, it makes none and returns `[]`. Every message it returns is in the window |
| Fetcher.ChannelName | fetcher.py:22-33 | no token gives `Unknown-<id>`. An exception or a non-200 status gives `Error-<id>`. Otherwise the result is the `name` of a 200 reply, or `Unknown-<id>` when the reply has none |
| Fetcher.AuthorName | fetcher.py:92 | the result is `global_name` when it is non-empty, else `username`, else `Unknown` |
| Fetcher.ToEntries | fetcher.py:91-98 | one entry per fetched message, in order, with the channel name, author, content and timestamp |
| Fetcher.Names | fetcher.py:85-88 | entry i of `channel_names` is channel i with its name |
| Fetcher.Insert | fetcher.py:100 | insertion adds exactly the one element |
| Fetcher.SortByTimestamp | fetcher.py:100 | sorting is a permutation |
| Fetcher.InsertSorted | fetcher.py:100 | inserting into a sorted list keeps it sorted |
| Fetcher.SortSorted | fetcher.py:100 | the result is ordered by timestamp text |
| Fetcher.InsertStable | fetcher.py:100 | among the entries with a given timestamp, an inserted entry comes after those already present |
| Fetcher.SortStable | fetcher.py:100 | the sort is stable: entries with the same timestamp keep their merge order |
| Fetcher.FetchAndProcess | fetcher.py:5-101 | the channels are the distinct ids in first-occurrence order. The names are those channels' names, in that order. The messages are the merged channel entries, sorted stably and as a permutation. The total is their number |
| Fetcher.FetchChannel | fetcher.py:85-89 | one channel yields its name entry and its fetched messages |
| Fetcher.AppendEntries | fetcher.py:91-98 | the inner loop appends exactly one entry per message |
| Fetcher.MergedSnoc | fetcher.py:85-98 | one more channel appends its entries after those of earlier channels, and its name after theirs |
| Fetcher.NoTokenNothingFound | fetcher.py:22-37 | without a user token, nothing is fetched and every channel is named `Unknown-<id>` |
| Fetcher.MergedHasTimestamps | fetcher.py:53-56 | every merged entry has a non-empty timestamp, so the sort at `fetcher.py:100` never compares a missing (`None`) timestamp with a string |
| Pipeline.TranscriptSnoc | main.py:12-14 | a message adds its line iff its content is non-empty |
| Pipeline.BuildSummaryText | main.py:10-15 | the loop computes the transcript |
| Pipeline.TranscriptBlankIff | main.py:25-28 | the transcript is all whitespace iff every message has empty content |
| Pipeline.SummaryNoneIff | main.py:17-35 | there is no summary iff every fetched message has empty content, and so also when none was fetched |
| Pipeline.ProcessAndSummarize | main.py:17-35 | the result is `SummaryOf`. It is `None` iff no fetched message has content. A summary ends with the decorative footer |
| Pipeline.QuoteEmptyIff | main.py:65 | the quoted summary is empty iff the summary is all whitespace |
| Pipeline.QuoteLines | main.py:65 | the quoted text is the non-blank summary lines, each prefixed with `> `, joined by newlines |
| Pipeline.StarredSplitNonEmpty | main.py:66-67 | a message starting with the header's `*` splits into at least one part |
| Pipeline.FallbackPartsFound | main.py:61-67 | when messages were found, the fallback posts the split of its header plus the quoted summary |
| Pipeline.FallbackSendsIff | main.py:58-69 | the fallback posts nothing iff no message was fetched |
| Pipeline.PostEach | main.py:68-70 | every part is posted, in order |
| Pipeline.RunFallback | main.py:53-70 | `run_fallback` posts exactly `FallbackParts` |
| Pipeline.CountOk | main.py:94-98 | the success count never exceeds the number of parts |
| Pipeline.CountOkAll | main.py:94-102 | `success == len(parts)` iff every send succeeded |
| Pipeline.SendAll | main.py:93-101 | every part is attempted in order, and `success` counts the sends that succeeded |
| Pipeline.FallbackRunsIff | main.py:83-116 | the fallback runs iff the bot fails to start, there is no summary, or a send failed |
| Pipeline.Deliver | main.py:83-116 | the run computes `DeliveryOf`, the intended delivery |
| Pipeline.FallbackLostInsideBot | main.py:53-107 | as written, a fallback started from `on_ready` posts nothing and the bot is never closed. The intended delivery posts the fallback parts. The path where the bot fails to start is unaffected |
| FastSummarizer.SplitMessage | fast_summarizer.py:137-156 | the loop computes `WordSplit`. A message that fits comes back whole. A part longer than the limit is a single word of the message |
| FastSummarizer.PackWords | fast_summarizer.py:143-151 | the word loop computes `Pack` |
| FastSummarizer.PackShape | fast_summarizer.py:146-151 | every part and the current part fit the limit, unless they are a single word |
| FastSummarizer.LongPartIsWord | fast_summarizer.py:137-156 | a part over the limit is one word of the message and contains no space |
| FastSummarizer.PackPartsGrow | fast_summarizer.py:146-151 | parts are only ever appended: the parts after a prefix of the words are a prefix of the final parts |
| FastSummarizer.EmptyFirstPart | fast_summarizer.py:147-150 | as written, a first word of at least `max_length` characters makes the first part empty |
| FastSummarizer.CorrectedPartsNonEmpty | fast_summarizer.py:146-151 | with the flush guarded by `if current_part`, no packed part is empty |
| FastSummarizer.CorrectedNoEmptyPart | fast_summarizer.py:137-156 | with the guarded flush, a long message never yields an empty part |
| FastSummarizer.PackRejoins | fast_summarizer.py:144-154 | the parts, joined with spaces, give back the words joined with spaces |
| FastSummarizer.StepRejoins | fast_summarizer.py:147-151 | one word step keeps the parts, joined with spaces, equal to the words consumed so far |
| FastSummarizer.SplitRejoins | fast_summarizer.py:137-156 | `" ".join(split_message(m)) == m` when no field is empty and the flush is guarded or the first word is short |
| FastSummarizer.FetchMessages | fast_summarizer.py:61-79 | a non-200 reply gives `[]`. Otherwise the result keeps exactly the messages whose timestamp text is lexicographically after the cutoff text |
| FastSummarizer.FetchKeepsOrder | fast_summarizer.py:74 | filtering keeps the reply's order: it distributes over concatenation |
| FastSummarizer.LaterCutoffKeepsFewer | fast_summarizer.py:70-74 | a later cutoff keeps a subset of the messages |
| FastSummarizer.TranscriptSnoc | fast_summarizer.py:185-188 | a message adds its `username: content` line iff it has content |
| FastSummarizer.BuildTranscript | fast_summarizer.py:184-188 | the loop computes the transcript |
| FastSummarizer.TranscriptEmptyIff | fast_summarizer.py:184-192 | the channel is skipped (empty transcript) iff no message has content |
| Configuration.ChannelSettingsIndependent | config.py:24-27 | setting `<TYPE>_OUTPUT_CHANNEL_ID` leaves the text `CHANNEL_IDS` is read from unchanged, and setting `<TYPE>_CHANNEL_IDS` leaves the text the output id is read from unchanged |
| Configuration.ParseAll | config.py:25 | the list comprehension succeeds iff every field parses, and element k is field k's value |
| Configuration.FieldsOfJoin | config.py:25 | splitting a comma-join of decimal ids and dropping empty fields gives the id texts back |
| Configuration.ParseAllToString | config.py:25 | parsing the decimal texts of ids gives the ids back |
| Configuration.ParseChannelIdsJoin | config.py:24-25 | `CHANNEL_IDS` read from a comma-joined list of ids is that list |
| Configuration.Config.constructor | config.py:16-27 | the config holds the arguments, the upper-cased type, the three environment values and the parsed ids |
| Configuration.Config.Validate | config.py:31-48 | exit on missing channel settings iff there are no channel ids or the output id is 0, reporting which of the two is missing. Outside debug mode and with the channel settings present, exit iff the API key is missing, or iff both tokens are missing. When there is no exit, warn iff the user token is missing. In debug mode, only the channel check can exit |
| Configuration.Load | config.py:16-29 | the keys read are those named after the upper-cased config type. The config keeps `args` and the `DISCORD_TOKEN`, `BOT_TOKEN` and `OPENROUTER_API_KEY` values of the environment. Construction raises `ValueError` iff the channel ids or the output id do not parse. Otherwise the config holds the parsed values and the verdict is its `validate` |
| Configuration.AbsentChannelSettings | config.py:24-32 | with neither key set, the ids parse to `[]` and the output id to 0. These are the values on which `validate` exits |

## Left out

- Chunker.SplitMessage: it requires `max_length > 0`. In Python, `range(0, n, 0)` raises, and every caller uses 2000.
- FastSummarizer.SplitMessage takes `max_length` as a natural number. A negative limit is not modelled.
- `int()` accepts underscores between digits and non-ASCII digits. `Numerals.ParseInt` accepts only ASCII digits with an optional sign and surrounding whitespace.
- A `null` `username`, `global_name` or channel `name` is modelled as absent.
- A `content` field that is `null` or missing is modelled as empty.
- Exceptions raised inside `process_and_summarize` become "no summary", which is what `on_ready` does with them. The language model is a total function.
- The content of `summarizer.py` (`generate_summary`) is not part of this model. It is the oracle `World.summarize`.
- The content of `sender.py` is not part of this model. Bot sends are the oracle `sendOk`, and user-token posts always go out.
- Not modelled:
  - `run_debug` and the `--debug` console output;
  - `print`, `time.sleep` and `asyncio.sleep`;
  - the concurrency of `asyncio.gather`;
  - HTTP headers;
  - `discord.Client` beyond "started or not".
- `parse_args`: argparse and `load_dotenv` are not modelled. `Args` and the environment map are given, and argparse's defaults and `choices` check are not modelled.
- `exit(1)` and the warning print of `validate` become `Verdict` values.
- `datetime.now` and `fromisoformat` are not modelled. The cutoff is a parameter, and each message carries the instant its timestamp parses to, or none.
- Pipeline.Job: one `cutoff` serves both the bot's fetch and the fallback's fetch. The source computes `datetime.now` again on each call (`fetcher.py:20`), so the fallback's window starts later. The fallback's servers are an independent parameter, so this loses no behaviour the model could observe.
- The fast summariser's `main`, beyond the transcript loop, is not modelled: its channel-info fetch, its summary, its posting and `--limit` as a per-request count.
- Fetcher.FetchAndProcess: the model fetches each distinct channel once. The source starts one info request and one history fetch per occurrence of an id (`fetcher.py:77-83`), so a duplicated id costs repeated requests. With a fixed per-channel server, the kept results are the same.
- Fetcher.FetchMessages: the history is a finite list, and the model answers any request past its end with an empty page. The `before` cursor does not select the page. The source has no cap on pages (`fetcher.py:40`), so a server that kept returning in-window pages would keep it looping. The model cannot express such a server.
- A last message without an `id` raises `KeyError` at `fetcher.py:65`, after its page's messages were added. That ends the loop, keeping them. Message ids are plain strings in the model, so this case is not modelled.
- A message without a `timestamp` key raises `KeyError` in the fast summariser's filter. That case is not modelled: timestamps there are plain strings.
- The decorative footer of a summary is modelled as the constant `Pipeline.Ending`, built from its repeated pattern.

## Findings

| source | as written | input that shows it | evidently intended | confidence | as-written member | corrected member |
|---|---|---|---|---|---|---|
| main.py:53-107 | `run_fallback` calls `asyncio.run`. `on_ready` calls `run_fallback` while the bot's event loop is running, and `asyncio.run` raises there. The fallback posts nothing, and `bot_client.close()` is never reached | any bot run in which a send fails or no summary is produced | the fallback posts its parts and the bot is closed | high (not executed) | Pipeline.FallbackLostInsideBot | Pipeline.Deliver |
| fast_summarizer.py:147-150 | the part is flushed even when it is empty | `split_message("aaa bb", 2)` gives `["", "aaa", "bb"]` | no empty part is sent | high (not executed) | FastSummarizer.EmptyFirstPart | FastSummarizer.CorrectedNoEmptyPart |
