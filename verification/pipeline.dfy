/**
  The run of the summariser (main.py): fetch, build the transcript, ask
  the language model for a summary, frame it with a header and a closing
  ornament, split it and post it with the bot; fall back to posting as the
  user when the bot cannot start, produces no summary, or fails a send.

  The language model is the `summarize` oracle of a `World` (the reply to a
  transcript, error replies included); the Discord history is its
  `servers` oracle.  The fallback fetches and summarises again, so it sees a
  second `World`.  The outcome of the i-th bot send is `sendOk[i]`, a send
  with no recorded outcome counts as failed.
*/
module Pipeline {
  import opened Wrappers
  import opened Seqs
  import opened Text
  import opened Numerals
  import Chunker
  import Fetcher

  /** What the run needs from the configuration. */
  datatype Job = Job(
    channelIds: seq<int>,
    hasToken: bool,
    configName: string,
    cutoff: int)

  /** The outside world as seen by one pass: Discord's history and the language model. */
  datatype World = World(
    servers: int -> Fetcher.ChannelServer,
    summarize: string -> string)

  // ---------------------------------------------------------------
  // Transcript
  // ---------------------------------------------------------------

  predicate HasContent(e: Fetcher.Entry)
  {
    e.content != ""
  }

  /** `f"[{m['channel']}] {m['author']}: {m['content']}\n"` */
  function Line(e: Fetcher.Entry): string
  {
    "[" + e.channel + "] " + e.author + ": " + e.content + "\n"
  }

  /** One line per message with content, in input order. */
  function Transcript(messages: seq<Fetcher.Entry>): string
  {
    Concat(Map(Filter(messages, HasContent), Line))
  }

  lemma TranscriptSnoc(messages: seq<Fetcher.Entry>, e: Fetcher.Entry)
    ensures Transcript(messages + [e]) == Transcript(messages) + (if HasContent(e) then Line(e) else "")
  {
    FilterAppend(messages, [e], HasContent);
    FilterSingle(e, HasContent);
    var kept := Filter(messages, HasContent);
    if HasContent(e) {
      MapAppend(kept, [e], Line);
      ConcatAppend(Map(kept, Line), [Line(e)]);
      ConcatSingle(Line(e));
    } else {
      assert kept + [] == kept;
    }
  }

  /** `build_summary_text` */
  method BuildSummaryText(messages: seq<Fetcher.Entry>) returns (text: string)
    ensures text == Transcript(messages)
  {
    text := "";
    var i := 0;
    while i < |messages|
      invariant 0 <= i <= |messages|
      invariant text == Transcript(messages[..i])
    {
      var m := messages[i];
      assert messages[..i + 1] == messages[..i] + [m];
      TranscriptSnoc(messages[..i], m);
      if m.content != "" {
        text := text + Line(m);
      }
      i := i + 1;
    }
    assert messages[..i] == messages;
  }

  /** The transcript is blank exactly when no message has content. */
  lemma {:induction false} TranscriptBlankIff(messages: seq<Fetcher.Entry>)
    ensures IsBlank(Transcript(messages)) <==> forall e :: e in messages ==> e.content == ""
    decreases |messages|
  {
    if messages != [] {
      var init := messages[..|messages| - 1];
      var last := messages[|messages| - 1];
      TranscriptBlankIff(init);
      SplitLast(messages);
      TranscriptSnocBlank(init, last);
      assert forall e :: e in messages <==> e in init || e == last;
    }
  }

  /** A message adds visible text to the transcript exactly when it has content. */
  lemma TranscriptSnocBlank(messages: seq<Fetcher.Entry>, e: Fetcher.Entry)
    ensures IsBlank(Transcript(messages + [e])) <==> IsBlank(Transcript(messages)) && e.content == ""
  {
    TranscriptSnoc(messages, e);
    if HasContent(e) {
      BlankAppend(Transcript(messages), Line(e));
      LineNotBlank(e);
    } else {
      assert Transcript(messages + [e]) == Transcript(messages) + "";
      assert Transcript(messages) + "" == Transcript(messages);
    }
  }

  /** A transcript line opens with `[`, so it is never blank. */
  lemma LineNotBlank(e: Fetcher.Entry)
    ensures !IsBlank(Line(e))
  {
    assert Line(e)[0] == '[';
    NotBlankAt(Line(e), 0);
  }

  // ---------------------------------------------------------------
  // Summary message
  // ---------------------------------------------------------------

  function ChannelLabel(p: (int, string)): string
  {
    p.1
  }

  /**
    `**Aggregated Summary (<config>) of <n> Channels (<total> msgs)[ (Fallback)]:**`
    and the channel names joined by `", "`, then a blank line.
  */
  function Header(configName: string, names: seq<(int, string)>, total: nat, fallback: bool): (r: string)
    ensures r != [] && r[0] == '*'
  {
    "**Aggregated Summary (" + configName + ") of " + IntToString(|names|) + " Channels ("
      + IntToString(total) + " msgs)" + (if fallback then " (Fallback)" else "") + ":**\n"
      + Join(Map(names, ChannelLabel), ", ") + "\n\n"
  }

  /** One row of the closing ornament. */
  const Sparkles: string :=
    "* . \U{FE62} \U{02D6} \U{2726} \U{00B8} . \U{FE62} \U{00B0} \U{00B8}. \U{00B0} \U{02D6} \U{FF65} \U{00B7}\U{0329} \U{FF61} \U{2606} \U{FF9F} \U{FF0A}"

  function Repeat(s: string, n: nat): string
  {
    if n == 0 then "" else Repeat(s, n - 1) + s
  }

  /** The code block closing every bot summary. */
  const Ending: string := "\n\n\n```\n" + Repeat(Sparkles + " \U{00B8}", 6) + Sparkles + "\n```"

  /** The messages, channel names and count `fetch_and_process_channel_data` returns. */
  function FetchedMessages(job: Job, servers: int -> Fetcher.ChannelServer): seq<Fetcher.Entry>
  {
    Fetcher.SortByTimestamp(Fetcher.Merged(Distinct(job.channelIds), job.hasToken, job.cutoff, servers))
  }

  function FetchedNames(job: Job, servers: int -> Fetcher.ChannelServer): seq<(int, string)>
  {
    Fetcher.Names(Distinct(job.channelIds), job.hasToken, servers)
  }

  /** What `process_and_summarize` returns. */
  function SummaryOf(job: Job, world: World): Option<string>
  {
    var msgs := FetchedMessages(job, world.servers);
    if msgs == [] then None
    else
      var text := Transcript(msgs);
      if IsBlank(text) then None
      else Some(Header(job.configName, FetchedNames(job, world.servers), |msgs|, false)
                + Strip(world.summarize(text)) + Ending)
  }

  /** There is a summary exactly when some fetched message has content. */
  lemma SummaryNoneIff(job: Job, world: World)
    ensures SummaryOf(job, world).None? <==>
      forall e :: e in FetchedMessages(job, world.servers) ==> e.content == ""
  {
    var msgs := FetchedMessages(job, world.servers);
    TranscriptBlankIff(msgs);
  }

  /** `process_and_summarize` */
  method ProcessAndSummarize(job: Job, world: World) returns (summary: Option<string>)
    ensures summary == SummaryOf(job, world)
    ensures summary.None? <==> forall e :: e in FetchedMessages(job, world.servers) ==> e.content == ""
    ensures summary.Some? ==> Ending <= summary.value[|summary.value| - |Ending|..]
  {
    var allMsgs, channelNames, totalMsgs := Fetcher.FetchAndProcess(job.channelIds, job.hasToken, job.cutoff, world.servers);
    SummaryNoneIff(job, world);
    if allMsgs == [] {
      return None;
    }
    var convoText := BuildSummaryText(allMsgs);
    StripEmptyIffBlank(convoText);
    if Strip(convoText) == "" {
      return None;
    }
    var reply := world.summarize(convoText);
    var header := Header(job.configName, channelNames, totalMsgs, false);
    summary := Some(header + Strip(reply) + Ending);
  }

  // ---------------------------------------------------------------
  // Fallback
  // ---------------------------------------------------------------

  predicate NonBlankLine(line: string)
  {
    !IsBlank(line)
  }

  function QuoteLine(line: string): string
  {
    "> " + line
  }

  /** `"\n".join([f"> {line}" for line in summary.split("\n") if line.strip()])` */
  function Quote(summary: string): string
  {
    Join(Map(Filter(SplitOn(summary, '\n'), NonBlankLine), QuoteLine), "\n")
  }

  /** The quoted text is empty exactly when the summary is blank. */
  lemma QuoteEmptyIff(summary: string)
    ensures Quote(summary) == "" <==> IsBlank(summary)
  {
    var lines := SplitOn(summary, '\n');
    var kept := Filter(lines, NonBlankLine);
    assert IsBlank(summary) <==> forall k :: 0 <= k < |lines| ==> IsBlank(lines[k]) by {
      JoinSplitOn(summary, '\n');
      NoSpaceJoin(lines, "\n");
      BlankIffNoSpaceEmpty(summary);
      BlankIffNoSpaceEmpty(Concat(lines));
      ConcatBlank(lines);
    }
    if kept != [] {
      var quoted := Map(kept, QuoteLine);
      assert Quote(summary) != "" by {
        JoinEndsWithLast(quoted, "\n");
        assert quoted[|quoted| - 1] == "> " + kept[|kept| - 1];
      }
      assert kept[0] in lines && NonBlankLine(kept[0]);
    } else {
      assert forall k :: 0 <= k < |lines| ==> lines[k] !in kept;
    }
  }

  /**
    The quoted text holds the non-blank lines of the summary, in order,
    one per line, each behind `"> "`.
  */
  lemma QuoteLines(summary: string)
    requires !IsBlank(summary)
    ensures var kept := Filter(SplitOn(summary, '\n'), NonBlankLine);
      && |SplitOn(Quote(summary), '\n')| == |kept|
      && forall k :: 0 <= k < |kept| ==> SplitOn(Quote(summary), '\n')[k] == "> " + kept[k]
  {
    var lines := SplitOn(summary, '\n');
    var kept := Filter(lines, NonBlankLine);
    QuoteEmptyIff(summary);
    var quoted := Map(kept, QuoteLine);
    forall k | 0 <= k < |quoted|
      ensures '\n' !in quoted[k]
    {
      assert kept[k] in lines;
      assert quoted[k] == "> " + kept[k];
    }
    SplitOnJoin(quoted, '\n');
  }

  /** The parts `run_fallback` sends. */
  function FallbackParts(job: Job, world: World): seq<string>
  {
    var msgs := FetchedMessages(job, world.servers);
    if msgs == [] then []
    else
      var header := Header(job.configName, FetchedNames(job, world.servers), |msgs|, true);
      Chunker.Split(header + Quote(world.summarize(Transcript(msgs))), Chunker.DefaultMaxLength)
  }

  /** A message opening with the header's `*` is never split into nothing. */
  lemma StarredSplitNonEmpty(header: string, body: string)
    requires header != [] && header[0] == '*'
    ensures Chunker.Split(header + body, Chunker.DefaultMaxLength) != []
  {
    var full := header + body;
    assert full[0] == '*';
    NotBlankAt(full, 0);
    Chunker.SplitNonEmpty(full, Chunker.DefaultMaxLength);
  }

  /** The parts of the fallback once its fetch has found `msgs`. */
  lemma FallbackPartsFound(job: Job, world: World, msgs: seq<Fetcher.Entry>, names: seq<(int, string)>)
    requires msgs == FetchedMessages(job, world.servers) && msgs != []
    requires names == FetchedNames(job, world.servers)
    ensures FallbackParts(job, world) ==
      Chunker.Split(Header(job.configName, names, |msgs|, true) + Quote(world.summarize(Transcript(msgs))),
                    Chunker.DefaultMaxLength)
  {
  }

  /** The fallback posts something exactly when its own fetch finds messages. */
  lemma FallbackSendsIff(job: Job, world: World)
    ensures FallbackParts(job, world) == [] <==> FetchedMessages(job, world.servers) == []
  {
    var msgs := FetchedMessages(job, world.servers);
    if msgs != [] {
      var names := FetchedNames(job, world.servers);
      var header := Header(job.configName, names, |msgs|, true);
      FallbackPartsFound(job, world, msgs, names);
      StarredSplitNonEmpty(header, Quote(world.summarize(Transcript(msgs))));
    }
  }

  /** The send loop of `run_fallback`: a failed send is reported and the next part is sent all the same. */
  method PostEach(parts: seq<string>) returns (sent: seq<string>)
    ensures sent == parts
  {
    sent := [];
    var i := 0;
    while i < |parts|
      invariant 0 <= i <= |parts|
      invariant sent == parts[..i]
    {
      sent := sent + [parts[i]];
      i := i + 1;
    }
    assert parts[..i] == parts;
  }

  /** `run_fallback`: every part is sent, whatever the outcome of earlier sends. */
  method RunFallback(job: Job, world: World) returns (sent: seq<string>)
    ensures sent == FallbackParts(job, world)
  {
    var allMsgs, channelNames, totalMsgs := Fetcher.FetchAndProcess(job.channelIds, job.hasToken, job.cutoff, world.servers);
    if allMsgs == [] {
      return [];
    }
    var convoText := BuildSummaryText(allMsgs);
    var summary := world.summarize(convoText);
    var header := Header(job.configName, channelNames, totalMsgs, true);
    var formatted := Quote(summary);
    var parts := Chunker.SplitMessage(header + formatted, Chunker.DefaultMaxLength);
    sent := PostEach(parts);
    FallbackPartsFound(job, world, allMsgs, channelNames);
  }

  // ---------------------------------------------------------------
  // Delivery
  // ---------------------------------------------------------------

  /** The outcome of the i-th bot send. */
  function OkAt(sendOk: seq<bool>, i: nat): bool
  {
    i < |sendOk| && sendOk[i]
  }

  /** How many of the first `n` sends succeeded. */
  function CountOk(sendOk: seq<bool>, n: nat): (r: nat)
    ensures r <= n
  {
    if n == 0 then 0 else CountOk(sendOk, n - 1) + (if OkAt(sendOk, n - 1) then 1 else 0)
  }

  /** All sends succeeded exactly when the count reaches the number of parts. */
  lemma {:induction false} CountOkAll(sendOk: seq<bool>, n: nat)
    ensures CountOk(sendOk, n) == n <==> forall i :: 0 <= i < n ==> OkAt(sendOk, i)
    decreases n
  {
    if n > 0 {
      CountOkAll(sendOk, n - 1);
    }
  }

  /** The send loop of `on_ready`: every part is attempted, in order. */
  method SendAll(parts: seq<string>, sendOk: seq<bool>) returns (attempted: seq<string>, success: nat)
    ensures attempted == parts
    ensures success == CountOk(sendOk, |parts|)
  {
    attempted := [];
    success := 0;
    var i := 0;
    while i < |parts|
      invariant 0 <= i <= |parts|
      invariant attempted == parts[..i]
      invariant success == CountOk(sendOk, i)
    {
      attempted := attempted + [parts[i]];
      var ok := OkAt(sendOk, i);
      if ok {
        success := success + 1;
      }
      i := i + 1;
    }
    assert parts[..i] == parts;
  }

  /**
    What a run did: the parts the bot attempted, how many succeeded,
    whether the fallback ran and what it sent, and whether the bot was
    closed at the end.
  */
  datatype Delivery = Delivery(
    botAttempts: seq<string>,
    success: nat,
    fallbackRan: bool,
    fallbackSent: seq<string>,
    closed: bool)

  /** The parts of the bot's summary. */
  function BotParts(job: Job, world: World): seq<string>
  {
    match SummaryOf(job, world)
    case None => []
    case Some(msg) => Chunker.Split(msg, Chunker.DefaultMaxLength)
  }

  /** A run in which the fallback, once triggered, does its work. */
  function DeliveryOf(job: Job, first: World, second: World, botStarted: bool, sendOk: seq<bool>): Delivery
  {
    if !botStarted then Delivery([], 0, true, FallbackParts(job, second), false)
    else
      var parts := BotParts(job, first);
      var success := CountOk(sendOk, |parts|);
      var ran := SummaryOf(job, first).None? || success != |parts|;
      Delivery(parts, success, ran, if ran then FallbackParts(job, second) else [], true)
  }

  /**
    The fallback runs exactly when the bot did not start, produced no
    summary, or failed one of its sends; it then sends all of its parts.
  */
  lemma FallbackRunsIff(job: Job, first: World, second: World, botStarted: bool, sendOk: seq<bool>)
    ensures var d := DeliveryOf(job, first, second, botStarted, sendOk);
      && (d.fallbackRan <==>
            || !botStarted
            || SummaryOf(job, first).None?
            || exists i :: 0 <= i < |BotParts(job, first)| && !OkAt(sendOk, i))
      && (d.fallbackRan ==> d.fallbackSent == FallbackParts(job, second))
      && (!d.fallbackRan ==> d.fallbackSent == [])
  {
    CountOkAll(sendOk, |BotParts(job, first)|);
  }

  /**
    `main` and `on_ready`, with the fallback awaited from inside the bot's
    event loop instead of started with `asyncio.run`.
  */
  method Deliver(job: Job, first: World, second: World, botStarted: bool, sendOk: seq<bool>)
    returns (d: Delivery)
    ensures d == DeliveryOf(job, first, second, botStarted, sendOk)
  {
    if !botStarted {
      var sent := RunFallback(job, second);
      return Delivery([], 0, true, sent, false);
    }
    var summaryMsg := ProcessAndSummarize(job, first);
    var attempted: seq<string> := [];
    var success := 0;
    var ran := false;
    var sent: seq<string> := [];
    if summaryMsg.Some? {
      var parts := Chunker.SplitMessage(summaryMsg.value, Chunker.DefaultMaxLength);
      attempted, success := SendAll(parts, sendOk);
      if success != |parts| {
        ran := true;
        sent := RunFallback(job, second);
      }
    } else {
      ran := true;
      sent := RunFallback(job, second);
    }
    d := Delivery(attempted, success, ran, sent, true);
  }

  // ---------------------------------------------------------------
  // The fallback as written
  // ---------------------------------------------------------------

  /** What calling `run_fallback` does: `asyncio.run` refuses to start inside a running event loop. */
  datatype FallbackCall = Completed(sent: seq<string>) | EventLoopError

  function CallFallback(insideEventLoop: bool, job: Job, world: World): FallbackCall
  {
    if insideEventLoop then EventLoopError else Completed(FallbackParts(job, world))
  }

  /**
    `main` and `on_ready` as written: from `on_ready` (inside the bot's
    event loop) `run_fallback` raises at its first `asyncio.run`, the error
    leaves `on_ready` before `bot_client.close()`, and the library's event
    dispatcher only logs it.  After a failed start it runs normally.
  */
  function DeliveryAsWritten(job: Job, first: World, second: World, botStarted: bool, sendOk: seq<bool>): Delivery
  {
    if !botStarted then
      match CallFallback(false, job, second)
      case Completed(sent) => Delivery([], 0, true, sent, false)
      case EventLoopError => Delivery([], 0, true, [], false)
    else
      var parts := BotParts(job, first);
      var success := CountOk(sendOk, |parts|);
      var ran := SummaryOf(job, first).None? || success != |parts|;
      if !ran then Delivery(parts, success, false, [], true)
      else
        match CallFallback(true, job, second)
        case Completed(sent) => Delivery(parts, success, true, sent, true)
        case EventLoopError => Delivery(parts, success, true, [], false)
  }

  /**
    As written, a fallback triggered from the bot sends nothing and the bot
    is never closed, although the fallback's fetch found messages it would
    have posted; after a failed start the fallback works.
  */
  lemma FallbackLostInsideBot(job: Job, first: World, second: World, sendOk: seq<bool>)
    requires DeliveryOf(job, first, second, true, sendOk).fallbackRan
    requires FetchedMessages(job, second.servers) != []
    ensures DeliveryAsWritten(job, first, second, true, sendOk).fallbackSent == []
    ensures !DeliveryAsWritten(job, first, second, true, sendOk).closed
    ensures DeliveryOf(job, first, second, true, sendOk).fallbackSent != []
    ensures DeliveryAsWritten(job, first, second, false, sendOk) == DeliveryOf(job, first, second, false, sendOk)
  {
    FallbackSendsIff(job, second);
  }
}
