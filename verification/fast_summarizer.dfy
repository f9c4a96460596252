/**
  The older single-file summariser (fast_summarizer.py): one page of
  history per channel filtered by comparing timestamp strings, a
  transcript of `username: content` lines, and a splitter that packs
  space-separated words into parts.
*/
module FastSummarizer {
  import opened Wrappers
  import opened Seqs
  import opened Text

  // ---------------------------------------------------------------
  // split_message (word based)
  // ---------------------------------------------------------------

  /**
    What happens to the part being built when the next word does not fit:
    the code as written always emits it, even when it is still empty; the
    corrected splitter emits it only when it holds something.
  */
  datatype FlushRule = FlushAlways | FlushNonEmpty

  /** The state of the word loop: the parts emitted so far and the part being built. */
  datatype Packing = Packing(parts: seq<string>, current: string)

  /** One turn of the word loop. */
  function Step(st: Packing, word: string, maxLength: nat, rule: FlushRule): Packing
  {
    if |st.current| + |word| + 1 <= maxLength then
      Packing(st.parts, if st.current != "" then st.current + " " + word else word)
    else
      Packing(if rule == FlushAlways || st.current != "" then st.parts + [st.current] else st.parts, word)
  }

  /** The word loop over `words`, from an empty state. */
  function Pack(words: seq<string>, maxLength: nat, rule: FlushRule): Packing
  {
    if words == [] then Packing([], "")
    else Step(Pack(words[..|words| - 1], maxLength, rule), words[|words| - 1], maxLength, rule)
  }

  /** The parts once the last, non-empty, part being built is emitted. */
  function Finish(st: Packing): seq<string>
  {
    if st.current != "" then st.parts + [st.current] else st.parts
  }

  /** `split_message(message, max_length)` under the given flush rule. */
  function WordSplit(message: string, maxLength: nat, rule: FlushRule): seq<string>
  {
    if |message| <= maxLength then [message]
    else Finish(Pack(SplitOn(message, ' '), maxLength, rule))
  }

  /** `split_message` as written. */
  method SplitMessage(message: string, maxLength: nat) returns (parts: seq<string>)
    ensures parts == WordSplit(message, maxLength, FlushAlways)
    ensures |message| <= maxLength ==> parts == [message]
    ensures forall p :: p in parts && |p| > maxLength ==> p in SplitOn(message, ' ') && ' ' !in p
  {
    LongPartIsWord(message, maxLength, FlushAlways);
    if |message| <= maxLength {
      return [message];
    }
    var current;
    parts, current := PackWords(SplitOn(message, ' '), maxLength);
    if current != "" {
      parts := parts + [current];
    }
  }

  /** The word loop of `split_message` as written. */
  method PackWords(words: seq<string>, maxLength: nat) returns (parts: seq<string>, current: string)
    ensures Packing(parts, current) == Pack(words, maxLength, FlushAlways)
  {
    parts := [];
    current := "";
    var i := 0;
    while i < |words|
      invariant 0 <= i <= |words|
      invariant Packing(parts, current) == Pack(words[..i], maxLength, FlushAlways)
    {
      var word := words[i];
      assert words[..i + 1][..i] == words[..i];
      if |current| + |word| + 1 <= maxLength {
        current := if current != "" then current + " " + word else word;
      } else {
        parts := parts + [current];
        current := word;
      }
      i := i + 1;
    }
    assert words[..i] == words;
  }

  /**
    Everything emitted or being built is either within the limit or one
    of the words: a part only grows while it still fits.
  */
  lemma {:induction false} PackShape(words: seq<string>, maxLength: nat, rule: FlushRule)
    ensures var st := Pack(words, maxLength, rule);
      && (|st.current| <= maxLength || st.current in words)
      && forall p :: p in st.parts ==> |p| <= maxLength || p in words
    decreases |words|
  {
    if words != [] {
      var init := words[..|words| - 1];
      PackShape(init, maxLength, rule);
      assert forall w :: w in init ==> w in words;
    }
  }

  /** A part longer than the limit is a single word, emitted unsplit. */
  lemma LongPartIsWord(message: string, maxLength: nat, rule: FlushRule)
    ensures forall p :: p in WordSplit(message, maxLength, rule) && |p| > maxLength ==>
      p in SplitOn(message, ' ') && ' ' !in p
  {
    var words := SplitOn(message, ' ');
    PackShape(words, maxLength, rule);
  }

  /** Parts once emitted stay, in order: the loop only appends. */
  lemma {:induction false} PackPartsGrow(words: seq<string>, j: nat, maxLength: nat, rule: FlushRule)
    requires j <= |words|
    ensures Pack(words[..j], maxLength, rule).parts <= Pack(words, maxLength, rule).parts
    decreases |words|
  {
    if j < |words| {
      var init := words[..|words| - 1];
      assert init[..j] == words[..j];
      PackPartsGrow(init, j, maxLength, rule);
    } else {
      assert words[..j] == words;
    }
  }

  /**
    As written, a first word that leaves no room in a part makes the
    first part the empty string.
  */
  lemma EmptyFirstPart(message: string, maxLength: nat)
    requires |message| > maxLength
    requires |SplitOn(message, ' ')[0]| >= maxLength
    ensures var parts := WordSplit(message, maxLength, FlushAlways);
      parts != [] && parts[0] == ""
  {
    var words := SplitOn(message, ' ');
    assert words[..1][..0] == [];
    assert Pack(words[..1], maxLength, FlushAlways).parts == [""];
    PackPartsGrow(words, 1, maxLength, FlushAlways);
  }

  /** Under the corrected rule no emitted part is empty. */
  lemma {:induction false} CorrectedPartsNonEmpty(words: seq<string>, maxLength: nat)
    ensures forall p :: p in Pack(words, maxLength, FlushNonEmpty).parts ==> p != ""
    decreases |words|
  {
    if words != [] {
      CorrectedPartsNonEmpty(words[..|words| - 1], maxLength);
    }
  }

  /** The corrected splitter never emits an empty part when it splits. */
  lemma CorrectedNoEmptyPart(message: string, maxLength: nat)
    requires |message| > maxLength
    ensures forall p :: p in WordSplit(message, maxLength, FlushNonEmpty) ==> p != ""
  {
    CorrectedPartsNonEmpty(SplitOn(message, ' '), maxLength);
  }

  /**
    With no empty word, and a first word that fits or the corrected rule,
    the part being built is never empty and the parts with it rejoin to
    the words read so far.
  */
  lemma {:induction false} PackRejoins(words: seq<string>, maxLength: nat, rule: FlushRule)
    requires words != []
    requires forall k :: 0 <= k < |words| ==> words[k] != ""
    requires rule == FlushNonEmpty || |words[0]| < maxLength
    ensures var st := Pack(words, maxLength, rule);
      st.current != "" && Join(st.parts + [st.current], " ") == Join(words, " ")
    decreases |words|
  {
    var init := words[..|words| - 1];
    var w := words[|words| - 1];
    if init == [] {
      assert words == [w];
    } else {
      PackRejoins(init, maxLength, rule);
      StepRejoins(Pack(init, maxLength, rule), w, maxLength, rule);
      JoinSnoc(init, w, " ");
      assert init + [w] == words;
    }
  }

  /** One more non-empty word: the state still rejoins, now with that word after a space. */
  lemma StepRejoins(st: Packing, w: string, maxLength: nat, rule: FlushRule)
    requires st.current != "" && w != ""
    ensures var next := Step(st, w, maxLength, rule);
      next.current != "" && Join(next.parts + [next.current], " ") == Join(st.parts + [st.current], " ") + " " + w
  {
    var next := Step(st, w, maxLength, rule);
    if |st.current| + |w| + 1 <= maxLength {
      assert next == Packing(st.parts, st.current + " " + w);
      ExtendLast(st.parts, st.current, w);
    } else {
      assert next == Packing(st.parts + [st.current], w);
      JoinSnoc(st.parts + [st.current], w, " ");
    }
  }

  /** Extending the last piece by `" " + w` extends the joined text the same way. */
  lemma ExtendLast(parts: seq<string>, c: string, w: string)
    ensures Join(parts + [c + " " + w], " ") == Join(parts + [c], " ") + " " + w
  {
    if parts == [] {
      assert [c + " " + w] == [] + [c + " " + w];
      assert [c] == [] + [c];
    } else {
      var j := Join(parts, " ");
      JoinSnoc(parts, c + " " + w, " ");
      JoinSnoc(parts, c, " ");
      assert j + " " + (c + " " + w) == (j + " " + c) + " " + w;
    }
  }

  /**
    When no space-separated field is empty and the first word is shorter
    than the limit, the parts joined by single spaces give the message.
  */
  lemma SplitRejoins(message: string, maxLength: nat, rule: FlushRule)
    requires forall k :: 0 <= k < |SplitOn(message, ' ')| ==> SplitOn(message, ' ')[k] != ""
    requires rule == FlushNonEmpty || |SplitOn(message, ' ')[0]| < maxLength
    ensures Join(WordSplit(message, maxLength, rule), " ") == message
  {
    if |message| > maxLength {
      PackRejoins(SplitOn(message, ' '), maxLength, rule);
      JoinSplitOn(message, ' ');
    }
  }

  // ---------------------------------------------------------------
  // fetch_messages
  // ---------------------------------------------------------------

  /** A message of the history response; a missing author or username is `None`. */
  datatype FastMessage = FastMessage(timestamp: string, content: string, username: Option<string>)

  /** The one page `fetch_messages` requests. */
  datatype Response = Response(status: int, messages: seq<FastMessage>)

  /** The messages of the page whose timestamp string sorts after the cutoff string; none on an error status. */
  function FetchMessages(response: Response, cutoff: string): (r: seq<FastMessage>)
    ensures response.status != 200 ==> r == []
    ensures forall m :: m in r <==>
      response.status == 200 && m in response.messages && LexLess(cutoff, m.timestamp)
  {
    if response.status == 200 then Filter(response.messages, (m: FastMessage) => LexLess(cutoff, m.timestamp))
    else []
  }

  /** The filter keeps page order: filtering two stretches of a page filters the whole page. */
  lemma FetchKeepsOrder(a: seq<FastMessage>, b: seq<FastMessage>, cutoff: string)
    ensures FetchMessages(Response(200, a + b), cutoff) ==
      FetchMessages(Response(200, a), cutoff) + FetchMessages(Response(200, b), cutoff)
  {
    FilterAppend(a, b, (m: FastMessage) => LexLess(cutoff, m.timestamp));
  }

  /** A later cutoff keeps no message an earlier one drops. */
  lemma LaterCutoffKeepsFewer(response: Response, earlier: string, later: string)
    requires LexLess(earlier, later)
    ensures forall m :: m in FetchMessages(response, later) ==> m in FetchMessages(response, earlier)
  {
    forall m | m in FetchMessages(response, later)
      ensures m in FetchMessages(response, earlier)
    {
      LexLessTransitive(earlier, later, m.timestamp);
    }
  }

  // ---------------------------------------------------------------
  // The transcript loop of main
  // ---------------------------------------------------------------

  predicate HasContent(m: FastMessage)
  {
    m.content != ""
  }

  /** `msg.get('author', {}).get('username', 'Unknown')` */
  function Author(m: FastMessage): string
  {
    match m.username
    case Some(u) => u
    case None => "Unknown"
  }

  /** `f"{author}: {msg['content']}\n"` */
  function Line(m: FastMessage): string
  {
    Author(m) + ": " + m.content + "\n"
  }

  /** One line per message with content, in page order. */
  function Transcript(messages: seq<FastMessage>): string
  {
    Concat(Map(Filter(messages, HasContent), Line))
  }

  lemma TranscriptSnoc(messages: seq<FastMessage>, m: FastMessage)
    ensures Transcript(messages + [m]) == Transcript(messages) + (if HasContent(m) then Line(m) else "")
  {
    FilterAppend(messages, [m], HasContent);
    FilterSingle(m, HasContent);
    var kept := Filter(messages, HasContent);
    if HasContent(m) {
      MapAppend(kept, [m], Line);
      ConcatAppend(Map(kept, Line), [Line(m)]);
      ConcatSingle(Line(m));
    } else {
      assert kept + [] == kept;
    }
  }

  /** The transcript loop of `main`. */
  method BuildTranscript(messages: seq<FastMessage>) returns (text: string)
    ensures text == Transcript(messages)
  {
    text := "";
    var i := 0;
    while i < |messages|
      invariant 0 <= i <= |messages|
      invariant text == Transcript(messages[..i])
    {
      var m := messages[i];
      assert messages[..i + 1] == messages[..i] + [m];
      TranscriptSnoc(messages[..i], m);
      if m.content != "" {
        text := text + Line(m);
      }
      i := i + 1;
    }
    assert messages[..i] == messages;
  }

  /** The transcript is empty, and the channel skipped, exactly when no message has content. */
  lemma {:induction false} TranscriptEmptyIff(messages: seq<FastMessage>)
    ensures Transcript(messages) == "" <==> forall k :: 0 <= k < |messages| ==> messages[k].content == ""
    decreases |messages|
  {
    if messages != [] {
      var init := messages[..|messages| - 1];
      var m := messages[|messages| - 1];
      TranscriptEmptyIff(init);
      SplitLast(messages);
      TranscriptSnoc(init, m);
      assert forall k :: 0 <= k < |init| ==> init[k] == messages[k];
    }
  }
}
