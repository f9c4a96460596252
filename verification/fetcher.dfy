/**
  `fetch_and_process_channel_data` (fetcher.py): for every channel, read
  the message history page by page (newest first, a `before` cursor on the
  id of the last message seen) until a page reaches the time cutoff, then
  name the channels and authors, merge all channels and sort by timestamp.

  The network is an oracle.  A channel answers its info request with an
  `InfoResponse` and its k-th history request with the k-th `PageResponse`
  of its history; a request past the end of that history gets an empty
  page, as Discord answers once there is nothing older.  The clock is the
  `cutoff` parameter.  A timestamp is kept twice, as the raw text the
  source sorts by and as the instant `fromisoformat` gives (`None` when
  parsing, or comparing with the cutoff, raises).
*/
module Fetcher {
  import opened Wrappers
  import opened Seqs
  import opened Text
  import opened Numerals

  /** The `author` object of a message; `""` stands for a missing or empty `global_name`. */
  datatype Author = Author(globalName: string, username: Option<string>)

  /**
    A message as the API returns it.  `timestamp` is `""` when the field is
    missing or empty, `content` is `""` when it is missing or null.
  */
  datatype RawMessage = RawMessage(
    id: string,
    timestamp: string,
    instant: Option<int>,
    author: Author,
    content: string)

  /** The outcome of one history request: a status and a JSON list, or an exception. */
  datatype PageResponse = Page(status: int, messages: seq<RawMessage>) | Raised

  /** The outcome of the channel-info request; `name` is `None` when the field is absent. */
  datatype InfoResponse = Info(status: int, name: Option<string>) | InfoRaised

  /** What one channel answers. */
  datatype ChannelServer = ChannelServer(info: InfoResponse, history: seq<PageResponse>)

  /** The answer to the k-th history request of a channel. */
  function ResponseAt(history: seq<PageResponse>, k: nat): PageResponse
  {
    if k < |history| then history[k] else Page(200, [])
  }

  // ---------------------------------------------------------------
  // One page
  // ---------------------------------------------------------------

  /** A message with a timestamp that `fromisoformat` rejects. */
  predicate Unparsable(m: RawMessage)
  {
    m.timestamp != "" && m.instant.None?
  }

  /** A message with a timestamp strictly after the cutoff. */
  predicate InWindow(cutoff: int, m: RawMessage)
  {
    m.timestamp != "" && m.instant.Some? && m.instant.value > cutoff
  }

  /** A message with a timestamp at or before the cutoff. */
  predicate AtOrBefore(cutoff: int, m: RawMessage)
  {
    m.timestamp != "" && m.instant.Some? && m.instant.value <= cutoff
  }

  function KeepAfter(cutoff: int): RawMessage -> bool
  {
    (m: RawMessage) => InWindow(cutoff, m)
  }

  /** The outcome of the loop over one page: kept messages and `hit_cutoff`, or an exception. */
  datatype Scan = Scanned(kept: seq<RawMessage>, hitCutoff: bool) | PageRaised

  /** The loop over the messages of one page, message by message. */
  function ScanOf(msgs: seq<RawMessage>, cutoff: int): Scan
  {
    if msgs == [] then Scanned([], false)
    else
      var m := msgs[|msgs| - 1];
      match ScanOf(msgs[..|msgs| - 1], cutoff)
      case PageRaised => PageRaised
      case Scanned(kept, hit) =>
        if m.timestamp == "" then Scanned(kept, hit)
        else if m.instant.None? then PageRaised
        else if m.instant.value > cutoff then Scanned(kept + [m], hit)
        else Scanned(kept, true)
  }

  /**
    What the scan of a page means: it raises iff some timestamp is
    unparsable; otherwise it keeps exactly the messages after the cutoff,
    in page order, and reports `hit_cutoff` iff some message is at or
    before the cutoff.  Messages without a timestamp are skipped.
  */
  lemma {:induction false} ScanOfMeaning(msgs: seq<RawMessage>, cutoff: int)
    ensures ScanOf(msgs, cutoff).PageRaised? <==> exists i :: 0 <= i < |msgs| && Unparsable(msgs[i])
    ensures ScanOf(msgs, cutoff).Scanned? ==>
      && ScanOf(msgs, cutoff).kept == Filter(msgs, KeepAfter(cutoff))
      && (ScanOf(msgs, cutoff).hitCutoff <==> exists i :: 0 <= i < |msgs| && AtOrBefore(cutoff, msgs[i]))
    decreases |msgs|
  {
    if msgs != [] {
      var init := msgs[..|msgs| - 1];
      var m := msgs[|msgs| - 1];
      ScanOfMeaning(init, cutoff);
      assert forall i :: 0 <= i < |init| ==> init[i] == msgs[i];
      assert (exists i :: 0 <= i < |msgs| && Unparsable(msgs[i])) <==>
        (exists i :: 0 <= i < |init| && Unparsable(init[i])) || Unparsable(m)
      by {
        assert msgs[|msgs| - 1] == m;
      }
      assert (exists i :: 0 <= i < |msgs| && AtOrBefore(cutoff, msgs[i])) <==>
        (exists i :: 0 <= i < |init| && AtOrBefore(cutoff, init[i])) || AtOrBefore(cutoff, m)
      by {
        assert msgs[|msgs| - 1] == m;
      }
      assert Filter(msgs, KeepAfter(cutoff)) == Filter(init, KeepAfter(cutoff)) + (if InWindow(cutoff, m) then [m] else []);
    }
  }

  /** The `for msg in msgs` loop of one page. */
  method ScanPage(msgs: seq<RawMessage>, cutoff: int) returns (scan: Scan)
    ensures scan == ScanOf(msgs, cutoff)
  {
    var pageMsgs: seq<RawMessage> := [];
    var hitCutoff := false;
    var i := 0;
    while i < |msgs|
      invariant 0 <= i <= |msgs|
      invariant ScanOf(msgs[..i], cutoff) == Scanned(pageMsgs, hitCutoff)
    {
      var msg := msgs[i];
      assert msgs[..i + 1][..i] == msgs[..i];
      if msg.timestamp != "" {
        if msg.instant.None? {
          RaisedSticks(msgs, i + 1, cutoff);
          assert msgs[..|msgs|] == msgs;
          return PageRaised;
        }
        if msg.instant.value > cutoff {
          pageMsgs := pageMsgs + [msg];
        } else {
          hitCutoff := true;
        }
      }
      i := i + 1;
    }
    assert msgs[..i] == msgs;
    scan := Scanned(pageMsgs, hitCutoff);
  }

  /** Once a message raises, the rest of the page does not matter. */
  lemma {:induction false} RaisedSticks(msgs: seq<RawMessage>, i: nat, cutoff: int)
    requires i <= |msgs| && ScanOf(msgs[..i], cutoff).PageRaised?
    ensures ScanOf(msgs, cutoff).PageRaised?
    decreases |msgs| - i
  {
    if i < |msgs| {
      assert msgs[..i + 1][..i] == msgs[..i];
      RaisedSticks(msgs, i + 1, cutoff);
    } else {
      assert msgs[..i] == msgs;
    }
  }

  // ---------------------------------------------------------------
  // Pagination
  // ---------------------------------------------------------------

  /** The messages kept and the `before` cursors sent (`""` for none), request by request. */
  datatype Paged = Paged(kept: seq<RawMessage>, cursors: seq<string>)

  /** The `while True` loop of `_fetch_messages`, from the k-th request on. */
  function Paginate(history: seq<PageResponse>, cutoff: int, k: nat, cursor: string): (r: Paged)
    ensures |r.cursors| >= 1 && r.cursors[0] == cursor
    decreases |history| - k
  {
    match ResponseAt(history, k)
    case Raised => Paged([], [cursor])
    case Page(status, msgs) =>
      if status != 200 || msgs == [] then Paged([], [cursor])
      else
        match ScanOf(msgs, cutoff)
        case PageRaised => Paged([], [cursor])
        case Scanned(kept, hit) =>
          if hit then Paged(kept, [cursor])
          else
            var rest := Paginate(history, cutoff, k + 1, msgs[|msgs| - 1].id);
            Paged(kept + rest.kept, [cursor] + rest.cursors)
  }

  /** The k-th page is a full 200 page that did not reach the cutoff, so another is requested. */
  predicate Continues(history: seq<PageResponse>, cutoff: int, k: nat)
  {
    PageContinues(ResponseAt(history, k), cutoff)
  }

  /** A full 200 page whose timestamps all parse and are all after the cutoff. */
  predicate PageContinues(resp: PageResponse, cutoff: int)
  {
    && resp.Page?
    && resp.status == 200
    && resp.messages != []
    && ScanOf(resp.messages, cutoff).Scanned?
    && !ScanOf(resp.messages, cutoff).hitCutoff
  }

  /** The messages the k-th page contributes (none unless it is a 200 page that parsed). */
  function PageKept(history: seq<PageResponse>, cutoff: int, k: nat): seq<RawMessage>
  {
    match ResponseAt(history, k)
    case Raised => []
    case Page(status, msgs) =>
      if status == 200 && ScanOf(msgs, cutoff).Scanned? then ScanOf(msgs, cutoff).kept else []
  }

  /** The id of the last message of the k-th page: the next `before` cursor. */
  function LastId(history: seq<PageResponse>, k: nat): string
  {
    match ResponseAt(history, k)
    case Raised => ""
    case Page(_, msgs) => if msgs == [] then "" else msgs[|msgs| - 1].id
  }

  /** The contributions of pages `j` to `k - 1`, in page order. */
  function KeptRange(history: seq<PageResponse>, cutoff: int, j: nat, k: nat): seq<RawMessage>
    decreases k - j
  {
    if j >= k then [] else PageKept(history, cutoff, j) + KeptRange(history, cutoff, j + 1, k)
  }

  /** A page that continues: its messages, then the next request with its last id as cursor. */
  lemma PaginateStep(history: seq<PageResponse>, cutoff: int, k: nat, cursor: string)
    requires Continues(history, cutoff, k)
    ensures var rest := Paginate(history, cutoff, k + 1, LastId(history, k));
      Paginate(history, cutoff, k, cursor)
        == Paged(PageKept(history, cutoff, k) + rest.kept, [cursor] + rest.cursors)
  {
  }

  /** A page that does not continue is the last request. */
  lemma PaginateStop(history: seq<PageResponse>, cutoff: int, k: nat, cursor: string)
    requires !Continues(history, cutoff, k)
    ensures Paginate(history, cutoff, k, cursor) == Paged(PageKept(history, cutoff, k), [cursor])
  {
  }

  /**
    Pagination stops at the first page that does not continue: if pages
    `j .. k-1` continue and page `k` does not, exactly `k - j + 1` requests
    are made, each after the first carries the last id of the page before
    as its cursor, and the messages are those of pages `j .. k`, in page
    order.  In particular a page that raises (transport error or an
    unparsable timestamp) loses only its own messages.
  */
  lemma PaginateStops(history: seq<PageResponse>, cutoff: int, j: nat, k: nat, cursor: string)
    requires j <= k
    requires forall i :: j <= i < k ==> Continues(history, cutoff, i)
    requires !Continues(history, cutoff, k)
    ensures |Paginate(history, cutoff, j, cursor).cursors| == k - j + 1
    ensures forall i :: 1 <= i <= k - j ==> Paginate(history, cutoff, j, cursor).cursors[i] == LastId(history, j + i - 1)
    ensures Paginate(history, cutoff, j, cursor).kept == KeptRange(history, cutoff, j, k + 1)
  {
    PaginateCursors(history, cutoff, j, k, cursor);
    PaginateKept(history, cutoff, j, k, cursor);
  }

  /** The requests and their cursors, for `PaginateStops`. */
  lemma {:induction false} PaginateCursors(history: seq<PageResponse>, cutoff: int, j: nat, k: nat, cursor: string)
    requires j <= k
    requires forall i :: j <= i < k ==> Continues(history, cutoff, i)
    requires !Continues(history, cutoff, k)
    ensures |Paginate(history, cutoff, j, cursor).cursors| == k - j + 1
    ensures forall i :: 1 <= i <= k - j ==> Paginate(history, cutoff, j, cursor).cursors[i] == LastId(history, j + i - 1)
    decreases k - j
  {
    if j == k {
      assert Paginate(history, cutoff, j, cursor).cursors == [cursor] by {
        PaginateStop(history, cutoff, j, cursor);
      }
    } else {
      var next := LastId(history, j);
      var rest := Paginate(history, cutoff, j + 1, next);
      assert && |rest.cursors| == k - (j + 1) + 1
             && forall i :: 1 <= i <= k - (j + 1) ==> rest.cursors[i] == LastId(history, j + 1 + i - 1)
      by {
        PaginateCursors(history, cutoff, j + 1, k, next);
      }
      CursorsNext(history, cutoff, j, k, cursor);
    }
  }

  lemma CursorsNext(history: seq<PageResponse>, cutoff: int, j: nat, k: nat, cursor: string)
    requires j < k && Continues(history, cutoff, j)
    requires var rest := Paginate(history, cutoff, j + 1, LastId(history, j));
      && |rest.cursors| == k - (j + 1) + 1
      && forall i :: 1 <= i <= k - (j + 1) ==> rest.cursors[i] == LastId(history, j + 1 + i - 1)
    ensures |Paginate(history, cutoff, j, cursor).cursors| == k - j + 1
    ensures forall i :: 1 <= i <= k - j ==> Paginate(history, cutoff, j, cursor).cursors[i] == LastId(history, j + i - 1)
  {
    var r := Paginate(history, cutoff, j, cursor);
    var rest := Paginate(history, cutoff, j + 1, LastId(history, j));
    assert r.cursors == [cursor] + rest.cursors by {
      PaginateStep(history, cutoff, j, cursor);
    }
    forall i | 1 <= i <= k - j
      ensures r.cursors[i] == LastId(history, j + i - 1)
    {
      assert r.cursors[i] == rest.cursors[i - 1];
    }
  }

  /** The messages kept, for `PaginateStops`. */
  lemma {:induction false} PaginateKept(history: seq<PageResponse>, cutoff: int, j: nat, k: nat, cursor: string)
    requires j <= k
    requires forall i :: j <= i < k ==> Continues(history, cutoff, i)
    requires !Continues(history, cutoff, k)
    ensures Paginate(history, cutoff, j, cursor).kept == KeptRange(history, cutoff, j, k + 1)
    decreases k - j
  {
    if j == k {
      KeptLast(history, cutoff, j, cursor);
    } else {
      var next := LastId(history, j);
      assert Paginate(history, cutoff, j + 1, next).kept == KeptRange(history, cutoff, j + 1, k + 1) by {
        PaginateKept(history, cutoff, j + 1, k, next);
      }
      KeptNext(history, cutoff, j, k, cursor);
    }
  }

  lemma KeptLast(history: seq<PageResponse>, cutoff: int, j: nat, cursor: string)
    requires !Continues(history, cutoff, j)
    ensures Paginate(history, cutoff, j, cursor).kept == KeptRange(history, cutoff, j, j + 1)
  {
    calc {
      Paginate(history, cutoff, j, cursor).kept;
      { PaginateStop(history, cutoff, j, cursor); }
      PageKept(history, cutoff, j);
      { KeptRangeOne(history, cutoff, j); }
      KeptRange(history, cutoff, j, j + 1);
    }
  }

  lemma KeptNext(history: seq<PageResponse>, cutoff: int, j: nat, k: nat, cursor: string)
    requires j < k
    requires forall i :: j <= i < k ==> Continues(history, cutoff, i)
    requires Paginate(history, cutoff, j + 1, LastId(history, j)).kept == KeptRange(history, cutoff, j + 1, k + 1)
    ensures Paginate(history, cutoff, j, cursor).kept == KeptRange(history, cutoff, j, k + 1)
  {
    assert Continues(history, cutoff, j);
    calc {
      Paginate(history, cutoff, j, cursor).kept;
      { PaginateStep(history, cutoff, j, cursor); }
      PageKept(history, cutoff, j) + Paginate(history, cutoff, j + 1, LastId(history, j)).kept;
      PageKept(history, cutoff, j) + KeptRange(history, cutoff, j + 1, k + 1);
      { KeptRangeStep(history, cutoff, j, k + 1); }
      KeptRange(history, cutoff, j, k + 1);
    }
  }

  lemma KeptRangeOne(history: seq<PageResponse>, cutoff: int, j: nat)
    ensures KeptRange(history, cutoff, j, j + 1) == PageKept(history, cutoff, j)
  {
    assert KeptRange(history, cutoff, j + 1, j + 1) == [];
  }

  lemma KeptRangeStep(history: seq<PageResponse>, cutoff: int, j: nat, k: nat)
    requires j < k
    ensures KeptRange(history, cutoff, j, k) == PageKept(history, cutoff, j) + KeptRange(history, cutoff, j + 1, k)
  {
  }

  /** A page past the oracle's history is empty, so the loop always ends there at the latest. */
  lemma PastHistoryStops(history: seq<PageResponse>, cutoff: int)
    ensures !Continues(history, cutoff, |history|)
  {
  }

  /** Every message pagination keeps is strictly after the cutoff. */
  lemma {:induction false} PaginateInWindow(history: seq<PageResponse>, cutoff: int, k: nat, cursor: string)
    ensures forall m :: m in Paginate(history, cutoff, k, cursor).kept ==> InWindow(cutoff, m)
    decreases |history| - k
  {
    var resp := ResponseAt(history, k);
    if resp.Page? && resp.status == 200 && resp.messages != [] {
      var msgs := resp.messages;
      ScanOfMeaning(msgs, cutoff);
      if ScanOf(msgs, cutoff).Scanned? && !ScanOf(msgs, cutoff).hitCutoff {
        PaginateInWindow(history, cutoff, k + 1, msgs[|msgs| - 1].id);
      }
    }
  }

  /** The final list comprehension's test, `fromisoformat(m['timestamp']) > cutoff`. */
  predicate RecheckAfter(cutoff: int, m: RawMessage)
  {
    m.instant.Some? && m.instant.value > cutoff
  }

  function RecheckFilter(cutoff: int): RawMessage -> bool
  {
    (m: RawMessage) => RecheckAfter(cutoff, m)
  }

  /** The defensive final filter removes nothing (and cannot raise). */
  lemma RecheckKeepsAll(history: seq<PageResponse>, cutoff: int)
    ensures var kept := Paginate(history, cutoff, 0, "").kept;
      Filter(kept, RecheckFilter(cutoff)) == kept
  {
    PaginateInWindow(history, cutoff, 0, "");
    FilterAll(Paginate(history, cutoff, 0, "").kept, RecheckFilter(cutoff));
  }

  /** The messages `_fetch_messages` returns for a channel. */
  function ChannelMessages(hasToken: bool, history: seq<PageResponse>, cutoff: int): seq<RawMessage>
  {
    if hasToken then Paginate(history, cutoff, 0, "").kept else []
  }

  /**
    One turn of the `while True` loop of `_fetch_messages`: the k-th
    request, with `lastId` as its `before` cursor.  It returns the
    messages the page adds and, when the loop goes on, the next cursor.
  */
  method RequestPage(history: seq<PageResponse>, cutoff: int, k: nat, lastId: string)
    returns (kept: seq<RawMessage>, next: Option<string>)
    ensures next.Some? ==> k < |history|
    ensures next.None? ==> Paginate(history, cutoff, k, lastId) == Paged(kept, [lastId])
    ensures next.Some? ==>
      var rest := Paginate(history, cutoff, k + 1, next.value);
      Paginate(history, cutoff, k, lastId) == Paged(kept + rest.kept, [lastId] + rest.cursors)
  {
    var resp := ResponseAt(history, k);
    if resp.Raised? || resp.status != 200 || resp.messages == [] {
      PaginateStop(history, cutoff, k, lastId);
      return [], None;
    }
    var page := resp.messages;
    var scan := ScanPage(page, cutoff);
    if scan.PageRaised? {
      PaginateStop(history, cutoff, k, lastId);
      return [], None;
    }
    if scan.hitCutoff {
      PaginateStop(history, cutoff, k, lastId);
      return scan.kept, None;
    }
    PaginateStep(history, cutoff, k, lastId);
    return scan.kept, Some(page[|page| - 1].id);
  }

  /**
    `_fetch_messages`.  `k` counts the requests made so far (it selects the
    oracle's answer); `requests` records the `before` cursor of each
    request, `""` meaning none.
  */
  method FetchMessages(hasToken: bool, history: seq<PageResponse>, cutoff: int)
    returns (msgs: seq<RawMessage>, ghost requests: seq<string>)
    ensures msgs == ChannelMessages(hasToken, history, cutoff)
    ensures hasToken ==> requests == Paginate(history, cutoff, 0, "").cursors
    ensures !hasToken ==> msgs == [] && requests == []
    ensures forall m :: m in msgs ==> InWindow(cutoff, m)
  {
    if !hasToken {
      return [], [];
    }
    ghost var all := Paginate(history, cutoff, 0, "");
    var messagesList: seq<RawMessage> := [];
    var lastId := "";
    var k := 0;
    requests := [];
    while true
      invariant messagesList + Paginate(history, cutoff, k, lastId).kept == all.kept
      invariant requests + Paginate(history, cutoff, k, lastId).cursors == all.cursors
      decreases |history| - k
    {
      ghost var before := messagesList;
      ghost var sent := requests;
      requests := requests + [lastId];
      var kept, next := RequestPage(history, cutoff, k, lastId);
      messagesList := messagesList + kept;
      if next.None? {
        break;
      }
      ghost var rest := Paginate(history, cutoff, k + 1, next.value);
      assert messagesList + rest.kept == all.kept by {
        assert before + (kept + rest.kept) == messagesList + rest.kept;
      }
      assert requests + rest.cursors == all.cursors by {
        assert sent + ([lastId] + rest.cursors) == requests + rest.cursors;
      }
      lastId := next.value;
      k := k + 1;
    }
    assert messagesList == all.kept;
    assert requests == all.cursors;
    msgs := Filter(messagesList, RecheckFilter(cutoff));
    assert msgs == messagesList && forall m :: m in msgs ==> InWindow(cutoff, m) by {
      PaginateInWindow(history, cutoff, 0, "");
      RecheckKeepsAll(history, cutoff);
    }
  }

  // ---------------------------------------------------------------
  // Names
  // ---------------------------------------------------------------

  /** `info.get('name', f'Unknown-{cid}')` for what `_fetch_channel_info` returned. */
  function ChannelName(hasToken: bool, id: int, info: InfoResponse): (r: string)
    ensures !hasToken ==> r == "Unknown-" + IntToString(id)
    ensures hasToken && (info.InfoRaised? || info.status != 200) ==> r == "Error-" + IntToString(id)
    ensures hasToken && info.Info? && info.status == 200 ==>
      r == (if info.name.Some? then info.name.value else "Unknown-" + IntToString(id))
  {
    if !hasToken then "Unknown-" + IntToString(id)
    else match info
      case InfoRaised => "Error-" + IntToString(id)
      case Info(status, name) =>
        if status != 200 then "Error-" + IntToString(id)
        else if name.Some? then name.value
        else "Unknown-" + IntToString(id)
  }

  /** `global_name` if truthy, else `username`, else `'Unknown'`. */
  function AuthorName(a: Author): (r: string)
    ensures a.globalName != "" ==> r == a.globalName
    ensures a.globalName == "" && a.username.Some? ==> r == a.username.value
    ensures a.globalName == "" && a.username.None? ==> r == "Unknown"
  {
    if a.globalName != "" then a.globalName
    else if a.username.Some? then a.username.value
    else "Unknown"
  }

  // ---------------------------------------------------------------
  // Assembly and sort
  // ---------------------------------------------------------------

  /** One element of `all_messages_data`. */
  datatype Entry = Entry(channel: string, author: string, content: string, timestamp: string)

  function ToEntry(name: string, m: RawMessage): Entry
  {
    Entry(name, AuthorName(m.author), m.content, m.timestamp)
  }

  function ToEntries(name: string, msgs: seq<RawMessage>): (r: seq<Entry>)
    ensures |r| == |msgs|
    ensures forall i :: 0 <= i < |msgs| ==> r[i] == ToEntry(name, msgs[i])
  {
    if msgs == [] then [] else ToEntries(name, msgs[..|msgs| - 1]) + [ToEntry(name, msgs[|msgs| - 1])]
  }

  /** The entries of channels `ids`, channel after channel, each in fetch order. */
  function Merged(ids: seq<int>, hasToken: bool, cutoff: int, servers: int -> ChannelServer): seq<Entry>
  {
    if ids == [] then []
    else
      var id := ids[|ids| - 1];
      Merged(ids[..|ids| - 1], hasToken, cutoff, servers)
        + ToEntries(ChannelName(hasToken, id, servers(id).info),
                    ChannelMessages(hasToken, servers(id).history, cutoff))
  }

  /** A `channel_names` entry: the channel and its name. */
  function NameEntry(hasToken: bool, servers: int -> ChannelServer, id: int): (int, string)
  {
    (id, ChannelName(hasToken, id, servers(id).info))
  }

  /** The `channel_names` dict, in insertion order: entry i is channel i with its name. */
  function Names(ids: seq<int>, hasToken: bool, servers: int -> ChannelServer): (r: seq<(int, string)>)
    ensures |r| == |ids|
    ensures forall i :: 0 <= i < |ids| ==> r[i] == NameEntry(hasToken, servers, ids[i])
  {
    Map(ids, NameOf(hasToken, servers))
  }

  function NameOf(hasToken: bool, servers: int -> ChannelServer): int -> (int, string)
  {
    (id: int) => NameEntry(hasToken, servers, id)
  }

  /** The sort key order: `a` may precede `b` when `a.timestamp <= b.timestamp`. */
  predicate KeyLeq(a: Entry, b: Entry)
  {
    !LexLess(b.timestamp, a.timestamp)
  }

  predicate Sorted(s: seq<Entry>)
  {
    forall i, j :: 0 <= i < j < |s| ==> KeyLeq(s[i], s[j])
  }

  /** Insert `e` after every element whose key is not greater than its own. */
  function Insert(sorted: seq<Entry>, e: Entry): (r: seq<Entry>)
    ensures multiset(r) == multiset(sorted) + multiset{e}
  {
    if sorted == [] || KeyLeq(sorted[|sorted| - 1], e) then sorted + [e]
    else
      var init := sorted[..|sorted| - 1];
      assert sorted == init + [sorted[|sorted| - 1]];
      Insert(init, e) + [sorted[|sorted| - 1]]
  }

  /** Python's stable `list.sort(key=timestamp)`, as an insertion sort. */
  function SortByTimestamp(s: seq<Entry>): (r: seq<Entry>)
    ensures multiset(r) == multiset(s)
  {
    if s == [] then []
    else
      assert s == s[..|s| - 1] + [s[|s| - 1]];
      Insert(SortByTimestamp(s[..|s| - 1]), s[|s| - 1])
  }

  lemma KeyLeqTransitive(a: Entry, b: Entry, c: Entry)
    requires KeyLeq(a, b) && KeyLeq(b, c)
    ensures KeyLeq(a, c)
  {
    LexLessTotal(a.timestamp, b.timestamp);
    if LexLess(c.timestamp, a.timestamp) {
      if LexLess(a.timestamp, b.timestamp) {
        LexLessTransitive(c.timestamp, a.timestamp, b.timestamp);
      }
    }
  }

  lemma {:induction false} InsertSorted(sorted: seq<Entry>, e: Entry)
    requires Sorted(sorted)
    ensures Sorted(Insert(sorted, e))
    decreases |sorted|
  {
    if sorted != [] {
      var last := sorted[|sorted| - 1];
      var init := sorted[..|sorted| - 1];
      if KeyLeq(last, e) {
        forall i | 0 <= i < |sorted|
          ensures KeyLeq(sorted[i], e)
        {
          if i < |sorted| - 1 {
            KeyLeqTransitive(sorted[i], last, e);
          }
        }
      } else {
        InsertSorted(init, e);
        var r := Insert(init, e);
        LexLessTotal(e.timestamp, last.timestamp);
        if LexLess(last.timestamp, e.timestamp) {
          LexLessTransitive(e.timestamp, last.timestamp, e.timestamp);
          LexLessIrreflexive(e.timestamp);
        }
        forall i | 0 <= i < |r|
          ensures KeyLeq(r[i], last)
        {
          assert r[i] in multiset(r);
          if r[i] != e {
            assert r[i] in multiset(init);
            var j :| 0 <= j < |init| && init[j] == r[i];
            assert sorted[j] == init[j];
          }
        }
      }
    }
  }

  /** The sort orders the entries by timestamp. */
  lemma {:induction false} SortSorted(s: seq<Entry>)
    ensures Sorted(SortByTimestamp(s))
    decreases |s|
  {
    if s != [] {
      SortSorted(s[..|s| - 1]);
      InsertSorted(SortByTimestamp(s[..|s| - 1]), s[|s| - 1]);
    }
  }

  function HasKey(key: string): Entry -> bool
  {
    (e: Entry) => e.timestamp == key
  }

  lemma {:induction false} InsertStable(sorted: seq<Entry>, e: Entry, key: string)
    ensures Filter(Insert(sorted, e), HasKey(key)) == Filter(sorted, HasKey(key)) + Filter([e], HasKey(key))
    decreases |sorted|
  {
    if sorted == [] || KeyLeq(sorted[|sorted| - 1], e) {
      InsertAtEnd(sorted, e, key);
    } else {
      var last := sorted[|sorted| - 1];
      var init := sorted[..|sorted| - 1];
      InsertStable(init, e, key);
      SplitLast(sorted);
      InsertBefore(init, last, e, key);
    }
  }

  /** The step of `InsertStable` where `e` goes last. */
  lemma InsertAtEnd(sorted: seq<Entry>, e: Entry, key: string)
    requires sorted == [] || KeyLeq(sorted[|sorted| - 1], e)
    ensures Filter(Insert(sorted, e), HasKey(key)) == Filter(sorted, HasKey(key)) + Filter([e], HasKey(key))
  {
    assert Insert(sorted, e) == sorted + [e];
    FilterAppend(sorted, [e], HasKey(key));
  }

  /** The step of `InsertStable` where `e` goes before the last element. */
  lemma InsertBefore(init: seq<Entry>, last: Entry, e: Entry, key: string)
    requires LexLess(e.timestamp, last.timestamp)
    requires Filter(Insert(init, e), HasKey(key)) == Filter(init, HasKey(key)) + Filter([e], HasKey(key))
    ensures Filter(Insert(init + [last], e), HasKey(key)) == Filter(init + [last], HasKey(key)) + Filter([e], HasKey(key))
  {
    var sorted := init + [last];
    var p := HasKey(key);
    assert Insert(sorted, e) == Insert(init, e) + [last] by {
      assert sorted[..|sorted| - 1] == init;
    }
    assert Filter([e], p) == [] || Filter([last], p) == [] by {
      FilterSingle(e, p);
      FilterSingle(last, p);
      LexLessIrreflexive(e.timestamp);
    }
    calc {
      Filter(Insert(sorted, e), p);
      Filter(Insert(init, e) + [last], p);
      { FilterAppend(Insert(init, e), [last], p); }
      Filter(Insert(init, e), p) + Filter([last], p);
      Filter(init, p) + Filter([e], p) + Filter([last], p);
      { SwapEmpty(Filter(init, p), Filter([e], p), Filter([last], p)); }
      Filter(init, p) + Filter([last], p) + Filter([e], p);
      { FilterAppend(init, [last], p); }
      Filter(sorted, p) + Filter([e], p);
    }
  }

  lemma SwapEmpty<T>(a: seq<T>, b: seq<T>, c: seq<T>)
    requires b == [] || c == []
    ensures a + b + c == a + c + b
  {
  }

  /** The sort is stable: entries with equal timestamps keep their relative order. */
  lemma {:induction false} SortStable(s: seq<Entry>, key: string)
    ensures Filter(SortByTimestamp(s), HasKey(key)) == Filter(s, HasKey(key))
    decreases |s|
  {
    if s != [] {
      var init := s[..|s| - 1];
      var last := s[|s| - 1];
      var p := HasKey(key);
      SortStable(init, key);
      InsertStable(SortByTimestamp(init), last, key);
      FilterAppend(init, [last], p);
      calc {
        Filter(SortByTimestamp(s), p);
        Filter(Insert(SortByTimestamp(init), last), p);
        Filter(SortByTimestamp(init), p) + Filter([last], p);
        Filter(init, p) + Filter([last], p);
        Filter(init + [last], p);
        { SplitLast(s); }
        Filter(s, p);
      }
    }
  }

  /** The result of `fetch_and_process_channel_data`. */
  method FetchAndProcess(channelIds: seq<int>, hasToken: bool, cutoff: int, servers: int -> ChannelServer)
    returns (messages: seq<Entry>, channelNames: seq<(int, string)>, total: nat)
    ensures channelNames == Names(Distinct(channelIds), hasToken, servers)
    ensures messages == SortByTimestamp(Merged(Distinct(channelIds), hasToken, cutoff, servers))
    ensures Sorted(messages)
    ensures multiset(messages) == multiset(Merged(Distinct(channelIds), hasToken, cutoff, servers))
    ensures total == |messages|
  {
    var ids := Distinct(channelIds);
    var all: seq<Entry> := [];
    channelNames := [];
    total := 0;
    var c := 0;
    while c < |ids|
      invariant 0 <= c <= |ids|
      invariant all == Merged(ids[..c], hasToken, cutoff, servers)
      invariant channelNames == Names(ids[..c], hasToken, servers)
      invariant total == |all|
    {
      var cid := ids[c];
      var name, msgs := FetchChannel(cid, hasToken, cutoff, servers);
      channelNames := channelNames + [(cid, name)];
      total := total + |msgs|;
      all := AppendEntries(all, name, msgs);
      MergedSnoc(ids, c, hasToken, cutoff, servers);
      c := c + 1;
    }
    assert ids[..c] == ids;
    messages := SortByTimestamp(all);
    assert Sorted(messages) && |messages| == |all| by {
      SortSorted(all);
      assert |multiset(messages)| == |multiset(all)|;
    }
  }

  /** The name and the messages of one channel: `_fetch_channel_info` then `_fetch_messages`. */
  method FetchChannel(cid: int, hasToken: bool, cutoff: int, servers: int -> ChannelServer)
    returns (name: string, msgs: seq<RawMessage>)
    ensures (cid, name) == NameEntry(hasToken, servers, cid)
    ensures msgs == ChannelMessages(hasToken, servers(cid).history, cutoff)
  {
    name := ChannelName(hasToken, cid, servers(cid).info);
    ghost var requests;
    msgs, requests := FetchMessages(hasToken, servers(cid).history, cutoff);
  }

  lemma MergedSnoc(ids: seq<int>, c: nat, hasToken: bool, cutoff: int, servers: int -> ChannelServer)
    requires c < |ids|
    ensures Merged(ids[..c + 1], hasToken, cutoff, servers)
         == Merged(ids[..c], hasToken, cutoff, servers)
          + ToEntries(ChannelName(hasToken, ids[c], servers(ids[c]).info),
                      ChannelMessages(hasToken, servers(ids[c]).history, cutoff))
    ensures Names(ids[..c + 1], hasToken, servers) == Names(ids[..c], hasToken, servers) + [NameEntry(hasToken, servers, ids[c])]
  {
    var front := ids[..c + 1];
    assert front[..|front| - 1] == ids[..c];
    assert front[|front| - 1] == ids[c];
    assert front == ids[..c] + [ids[c]];
    MapAppend(ids[..c], [ids[c]], NameOf(hasToken, servers));
  }

  /** `for m in msgs: all_messages_data.append({...})` */
  method AppendEntries(all: seq<Entry>, name: string, msgs: seq<RawMessage>) returns (all': seq<Entry>)
    ensures all' == all + ToEntries(name, msgs)
  {
    all' := all;
    var j := 0;
    while j < |msgs|
      invariant 0 <= j <= |msgs|
      invariant all' == all + ToEntries(name, msgs[..j])
    {
      assert msgs[..j + 1][..j] == msgs[..j];
      all' := all' + [ToEntry(name, msgs[j])];
      j := j + 1;
    }
    assert msgs[..j] == msgs;
  }

  /** Without a user token nothing is requested: every channel is `Unknown-<id>` and no message is found. */
  lemma {:induction false} NoTokenNothingFound(ids: seq<int>, cutoff: int, servers: int -> ChannelServer)
    ensures Merged(ids, false, cutoff, servers) == []
    ensures forall i :: 0 <= i < |ids| ==> Names(ids, false, servers)[i] == (ids[i], "Unknown-" + IntToString(ids[i]))
    decreases |ids|
  {
    if ids != [] {
      NoTokenNothingFound(ids[..|ids| - 1], cutoff, servers);
    }
  }

  /** Every merged entry has a non-empty timestamp, so the sort never compares a missing one. */
  lemma {:induction false} MergedHasTimestamps(ids: seq<int>, hasToken: bool, cutoff: int, servers: int -> ChannelServer)
    ensures forall e :: e in Merged(ids, hasToken, cutoff, servers) ==> e.timestamp != ""
    decreases |ids|
  {
    if ids != [] {
      var id := ids[|ids| - 1];
      MergedHasTimestamps(ids[..|ids| - 1], hasToken, cutoff, servers);
      if hasToken {
        PaginateInWindow(servers(id).history, cutoff, 0, "");
      }
      var name := ChannelName(hasToken, id, servers(id).info);
      var msgs := ChannelMessages(hasToken, servers(id).history, cutoff);
      forall e | e in ToEntries(name, msgs)
        ensures e.timestamp != ""
      {
        var i :| 0 <= i < |msgs| && ToEntries(name, msgs)[i] == e;
        assert msgs[i] in msgs;
      }
    }
  }
}
