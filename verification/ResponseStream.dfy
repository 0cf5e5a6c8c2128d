/**
  Reading a streamed Responses answer: server-sent lines are grouped into frames, frames decode to events, and
  the first decisive event ends the stream. The Codex route and the OpenAI route differ in three points only.
*/
module ResponseStream {
  import opened Text
  import opened Wrappers

  /** A JSON value kept as text. */
  type Json = string

  datatype Usage = Usage(input: Option<int>, output: Option<int>)

  datatype Response = Response(output: seq<Json>, model: string, usage: Usage)

  /** A decoded frame. An item that is JSON null is None; `index` is present when it is a non-negative integer. */
  datatype Frame =
    | TextDelta(delta: string)
    | ItemDone(present: bool, item: Option<Json>, index: Option<nat>)
    | ResponseCompleted(response: Option<Response>)
    | StreamError
    | OtherFrame

  type Decoder = string -> Option<Frame>

  datatype Event = Delta(text: string) | Completed(response: Response) | Failed

  datatype Dialect = Codex | OpenAi

  const MAX_INDEX: nat := 1024

  // ------------------------------------------------ frames of lines

  /** The payload of a data line; other fields and comments carry none. */
  function DataOf(line: string): seq<string> {
    if "data:" <= line then [Trim(line[5..])] else []
  }

  function Join(lines: seq<string>): string {
    if lines == [] then "" else if |lines| == 1 then lines[0] else lines[0] + "\n" + Join(lines[1..])
  }

  /** The payloads of the frames of a text, when `open` data lines were already read. */
  function Frames(lines: seq<string>, open: seq<string>): seq<string> {
    var ended := if open == [] then [] else [Join(open)];
    if lines == [] then ended
    else if lines[0] == "" then ended + Frames(lines[1..], [])
    else Frames(lines[1..], open + DataOf(lines[0]))
  }

  // ------------------------------------------------ what a sequence of frames means

  /** Output items by index; the last one received for an index counts. */
  type Items = map<nat, Option<Json>>

  /** The received items in increasing index order, nulls left out. */
  function Compact(items: Items, below: nat): seq<Json> {
    if below == 0 then [] else
    var before := Compact(items, below - 1);
    if below - 1 in items && items[below - 1].Some? then before + [items[below - 1].value] else before
  }

  /** The answer with its output filled in from the items when it came without. */
  function Rebuilt(dialect: Dialect, response: Response, items: Items): Response {
    if dialect.Codex? && response.output == [] then response.(output := Compact(items, MAX_INDEX + 1)) else response
  }

  datatype Reading = Skip | Piece(text: string) | Item(index: nat, item: Option<Json>) | Done(response: Response) | Bad

  function Read(dialect: Dialect, decode: Decoder, data: string): (r: Reading)
    ensures r.Item? ==> r.index <= MAX_INDEX
  {
    if data == "[DONE]" then Skip else
    match decode(data)
    case None => Bad
    case Some(TextDelta(delta)) => if dialect.Codex? && delta == "" then Skip else Piece(delta)
    case Some(ItemDone(present, item, index)) =>
      if dialect.OpenAi? then Skip
      else if !present || index.None? || index.value > MAX_INDEX then Bad
      else Item(index.value, item)
    case Some(ResponseCompleted(response)) => if response.Some? then Done(response.value) else Bad
    case Some(StreamError) => Bad
    case Some(OtherFrame) => Skip
  }

  /** A data line contributes what stands behind its name, without white space around it; other lines do not. */
  lemma DataExactly(line: string)
    ensures |line| >= 5 && line[..5] == "data:" ==> DataOf(line) == [Trim(line[5..])]
    ensures |line| < 5 || line[..5] != "data:" ==> DataOf(line) == []
  {
    hide Trim;
    assert "data:" == ['d', 'a', 't', 'a', ':'];
  }

  /** The data of a frame is joined by line ends. */
  lemma {:induction false} JoinExactly(lines: seq<string>, last: string)
    ensures Join([last]) == last
    ensures lines != [] ==> Join(lines + [last]) == Join(lines) + "\n" + last
  {
    if |lines| > 1 {
      assert (lines + [last])[1..] == lines[1..] + [last];
      JoinExactly(lines[1..], last);
    } else if |lines| == 1 {
      assert (lines + [last])[1..] == [last];
    }
  }

  /** A line adds its data to the open frame; an empty line, or the end, closes a frame that has data. */
  lemma FramesExactly(lines: seq<string>, open: seq<string>, line: string)
    ensures Frames([], open) == if open == [] then [] else [Join(open)]
    ensures Frames([""] + lines, open) == (if open == [] then [] else [Join(open)]) + Frames(lines, [])
    ensures line != "" ==> Frames([line] + lines, open) == Frames(lines, open + DataOf(line))
  {
    hide Join, DataOf;
    assert ([""] + lines)[1..] == lines && ([line] + lines)[1..] == lines;
  }

  /** What a frame is taken for, by dialect. */
  lemma ReadExactly(dialect: Dialect, decode: Decoder, data: string)
    ensures data == "[DONE]" ==> Read(dialect, decode, data) == Skip
    ensures data != "[DONE]" && (decode(data).None? || decode(data).value.StreamError?) ==>
              Read(dialect, decode, data) == Bad
    ensures data != "[DONE]" && decode(data).Some? && !decode(data).value.StreamError? ==>
              match decode(data).value
              case TextDelta(delta) =>
                Read(dialect, decode, data) == if dialect == Codex && |delta| == 0 then Skip else Piece(delta)
              case ItemDone(present, item, index) =>
                Read(dialect, decode, data)
                == if dialect == OpenAi then Skip
                   else if present && index.Some? && index.value <= 1024 then Item(index.value, item) else Bad
              case ResponseCompleted(response) =>
                Read(dialect, decode, data) == if response.Some? then Done(response.value) else Bad
              case OtherFrame => Read(dialect, decode, data) == Skip
  {
  }

  /** All events of a stream whose caller takes every one. */
  function Meaning(dialect: Dialect, decode: Decoder, frames: seq<string>, items: Items): seq<Event> {
    if frames == [] then [Failed] else
    match Read(dialect, decode, frames[0])
    case Skip => Meaning(dialect, decode, frames[1..], items)
    case Piece(text) => [Delta(text)] + Meaning(dialect, decode, frames[1..], items)
    case Item(index, item) => Meaning(dialect, decode, frames[1..], items[index := item])
    case Done(response) => [Completed(Rebuilt(dialect, response, items))]
    case Bad => [Failed]
  }

  /** Text deltas and then exactly one terminal event. */
  lemma {:induction false} OneTerminal(dialect: Dialect, decode: Decoder, frames: seq<string>, items: Items)
    ensures var events := Meaning(dialect, decode, frames, items);
            && events != [] && !events[|events| - 1].Delta?
            && forall i :: 0 <= i < |events| - 1 ==> events[i].Delta?
  {
    if frames != [] {
      match Read(dialect, decode, frames[0])
      case Skip => OneTerminal(dialect, decode, frames[1..], items);
      case Piece(_) => OneTerminal(dialect, decode, frames[1..], items);
      case Item(index, item) => OneTerminal(dialect, decode, frames[1..], items[index := item]);
      case Done(_) =>
      case Bad =>
    }
  }

  // ------------------------------------------------ the rebuilt output of a whole stream

  /** A frame that neither ends the stream nor ruins it. */
  predicate Quiet(dialect: Dialect, decode: Decoder, data: string) {
    var r := Read(dialect, decode, data);
    r.Skip? || r.Piece? || r.Item?
  }

  ghost predicate AllQuiet(dialect: Dialect, decode: Decoder, frames: seq<string>) {
    forall i :: 0 <= i < |frames| ==> Quiet(dialect, decode, frames[i])
  }

  /** The text deltas among some frames. */
  function Pieces(dialect: Dialect, decode: Decoder, frames: seq<string>): seq<Event> {
    if frames == [] then []
    else
      (match Read(dialect, decode, frames[0])
       case Piece(text) => [Delta(text)]
       case _ => [])
      + Pieces(dialect, decode, frames[1..])
  }

  /** The items after some frames. */
  function ItemsAfter(dialect: Dialect, decode: Decoder, frames: seq<string>, items: Items): Items {
    if frames == [] then items
    else
      match Read(dialect, decode, frames[0])
      case Item(index, item) => ItemsAfter(dialect, decode, frames[1..], items[index := item])
      case _ => ItemsAfter(dialect, decode, frames[1..], items)
  }

  /** The last item some frames carry for an index. */
  function LastItem(dialect: Dialect, decode: Decoder, frames: seq<string>, k: nat): Option<Option<Json>> {
    if frames == [] then None
    else
      match Read(dialect, decode, frames[|frames| - 1])
      case Item(index, item) => if index == k then Some(item) else LastItem(dialect, decode, frames[..|frames| - 1], k)
      case _ => LastItem(dialect, decode, frames[..|frames| - 1], k)
  }

  function Find(items: Items, k: nat): Option<Option<Json>> {
    if k in items then Some(items[k]) else None
  }

  lemma {:induction false} ItemsAppend(dialect: Dialect, decode: Decoder, frames: seq<string>, last: string,
                                       items: Items)
    ensures ItemsAfter(dialect, decode, frames + [last], items)
         == ItemsAfter(dialect, decode, [last], ItemsAfter(dialect, decode, frames, items))
    decreases |frames|
  {
    var all := frames + [last];
    if frames == [] {
      assert all == [last];
    } else {
      assert all[0] == frames[0] && all[1..] == frames[1..] + [last];
      var next := match Read(dialect, decode, frames[0])
                  case Item(index, item) => items[index := item]
                  case _ => items;
      hide Read;
      ItemsAppend(dialect, decode, frames[1..], last, next);
    }
  }

  /** The last write for an index wins, wherever in the stream it is. */
  lemma {:induction false} LastWrite(dialect: Dialect, decode: Decoder, frames: seq<string>, k: nat)
    ensures Find(ItemsAfter(dialect, decode, frames, map[]), k) == LastItem(dialect, decode, frames, k)
    decreases |frames|
  {
    if frames != [] {
      var init, last := frames[..|frames| - 1], frames[|frames| - 1];
      LastWrite(dialect, decode, init, k);
      ItemsAppend(dialect, decode, init, last, map[]);
      assert frames == init + [last];
      hide Read;
      assert [last][1..] == [];
    }
  }

  /** What frames that neither end nor ruin the stream add to it. */
  lemma {:induction false} QuietFrames(dialect: Dialect, decode: Decoder, frames: seq<string>, rest: seq<string>,
                                       items: Items)
    requires AllQuiet(dialect, decode, frames)
    ensures Meaning(dialect, decode, frames + rest, items)
         == Pieces(dialect, decode, frames) + Meaning(dialect, decode, rest, ItemsAfter(dialect, decode, frames, items))
    decreases |frames|
  {
    var all := frames + rest;
    if frames == [] {
      assert all == rest;
    } else {
      assert all[0] == frames[0] && all[1..] == frames[1..] + rest;
      assert Quiet(dialect, decode, frames[0]);
      var next := match Read(dialect, decode, frames[0])
                  case Item(index, item) => items[index := item]
                  case _ => items;
      hide Read;
      QuietFrames(dialect, decode, frames[1..], rest, next);
    }
  }

  /** A stream of quiet frames before a completed response: its deltas, then the response rebuilt from all its items. */
  lemma CompletedOutput(dialect: Dialect, decode: Decoder, frames: seq<string>, last: string, rest: seq<string>)
    requires AllQuiet(dialect, decode, frames) && Read(dialect, decode, last).Done?
    ensures Meaning(dialect, decode, frames + ([last] + rest), map[])
         == Pieces(dialect, decode, frames)
            + [Completed(Rebuilt(dialect, Read(dialect, decode, last).response,
                                 ItemsAfter(dialect, decode, frames, map[])))]
  {
    hide Read, Rebuilt;
    QuietFrames(dialect, decode, frames, [last] + rest, map[]);
    assert ([last] + rest)[0] == last;
  }

  /** An error frame, or one that cannot be read, ends the stream in a failure, after all deltas before it. */
  lemma ErrorEndsStream(dialect: Dialect, decode: Decoder, frames: seq<string>, last: string, rest: seq<string>)
    requires AllQuiet(dialect, decode, frames) && last != "[DONE]"
    requires decode(last).None? || decode(last).value.StreamError? || decode(last).value == ResponseCompleted(None)
    ensures Meaning(dialect, decode, frames + ([last] + rest), map[]) == Pieces(dialect, decode, frames) + [Failed]
  {
    ReadExactly(dialect, decode, last);
    hide Read;
    QuietFrames(dialect, decode, frames, [last] + rest, map[]);
    assert ([last] + rest)[0] == last;
  }

  /** A stream that stops without a completion has failed. */
  lemma EndWithoutCompletionFails(dialect: Dialect, decode: Decoder, frames: seq<string>)
    requires AllQuiet(dialect, decode, frames)
    ensures Meaning(dialect, decode, frames, map[]) == Pieces(dialect, decode, frames) + [Failed]
  {
    hide Read;
    QuietFrames(dialect, decode, frames, [], map[]);
    assert frames + [] == frames;
  }

  /** The response is rebuilt only by the Codex reader, and only when it came without output. */
  lemma RebuiltExactly(dialect: Dialect, response: Response, items: Items)
    ensures dialect == OpenAi || response.output != [] ==> Rebuilt(dialect, response, items) == response
    ensures Rebuilt(dialect, response, items).model == response.model
    ensures Rebuilt(dialect, response, items).usage == response.usage
    ensures dialect == Codex && response.output == [] ==>
              Rebuilt(dialect, response, items).output == Compact(items, 1025)
  {
    hide Compact;
  }

  /** The frames carry the same last item for every index. */
  ghost predicate SameLastItems(dialect: Dialect, decode: Decoder, left: seq<string>, right: seq<string>) {
    forall k :: LastItem(dialect, decode, left, k) == LastItem(dialect, decode, right, k)
  }

  lemma SameItems(dialect: Dialect, decode: Decoder, left: seq<string>, right: seq<string>)
    requires SameLastItems(dialect, decode, left, right)
    ensures ItemsAfter(dialect, decode, left, map[]) == ItemsAfter(dialect, decode, right, map[])
  {
    hide LastItem, ItemsAfter;
    var a, b := ItemsAfter(dialect, decode, left, map[]), ItemsAfter(dialect, decode, right, map[]);
    forall k: nat
      ensures Find(a, k) == Find(b, k)
    {
      LastWrite(dialect, decode, left, k);
      LastWrite(dialect, decode, right, k);
    }
    assert forall k :: k in a <==> Find(a, k).Some?;
    assert forall k :: k in b <==> Find(b, k).Some?;
  }

  /**
    Arrival order does not matter. Two streams with the same completed response and the same last item for every index,
    however their items and deltas are ordered and repeated, end in the same event.
  */
  lemma ArrivalOrderIrrelevant(dialect: Dialect, decode: Decoder, left: seq<string>, right: seq<string>, last: string,
                               leftRest: seq<string>, rightRest: seq<string>)
    requires AllQuiet(dialect, decode, left) && AllQuiet(dialect, decode, right) && Read(dialect, decode, last).Done?
    requires SameLastItems(dialect, decode, left, right)
    ensures var a := Meaning(dialect, decode, left + ([last] + leftRest), map[]);
            var b := Meaning(dialect, decode, right + ([last] + rightRest), map[]);
            a != [] && b != [] && a[|a| - 1] == b[|b| - 1] && a[|a| - 1].Completed?
  {
    hide Read, Meaning, Rebuilt, LastItem, ItemsAfter, Quiet;
    CompletedOutput(dialect, decode, left, last, leftRest);
    CompletedOutput(dialect, decode, right, last, rightRest);
    SameItems(dialect, decode, left, right);
  }

  /** Two items of different indices may be swapped anywhere in a stream. */
  lemma {:induction false} SwapAnywhere(decode: Decoder, prefix: seq<string>, first: string, second: string,
                                        rest: seq<string>,
                                        items: Items)
    requires Read(Codex, decode, first).Item? && Read(Codex, decode, second).Item?
    requires Read(Codex, decode, first).index != Read(Codex, decode, second).index
    ensures Meaning(Codex, decode, prefix + ([first, second] + rest), items)
         == Meaning(Codex, decode, prefix + ([second, first] + rest), items)
    decreases |prefix|
  {
    var left, right := prefix + ([first, second] + rest), prefix + ([second, first] + rest);
    if prefix == [] {
      var a, b := Read(Codex, decode, first), Read(Codex, decode, second);
      assert left == [first, second] + rest && right == [second, first] + rest;
      TwoItems(decode, first, second, rest, items);
      TwoItems(decode, second, first, rest, items);
      assert items[a.index := a.item][b.index := b.item] == items[b.index := b.item][a.index := a.item];
    } else {
      assert left[0] == prefix[0] == right[0];
      assert left[1..] == prefix[1..] + ([first, second] + rest);
      assert right[1..] == prefix[1..] + ([second, first] + rest);
      var next := match Read(Codex, decode, prefix[0])
                  case Item(index, item) => items[index := item]
                  case _ => items;
      hide Read;
      SwapAnywhere(decode, prefix[1..], first, second, rest, next);
    }
  }

  lemma TwoItems(decode: Decoder, first: string, second: string, rest: seq<string>, items: Items)
    requires Read(Codex, decode, first).Item? && Read(Codex, decode, second).Item?
    ensures var a, b := Read(Codex, decode, first), Read(Codex, decode, second);
            Meaning(Codex, decode, [first, second] + rest, items)
              == Meaning(Codex, decode, rest, items[a.index := a.item][b.index := b.item])
  {
    hide Read;
    var frames := [first, second] + rest;
    assert frames[1..] == [second] + rest;
    assert frames[1..][1..] == rest;
  }

  /** How many items come before an index in the rebuilt output. */
  function Rank(items: Items, below: nat): (n: nat)
    ensures n == |Compact(items, below)|
  {
    if below == 0 then 0 else Rank(items, below - 1) + if below - 1 in items && items[below - 1].Some? then 1 else 0
  }

  /** Every item that is not null appears in the rebuilt output, at the place its index gives it. */
  lemma {:induction false} CompactAt(items: Items, below: nat, k: nat)
    requires k < below && k in items && items[k].Some?
    ensures Rank(items, k) < |Compact(items, below)| && Compact(items, below)[Rank(items, k)] == items[k].value
  {
    if k < below - 1 {
      CompactAt(items, below - 1, k);
    }
  }

  /** And nothing else does: every place is that of one index, so the output is in increasing index order. */
  lemma {:induction false} CompactFrom(items: Items, below: nat, p: nat) returns (k: nat)
    requires p < |Compact(items, below)|
    ensures k < below && k in items && items[k].Some?
    ensures Rank(items, k) == p && Compact(items, below)[p] == items[k].value
  {
    if p < |Compact(items, below - 1)| {
      k := CompactFrom(items, below - 1, p);
    } else {
      k := below - 1;
    }
  }

  /**
    The output of a completed Codex answer that came without one: for every index whose last item is not null, that
    item stands at the place of its index.
  */
  lemma RebuiltOutput(decode: Decoder, frames: seq<string>, response: Response, k: nat)
    requires response.output == [] && k <= MAX_INDEX
    requires LastItem(Codex, decode, frames, k).Some? && LastItem(Codex, decode, frames, k).value.Some?
    ensures var items := ItemsAfter(Codex, decode, frames, map[]);
            var output := Rebuilt(Codex, response, items).output;
            Rank(items, k) < |output| && output[Rank(items, k)] == LastItem(Codex, decode, frames, k).value.value
  {
    hide LastItem, ItemsAfter, Compact;
    LastWrite(Codex, decode, frames, k);
    CompactAt(ItemsAfter(Codex, decode, frames, map[]), MAX_INDEX + 1, k);
  }

  /** The list of received items, padded with nulls, as the reader keeps it. */
  ghost predicate Holds(list: seq<Option<Json>>, items: Items) {
    && |list| <= MAX_INDEX + 1
    && (forall k :: k in items ==> k < |list| && list[k] == items[k])
    && (forall k :: 0 <= k < |list| && list[k].Some? ==> k in items)
  }

  lemma {:induction false} CompactBeyond(list: seq<Option<Json>>, items: Items, below: nat)
    requires Holds(list, items) && |list| <= below
    ensures Compact(items, below) == Compact(items, |list|)
    decreases below
  {
    if |list| < below {
      CompactBeyond(list, items, below - 1);
    }
  }

  /** The reader's own compaction of its list. */
  method CompactList(list: seq<Option<Json>>, ghost items: Items) returns (output: seq<Json>)
    requires Holds(list, items)
    ensures output == Compact(items, MAX_INDEX + 1)
  {
    output := [];
    for k := 0 to |list|
      invariant output == Compact(items, k)
    {
      if list[k].Some? {
        output := output + [list[k].value];
      }
    }
    CompactBeyond(list, items, MAX_INDEX + 1);
  }

  /** Stores an item at its index, padding with nulls. */
  method StoreItem(list: seq<Option<Json>>, index: nat, item: Option<Json>, ghost items: Items)
    returns (stored: seq<Option<Json>>)
    requires Holds(list, items) && index <= MAX_INDEX
    ensures Holds(stored, items[index := item])
  {
    stored := list;
    while |stored| <= index
      invariant |list| <= |stored| <= MAX_INDEX + 1
      invariant forall k :: 0 <= k < |list| ==> stored[k] == list[k]
      invariant forall k :: |list| <= k < |stored| ==> stored[k] == None
      decreases index - |stored|
    {
      stored := stored + [None];
    }
    stored := stored[index := item];
  }

  // ------------------------------------------------ the reader

  class Reader {
    const dialect: Dialect
    const decode: Decoder
    const delivers: nat -> bool
    var events: seq<Event>
    var dataLines: seq<string>
    var outputItems: seq<Option<Json>>
    var completed: bool
    /** The items received so far. */
    ghost var items: Items

    constructor (dialect: Dialect, decode: Decoder, delivers: nat -> bool)
      ensures this.dialect == dialect && this.decode == decode && this.delivers == delivers
      ensures events == [] && dataLines == [] && outputItems == [] && !completed && items == map[]
    {
      this.dialect, this.decode, this.delivers := dialect, decode, delivers;
      events, dataLines, outputItems, completed := [], [], [], false;
      items := map[];
    }

    method Send(event: Event) returns (ok: bool)
      modifies this`events
      ensures ok == delivers(|old(events)|)
      ensures events == if ok then old(events) + [event] else old(events)
    {
      ok := delivers(|events|);
      if ok {
        events := events + [event];
      }
    }

    /** Interprets the collected frame; false when the stream is over. */
    method Flush(ghost rest: seq<string>) returns (more: bool)
      requires !completed && Holds(outputItems, items)
      modifies this`events, this`dataLines, this`outputItems, this`completed, this`items
      ensures dataLines == [] && Holds(outputItems, items) && old(events) <= events
      ensures var all := old(events) + Meaning(dialect, decode, Frames([], old(dataLines)) + rest, old(items));
              if more && !completed then all == events + Meaning(dialect, decode, rest, items)
              else events <= all && ((forall k :: delivers(k)) ==> events == all)
    {
      hide Join, Compact, Read;
      if dataLines == [] {
        assert Frames([], []) + rest == rest;
        return true;
      }
      var data := Join(dataLines);
      assert Frames([], dataLines) == [data];
      dataLines := [];
      assert ([data] + rest)[0] == data && ([data] + rest)[1..] == rest;
      more := true;
      match Read(dialect, decode, data)
      case Skip =>
      case Piece(text) =>
        more := Send(Delta(text));
      case Item(index, item) =>
        outputItems := StoreItem(outputItems, index, item, items);
        items := items[index := item];
      case Done(response) =>
        var final := response;
        if dialect.Codex? && response.output == [] {
          var output := CompactList(outputItems, items);
          final := response.(output := output);
        }
        completed := true;
        more := Send(Completed(final));
      case Bad =>
        var ok := Send(Failed);
        more := false;
    }

    /**
      Reads a whole stream. If the caller takes every event it gets exactly the meaning of the frames, which ends
      with one terminal event; otherwise it gets an initial part of it.
    */
    method Consume(lines: seq<string>)
      requires events == [] && dataLines == [] && outputItems == [] && !completed && items == map[]
      modifies this
      ensures events <= Meaning(dialect, decode, Frames(lines, []), map[])
      ensures (forall k :: delivers(k)) ==> events == Meaning(dialect, decode, Frames(lines, []), map[])
    {
      ghost var whole := Meaning(dialect, decode, Frames(lines, []), map[]);
      for i := 0 to |lines|
        invariant !completed && Holds(outputItems, items)
        invariant events + Meaning(dialect, decode, Frames(lines[i..], dataLines), items) == whole
      {
        var line := lines[i];
        assert lines[i..][1..] == lines[i + 1..];
        if line == "" {
          assert Frames(lines[i..], dataLines) == Frames([], dataLines) + Frames(lines[i + 1..], []);
          var more := Flush(Frames(lines[i + 1..], []));
          if !more || completed {
            return;
          }
          continue;
        }
        dataLines := dataLines + DataOf(line);
      }
      assert lines[|lines|..] == [];
      if dataLines != [] {
        assert Frames([], dataLines) + [] == Frames([], dataLines);
        var more := Flush([]);
        if !more || completed {
          return;
        }
      }
      var ok := Send(Failed);
    }
  }
}
