/** Server-sent events: the service's writer and the browser's reader (section 9.2 of the
    WHATWG HTML Living Standard). Event data is JSON text; `dump` and `parse` stand for
    the two JSON libraries. */
module Sse {
  import opened Text
  import opened Wrappers

  const GAP := "\n\n"
  const LINE := "\n"

  /** What goes over the wire between two blank lines. */
  datatype Item<D> = Event(kind: string, data: D) | KeepAlive

  /** `String.prototype.trim`. */
  predicate IsJsSpace(c: char) {
    var n := c as int;
    9 <= n <= 13 || n == 32 || n == 0xA0 || n == 0x1680 || 0x2000 <= n <= 0x200A || n == 0x2028 || n == 0x2029
    || n == 0x202F || n == 0x205F || n == 0x3000 || n == 0xFEFF
  }

  function TrimLeft(s: string): string {
    if s != [] && IsJsSpace(s[0]) then TrimLeft(s[1..]) else s
  }

  function TrimRight(s: string): string {
    if s != [] && IsJsSpace(s[|s| - 1]) then TrimRight(s[..|s| - 1]) else s
  }

  function Trim(s: string): string {
    TrimRight(TrimLeft(s))
  }

  predicate OneLine(s: string) {
    forall i :: 0 <= i < |s| ==> s[i] != '\n'
  }

  predicate Plain(s: string) {
    Trim(s) == s && OneLine(s)
  }

  /** Dumped data is one line of non-empty JSON that parses back. */
  ghost predicate Codec<D(!new)>(dump: D -> string, parse: string -> Option<D>) {
    forall d :: parse(dump(d)) == Some(d) && Plain(dump(d)) && dump(d) != []
  }

  // -- writing --------------------------------------------------------------------

  function Block<D>(item: Item<D>, dump: D -> string): string {
    match item
    case Event(kind, data) => "event: " + kind + "\n" + ("data: " + dump(data))
    case KeepAlive => ": keepalive"
  }

  /** The whole stream the service yields. */
  function Wire<D>(items: seq<Item<D>>, dump: D -> string): string {
    if items == [] then [] else Block(items[0], dump) + GAP + Wire(items[1..], dump)
  }

  // -- reading --------------------------------------------------------------------

  function KindOf(lines: seq<string>): string {
    if lines == [] then "message"
    else
      var line := lines[|lines| - 1];
      if !(":" <= line) && "event:" <= line then Trim(line[6..]) else KindOf(lines[..|lines| - 1])
  }

  function DataOf(lines: seq<string>): seq<string> {
    if lines == [] then []
    else
      var before, line := DataOf(lines[..|lines| - 1]), lines[|lines| - 1];
      if !(":" <= line) && !("event:" <= line) && "data:" <= line then before + [Trim(line[5..])] else before
  }

  function EventOf<D>(raw: string, parse: string -> Option<D>): seq<Item<D>> {
    var lines := Split(raw, LINE);
    var payload := Join(DataOf(lines), LINE);
    var data := parse(payload);
    if payload != [] && data.Some? then [Event(KindOf(lines), data.value)] else []
  }

  function Gathered<T>(lists: seq<seq<T>>): seq<T> {
    if lists == [] then [] else Gathered(lists[..|lists| - 1]) + lists[|lists| - 1]
  }

  function EachParsed<D>(blocks: seq<string>, parse: string -> Option<D>): (lists: seq<seq<Item<D>>>)
    ensures |lists| == |blocks| && forall i :: 0 <= i < |blocks| ==> lists[i] == EventOf(blocks[i], parse)
  {
    seq(|blocks|, i requires 0 <= i < |blocks| => EventOf(blocks[i], parse))
  }

  function EventsOf<D>(blocks: seq<string>, parse: string -> Option<D>): seq<Item<D>> {
    Gathered(EachParsed(blocks, parse))
  }

  /** The closed blocks of what has arrived, and what is left open. */
  function Closed(text: string): seq<string> {
    var parts := Split(text, GAP);
    parts[..|parts| - 1]
  }

  function Open(text: string): string {
    var parts := Split(text, GAP);
    parts[|parts| - 1]
  }

  method ParseEvent<D>(raw: string, parse: string -> Option<D>) returns (event: seq<Item<D>>)
    ensures event == EventOf(raw, parse)
  {
    var kind, dataLines := "message", [];
    var lines := Split(raw, LINE);
    for i := 0 to |lines|
      invariant kind == KindOf(lines[..i]) && dataLines == DataOf(lines[..i])
    {
      var line := lines[i];
      assert lines[..i + 1][..i] == lines[..i] && lines[..i + 1][i] == line;
      if ":" <= line {
        continue;
      }
      if "event:" <= line {
        kind := Trim(line[6..]);
      } else if "data:" <= line {
        dataLines := dataLines + [Trim(line[5..])];
      }
    }
    assert lines[..|lines|] == lines;
    var payload := Join(dataLines, LINE);
    if payload == [] {
      return [];
    }
    var data := parse(payload);
    return if data.Some? then [Event(kind, data.value)] else [];
  }

  class Reader<D> {
    const parse: string -> Option<D>
    var buffer: string
    ghost var arrived: string
    ghost var emitted: seq<Item<D>>

    /** What has been handed on is what the closed blocks so far hold. */
    ghost predicate Valid()
      reads this
    {
      buffer == Open(arrived) && emitted == EventsOf(Closed(arrived), parse)
    }

    constructor (parse: string -> Option<D>)
      ensures Valid() && arrived == [] && emitted == [] && this.parse == parse
    {
      this.parse := parse;
      buffer, arrived, emitted := [], [], [];
    }

    method Read(chunk: string) returns (events: seq<Item<D>>)
      requires Valid()
      modifies this
      ensures Valid()
      ensures arrived == old(arrived) + chunk && emitted == old(emitted) + events
    {
      BlocksResume(arrived, chunk, parse);
      arrived := arrived + chunk;
      buffer := buffer + chunk;
      var parts := Split(buffer, GAP);
      var blocks := parts[..|parts| - 1];
      buffer := parts[|parts| - 1];
      events := ParseBlocks(blocks, parse);
      emitted := emitted + events;
    }
  }

  method ParseBlocks<D>(blocks: seq<string>, parse: string -> Option<D>) returns (events: seq<Item<D>>)
    ensures events == EventsOf(blocks, parse)
  {
    events := [];
    for i := 0 to |blocks|
      invariant events == EventsOf(blocks[..i], parse)
    {
      assert blocks[..i + 1] == blocks[..i] + [blocks[i]];
      EventsAppend(blocks[..i], [blocks[i]], parse);
      OneBlock(blocks[i], parse);
      var event := ParseEvent(blocks[i], parse);
      events := events + event;
    }
    assert blocks[..|blocks|] == blocks;
  }

  lemma GatheredAdd<T>(lists: seq<seq<T>>, last: seq<T>)
    ensures Gathered(lists + [last]) == Gathered(lists) + last
  {
    assert (lists + [last])[..|lists|] == lists;
  }

  lemma {:induction false} GatheredAppend<T>(a: seq<seq<T>>, b: seq<seq<T>>)
    ensures Gathered(a + b) == Gathered(a) + Gathered(b)
  {
    if b == [] {
      assert a + b == a;
    } else {
      var front, last := b[..|b| - 1], b[|b| - 1];
      GatheredAppend(a, front);
      assert b == front + [last] && a + b == (a + front) + [last];
      GatheredAdd(front, last);
      GatheredAdd(a + front, last);
    }
  }

  lemma EventsAppend<D>(a: seq<string>, b: seq<string>, parse: string -> Option<D>)
    ensures EventsOf(a + b, parse) == EventsOf(a, parse) + EventsOf(b, parse)
  {
    assert EachParsed(a + b, parse) == EachParsed(a, parse) + EachParsed(b, parse);
    GatheredAppend(EachParsed(a, parse), EachParsed(b, parse));
  }

  lemma OneBlock<D>(block: string, parse: string -> Option<D>)
    ensures EventsOf([block], parse) == EventOf(block, parse)
  {
    var lists := EachParsed([block], parse);
    assert lists[..0] == [] && Gathered(lists[..0]) == [];
  }

  lemma ClosedResume(a: string, b: string)
    ensures Open(a + b) == Open(Open(a) + b) && Closed(a + b) == Closed(a) + Closed(Open(a) + b)
  {
    SplitResumes(a, b, GAP);
    var head, tail := Closed(a), Split(Open(a) + b, GAP);
    assert (head + tail)[..|head + tail| - 1] == head + tail[..|tail| - 1];
  }

  /** Reading on from the open block is reading the longer stream from the start. */
  lemma BlocksResume<D>(a: string, b: string, parse: string -> Option<D>)
    ensures var parts := Split(Open(a) + b, GAP);
            && Open(a + b) == parts[|parts| - 1]
            && EventsOf(Closed(a + b), parse) == EventsOf(Closed(a), parse) + EventsOf(parts[..|parts| - 1], parse)
  {
    ClosedResume(a, b);
    EventsAppend(Closed(a), Closed(Open(a) + b), parse);
  }

  /** The reader, fed chunk by chunk. */
  method ReadAll<D>(chunks: seq<string>, parse: string -> Option<D>) returns (events: seq<Item<D>>, rest: string)
    ensures events == EventsOf(Closed(Concat(chunks)), parse) && rest == Open(Concat(chunks))
  {
    var reader := new Reader<D>(parse);
    events := [];
    for i := 0 to |chunks|
      invariant reader.Valid() && reader.parse == parse && fresh(reader)
      invariant reader.arrived == Concat(chunks[..i]) && reader.emitted == events
    {
      assert chunks[..i + 1] == chunks[..i] + [chunks[i]];
      ConcatAppend(chunks[..i], [chunks[i]]);
      assert Concat([chunks[i]]) == chunks[i] + [] == chunks[i];
      var more := reader.Read(chunks[i]);
      events := events + more;
    }
    assert chunks[..|chunks|] == chunks;
    rest := reader.buffer;
  }

  // -- round trip -----------------------------------------------------------------

  /** The events of a stream: keepalives are for proxies only. */
  function Delivered<D>(items: seq<Item<D>>): seq<Item<D>> {
    if items == [] then []
    else (if items[0].Event? then [items[0]] else []) + Delivered(items[1..])
  }

  ghost predicate Sendable<D>(item: Item<D>) {
    item.Event? ==> Plain(item.kind)
  }

  lemma TrimSpaced(s: string)
    requires Plain(s)
    ensures Trim(" " + s) == s
  {
    assert (" " + s)[1..] == s;
  }

  lemma NoGapAt(s: string, j: nat)
    requires j + 1 < |s| && (s[j] != '\n' || s[j + 1] != '\n')
    ensures !OccursAt(s, GAP, j)
  {
    if j + 2 <= |s| {
      var two := s[j..j + 2];
      assert two[0] == s[j] && two[1] == s[j + 1];
    }
  }

  /** A block's newlines are single: the first blank line after it is the one that ends it. */
  lemma BlockEnds<D>(item: Item<D>, dump: D -> string, rest: string)
    requires Sendable(item) && (item.Event? ==> Plain(dump(item.data)) && dump(item.data) != [])
    ensures var block := Block(item, dump);
            Find(block + GAP + rest, GAP, 0) == |block|
            && Split(block + GAP + rest, GAP) == [block] + Split(rest, GAP)
  {
    var block := Block(item, dump);
    var s := block + GAP + rest;
    assert s[|block|..|block| + 2] == GAP;
    assert OccursAt(s, GAP, |block|);
    FindFacts(s, GAP, 0);
    forall j | 0 <= j < |block|
      ensures !OccursAt(s, GAP, j)
    {
      BlockIsTight(item, dump, j);
      NoGapAt(s, j);
    }
    assert s[..|block|] == block && s[|block| + 2..] == rest;
  }

  lemma BlockIsTight<D>(item: Item<D>, dump: D -> string, j: nat)
    requires Sendable(item) && (item.Event? ==> Plain(dump(item.data)) && dump(item.data) != [])
    requires j < |Block(item, dump)|
    ensures var block := Block(item, dump);
            block[j] == '\n' ==> j + 1 < |block| && block[j + 1] != '\n'
  {
    if item.Event? {
      TwoLinesAreTight("event: ", item.kind, "data: ", dump(item.data), j);
    }
  }

  lemma TwoLinesAreTight(a: string, kind: string, b: string, payload: string, j: nat)
    requires OneLine(a) && OneLine(kind) && OneLine(b) && OneLine(payload) && b != []
    requires j < |a + kind + "\n" + (b + payload)|
    ensures var s := a + kind + "\n" + (b + payload);
            s[j] == '\n' ==> j + 1 < |s| && s[j + 1] != '\n'
  {
    var head, tail := a + kind, b + payload;
    var s := head + "\n" + tail;
    if j < |head| {
      assert s[j] == head[j];
    } else if j > |head| {
      assert s[j] == tail[j - |head| - 1];
    } else {
      assert s[j + 1] == tail[0] == b[0];
    }
  }

  lemma BlockParses<D(!new)>(item: Item<D>, dump: D -> string, parse: string -> Option<D>)
    requires Codec(dump, parse) && Sendable(item)
    ensures EventOf(Block(item, dump), parse) == if item.Event? then [item] else []
  {
    var block := Block(item, dump);
    match item
    case KeepAlive =>
      FindSkips(block, LINE, 0, |block|);
      SplitWhole(block, LINE);
      assert [block][..0] == [];
      assert DataOf([block]) == [];
    case Event(kind, data) =>
      var head, tail := "event: " + kind, "data: " + dump(data);
      SplitOfJoin([head, tail], LINE);
      assert Join([head, tail], LINE) == head + "\n" + tail;
      TwoLines(kind, dump(data));
  }

  lemma NotPrefix(s: string, prefix: string)
    requires s != [] && prefix != [] && s[0] != prefix[0]
    ensures !(prefix <= s)
  {
  }

  lemma HeadLine(kind: string)
    requires Plain(kind)
    ensures var head := "event: " + kind; !(":" <= head) && "event:" <= head && Trim(head[6..]) == kind
  {
    var head := "event: " + kind;
    NotPrefix(head, ":");
    assert head[..6] == "event:" && head[6..] == " " + kind;
    TrimSpaced(kind);
  }

  lemma TailLine(payload: string)
    requires Plain(payload)
    ensures var tail := "data: " + payload;
            !(":" <= tail) && !("event:" <= tail) && "data:" <= tail && Trim(tail[5..]) == payload
  {
    var tail := "data: " + payload;
    NotPrefix(tail, ":");
    NotPrefix(tail, "event:");
    assert tail[..5] == "data:" && tail[5..] == " " + payload;
    TrimSpaced(payload);
  }

  lemma TwoLines(kind: string, payload: string)
    requires Plain(kind) && Plain(payload)
    ensures var lines := ["event: " + kind, "data: " + payload]; KindOf(lines) == kind && DataOf(lines) == [payload]
  {
    var head, tail := "event: " + kind, "data: " + payload;
    HeadLine(kind);
    TailLine(payload);
    assert [head, tail][..1] == [head] && [head][..0] == [];
    assert KindOf([head]) == kind && DataOf([head]) == [];
  }

  lemma FirstClosed(block: string, rest: string, s: string)
    requires Split(s, GAP) == [block] + Split(rest, GAP)
    ensures Closed(s) == [block] + Closed(rest) && Open(s) == Open(rest)
  {
    var tail := Split(rest, GAP);
    assert ([block] + tail)[..|tail|] == [block] + tail[..|tail| - 1];
  }

  lemma {:induction false} WireReads<D(!new)>(items: seq<Item<D>>, dump: D -> string, parse: string -> Option<D>)
    requires Codec(dump, parse) && forall i :: 0 <= i < |items| ==> Sendable(items[i])
    ensures EventsOf(Closed(Wire(items, dump)), parse) == Delivered(items) && Open(Wire(items, dump)) == []
  {
    if items == [] {
      SplitWhole([], GAP);
    } else {
      var block, rest := Block(items[0], dump), Wire(items[1..], dump);
      WireReads(items[1..], dump, parse);
      BlockEnds(items[0], dump, rest);
      FirstClosed(block, rest, block + GAP + rest);
      EventsAppend([block], Closed(rest), parse);
      BlockParses(items[0], dump, parse);
      OneBlock(block, parse);
    }
  }

  /** Round trip: however the network cuts the stream, the reader hands on exactly the
      events that were written, in order, drops the keepalives, and is left with nothing. */
  method Transmit<D(!new)>(items: seq<Item<D>>, ghost dump: D -> string, parse: string -> Option<D>, chunks: seq<string>)
    returns (events: seq<Item<D>>, rest: string)
    requires Codec(dump, parse) && forall i :: 0 <= i < |items| ==> Sendable(items[i])
    requires Concat(chunks) == Wire(items, dump)
    ensures events == Delivered(items) && rest == []
  {
    WireReads(items, dump, parse);
    events, rest := ReadAll(chunks, parse);
  }
}
