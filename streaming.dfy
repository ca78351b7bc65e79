/**
 * The fold that `ChatHistory::next_message_stream_stdout` runs over the stream of
 * completion chunks: the last role seen, the concatenated content, and the usage where
 * the last reported one wins. The stream is a finite sequence of already-received items.
 */
module Streaming {
  import opened Wrappers
  import opened Messages

  /** The delta of one streamed choice: role and content are each optional. */
  datatype Delta = Delta(role: Option<Role>, content: Option<string>)

  /** One decoded item of the stream: the deltas of its choices and an optional usage. */
  datatype StreamChunk = StreamChunk(choices: seq<Delta>, usage: Option<Usage>)

  /** What `stream.next()` yields: a chunk, or the error the transport or decoder reports. */
  type StreamItem = Result<StreamChunk, ChatError>

  /** The loop's state: `response_role`, `response_content_buffer` and the session's usage. */
  datatype Accumulator = Accumulator(role: Option<Role>, buffer: string, usage: Option<Usage>)

  /** The state reached, and the error the loop stopped at if it stopped early. */
  datatype Consumed = Consumed(acc: Accumulator, failure: Option<ChatError>)

  /** Before the first item: no role, an empty buffer, the session's usage as it was. */
  function Start(usage: Option<Usage>): Accumulator {
    Accumulator(None, "", usage)
  }

  /** The text a delta adds to the buffer. */
  function DeltaText(d: Delta): string {
    if d.content.Some? then d.content.value else ""
  }

  /**
   * One pass of the loop body over a chunk that decoded: its usage, if any, replaces the
   * recorded one first; then a chunk without a first choice stops the loop.
   */
  function Absorb(acc: Accumulator, chunk: StreamChunk): (r: Consumed)
    ensures r.acc.usage == if chunk.usage.Some? then chunk.usage else acc.usage
    ensures r.failure.Some? <==> chunk.choices == []
    ensures r.failure.Some? ==> r.failure == Some(NoFirstChoice) && r.acc.role == acc.role && r.acc.buffer == acc.buffer
    ensures |acc.buffer| <= |r.acc.buffer| && r.acc.buffer[..|acc.buffer|] == acc.buffer
    ensures acc.role.Some? ==> r.acc.role.Some?
  {
    var usage := if chunk.usage.Some? then chunk.usage else acc.usage;
    if chunk.choices == [] then
      Consumed(acc.(usage := usage), Some(NoFirstChoice))
    else
      var d := chunk.choices[0];
      Consumed(Accumulator(if d.role.Some? then d.role else acc.role, acc.buffer + DeltaText(d), usage), None)
  }

  /** The loop run over `items`, stopping at the first item that fails. */
  function Consume(items: seq<StreamItem>, start: Accumulator): (r: Consumed)
    ensures |start.buffer| <= |r.acc.buffer| && r.acc.buffer[..|start.buffer|] == start.buffer
    ensures start.role.Some? ==> r.acc.role.Some?
  {
    if items == [] then Consumed(start, None)
    else
      var c := Consume(items[..|items| - 1], start);
      if c.failure.Some? then c
      else match items[|items| - 1]
        case Err(e) => Consumed(c.acc, Some(e))
        case Ok(chunk) => Absorb(c.acc, chunk)
  }

  /** The reply pushed after exhaustion: the last role seen, Assistant when none was. */
  function StreamedReply(acc: Accumulator): (m: Message)
    ensures m.content == acc.buffer && m.name == None
    ensures acc.role.None? ==> m.role == Assistant
    ensures acc.role.Some? ==> m.role == acc.role.value
  {
    Plain(acc.role.GetOr(Assistant), acc.buffer)
  }

  /** An item the loop gets past: it decoded and has a first choice. */
  predicate Usable(item: StreamItem) {
    item.Ok? && item.value.choices != []
  }

  /** Every item of `items` is usable. */
  predicate Clean(items: seq<StreamItem>) {
    forall i :: 0 <= i < |items| ==> Usable(items[i])
  }

  /** The first choice's delta of a usable item. */
  function FirstDelta(item: StreamItem): Delta
    requires Usable(item)
  {
    item.value.choices[0]
  }

  /** Reference: every delta's content, in stream order. */
  function JoinedContent(items: seq<StreamItem>): string
    requires Clean(items)
  {
    if items == [] then "" else DeltaText(FirstDelta(items[0])) + JoinedContent(items[1..])
  }

  /** Reference: the role of the last delta that carries one. */
  function LastRole(items: seq<StreamItem>): Option<Role>
    requires Clean(items)
  {
    if items == [] then None
    else if FirstDelta(items[|items| - 1]).role.Some? then FirstDelta(items[|items| - 1]).role
    else LastRole(items[..|items| - 1])
  }

  /** Reference: the usage of the last decoded item that reports one, else `usage`. */
  function LastUsage(items: seq<StreamItem>, usage: Option<Usage>): Option<Usage> {
    if items == [] then usage
    else
      var last := items[|items| - 1];
      if last.Ok? && last.value.usage.Some? then last.value.usage
      else LastUsage(items[..|items| - 1], usage)
  }

  /** Content joined over `a + [x]` is content over `a` followed by `x`'s text. */
  lemma {:induction false} JoinedContentSnoc(a: seq<StreamItem>, x: StreamItem)
    requires Clean(a) && Usable(x)
    ensures Clean(a + [x])
    ensures JoinedContent(a + [x]) == JoinedContent(a) + DeltaText(FirstDelta(x))
    decreases |a|
  {
    assert forall i :: 0 <= i < |a| ==> (a + [x])[i] == a[i];
    assert (a + [x])[|a|] == x;
    if a == [] {
      assert (a + [x])[1..] == [];
    } else {
      assert (a + [x])[1..] == a[1..] + [x];
      JoinedContentSnoc(a[1..], x);
    }
  }

  /** Once the loop has stopped on a prefix, later items change nothing. */
  lemma {:induction false} ConsumeStops(items: seq<StreamItem>, k: nat, start: Accumulator)
    requires k <= |items|
    requires Consume(items[..k], start).failure.Some?
    ensures Consume(items, start) == Consume(items[..k], start)
    decreases |items|
  {
    if k < |items| {
      var p := items[..|items| - 1];
      assert p[..k] == items[..k];
      ConsumeStops(p, k, start);
    } else {
      assert items[..k] == items;
    }
  }

  /** The loop runs to exhaustion exactly when every item is usable. */
  lemma {:induction false} ConsumeCompletes(items: seq<StreamItem>, start: Accumulator)
    ensures Consume(items, start).failure.None? <==> Clean(items)
    decreases |items|
  {
    if items != [] {
      var p := items[..|items| - 1];
      ConsumeCompletes(p, start);
      assert forall i :: 0 <= i < |p| ==> p[i] == items[i];
    }
  }

  /**
   * On a stream of usable items the fold yields the three reference values: the last
   * role seen, all contents in order, and the last reported usage.
   */
  lemma {:induction false} ConsumeClean(items: seq<StreamItem>, usage: Option<Usage>)
    requires Clean(items)
    ensures Consume(items, Start(usage))
         == Consumed(Accumulator(LastRole(items), JoinedContent(items), LastUsage(items, usage)), None)
    decreases |items|
  {
    if items != [] {
      var p := items[..|items| - 1];
      var x := items[|items| - 1];
      assert items == p + [x];
      JoinedContentSnoc(p, x);
      ConsumeClean(p, usage);
    }
  }

  /**
   * A stream whose first unusable item is at `k`: the fold stops there with that item's
   * error (or `NoFirstChoice` when it decoded without a choice), having taken in the
   * items before it and, from item `k` itself, only its usage.
   */
  lemma ConsumeAborts(items: seq<StreamItem>, k: nat, usage: Option<Usage>)
    requires k < |items| && Clean(items[..k]) && !Usable(items[k])
    ensures Consume(items, Start(usage))
         == Consumed(Accumulator(LastRole(items[..k]), JoinedContent(items[..k]), LastUsage(items[..k + 1], usage)),
                     Some(if items[k].Err? then items[k].error else NoFirstChoice))
  {
    var q := items[..k + 1];
    assert q[..k] == items[..k];
    ConsumeClean(items[..k], usage);
    assert Consume(q, Start(usage)).failure.Some?;
    ConsumeStops(items, k + 1, Start(usage));
  }

  /** A role delta, then "Hel", then "lo". */
  function HelloStream(): seq<StreamItem> {
    [Ok(StreamChunk([Delta(Some(Assistant), None)], None)),
     Ok(StreamChunk([Delta(None, Some("Hel"))], None)),
     Ok(StreamChunk([Delta(None, Some("lo"))], None))]
  }

  /** That stream yields one Assistant reply "Hello" and leaves the usage alone. */
  lemma HelloExample(usage: Option<Usage>)
    ensures var c := Consume(HelloStream(), Start(usage));
      c.failure == None && StreamedReply(c.acc) == Plain(Assistant, "Hello") && c.acc.usage == usage
  {
    var items := HelloStream();
    assert Clean(items);
    ConsumeClean(items, usage);
    assert items[1..][1..] == [items[2]];
    assert items[..2][..1] == items[..1];
    assert items[..2][..1][..0] == [];
    assert LastUsage(items[..2][..1], usage) == usage;
    assert LastUsage(items, usage) == usage;
  }
}
