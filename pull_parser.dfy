/**
 * The Android provisioning parser: a pull parser walks the document's event
 * stream; each `entry` start tag contributes its `name` attribute (or `""`)
 * and the trimmed text that immediately follows it, after which the events
 * up to the closing `entry` tag are skipped. The stream is a sequence and
 * `next()` moves one position on; running off its end is where the pull
 * parser would throw on a malformed document, and gives no configuration.
 */
module PullParser {
  import opened Wrappers
  import opened Text
  import opened ProvisioningConfig

  /** The events `next()` reports. */
  datatype PullEvent =
    | StartDocument
    | StartTag(name: string, attributes: map<string, string>)
    | Text(text: string)
    | EndTag(name: string)
    | EndDocument

  const EntryEnd: PullEvent := EndTag("entry")

  predicate IsEntryStart(e: PullEvent) {
    e.StartTag? && e.name == "entry"
  }

  /** `getAttributeValue(null, "name") ?: ""`. */
  function KeyOf(e: PullEvent): string
    requires e.StartTag?
  {
    if "name" in e.attributes then e.attributes["name"] else ""
  }

  /** The first closing `entry` tag at or after `j`. */
  function SkipToEntryEnd(events: seq<PullEvent>, j: nat): (r: Option<nat>)
    ensures r.Some? ==> j <= r.value < |events|
    decreases |events| - j
  {
    if j >= |events| then None
    else if events[j] == EntryEnd then Some(j)
    else SkipToEntryEnd(events, j + 1)
  }

  /** The skip stops on the first closing `entry` tag, and finds none only when there is none. */
  lemma {:induction false} SkipFindsFirstEntryEnd(events: seq<PullEvent>, j: nat)
    ensures var r := SkipToEntryEnd(events, j);
      && (r.Some? ==> events[r.value] == EntryEnd && forall k :: j <= k < r.value ==> events[k] != EntryEnd)
      && (r.None? ==> forall k :: j <= k < |events| ==> events[k] != EntryEnd)
    decreases |events| - j
  {
    if j < |events| && events[j] != EntryEnd {
      SkipFindsFirstEntryEnd(events, j + 1);
    }
  }

  /** What `readEntryValue` returns and the position of the closing tag it stopped on. */
  datatype EntryRead = EntryRead(value: string, end: nat)

  /** `readEntryValue` called on the start tag at `i`. */
  function EntryValue(events: seq<PullEvent>, i: nat): (r: Option<EntryRead>)
    ensures r.Some? ==> i < r.value.end < |events|
  {
    if i + 1 < |events| && events[i + 1].Text? then
      match SkipToEntryEnd(events, i + 2)
      case None => None
      case Some(end) => Some(EntryRead(Trim(events[i + 1].text), end))
    else
      match SkipToEntryEnd(events, i + 1)
      case None => None
      case Some(end) => Some(EntryRead("", end))
  }

  /**
   * The value is the trimmed text when the event after the start tag is
   * text, and `""` otherwise; the events are consumed up to and including the
   * first closing `entry` tag after the start tag; and the read fails (the
   * parser runs off the document) exactly when there is no such tag.
   */
  lemma EntryValueReads(events: seq<PullEvent>, i: nat)
    ensures var r := EntryValue(events, i);
      && (r.Some? ==> events[r.value.end] == EntryEnd)
      && (r.Some? ==> forall k :: i < k < r.value.end ==> events[k] != EntryEnd)
      && (r.Some? ==> r.value.value == (if events[i + 1].Text? then Trim(events[i + 1].text) else ""))
      && (r.None? <==> forall k :: i < k < |events| ==> events[k] != EntryEnd)
  {
    SkipFindsFirstEntryEnd(events, i + 1);
    SkipFindsFirstEntryEnd(events, i + 2);
  }

  /** The entries found from position `j` on, and where `END_DOCUMENT` stopped the walk. */
  datatype Collected = Collected(entries: seq<Entry>, stop: nat)

  /** The walk of `parse` from position `j`. */
  function CollectFrom(events: seq<PullEvent>, j: nat): (r: Option<Collected>)
    ensures r.Some? ==> j <= r.value.stop < |events| && events[r.value.stop] == EndDocument
    decreases |events| - j
  {
    if j >= |events| then None
    else if events[j] == EndDocument then Some(Collected([], j))
    else if IsEntryStart(events[j]) then
      match EntryValue(events, j)
      case None => None
      case Some(read) =>
        match CollectFrom(events, read.end + 1)
        case None => None
        case Some(rest) => Some(Collected([Entry(KeyOf(events[j]), read.value)] + rest.entries, rest.stop))
    else CollectFrom(events, j + 1)
  }

  /** `parse`: the configuration, or nothing when the parser would throw. */
  function Parse(events: seq<PullEvent>): Option<Config> {
    match CollectFrom(events, 0)
    case None => None
    case Some(c) => Some(Config(ToMap(c.entries)))
  }

  /** `p` followed by what a walk found. */
  function Prepend(p: seq<Entry>, r: Option<Collected>): Option<Collected> {
    if r.None? then None else Some(Collected(p + r.value.entries, r.value.stop))
  }

  /** `readEntryValue`, as its loop runs. */
  method ReadEntryValue(events: seq<PullEvent>, i: nat) returns (r: Option<EntryRead>)
    ensures r == EntryValue(events, i)
  {
    var value := "";
    var j := i + 1;
    if j >= |events| {
      return None;
    }
    if events[j].Text? {
      value := Trim(events[j].text);
      j := j + 1;
    }
    while j < |events| && events[j] != EntryEnd
      invariant i + 1 <= j <= |events|
      invariant SkipToEntryEnd(events, if events[i + 1].Text? then i + 2 else i + 1) == SkipToEntryEnd(events, j)
      invariant value == (if events[i + 1].Text? then Trim(events[i + 1].text) else "")
      decreases |events| - j
    {
      j := j + 1;
    }
    if j == |events| {
      return None;
    }
    r := Some(EntryRead(value, j));
  }

  /** `parse`, as its loop runs, filling the map in place. */
  method ParseEvents(events: seq<PullEvent>) returns (r: Option<Config>)
    ensures r == Parse(events)
  {
    var m: map<string, string> := map[];
    ghost var found: seq<Entry> := [];
    var j := 0;
    assert Prepend(found, CollectFrom(events, 0)) == CollectFrom(events, 0) by {
      if CollectFrom(events, 0).Some? {
        assert [] + CollectFrom(events, 0).value.entries == CollectFrom(events, 0).value.entries;
      }
    }
    while j < |events| && events[j] != EndDocument
      invariant j <= |events|
      invariant m == ToMap(found)
      invariant Prepend(found, CollectFrom(events, j)) == CollectFrom(events, 0)
      decreases |events| - j
    {
      if IsEntryStart(events[j]) {
        var key := KeyOf(events[j]);
        var read := ReadEntryValue(events, j);
        if read.None? {
          assert CollectFrom(events, j) == None;
          return None;
        }
        m := m[key := read.value.value];
        ghost var e := Entry(key, read.value.value);
        assert (found + [e])[..|found|] == found;
        PrependAssociative(found, e, CollectFrom(events, read.value.end + 1));
        found := found + [e];
        j := read.value.end + 1;
      } else {
        j := j + 1;
      }
    }
    if j == |events| {
      return None;
    }
    assert CollectFrom(events, j) == Some(Collected([], j));
    assert found + [] == found;
    r := Some(Config(m));
  }

  lemma PrependAssociative(p: seq<Entry>, e: Entry, r: Option<Collected>)
    ensures Prepend(p, Prepend([e], r)) == Prepend(p + [e], r)
  {
    if r.Some? {
      assert p + ([e] + r.value.entries) == (p + [e]) + r.value.entries;
    }
  }

  /** The events of one `<entry name="k">v</entry>`; an empty value has no text event. */
  function EntryEvents(e: Entry): seq<PullEvent> {
    if e.value == [] then [StartTag("entry", map["name" := e.key]), EntryEnd]
    else [StartTag("entry", map["name" := e.key]), Text(e.value), EntryEnd]
  }

  /** The body of a document holding the given entries. */
  function RenderBody(es: seq<Entry>): seq<PullEvent>
    decreases |es|
  {
    if es == [] then [] else EntryEvents(es[0]) + RenderBody(es[1..])
  }

  /** A document holding the given entries, as the pull parser reports it. */
  function Render(es: seq<Entry>): seq<PullEvent> {
    [StartDocument] + RenderBody(es) + [EndDocument]
  }

  /** Values the parser reads back unchanged: no surrounding whitespace. */
  predicate Trimmed(es: seq<Entry>) {
    forall i :: 0 <= i < |es| ==> Unpadded(es[i].value)
  }

  /** `readEntryValue` on a start tag followed by text. */
  lemma EntryValueWithText(events: seq<PullEvent>, i: nat, v: string, end: nat)
    requires i + 1 < |events| && events[i + 1] == Text(v) && SkipToEntryEnd(events, i + 2) == Some(end)
    ensures EntryValue(events, i) == Some(EntryRead(Trim(v), end))
  {
  }

  /** `readEntryValue` on a start tag not followed by text. */
  lemma EntryValueWithoutText(events: seq<PullEvent>, i: nat, end: nat)
    requires i + 1 < |events| && !events[i + 1].Text? && SkipToEntryEnd(events, i + 1) == Some(end)
    ensures EntryValue(events, i) == Some(EntryRead("", end))
  {
  }

  /** Reading the events of one rendered entry found at position `n`. */
  lemma ReadRenderedEntry(events: seq<PullEvent>, n: nat, e: Entry)
    requires n + |EntryEvents(e)| <= |events| && events[n..n + |EntryEvents(e)|] == EntryEvents(e)
    requires Unpadded(e.value)
    ensures IsEntryStart(events[n]) && KeyOf(events[n]) == e.key
    ensures EntryValue(events, n) == Some(EntryRead(e.value, n + |EntryEvents(e)| - 1))
  {
    var evs := EntryEvents(e);
    assert events[n] == evs[0];
    if e.value == [] {
      assert events[n + 1] == evs[1] == EntryEnd;
      EntryValueWithoutText(events, n, n + 1);
    } else {
      assert events[n + 1] == evs[1] == Text(e.value);
      assert events[n + 2] == evs[2] == EntryEnd;
      EntryValueWithText(events, n, e.value, n + 2);
      TrimFixesUnpadded(e.value);
    }
  }

  /** A slice holding `x + y` holds `x` and then `y`. */
  lemma SliceSplit(events: seq<PullEvent>, lo: nat, x: seq<PullEvent>, y: seq<PullEvent>)
    requires lo + |x| + |y| <= |events| && events[lo..lo + |x| + |y|] == x + y
    ensures events[lo..lo + |x|] == x && events[lo + |x|..lo + |x| + |y|] == y
  {
    assert events[lo..lo + |x|] == (x + y)[..|x|];
    assert events[lo + |x|..lo + |x| + |y|] == (x + y)[|x|..];
  }

  /** Values of a suffix of trimmed entries are trimmed. */
  lemma TrimmedTail(es: seq<Entry>)
    requires Trimmed(es) && es != []
    ensures Trimmed(es[1..]) && Unpadded(es[0].value)
  {
    forall i | 0 <= i < |es[1..]| ensures Unpadded(es[1..][i].value) {
      assert es[1..][i] == es[i + 1];
    }
  }

  /** The events from position `n` on hold the given entries, one after another, then `END_DOCUMENT`. */
  predicate RenderedAt(events: seq<PullEvent>, n: nat, es: seq<Entry>)
    decreases |es|
  {
    if es == [] then n < |events| && events[n] == EndDocument
    else
      var evs := EntryEvents(es[0]);
      n + |evs| <= |events| && events[n..n + |evs|] == evs && RenderedAt(events, n + |evs|, es[1..])
  }

  /** A rendered body at `n` followed by `END_DOCUMENT` holds its entries one after another. */
  lemma {:induction false} BodyRendered(events: seq<PullEvent>, n: nat, es: seq<Entry>)
    requires n + |RenderBody(es)| < |events| && events[n..n + |RenderBody(es)|] == RenderBody(es)
    requires events[n + |RenderBody(es)|] == EndDocument
    ensures RenderedAt(events, n, es)
    decreases |es|
  {
    if es != [] {
      var evs := EntryEvents(es[0]);
      var body := RenderBody(es[1..]);
      assert RenderBody(es) == evs + body;
      SliceSplit(events, n, evs, body);
      BodyRendered(events, n + |evs|, es[1..]);
    }
  }

  /** The walk over an entry start at `n` whose read ends at `end` goes on just after `end`. */
  lemma CollectAfterRead(events: seq<PullEvent>, n: nat, e: Entry, end: nat)
    requires n < |events| && IsEntryStart(events[n]) && KeyOf(events[n]) == e.key
    requires EntryValue(events, n) == Some(EntryRead(e.value, end))
    ensures CollectFrom(events, n) == Prepend([e], CollectFrom(events, end + 1))
  {
    WalkSteps(events, n);
  }

  /** The walk over one rendered entry at `n` goes on just after it. */
  lemma CollectAtRenderedEntry(events: seq<PullEvent>, n: nat, e: Entry)
    requires n + |EntryEvents(e)| <= |events| && events[n..n + |EntryEvents(e)|] == EntryEvents(e)
    requires Unpadded(e.value)
    ensures CollectFrom(events, n) == Prepend([e], CollectFrom(events, n + |EntryEvents(e)|))
  {
    ReadRenderedEntry(events, n, e);
    CollectAfterRead(events, n, e, n + |EntryEvents(e)| - 1);
  }

  /** The walk over entries rendered from position `n` on. */
  lemma {:induction false} CollectRendered(events: seq<PullEvent>, n: nat, es: seq<Entry>)
    requires RenderedAt(events, n, es) && Trimmed(es)
    ensures CollectFrom(events, n).Some? && CollectFrom(events, n).value.entries == es
    decreases |es|
  {
    if es != [] {
      var e := es[0];
      var m := n + |EntryEvents(e)|;
      assert RenderedAt(events, m, es[1..]);
      TrimmedTail(es);
      CollectAtRenderedEntry(events, n, e);
      CollectRendered(events, m, es[1..]);
      var tail := CollectFrom(events, m).value;
      assert CollectFrom(events, n) == Some(Collected([e] + es[1..], tail.stop));
      assert [e] + es[1..] == es;
    }
  }

  /**
   * A document rendered from entries with trimmed values parses back to
   * exactly those entries folded last-wins, and anything after
   * `END_DOCUMENT` is never read.
   */
  lemma RenderParseRoundTrip(es: seq<Entry>, rest: seq<PullEvent>)
    requires Trimmed(es)
    ensures Parse(Render(es) + rest) == Some(Config(ToMap(es)))
    ensures Parse(Render(es) + rest) == Parse(Render(es))
  {
    RenderedFrame(es, rest);
    RenderedFrame(es, []);
    assert Render(es) + [] == Render(es);
    ParseFramed(Render(es) + rest, es);
    ParseFramed(Render(es), es);
  }

  /** Where a rendered document, followed by anything, holds its body. */
  lemma RenderedFrame(es: seq<Entry>, rest: seq<PullEvent>)
    ensures var events := Render(es) + rest;
      && 1 + |RenderBody(es)| < |events| && events[0] == StartDocument
      && events[1..1 + |RenderBody(es)|] == RenderBody(es) && events[1 + |RenderBody(es)|] == EndDocument
  {
  }

  /** A stream that opens with `START_DOCUMENT` and a rendered body followed by `END_DOCUMENT`. */
  lemma ParseFramed(events: seq<PullEvent>, es: seq<Entry>)
    requires Trimmed(es)
    requires 1 + |RenderBody(es)| < |events| && events[0] == StartDocument
    requires events[1..1 + |RenderBody(es)|] == RenderBody(es) && events[1 + |RenderBody(es)|] == EndDocument
    ensures Parse(events) == Some(Config(ToMap(es)))
  {
    BodyRendered(events, 1, es);
    CollectRendered(events, 1, es);
    assert CollectFrom(events, 0) == CollectFrom(events, 1);
  }

  /**
   * Any other event is passed over; an `entry` start tag contributes one
   * entry under its name (or `""`), with the value `readEntryValue` reads,
   * and the walk resumes just after the closing tag.
   */
  lemma WalkSteps(events: seq<PullEvent>, j: nat)
    requires j < |events| && events[j] != EndDocument
    ensures !IsEntryStart(events[j]) ==> CollectFrom(events, j) == CollectFrom(events, j + 1)
    ensures IsEntryStart(events[j]) && EntryValue(events, j).Some? ==>
      var read := EntryValue(events, j).value;
      CollectFrom(events, j) == Prepend([Entry(KeyOf(events[j]), read.value)], CollectFrom(events, read.end + 1))
    ensures IsEntryStart(events[j]) && !("name" in events[j].attributes) ==> KeyOf(events[j]) == ""
  {
  }
}
