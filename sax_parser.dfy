/**
 * The iOS provisioning parser: an event-driven delegate. Opening an `entry`
 * takes its `name` and starts an empty value; every piece of character data
 * is appended to the value; closing an `entry` stores the trimmed value under
 * the name (or `""`) and forgets both. The callbacks the XML parser makes are
 * a sequence of events.
 */
module SaxParser {
  import opened Wrappers
  import opened Text
  import opened ProvisioningConfig
  import PullParser

  /** The delegate callbacks, in the order the XML parser makes them. */
  datatype SaxEvent =
    | DidStartElement(name: string, attributes: map<string, string>)
    | FoundCharacters(text: string)
    | DidEndElement(name: string)

  /** The delegate's fields. */
  datatype SaxState = SaxState(entries: map<string, string>, currentKey: Option<string>, currentValue: string)

  /** One callback. */
  function Step(s: SaxState, e: SaxEvent): SaxState {
    match e
    case DidStartElement(name, attributes) =>
      if name == "entry"
      then s.(currentKey := if "name" in attributes then Some(attributes["name"]) else None, currentValue := "")
      else s
    case FoundCharacters(text) => s.(currentValue := s.currentValue + text)
    case DidEndElement(name) =>
      if name == "entry"
      then SaxState(s.entries[s.currentKey.GetOr("") := Trim(s.currentValue)], None, "")
      else s
  }

  /** The callbacks in order. */
  function Run(s: SaxState, events: seq<SaxEvent>): SaxState
    decreases |events|
  {
    if events == [] then s else Step(Run(s, events[..|events| - 1]), events[|events| - 1])
  }

  /** Running two stretches of callbacks is running one after the other. */
  lemma {:induction false} RunAppend(s: SaxState, a: seq<SaxEvent>, b: seq<SaxEvent>)
    ensures Run(s, a + b) == Run(Run(s, a), b)
    decreases |b|
  {
    if b == [] {
      assert a + b == a;
    } else {
      assert (a + b)[..|a + b| - 1] == a + b[..|b| - 1];
      RunAppend(s, a, b[..|b| - 1]);
    }
  }

  /** The character data among `events`, concatenated. */
  function Chars(events: seq<SaxEvent>): string
    decreases |events|
  {
    if events == [] then ""
    else
      var last := events[|events| - 1];
      Chars(events[..|events| - 1]) + (if last.FoundCharacters? then last.text else "")
  }

  /** No `entry` element opens or closes among `events`. */
  predicate NoEntryBoundary(events: seq<SaxEvent>) {
    forall i :: 0 <= i < |events| ==> !IsEntryBoundary(events[i])
  }

  predicate IsEntryBoundary(e: SaxEvent) {
    !e.FoundCharacters? && e.name == "entry"
  }

  /** Inside an open entry, other elements leave the key alone and their text accumulates. */
  lemma {:induction false} TextAccumulates(s: SaxState, middle: seq<SaxEvent>)
    requires NoEntryBoundary(middle)
    ensures Run(s, middle) == s.(currentValue := s.currentValue + Chars(middle))
    decreases |middle|
  {
    if middle == [] {
      assert s.currentValue + "" == s.currentValue;
    } else {
      var init := middle[..|middle| - 1];
      var last := middle[|middle| - 1];
      assert NoEntryBoundary(init) by {
        forall i | 0 <= i < |init| ensures !IsEntryBoundary(init[i]) {
          assert init[i] == middle[i];
        }
      }
      TextAccumulates(s, init);
      assert !IsEntryBoundary(last);
      var t := if last.FoundCharacters? then last.text else "";
      assert s.currentValue + Chars(init) + t == s.currentValue + Chars(middle);
    }
  }

  /** The key an opening `entry` tag gives. */
  function KeyOf(attributes: map<string, string>): string {
    if "name" in attributes then attributes["name"] else ""
  }

  /**
   * An `entry` whose body opens and closes no other `entry` stores, under its
   * name or `""`, all the character data since it opened, trimmed (text of
   * nested elements included), and leaves no key or value behind.
   */
  lemma EntryStoresAllText(s: SaxState, attributes: map<string, string>, middle: seq<SaxEvent>)
    requires NoEntryBoundary(middle)
    ensures Run(s, [DidStartElement("entry", attributes)] + middle + [DidEndElement("entry")])
      == SaxState(s.entries[KeyOf(attributes) := Trim(Chars(middle))], None, "")
  {
    var open := [DidStartElement("entry", attributes)];
    var afterOpen := Step(s, open[0]);
    assert Run(s, open) == afterOpen by {
      assert open[..0] == [];
    }
    RunAppend(s, open, middle);
    TextAccumulates(afterOpen, middle);
    var whole := open + middle + [DidEndElement("entry")];
    assert whole[..|whole| - 1] == open + middle;
    assert "" + Chars(middle) == Chars(middle);
  }

  /** Closing an element other than `entry` stores nothing. */
  lemma OtherCloseStoresNothing(s: SaxState, name: string)
    requires name != "entry"
    ensures Step(s, DidEndElement(name)) == s
  {
  }

  /** The callbacks for one `<entry name="k">v</entry>`; an empty value has no character data. */
  function EntryEvents(e: Entry): seq<SaxEvent> {
    if e.value == [] then [DidStartElement("entry", map["name" := e.key]), DidEndElement("entry")]
    else [DidStartElement("entry", map["name" := e.key]), FoundCharacters(e.value), DidEndElement("entry")]
  }

  /** The callbacks for a document holding the given entries. */
  function Render(es: seq<Entry>): seq<SaxEvent>
    decreases |es|
  {
    if es == [] then [] else Render(es[..|es| - 1]) + EntryEvents(es[|es| - 1])
  }

  /** The entries with their values trimmed. */
  function TrimAll(es: seq<Entry>): (r: seq<Entry>)
    ensures |r| == |es|
    decreases |es|
  {
    if es == [] then [] else TrimAll(es[..|es| - 1]) + [Entry(es[|es| - 1].key, Trim(es[|es| - 1].value))]
  }

  /** One rendered entry stores its trimmed value under its name. */
  lemma RenderedEntry(s: SaxState, e: Entry)
    ensures Run(s, EntryEvents(e)) == SaxState(s.entries[e.key := Trim(e.value)], None, "")
  {
    var middle := if e.value == [] then [] else [FoundCharacters(e.value)];
    assert EntryEvents(e) == [DidStartElement("entry", map["name" := e.key])] + middle + [DidEndElement("entry")];
    EntryStoresAllText(s, map["name" := e.key], middle);
    assert Chars(middle) == e.value by {
      if middle != [] {
        assert middle[..0] == [];
      }
    }
  }

  /**
   * Starting with no entries, a rendered document leaves each entry's
   * trimmed value in the map, the last entry with a name winning, and no key
   * or value under construction, whatever was left under construction before.
   */
  lemma {:induction false} RenderedEntries(s: SaxState, es: seq<Entry>)
    requires s.entries == map[]
    ensures Run(s, Render(es)) == if es == [] then s else SaxState(ToMap(TrimAll(es)), None, "")
    decreases |es|
  {
    if es != [] {
      var init := es[..|es| - 1];
      var e := es[|es| - 1];
      RenderedEntries(s, init);
      RunAppend(s, Render(init), EntryEvents(e));
      RenderedEntry(Run(s, Render(init)), e);
      assert TrimAll(es)[..|es| - 1] == TrimAll(init);
    }
  }

  /** Values of a prefix of trimmed entries are trimmed, and so is the last one. */
  lemma TrimmedInit(es: seq<Entry>)
    requires PullParser.Trimmed(es) && es != []
    ensures PullParser.Trimmed(es[..|es| - 1]) && Unpadded(es[|es| - 1].value)
  {
    var init := es[..|es| - 1];
    forall i | 0 <= i < |init| ensures Unpadded(init[i].value) {
      assert init[i] == es[i];
    }
  }

  /** Trimming one more entry appends its trimmed copy. */
  lemma TrimAllSnoc(init: seq<Entry>, e: Entry)
    ensures TrimAll(init + [e]) == TrimAll(init) + [Entry(e.key, Trim(e.value))]
  {
    assert (init + [e])[..|init|] == init;
  }

  /** Trimming values that carry no surrounding whitespace changes nothing. */
  lemma {:induction false} TrimAllTrimmed(es: seq<Entry>)
    requires PullParser.Trimmed(es)
    ensures TrimAll(es) == es
    decreases |es|
  {
    if es != [] {
      var init := es[..|es| - 1];
      var last := es[|es| - 1];
      assert es == init + [last];
      TrimmedInit(es);
      TrimAllTrimmed(init);
      TrimAllSnoc(init, last);
      TrimFixesUnpadded(last.value);
    }
  }

  /**
   * The Android pull parser and this delegate read the same configuration
   * from the same document, when its values carry no surrounding whitespace.
   */
  lemma ParsersAgree(es: seq<Entry>)
    requires PullParser.Trimmed(es)
    ensures PullParser.Parse(PullParser.Render(es)) == Some(Config(Run(SaxState(map[], None, ""), Render(es)).entries))
  {
    PullParser.RenderParseRoundTrip(es, []);
    assert PullParser.Render(es) + [] == PullParser.Render(es);
    RenderedEntries(SaxState(map[], None, ""), es);
    TrimAllTrimmed(es);
  }

  class ProvisioningXmlParser {
    var entries: map<string, string>
    var currentKey: Option<string>
    var currentValue: string

    function State(): SaxState
      reads this
    {
      SaxState(entries, currentKey, currentValue)
    }

    constructor ()
      ensures State() == SaxState(map[], None, "")
    {
      entries := map[];
      currentKey := None;
      currentValue := "";
    }

    method DidStart(name: string, attributes: map<string, string>)
      modifies this
      ensures State() == Step(old(State()), DidStartElement(name, attributes))
    {
      if name == "entry" {
        currentKey := if "name" in attributes then Some(attributes["name"]) else None;
        currentValue := "";
      }
    }

    method Found(text: string)
      modifies this
      ensures State() == Step(old(State()), FoundCharacters(text))
    {
      currentValue := currentValue + text;
    }

    method DidEnd(name: string)
      modifies this
      ensures State() == Step(old(State()), DidEndElement(name))
    {
      if name == "entry" {
        var key := currentKey.GetOr("");
        entries := entries[key := Trim(currentValue)];
        currentKey := None;
        currentValue := "";
      }
    }

    /**
     * `parse`: the collected entries are cleared (the key and value under
     * construction are not), then each callback is delivered in turn.
     */
    method Parse(events: seq<SaxEvent>) returns (config: Config)
      modifies this
      ensures State() == Run(SaxState(map[], old(currentKey), old(currentValue)), events)
      ensures config == Config(entries)
    {
      entries := map[];
      ghost var start := State();
      var i := 0;
      while i < |events|
        invariant 0 <= i <= |events|
        invariant State() == Run(start, events[..i])
        decreases |events| - i
      {
        assert events[..i + 1][..i] == events[..i];
        match events[i] {
          case DidStartElement(name, attributes) => DidStart(name, attributes);
          case FoundCharacters(text) => Found(text);
          case DidEndElement(name) => DidEnd(name);
        }
        i := i + 1;
      }
      assert events[..i] == events;
      config := Config(entries);
    }
  }
}
