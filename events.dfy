/** `Event_Extractor`: the dashboard's projection of an agent event log (a
    parsed JSON document with a top-level `events` list) into flat event
    records, the per-event summary table, and the sorted list of grounding
    source domains. */
module EventLog {
  import opened Common
  import opened Json
  import opened Text
  import LexOrder

  // ---------------------------------------------------------------------
  // Records
  // ---------------------------------------------------------------------

  /** One `{domain, title, uri}` record taken from a grounding chunk's `web` object. */
  datatype Chunk = Chunk(domain: Value, title: Value, uri: Value)

  /** One `{grounding_chunk_indices, segment}` record taken from a grounding support. */
  datatype Support = Support(chunkIndices: Value, segment: Value)

  /** The flat record `extract_all_events` builds for one event. */
  datatype Event = Event(
    id: Value,
    timestamp: Value,
    author: Value,
    invocationId: Value,
    role: Value,
    contentParts: seq<string>,
    groundingChunks: seq<Chunk>,
    groundingSupports: seq<Support>,
    searchQueries: seq<Value>)

  /** One row of the summary table of `get_event_summary`. */
  datatype SummaryRow = SummaryRow(
    id: Value,
    author: Value,
    role: Value,
    timestamp: Value,
    contentLength: nat,
    groundingChunksCount: nat,
    groundingSupportsCount: nat,
    searchQueriesCount: nat)

  /** An extractor holds the document it was given. */
  datatype Extractor = Extractor(data: Value)

  // ---------------------------------------------------------------------
  // Construction
  // ---------------------------------------------------------------------

  /** `Event_Extractor(json_data=...)`: a falsy argument (None, `{}`, ...)
      raises `ValueError`; anything else is kept as the document. */
  function NewExtractor(jsonData: Value): (r: Result<Extractor>)
    ensures r.Ok? <==> Truthy(jsonData)
    ensures r.Ok? ==> r.value.data == jsonData
  {
    if Truthy(jsonData) then Ok(Extractor(jsonData))
    else Err("Either json_file_path or json_data must be provided")
  }

  /** An empty dict is falsy, so it is refused; a dict with no `events` key is accepted. */
  lemma EmptyDocumentRefused()
    ensures NewExtractor(Obj(map[])).Err?
    ensures NewExtractor(Obj(map["other" := Null])).Ok?
  {
    assert "other" in map["other" := Null];
  }

  // ---------------------------------------------------------------------
  // Documents the extractor can read without a type error
  // ---------------------------------------------------------------------

  /** A content part is a dict whose `text`, when present, is a string. */
  predicate WfPart(p: Value)
  {
    p.Obj? && ("text" in p.fields ==> p.fields["text"].Str?)
  }

  predicate WfParts(ps: seq<Value>)
  {
    forall i :: 0 <= i < |ps| ==> WfPart(ps[i])
  }

  /** A `web` object is a dict whose `domain`, when present, is a string or null. */
  predicate WfWeb(w: Value)
  {
    w.Obj? && ("domain" in w.fields ==> w.fields["domain"].Str? || w.fields["domain"].Null?)
  }

  /** A grounding chunk is a dict whose `web`, when present, is a `web` object. */
  predicate WfChunk(c: Value)
  {
    c.Obj? && ("web" in c.fields ==> WfWeb(c.fields["web"]))
  }

  predicate WfChunks(cs: seq<Value>)
  {
    forall i :: 0 <= i < |cs| ==> WfChunk(cs[i])
  }

  predicate AllObjects(vs: seq<Value>)
  {
    forall i :: 0 <= i < |vs| ==> vs[i].Obj?
  }

  /** `content` is a dict whose `parts`, when present, is a list of parts. */
  predicate WfContent(c: Value)
  {
    c.Obj? && OptArray(c, "parts") && WfParts(Items(c, "parts"))
  }

  /** `groundingMetadata` is a dict whose three lists, when present, are lists. */
  predicate WfMetadata(m: Value)
  {
    && m.Obj?
    && OptArray(m, "groundingChunks") && WfChunks(Items(m, "groundingChunks"))
    && OptArray(m, "groundingSupports") && AllObjects(Items(m, "groundingSupports"))
    && OptArray(m, "webSearchQueries")
  }

  predicate WfEvent(e: Value)
  {
    && e.Obj?
    && WfContent(Get(e, "content", Obj(map[])))
    && WfMetadata(Get(e, "groundingMetadata", Obj(map[])))
  }

  predicate WfEvents(es: seq<Value>)
  {
    forall i :: 0 <= i < |es| ==> WfEvent(es[i])
  }

  /** The document is a dict whose `events`, when present, is a list of events. */
  predicate WfDocument(d: Value)
  {
    d.Obj? && OptArray(d, "events") && WfEvents(Items(d, "events"))
  }

  // ---------------------------------------------------------------------
  // What extraction computes, element by element
  // ---------------------------------------------------------------------

  /** The text a part contributes: its `text` if it has one. */
  function PartText(p: Value): seq<string>
    requires WfPart(p)
  {
    if "text" in p.fields then [p.fields["text"].s] else []
  }

  /** `content_parts`: the texts of the parts that have a `text` key. */
  function ContentParts(ps: seq<Value>): seq<string>
    requires WfParts(ps)
  {
    if ps == [] then [] else ContentParts(ps[..|ps| - 1]) + PartText(ps[|ps| - 1])
  }

  /** The `{domain, title, uri}` record of a `web` object; absent fields are None. */
  function WebChunk(w: Value): Chunk
    requires w.Obj?
  {
    Chunk(Get(w, "domain", Null), Get(w, "title", Null), Get(w, "uri", Null))
  }

  /** The record a grounding chunk contributes: one if it has a `web` key. */
  function ChunkRecord(c: Value): seq<Chunk>
    requires WfChunk(c)
  {
    if "web" in c.fields then [WebChunk(c.fields["web"])] else []
  }

  /** A chunk record's domain is a string or None. */
  predicate DomainTyped(c: Chunk)
  {
    c.domain.Str? || c.domain.Null?
  }

  /** `grounding_chunks`: one record per chunk that has a `web` key. */
  function GroundingChunks(cs: seq<Value>): (r: seq<Chunk>)
    requires WfChunks(cs)
    ensures forall i :: 0 <= i < |r| ==> DomainTyped(r[i])
  {
    if cs == [] then [] else GroundingChunks(cs[..|cs| - 1]) + ChunkRecord(cs[|cs| - 1])
  }

  /** A support record; the indices default to `[]` and the segment to `{}`. */
  function SupportRecord(s: Value): Support
    requires s.Obj?
  {
    Support(Get(s, "groundingChunkIndices", Arr([])), Get(s, "segment", Obj(map[])))
  }

  /** `grounding_supports`: one record per support. */
  function GroundingSupports(ss: seq<Value>): seq<Support>
    requires AllObjects(ss)
  {
    if ss == [] then [] else GroundingSupports(ss[..|ss| - 1]) + [SupportRecord(ss[|ss| - 1])]
  }

  /** The record of one event. */
  function EventRecord(e: Value): Event
    requires WfEvent(e)
  {
    var content := Get(e, "content", Obj(map[]));
    var metadata := Get(e, "groundingMetadata", Obj(map[]));
    Event(
      Get(e, "id", Null), Get(e, "timestamp", Null), Get(e, "author", Null),
      Get(e, "invocationId", Null), Get(content, "role", Null),
      ContentParts(Items(content, "parts")),
      GroundingChunks(Items(metadata, "groundingChunks")),
      GroundingSupports(Items(metadata, "groundingSupports")),
      Items(metadata, "webSearchQueries"))
  }

  /** The records of a list of events. */
  function EventRecords(es: seq<Value>): seq<Event>
    requires WfEvents(es)
  {
    if es == [] then [] else EventRecords(es[..|es| - 1]) + [EventRecord(es[|es| - 1])]
  }

  /** What `extract_all_events` returns for a document. */
  function AllEvents(d: Value): seq<Event>
    requires WfDocument(d)
  {
    EventRecords(Items(d, "events"))
  }

  // ---------------------------------------------------------------------
  // Properties of extraction
  // ---------------------------------------------------------------------

  /** One record per event, in input order. */
  lemma {:induction false} EventRecordsAt(es: seq<Value>)
    requires WfEvents(es)
    ensures |EventRecords(es)| == |es|
    ensures forall i :: 0 <= i < |es| ==> EventRecords(es)[i] == EventRecord(es[i])
  {
    if es != [] {
      EventRecordsAt(es[..|es| - 1]);
    }
  }

  /** A document without an `events` key has no events (and is no error). */
  lemma NoEventsKey(d: Value)
    requires WfDocument(d) && "events" !in d.fields
    ensures AllEvents(d) == []
  {
  }

  /** Filtering parts commutes with concatenation: the kept texts keep their order. */
  lemma {:induction false} ContentPartsAppend(a: seq<Value>, b: seq<Value>)
    requires WfParts(a) && WfParts(b)
    ensures WfParts(a + b)
    ensures ContentParts(a + b) == ContentParts(a) + ContentParts(b)
    decreases |b|
  {
    if b != [] {
      var b' := b[..|b| - 1];
      assert (a + b)[..|a + b| - 1] == a + b';
      ContentPartsAppend(a, b');
    } else {
      assert a + b == a;
    }
  }

  /** A text is kept exactly when some part carries it under `text`. */
  lemma {:induction false} ContentPartsMembers(ps: seq<Value>, t: string)
    requires WfParts(ps)
    ensures t in ContentParts(ps) <==>
            exists i :: 0 <= i < |ps| && "text" in ps[i].fields && ps[i].fields["text"] == Str(t)
  {
    if ps != [] {
      var init := ps[..|ps| - 1];
      ContentPartsMembers(init, t);
      if exists i :: 0 <= i < |ps| && "text" in ps[i].fields && ps[i].fields["text"] == Str(t) {
        var i :| 0 <= i < |ps| && "text" in ps[i].fields && ps[i].fields["text"] == Str(t);
        if i < |ps| - 1 {
          assert init[i] == ps[i];
        }
      }
      if t in ContentParts(init) {
        var i :| 0 <= i < |init| && "text" in init[i].fields && init[i].fields["text"] == Str(t);
        assert ps[i] == init[i];
      }
    }
  }

  /** Filtering chunks commutes with concatenation. */
  lemma {:induction false} GroundingChunksAppend(a: seq<Value>, b: seq<Value>)
    requires WfChunks(a) && WfChunks(b)
    ensures WfChunks(a + b)
    ensures GroundingChunks(a + b) == GroundingChunks(a) + GroundingChunks(b)
    decreases |b|
  {
    if b != [] {
      var b' := b[..|b| - 1];
      assert (a + b)[..|a + b| - 1] == a + b';
      GroundingChunksAppend(a, b');
    } else {
      assert a + b == a;
    }
  }

  /** A record is kept exactly when some chunk has a `web` object it is made of. */
  lemma {:induction false} GroundingChunksMembers(cs: seq<Value>, c: Chunk)
    requires WfChunks(cs)
    ensures c in GroundingChunks(cs) <==>
            exists i :: 0 <= i < |cs| && "web" in cs[i].fields && c == WebChunk(cs[i].fields["web"])
  {
    if cs != [] {
      var init := cs[..|cs| - 1];
      GroundingChunksMembers(init, c);
      if exists i :: 0 <= i < |cs| && "web" in cs[i].fields && c == WebChunk(cs[i].fields["web"]) {
        var i :| 0 <= i < |cs| && "web" in cs[i].fields && c == WebChunk(cs[i].fields["web"]);
        if i < |cs| - 1 {
          assert init[i] == cs[i];
        }
      }
      if c in GroundingChunks(init) {
        var i :| 0 <= i < |init| && "web" in init[i].fields && c == WebChunk(init[i].fields["web"]);
        assert cs[i] == init[i];
      }
    }
  }

  /** Every support is kept, in order, with its defaults. */
  lemma {:induction false} GroundingSupportsAt(ss: seq<Value>)
    requires AllObjects(ss)
    ensures |GroundingSupports(ss)| == |ss|
    ensures forall i :: 0 <= i < |ss| ==>
              GroundingSupports(ss)[i] ==
                Support(Get(ss[i], "groundingChunkIndices", Arr([])), Get(ss[i], "segment", Obj(map[])))
  {
    if ss != [] {
      GroundingSupportsAt(ss[..|ss| - 1]);
    }
  }

  /** Without `groundingMetadata` an event has no chunks, supports or queries;
      with it, the queries are `webSearchQueries` as given. */
  lemma MetadataDefaults(e: Value)
    requires WfEvent(e)
    ensures "groundingMetadata" !in e.fields ==>
              && EventRecord(e).groundingChunks == []
              && EventRecord(e).groundingSupports == []
              && EventRecord(e).searchQueries == []
    ensures "groundingMetadata" in e.fields && "webSearchQueries" in e.fields["groundingMetadata"].fields ==>
              EventRecord(e).searchQueries == e.fields["groundingMetadata"].fields["webSearchQueries"].items
  {
  }

  // ---------------------------------------------------------------------
  // extract_all_events
  // ---------------------------------------------------------------------

  /** The body of the loop of `extract_all_events` for one event: walks its
      parts, chunks and supports, appending to the lists of its record. */
  method ExtractEvent(event: Value) returns (record: Event)
    requires WfEvent(event)
    ensures record == EventRecord(event)
  {
    var content := Get(event, "content", Obj(map[]));
    var metadata := Get(event, "groundingMetadata", Obj(map[]));
    var texts := ExtractTexts(Items(content, "parts"));
    var records := ExtractChunks(Items(metadata, "groundingChunks"));
    var supportRecords := ExtractSupports(Items(metadata, "groundingSupports"));
    record := Event(
      Get(event, "id", Null), Get(event, "timestamp", Null), Get(event, "author", Null),
      Get(event, "invocationId", Null), Get(content, "role", Null),
      texts, records, supportRecords, Items(metadata, "webSearchQueries"));
  }

  /** The parts loop: appends the `text` of each part that has one. */
  method ExtractTexts(parts: seq<Value>) returns (texts: seq<string>)
    requires WfParts(parts)
    ensures texts == ContentParts(parts)
  {
    texts := [];
    var j := 0;
    while j < |parts|
      invariant 0 <= j <= |parts|
      invariant WfParts(parts[..j]) && texts == ContentParts(parts[..j])
    {
      var part := parts[j];
      if "text" in part.fields {
        texts := texts + [part.fields["text"].s];
      }
      assert parts[..j + 1][..j] == parts[..j];
      j := j + 1;
    }
    assert parts[..j] == parts;
  }

  /** The chunks loop: appends a `{domain, title, uri}` record for each chunk with `web`. */
  method ExtractChunks(chunks: seq<Value>) returns (records: seq<Chunk>)
    requires WfChunks(chunks)
    ensures records == GroundingChunks(chunks)
  {
    records := [];
    var j := 0;
    while j < |chunks|
      invariant 0 <= j <= |chunks|
      invariant WfChunks(chunks[..j]) && records == GroundingChunks(chunks[..j])
    {
      var chunk := chunks[j];
      if "web" in chunk.fields {
        var web := chunk.fields["web"];
        records := records + [Chunk(Get(web, "domain", Null), Get(web, "title", Null), Get(web, "uri", Null))];
      }
      assert chunks[..j + 1][..j] == chunks[..j];
      j := j + 1;
    }
    assert chunks[..j] == chunks;
  }

  /** The supports loop: appends every support with its defaults. */
  method ExtractSupports(supports: seq<Value>) returns (supportRecords: seq<Support>)
    requires AllObjects(supports)
    ensures supportRecords == GroundingSupports(supports)
  {
    supportRecords := [];
    var j := 0;
    while j < |supports|
      invariant 0 <= j <= |supports|
      invariant AllObjects(supports[..j]) && supportRecords == GroundingSupports(supports[..j])
    {
      var support := supports[j];
      supportRecords := supportRecords + [Support(Get(support, "groundingChunkIndices", Arr([])), Get(support, "segment", Obj(map[])))];
      assert supports[..j + 1][..j] == supports[..j];
      j := j + 1;
    }
    assert supports[..j] == supports;
  }

  /** `extract_all_events`: one record per event, appended in order. */
  method ExtractAllEvents(ex: Extractor) returns (events: seq<Event>)
    requires WfDocument(ex.data)
    ensures events == AllEvents(ex.data)
  {
    events := [];
    var es := Items(ex.data, "events");
    var i := 0;
    while i < |es|
      invariant 0 <= i <= |es|
      invariant WfEvents(es[..i]) && events == EventRecords(es[..i])
    {
      var record := ExtractEvent(es[i]);
      events := events + [record];
      assert es[..i + 1][..i] == es[..i];
      i := i + 1;
    }
    assert es[..i] == es;
  }

  // ---------------------------------------------------------------------
  // get_event_summary
  // ---------------------------------------------------------------------

  /** `row` is the summary of `e`: the same identity columns, the total length
      of the texts, and the sizes of the three extracted lists. */
  predicate Summarizes(row: SummaryRow, e: Event)
  {
    && row.id == e.id && row.author == e.author
    && row.role == e.role && row.timestamp == e.timestamp
    && row.contentLength == SumLengths(e.contentParts)
    && row.groundingChunksCount == |e.groundingChunks|
    && row.groundingSupportsCount == |e.groundingSupports|
    && row.searchQueriesCount == |e.searchQueries|
  }

  /** `get_event_summary`: one summary row per extracted event, in order. */
  method GetEventSummary(ex: Extractor) returns (rows: seq<SummaryRow>)
    requires WfDocument(ex.data)
    ensures |rows| == |AllEvents(ex.data)|
    ensures forall i :: 0 <= i < |rows| ==> Summarizes(rows[i], AllEvents(ex.data)[i])
  {
    var events := ExtractAllEvents(ex);
    rows := [];
    var i := 0;
    while i < |events|
      invariant 0 <= i <= |events| && |rows| == i
      invariant forall k :: 0 <= k < i ==> Summarizes(rows[k], events[k])
    {
      var e := events[i];
      ConcatLength(e.contentParts);
      rows := rows + [SummaryRow(
        e.id, e.author, e.role, e.timestamp,
        |Concat(e.contentParts)|, |e.groundingChunks|, |e.groundingSupports|, |e.searchQueries|)];
      i := i + 1;
    }
  }

  /** Event A of a worked log: one text "hello" and no grounding metadata. */
  function SampleEventA(): Value
  {
    Obj(map["id" := Str("a"), "content" := Obj(map["parts" := Arr([Obj(map["text" := Str("hello")])])])])
  }

  /** Event B of a worked log: one text "hi there", one chunk from
      "example.com" and one search query. */
  function SampleEventB(): Value
  {
    Obj(map[
      "id" := Str("b"),
      "content" := Obj(map["parts" := Arr([Obj(map["text" := Str("hi there")])])]),
      "groundingMetadata" := Obj(map[
        "groundingChunks" := Arr([Obj(map["web" := Obj(map["domain" := Str("example.com")])])]),
        "webSearchQueries" := Arr([Str("query1")])])])
  }

  /** The worked log: events A and B, in that order. */
  function SampleLog(): Value
  {
    Obj(map["events" := Arr([SampleEventA(), SampleEventB()])])
  }

  lemma SampleEventARecord()
    ensures WfEvent(SampleEventA())
    ensures SumLengths(EventRecord(SampleEventA()).contentParts) == 5
    ensures |EventRecord(SampleEventA()).groundingChunks| == 0
    ensures |EventRecord(SampleEventA()).searchQueries| == 0
  {
  }

  lemma SampleEventBRecord()
    ensures WfEvent(SampleEventB())
    ensures SumLengths(EventRecord(SampleEventB()).contentParts) == 8
    ensures |EventRecord(SampleEventB()).groundingChunks| == 1
    ensures |EventRecord(SampleEventB()).searchQueries| == 1
  {
  }

  /** A log of two events extracts to their two records, in order. */
  lemma TwoEventLog(a: Value, b: Value)
    requires WfEvent(a) && WfEvent(b)
    ensures WfDocument(Obj(map["events" := Arr([a, b])]))
    ensures AllEvents(Obj(map["events" := Arr([a, b])])) == [EventRecord(a), EventRecord(b)]
  {
    var es := [a, b];
    assert Items(Obj(map["events" := Arr(es)]), "events") == es;
    assert es[..1] == [a];
    assert EventRecords([a]) == [EventRecord(a)] by {
      assert [a][..0] == [];
    }
  }

  /** The summary of the worked log: lengths 5 and 8, chunk and query counts 0 and 1. */
  lemma SampleLogSummary()
    ensures WfDocument(SampleLog())
    ensures |AllEvents(SampleLog())| == 2
    ensures SumLengths(AllEvents(SampleLog())[0].contentParts) == 5
    ensures |AllEvents(SampleLog())[0].groundingChunks| == 0
    ensures |AllEvents(SampleLog())[0].searchQueries| == 0
    ensures SumLengths(AllEvents(SampleLog())[1].contentParts) == 8
    ensures |AllEvents(SampleLog())[1].groundingChunks| == 1
    ensures |AllEvents(SampleLog())[1].searchQueries| == 1
  {
    SampleEventARecord();
    SampleEventBRecord();
    TwoEventLog(SampleEventA(), SampleEventB());
  }

  // ---------------------------------------------------------------------
  // get_grounding_sources
  // ---------------------------------------------------------------------

  /** The domain a chunk record contributes: its domain if that is a non-empty string. */
  function ChunkDomain(c: Chunk): seq<string>
  {
    if c.domain.Str? && c.domain.s != "" then [c.domain.s] else []
  }

  /** The non-empty domains of a list of chunk records, in order. */
  function ChunkDomains(cs: seq<Chunk>): seq<string>
  {
    if cs == [] then [] else ChunkDomains(cs[..|cs| - 1]) + ChunkDomain(cs[|cs| - 1])
  }

  /** Taking one more chunk adds that chunk's domain, if any. */
  lemma ChunkDomainsSnoc(cs: seq<Chunk>, j: nat)
    requires j < |cs|
    ensures ChunkDomains(cs[..j + 1]) == ChunkDomains(cs[..j]) + ChunkDomain(cs[j])
  {
    assert cs[..j + 1][..j] == cs[..j];
  }

  /** The non-empty domains of all chunks of all events, event by event, in order. */
  function NamedDomains(events: seq<Event>): seq<string>
  {
    if events == [] then []
    else NamedDomains(events[..|events| - 1]) + ChunkDomains(events[|events| - 1].groundingChunks)
  }

  /** Every chunk record of every event has a string or None domain. */
  predicate EventsTyped(events: seq<Event>)
  {
    forall i, j :: 0 <= i < |events| && 0 <= j < |events[i].groundingChunks| ==>
      DomainTyped(events[i].groundingChunks[j])
  }

  lemma AllEventsTyped(d: Value)
    requires WfDocument(d)
    ensures EventsTyped(AllEvents(d))
  {
    EventRecordsAt(Items(d, "events"));
  }

  /** A domain is listed exactly when it is non-empty and some chunk of some event has it. */
  lemma {:induction false} NamedDomainsMembers(events: seq<Event>, d: string)
    ensures d in NamedDomains(events) <==>
            d != "" && exists i, j :: 0 <= i < |events| && 0 <= j < |events[i].groundingChunks| &&
                                      events[i].groundingChunks[j].domain == Str(d)
  {
    if events != [] {
      var init := events[..|events| - 1];
      var last := events[|events| - 1];
      NamedDomainsMembers(init, d);
      ChunkDomainsMembers(last.groundingChunks, d);
      if d != "" && exists i, j :: 0 <= i < |events| && 0 <= j < |events[i].groundingChunks| &&
                                   events[i].groundingChunks[j].domain == Str(d) {
        var i, j :| 0 <= i < |events| && 0 <= j < |events[i].groundingChunks| &&
                    events[i].groundingChunks[j].domain == Str(d);
        if i < |events| - 1 {
          assert init[i] == events[i];
        }
      }
      if d in NamedDomains(init) {
        var i, j :| 0 <= i < |init| && 0 <= j < |init[i].groundingChunks| &&
                    init[i].groundingChunks[j].domain == Str(d);
        assert events[i] == init[i];
      }
    }
  }

  lemma {:induction false} ChunkDomainsMembers(cs: seq<Chunk>, d: string)
    ensures d in ChunkDomains(cs) <==> d != "" && exists j :: 0 <= j < |cs| && cs[j].domain == Str(d)
  {
    if cs != [] {
      var init := cs[..|cs| - 1];
      ChunkDomainsMembers(init, d);
      if d != "" && exists j :: 0 <= j < |cs| && cs[j].domain == Str(d) {
        var j :| 0 <= j < |cs| && cs[j].domain == Str(d);
        if j < |cs| - 1 {
          assert init[j] == cs[j];
        }
      }
      if d in ChunkDomains(init) {
        var j :| 0 <= j < |init| && init[j].domain == Str(d);
        assert cs[j] == init[j];
      }
    }
  }

  /** `get_grounding_sources`: the distinct non-empty domains of all chunks,
      in ascending order. */
  method GetGroundingSources(ex: Extractor) returns (sources: seq<string>)
    requires WfDocument(ex.data)
    ensures LexOrder.StrictlySorted(sources)
    ensures forall d :: d in sources <==> d in NamedDomains(AllEvents(ex.data))
  {
    var events := ExtractAllEvents(ex);
    AllEventsTyped(ex.data);
    var domains: set<string> := {};
    var i := 0;
    while i < |events|
      invariant 0 <= i <= |events|
      invariant forall d :: d in domains <==> d in NamedDomains(events[..i])
    {
      assert events[..i + 1][..i] == events[..i];
      assert NamedDomains(events[..i + 1]) == NamedDomains(events[..i]) + ChunkDomains(events[i].groundingChunks);
      domains := AddChunkDomains(domains, events[i].groundingChunks);
      i := i + 1;
    }
    assert events[..i] == events;
    sources := LexOrder.SortedList(domains);
  }

  /** The inner loop of `get_grounding_sources`: `domains.add(chunk['domain'])`
      for each chunk of one event whose domain is truthy. */
  method AddChunkDomains(domains0: set<string>, chunks: seq<Chunk>) returns (domains: set<string>)
    requires forall j :: 0 <= j < |chunks| ==> DomainTyped(chunks[j])
    ensures forall d :: d in domains <==> d in domains0 || d in ChunkDomains(chunks)
  {
    domains := domains0;
    var j := 0;
    while j < |chunks|
      invariant 0 <= j <= |chunks|
      invariant forall d :: d in domains <==> d in domains0 || d in ChunkDomains(chunks[..j])
    {
      var chunk := chunks[j];
      ChunkDomainsSnoc(chunks, j);
      if Truthy(chunk.domain) {
        domains := domains + {chunk.domain.s};
      }
      j := j + 1;
    }
    assert chunks[..j] == chunks;
  }
}
