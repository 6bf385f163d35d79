/**
 * The JSON-LD parser stream: input classification, the conversion pipeline
 * and the events it produces. The stream's observable behaviour is modelled
 * as the sequence of events it emits, in order: `prefix` events, pushed quads
 * (`data`), `error` events and the end-of-stream marker (`push(null)`).
 */
module Parser {
  import opened Wrappers
  import opened JsValues
  import opened Terms

  /** One observable action of the stream. */
  datatype Event =
    | Prefix(name: string, iri: Value)  // emit('prefix', name, factory.namedNode(iri))
    | Data(quad: Quad)                  // push(quad)
    | Error(error: Err)                 // emit('error', error)
    | End                               // push(null)

  /** The options the constructor reads; the `factory` option is not modelled (the default factory is). */
  datatype ParserOptions = ParserOptions(baseIRI: Value, context: Value)

  /** The options handed to the processor's toRDF. */
  datatype RdfOptions = RdfOptions(base: Value, expandContext: Option<Value>)

  /** JSON.parse: a value, or the error it throws. */
  type JsonParse = string -> Result<Value, Err>

  /** The JSON-LD processor's toRDF: the raw quads, or the error it rejects with. */
  type ToRdf = (Value, RdfOptions) -> Result<seq<RawQuad>, Err>

  /** The static toJson: text is parsed, any `typeof 'object'` value passes, anything else is refused. */
  function ToJson(data: Value, parse: JsonParse): (r: Result<Value, Err>)
    ensures data.Str? ==> r == parse(data.s)
    ensures data.Null? || data.Arr? || data.Obj? ==> r == Success(data)
    ensures data.Undefined? || data.Bool? || data.Number? || data.Function? ==> r == Failure(UnknownType)
  {
    if TypeOf(data) == "string" then parse(data.s)
    else if TypeOf(data) == "object" then Success(data)
    else Failure(UnknownType)
  }

  /** The constructor's `options.baseIRI || ''`, with missing options read as `{}`. */
  function BaseIriSetting(options: Option<ParserOptions>): Value
  {
    Or(if options.Some? then options.value.baseIRI else Undefined, Str(""))
  }

  /** The constructor's `options.context`, with missing options read as `{}`. */
  function ContextSetting(options: Option<ParserOptions>): Value
  {
    if options.Some? then options.value.context else Undefined
  }

  /** The toRDF options parse builds from the stream's fields. */
  function RdfOptionsOf(baseIRI: Value, context: Value): RdfOptions
  {
    RdfOptions(baseIRI, if Truthy(context) then Some(context) else None)
  }

  /**
   * `'@context' in json` followed by `Object.keys(json['@context'])`, each key
   * paired with its value. Arrays and functions have no `@context` property;
   * `in` throws for every other non-object.
   */
  function ContextPrefixes(json: Value): Result<seq<(string, Value)>, Err>
  {
    match json
    case Obj(ms) =>
      (match Lookup(ms, "@context")
       case None => Success([])
       case Some(ctx) => KeyedEntries(ctx))
    case Arr(_) => Success([])
    case Function => Success([])
    case _ => Failure(InOnPrimitive)
  }

  /** The prefix events emitted for the context entries, in their order. */
  function PrefixEvents(entries: seq<(string, Value)>): seq<Event>
  {
    if entries == [] then []
    else PrefixEvents(entries[..|entries| - 1]) + [Prefix(entries[|entries| - 1].0, entries[|entries| - 1].1)]
  }

  /** The quads pushed for the processor's result, in index order. */
  function QuadEvents(raw: seq<RawQuad>): seq<Event>
  {
    if raw == [] then []
    else QuadEvents(raw[..|raw| - 1]) + [Data(MapTerms(raw[|raw| - 1]))]
  }

  /** The second `.then`: a rejection becomes the one error; a result yields its quads. */
  function ConversionEvents(converted: Result<seq<RawQuad>, Err>): seq<Event>
  {
    match converted
    case Failure(e) => [Error(e)]
    case Success(raw) => QuadEvents(raw)
  }

  /**
   * The first `.then`, on the document: prefixes are emitted before toRDF
   * runs, so a conversion failure follows them; an `in` or `Object.keys`
   * failure throws before any prefix is emitted.
   */
  function JsonEvents(json: Value, options: RdfOptions, toRdf: ToRdf): seq<Event>
  {
    match ContextPrefixes(json)
    case Failure(e) => [Error(e)]
    case Success(entries) => PrefixEvents(entries) + ConversionEvents(toRdf(json, options))
  }

  /** The events of `parse(data)`: every failure ends in one error event, after which the promise resolves. */
  function ParseEvents(data: Value, options: RdfOptions, parse: JsonParse, toRdf: ToRdf): seq<Event>
  {
    match ToJson(data, parse)
    case Failure(e) => [Error(e)]
    case Success(json) => JsonEvents(json, options, toRdf)
  }

  /** Whether reading the context or the conversion of the document throws or rejects. */
  predicate JsonFails(json: Value, options: RdfOptions, toRdf: ToRdf)
  {
    ContextPrefixes(json).Failure? || toRdf(json, options).Failure?
  }

  /** Whether some stage of `parse(data)` throws or rejects. */
  predicate Fails(data: Value, options: RdfOptions, parse: JsonParse, toRdf: ToRdf)
  {
    match ToJson(data, parse)
    case Failure(_) => true
    case Success(json) => JsonFails(json, options, toRdf)
  }

  /** The events of the completion callback for the aggregated text `data`. */
  function CompletionEvents(data: string, options: RdfOptions, parse: JsonParse, toRdf: ToRdf): seq<Event>
  {
    if data == "" then [End] else ParseEvents(Str(data), options, parse, toRdf) + [End]
  }

  /** No prefix event follows an event that is not a prefix. */
  ghost predicate PrefixesFirst(ev: seq<Event>) {
    forall i, j :: 0 <= i < j < |ev| && ev[j].Prefix? ==> ev[i].Prefix?
  }

  /** An error event can only be the last event. */
  ghost predicate ErrorOnlyLast(ev: seq<Event>) {
    forall i :: 0 <= i < |ev| && ev[i].Error? ==> i == |ev| - 1
  }

  /** The stream end marker does not occur. */
  ghost predicate NoEnd(ev: seq<Event>) {
    forall i :: 0 <= i < |ev| ==> !ev[i].End?
  }

  /** The stream: its settings and the events it has emitted so far. */
  class ParserStream {
    const baseIRI: Value
    const context: Value
    var events: seq<Event>

    /** Reads the options; aggregation of the input starts here and ends in OnData. */
    constructor (options: Option<ParserOptions>)
      ensures baseIRI == BaseIriSetting(options) && context == ContextSetting(options)
      ensures events == []
    {
      baseIRI := BaseIriSetting(options);
      context := ContextSetting(options);
      events := [];
    }

    /** `parse(data)`: emits prefixes, runs toRDF, pushes one quad per raw quad, reports any failure. */
    method Parse(data: Value, parse: JsonParse, toRdf: ToRdf)
      modifies this`events
      ensures events == old(events) + ParseEvents(data, RdfOptionsOf(baseIRI, context), parse, toRdf)
    {
      var json := ToJson(data, parse);
      if json.Failure? {
        events := events + [Error(json.error)];
        return;
      }
      OnJson(json.value, RdfOptionsOf(baseIRI, context), toRdf);
    }

    /** The first `.then`: emits the context's prefixes, then runs toRDF and pushes its result. */
    method OnJson(json: Value, options: RdfOptions, toRdf: ToRdf)
      modifies this`events
      ensures events == old(events) + JsonEvents(json, options, toRdf)
    {
      var prefixes := ContextPrefixes(json);
      if prefixes.Failure? {
        events := events + [Error(prefixes.error)];
        return;
      }
      EmitPrefixes(prefixes.value);
      var rawGraph := toRdf(json, options);
      OnRawGraph(rawGraph);
    }

    /** The second `.then` and the `.catch`: pushes the quads, or reports the rejection. */
    method OnRawGraph(rawGraph: Result<seq<RawQuad>, Err>)
      modifies this`events
      ensures events == old(events) + ConversionEvents(rawGraph)
    {
      if rawGraph.Failure? {
        events := events + [Error(rawGraph.error)];
        return;
      }
      PushQuads(rawGraph.value);
    }

    /** The `forEach` over the context keys: one prefix event per entry, in order. */
    method EmitPrefixes(entries: seq<(string, Value)>)
      modifies this`events
      ensures events == old(events) + PrefixEvents(entries)
    {
      var i := 0;
      while i < |entries|
        invariant 0 <= i <= |entries|
        invariant events == old(events) + PrefixEvents(entries[..i])
      {
        PrefixEventsSnoc(entries, i);
        events := events + [Prefix(entries[i].0, entries[i].1)];
        i := i + 1;
      }
      assert entries[..i] == entries;
    }

    /** The `for...in` over the processor's result: one pushed quad per raw quad, in index order. */
    method PushQuads(raw: seq<RawQuad>)
      modifies this`events
      ensures events == old(events) + QuadEvents(raw)
    {
      var index := 0;
      while index < |raw|
        invariant 0 <= index <= |raw|
        invariant events == old(events) + QuadEvents(raw[..index])
      {
        QuadEventsSnoc(raw, index);
        events := events + [Data(MapTerms(raw[index]))];
        index := index + 1;
      }
      assert raw[..index] == raw;
    }

    /** The completion callback of the aggregation: empty text ends at once, otherwise parse and then end. */
    method OnData(data: string, parse: JsonParse, toRdf: ToRdf)
      modifies this`events
      ensures events == old(events) + CompletionEvents(data, RdfOptionsOf(baseIRI, context), parse, toRdf)
    {
      if data == "" {
        events := events + [End];
        return;
      }
      Parse(Str(data), parse, toRdf);
      events := events + [End];
    }

    /** The input stream's error listener forwards the error. */
    method OnInputError(detail: string)
      modifies this`events
      ensures events == old(events) + [Error(InputError(detail))]
    {
      events := events + [Error(InputError(detail))];
    }
  }

  /** Emitting one more entry extends the prefix events by that entry's event. */
  lemma PrefixEventsSnoc(entries: seq<(string, Value)>, i: nat)
    requires i < |entries|
    ensures PrefixEvents(entries[..i + 1]) == PrefixEvents(entries[..i]) + [Prefix(entries[i].0, entries[i].1)]
  {
    assert entries[..i + 1][..i] == entries[..i];
  }

  /** Pushing one more raw quad extends the quad events by that quad's event. */
  lemma QuadEventsSnoc(raw: seq<RawQuad>, k: nat)
    requires k < |raw|
    ensures QuadEvents(raw[..k + 1]) == QuadEvents(raw[..k]) + [Data(MapTerms(raw[k]))]
  {
    assert raw[..k + 1][..k] == raw[..k];
  }

  /** The toRDF base is the baseIRI option when truthy and '' otherwise; expandContext is the context option exactly when that is truthy. */
  lemma OptionDefaults(options: Option<ParserOptions>)
    ensures var o := RdfOptionsOf(BaseIriSetting(options), ContextSetting(options));
      (options.Some? && Truthy(options.value.baseIRI) ==> o.base == options.value.baseIRI) &&
      (!(options.Some? && Truthy(options.value.baseIRI)) ==> o.base == Str("")) &&
      (o.expandContext.Some? <==> options.Some? && Truthy(options.value.context)) &&
      (o.expandContext.Some? ==> o.expandContext.value == options.value.context)
  {
  }

  /** The prefix events are one per entry, each pairing the entry's key with its value. */
  lemma {:induction false} PrefixEventsAt(entries: seq<(string, Value)>)
    ensures |PrefixEvents(entries)| == |entries|
    ensures forall i :: 0 <= i < |entries| ==> PrefixEvents(entries)[i] == Prefix(entries[i].0, entries[i].1)
  {
    if entries != [] {
      PrefixEventsAt(entries[..|entries| - 1]);
    }
  }

  /** The quad events are one per raw quad, in index order, each the raw quad's four rewritten terms. */
  lemma {:induction false} QuadEventsAt(raw: seq<RawQuad>)
    ensures |QuadEvents(raw)| == |raw|
    ensures forall k :: 0 <= k < |raw| ==> QuadEvents(raw)[k] == Data(MapTerms(raw[k]))
  {
    if raw != [] {
      QuadEventsAt(raw[..|raw| - 1]);
    }
  }

  /** With an object `@context` the entries are its members in order; without one there are none; `in` on a primitive throws. */
  lemma ContextPrefixesCases(json: Value)
    ensures json.Obj? && Lookup(json.members, "@context").Some? && Lookup(json.members, "@context").value.Obj? ==>
      ContextPrefixes(json) == Success(Lookup(json.members, "@context").value.members)
    ensures json.Obj? && Lookup(json.members, "@context").None? ==> ContextPrefixes(json) == Success([])
    ensures json.Arr? ==> ContextPrefixes(json) == Success([])
    ensures json.Undefined? || json.Null? || json.Bool? || json.Number? || json.Str? ==>
      ContextPrefixes(json) == Failure(InOnPrimitive)
  {
  }

  /**
   * Once the document is read and its context enumerated, the trace opens
   * with exactly one prefix event per entry, in entry order, and no prefix
   * event comes later.
   */
  lemma ParsePrefixesInKeyOrder(data: Value, options: RdfOptions, parse: JsonParse, toRdf: ToRdf, json: Value, entries: seq<(string, Value)>)
    requires ToJson(data, parse) == Success(json)
    requires ContextPrefixes(json) == Success(entries)
    ensures var ev := ParseEvents(data, options, parse, toRdf);
      |entries| <= |ev| &&
      (forall i :: 0 <= i < |entries| ==> ev[i] == Prefix(entries[i].0, entries[i].1)) &&
      (forall i :: |entries| <= i < |ev| ==> !ev[i].Prefix?)
  {
    PrefixEventsAt(entries);
    if toRdf(json, options).Success? {
      QuadEventsAt(toRdf(json, options).value);
    }
  }

  /** In every trace of parse, all prefix events come before any other event. */
  lemma ParsePrefixesFirst(data: Value, options: RdfOptions, parse: JsonParse, toRdf: ToRdf)
    ensures PrefixesFirst(ParseEvents(data, options, parse, toRdf))
  {
    if ToJson(data, parse).Success? && ContextPrefixes(ToJson(data, parse).value).Success? {
      ParsePrefixesInKeyOrder(data, options, parse, toRdf, ToJson(data, parse).value, ContextPrefixes(ToJson(data, parse).value).value);
    }
  }

  /**
   * When every stage succeeds, each raw quad yields exactly one pushed quad,
   * in index order, with its four positions rewritten; nothing else follows
   * the prefixes.
   */
  lemma ParseQuadsInOrder(data: Value, options: RdfOptions, parse: JsonParse, toRdf: ToRdf, json: Value, entries: seq<(string, Value)>, raw: seq<RawQuad>)
    requires ToJson(data, parse) == Success(json)
    requires ContextPrefixes(json) == Success(entries)
    requires toRdf(json, options) == Success(raw)
    ensures var ev := ParseEvents(data, options, parse, toRdf);
      |ev| == |entries| + |raw| &&
      forall k :: 0 <= k < |raw| ==>
        ev[|entries| + k] == Data(Quad(Rewrite(raw[k].subj), Rewrite(raw[k].pred), Rewrite(raw[k].obj), Rewrite(raw[k].graph)))
  {
    var ev := ParseEvents(data, options, parse, toRdf);
    var pre, quads := PrefixEvents(entries), QuadEvents(raw);
    assert ev == pre + quads;
    PrefixEventsAt(entries);
    QuadEventsAt(raw);
    forall k | 0 <= k < |raw|
      ensures ev[|entries| + k] == Data(Quad(Rewrite(raw[k].subj), Rewrite(raw[k].pred), Rewrite(raw[k].obj), Rewrite(raw[k].graph)))
    {
      assert ev[|pre| + k] == quads[k];
    }
  }

  /**
   * Parse never ends the stream itself; it reports an error exactly when a
   * stage fails, then as its last event, and a failing parse pushes no quad.
   */
  lemma ParseErrorSwallowed(data: Value, options: RdfOptions, parse: JsonParse, toRdf: ToRdf)
    ensures var ev := ParseEvents(data, options, parse, toRdf);
      NoEnd(ev) && ErrorOnlyLast(ev) &&
      ((|ev| > 0 && ev[|ev| - 1].Error?) <==> Fails(data, options, parse, toRdf)) &&
      (Fails(data, options, parse, toRdf) ==> forall i :: 0 <= i < |ev| ==> !ev[i].Data?)
  {
    if ToJson(data, parse).Success? {
      JsonErrorSwallowed(ToJson(data, parse).value, options, toRdf);
    }
  }

  /** The same for the events after the document is read. */
  lemma JsonErrorSwallowed(json: Value, options: RdfOptions, toRdf: ToRdf)
    ensures var ev := JsonEvents(json, options, toRdf);
      NoEnd(ev) && ErrorOnlyLast(ev) &&
      ((|ev| > 0 && ev[|ev| - 1].Error?) <==> JsonFails(json, options, toRdf)) &&
      (JsonFails(json, options, toRdf) ==> forall i :: 0 <= i < |ev| ==> !ev[i].Data?)
  {
    if ContextPrefixes(json).Success? {
      var ev := JsonEvents(json, options, toRdf);
      var pre := PrefixEvents(ContextPrefixes(json).value);
      var post := ConversionEvents(toRdf(json, options));
      PrefixEventsAt(ContextPrefixes(json).value);
      assert ev == pre + post;
      if toRdf(json, options).Success? {
        QuadEventsAt(toRdf(json, options).value);
        assert forall i :: 0 <= i < |ev| ==> ev[i].Prefix? || ev[i].Data?;
      } else {
        assert forall i :: 0 <= i < |ev| - 1 ==> ev[i].Prefix?;
      }
    }
  }

  /**
   * The trace of parse, stage by stage: a document that cannot be read, or
   * whose context cannot be enumerated, gives one error and nothing else; past
   * that point the prefix events come first, followed by the processor's
   * error or by the pushed quads.
   */
  lemma ParseEventsByStage(data: Value, options: RdfOptions, parse: JsonParse, toRdf: ToRdf)
    ensures ToJson(data, parse).Failure? ==>
      ParseEvents(data, options, parse, toRdf) == [Error(ToJson(data, parse).error)]
    ensures ToJson(data, parse).Success? && ContextPrefixes(ToJson(data, parse).value).Failure? ==>
      ParseEvents(data, options, parse, toRdf) == [Error(ContextPrefixes(ToJson(data, parse).value).error)]
    ensures ToJson(data, parse).Success? && ContextPrefixes(ToJson(data, parse).value).Success? ==>
      var json := ToJson(data, parse).value;
      var pre := PrefixEvents(ContextPrefixes(json).value);
      ParseEvents(data, options, parse, toRdf) ==
        if toRdf(json, options).Failure? then pre + [Error(toRdf(json, options).error)]
        else pre + QuadEvents(toRdf(json, options).value)
  {
  }

  /** A processor failure comes after all the prefix events, as the one error, with no quad. */
  lemma ParseConversionFailure(data: Value, options: RdfOptions, parse: JsonParse, toRdf: ToRdf, json: Value, entries: seq<(string, Value)>, e: Err)
    requires ToJson(data, parse) == Success(json)
    requires ContextPrefixes(json) == Success(entries)
    requires toRdf(json, options) == Failure(e)
    ensures var ev := ParseEvents(data, options, parse, toRdf);
      |ev| == |entries| + 1 && ev[|entries|] == Error(e) &&
      forall i :: 0 <= i < |entries| ==> ev[i] == Prefix(entries[i].0, entries[i].1)
  {
    PrefixEventsAt(entries);
  }

  /**
   * Text and the value it parses to give the same trace, when that value is
   * an object.
   */
  lemma TextMatchesParsedValue(s: string, v: Value, options: RdfOptions, parse: JsonParse, toRdf: ToRdf)
    requires parse(s) == Success(v)
    requires v.Null? || v.Arr? || v.Obj?
    ensures ParseEvents(Str(s), options, parse, toRdf) == ParseEvents(v, options, parse, toRdf)
  {
  }

  /**
   * The completion trace: empty text ends at once with nothing else; any
   * other text ends exactly once, at the end, and a failure shows as an error
   * immediately followed by that end.
   */
  lemma CompletionTrace(data: string, options: RdfOptions, parse: JsonParse, toRdf: ToRdf)
    ensures data == "" ==> CompletionEvents(data, options, parse, toRdf) == [End]
    ensures var ev := CompletionEvents(data, options, parse, toRdf);
      |ev| > 0 && ev[|ev| - 1] == End &&
      (forall i :: 0 <= i < |ev| - 1 ==> !ev[i].End?) &&
      (data != "" && Fails(Str(data), options, parse, toRdf) ==> |ev| >= 2 && ev[|ev| - 2].Error?) &&
      (forall i :: 0 <= i < |ev| && ev[i].Error? ==> i == |ev| - 2)
  {
    if data != "" {
      ParseErrorSwallowed(Str(data), options, parse, toRdf);
    }
  }

  /** Malformed text gives exactly one error, that of JSON.parse, then the end of the stream. */
  lemma MalformedTextTrace(data: string, options: RdfOptions, parse: JsonParse, toRdf: ToRdf, e: Err)
    requires data != ""
    requires parse(data) == Failure(e)
    ensures CompletionEvents(data, options, parse, toRdf) == [Error(e), End]
  {
  }
}
