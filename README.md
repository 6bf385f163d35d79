# JSON-LD parser stream — a Dafny model

This project models the core of `rdf-parser-jsonld`, the `ParserStream` class in
`lib/ParserStream.js`. The stream takes JSON-LD input and emits RDF quads. It
aggregates the input into one text, classifies it (`toJson`), and emits one
`prefix` event per `@context` entry. It then runs the JSON-LD processor's
`toRDF` and pushes each resulting quad, with every term rewritten from the
processor's raw shape into the data model's shape (`term`).

Everything the stream does is observable as the sequence of events it emits,
so the model keeps them as one field, `ParserStream.events : seq<Event>`, where
`Event ::= Prefix(name, iri) | Data(quad) | Error(err) | End`. `Data` is a
pushed quad, and `End` is `push(null)`. Each method appends the events its
source counterpart would emit. For each method there is a pure function
(`ParseEvents`, `JsonEvents`, `ConversionEvents`, `CompletionEvents`) that gives the same trace;
`parse`'s promise chain is split along its two `.then` steps. The trace
properties are proved as lemmas about those functions.

Modules:
- `Wrappers`: `Option` (None is `undefined`) and `Result` (a thrown or rejected error).
- `JsValues`: the JavaScript values the stream handles, plus `typeof`, truthiness, `||`, and `Object.keys` paired with property access.
- `Terms`: raw terms, data-model terms, the `term` rewrite and `mapTerms`.
- `Parser`: `toJson`, the option defaults, the event traces and the `ParserStream` class.

The two foreign calls are parameters. `JSON.parse` is a `string -> Result<Value, Err>`, and the
processor's `toRDF` is a `(Value, RdfOptions) -> Result<seq<RawQuad>, Err>`.
The term factory is the default data-model factory: its constructors are the
constructors of `Terms.Term`, and its `quad` is `Terms.Quad`.

Behaviour of the code that a reader may not expect:
- `parse` catches its own errors and then resolves. So the completion callback still pushes the end marker, and a failing document gives `…, Error(e), End`: both an error and an end, not one terminal signal. As long as no `error` listener throws, the constructor's `.catch` (lib/ParserStream.js:30-32) never runs. A listener that throws inside `parse`'s `.catch` (line 81) would make `parse` reject, and line 31 would emit the error a second time.
- Prefix events are emitted before `toRDF` runs. So a conversion failure comes after all of them, not instead of them.
- `toRDF`'s result is read as one flat sequence of quads, not as per-graph groups.
- An unknown `termType` gives `undefined` silently, with no internal error. The blank-node rewrite drops any two leading characters without checking that they are `_:`.
- A literal's second factory argument is the raw datatype object itself. `term` does not rewrite it.
- The document need not be a mapping. `'@context' in json` throws a `TypeError` for null and for primitives, and that error is reported like any other. An array `@context` gives one prefix per index.

## Model

| member | source | states |
|---|---|---|
| `Terms.RewriteDefinedOnKnownTypes` | lib/ParserStream.js:46-57 | the rewrite yields a term exactly when `termType` is one of the four known kinds, and the term is of the matching kind; any other kind falls through to `undefined` |
| `Terms.RewriteNamedNodeAndDefaultGraph` | lib/ParserStream.js:48-49 | a named node keeps its raw value verbatim; a default graph becomes the default-graph marker (lines 54-55) |
| `Terms.Substr2` | lib/ParserStream.js:51 | `substr(2)` is the value without its first two characters, or "" when it has fewer than two |
| `Terms.RewriteBlankNodeStripsTwo` | lib/ParserStream.js:50-51 | a blank node's id is its raw value minus the first two characters, whatever they are; shorter values give the empty id |
| `Terms.RewriteBlankNodeExample` | lib/ParserStream.js:51 | the raw label `_:b0` becomes the blank node `b0` |
| `Terms.RewriteLiteral` | lib/ParserStream.js:52-53 | a literal keeps its lexical value; its second argument is the language iff that is non-empty, else the unchanged raw datatype iff one is present, else nothing |
| `Terms.RewriteInvertsToRaw` | lib/ParserStream.js:46-57 | the rewrite undoes the processor's raw encoding (`_:`-prefixed labels, language or datatype) of every data-model term it can produce |
| `Terms.RewriteIsCanonical` | lib/ParserStream.js:53 | the rewrite never produces an empty language tag, so every term it produces round-trips through the raw encoding |
| `Terms.MapTermsPositions` | lib/ParserStream.js:78 | mapping a raw quad rewrites its four positions independently; all four are defined iff all four term types are known |
| `JsValues.TypeOf` | lib/ParserStream.js:86-98 | `typeof` is "string" exactly for strings and "object" exactly for null, arrays and objects |
| `JsValues.Or` | lib/ParserStream.js:16 | `a \|\| b` is `a` when `a` is truthy, otherwise `b`; it is truthy iff either operand is |
| `JsValues.Lookup` | lib/ParserStream.js:62-64 | a key is found iff some member carries it, and the value found is paired with that key |
| `JsValues.KeyedEntriesCases` | lib/ParserStream.js:63-64 | `Object.keys` throws exactly for null and undefined, lists an object's members in order, an array's indices with their elements and a string's indices with its one-character strings, and lists nothing for booleans, numbers and functions |
| `Terms.Rewrite` | lib/ParserStream.js:46-57 | definition of `term`; its properties are in `RewriteDefinedOnKnownTypes`, `RewriteNamedNodeAndDefaultGraph`, `RewriteBlankNodeStripsTwo`, `RewriteLiteral`, `RewriteInvertsToRaw` and `RewriteIsCanonical` |
| `Terms.LiteralArgOf` | lib/ParserStream.js:53 | definition of `term.language \|\| term.datatype`; its properties are in `RewriteLiteral` |
| `Terms.MapTerms` | lib/ParserStream.js:78 | definition of the `mapTerms` call with `term` as mapper; its properties are in `MapTermsPositions` and `QuadEventsAt` |
| `JsValues.Truthy` | lib/ParserStream.js:16 | definition of JavaScript truthiness, as `\|\|` (lines 16, 18) and `if (this.context)` (line 71) use it; its properties are in `Or` and `OptionDefaults` |
| `JsValues.KeyedEntries` | lib/ParserStream.js:63-64 | definition of `Object.keys(v)` paired with `v[key]`; its properties are in `KeyedEntriesCases` |
| `JsValues.IndexNameDenotes` | lib/ParserStream.js:63 | the key `Object.keys` gives an array or string index is that index's decimal numeral, with no leading zero |
| `Parser.ContextPrefixes` | lib/ParserStream.js:62-64 | definition of `'@context' in json` followed by `Object.keys(json['@context'])`; its properties are in `ContextPrefixesCases` |
| `Parser.BaseIriSetting` | lib/ParserStream.js:14-16 | definition of `(options \|\| {}).baseIRI \|\| ''`; its properties are in `OptionDefaults` |
| `Parser.ContextSetting` | lib/ParserStream.js:14-17 | definition of `(options \|\| {}).context`; its properties are in `OptionDefaults` |
| `Parser.RdfOptionsOf` | lib/ParserStream.js:68-73 | definition of the toRDF options built in `parse`; its properties are in `OptionDefaults` |
| `Parser.PrefixEvents` | lib/ParserStream.js:63-65 | definition of the prefix events of the `forEach`; its properties are in `PrefixEventsAt` and `PrefixEventsSnoc` |
| `Parser.QuadEvents` | lib/ParserStream.js:77-79 | definition of the quads pushed by the `for...in`; its properties are in `QuadEventsAt` and `QuadEventsSnoc` |
| `Parser.ParseEvents` | lib/ParserStream.js:59-83 | definition of the trace of `parse`; its properties are in `ParsePrefixesInKeyOrder`, `ParsePrefixesFirst`, `ParseQuadsInOrder`, `ParseErrorSwallowed`, `ParseEventsByStage`, `ParseConversionFailure` and `TextMatchesParsedValue` |
| `Parser.JsonEvents` | lib/ParserStream.js:60-75 | definition of the trace of the first `.then`; its properties are in `JsonErrorSwallowed` and `ParseEventsByStage` |
| `Parser.ConversionEvents` | lib/ParserStream.js:76-82 | definition of the trace of the second `.then` and the `.catch`; its properties are in `JsonErrorSwallowed` and `ParseQuadsInOrder` |
| `Parser.CompletionEvents` | lib/ParserStream.js:21-33 | definition of the trace of the completion callback; its properties are in `CompletionTrace` and `MalformedTextTrace` |
| `Parser.ToJson` | lib/ParserStream.js:85-98 | text is handed to JSON.parse with its result or error; null, arrays and objects pass unchanged; every other type is refused with `unknown type` |
| `Parser.OptionDefaults` | lib/ParserStream.js:14-17 | the toRDF base is the `baseIRI` option when truthy and '' otherwise (also when options are missing); `expandContext` is present iff the `context` option is truthy, and equals it (lines 68-73) |
| `Parser.ContextPrefixesCases` | lib/ParserStream.js:62-63 | an object `@context` yields its members in order; no `@context` yields none; `in` on a primitive or null throws |
| `Parser.PrefixEventsAt` | lib/ParserStream.js:63-65 | one prefix event per context entry, in order, pairing the key with its value |
| `Parser.QuadEventsAt` | lib/ParserStream.js:77-79 | one pushed quad per raw quad, in index order, each its `mapTerms` image |
| `Parser.PrefixEventsSnoc` | lib/ParserStream.js:63 | each `forEach` step appends the next entry's prefix event |
| `Parser.QuadEventsSnoc` | lib/ParserStream.js:77-78 | each loop step appends the next raw quad's pushed quad |
| `Parser.ParsePrefixesInKeyOrder` | lib/ParserStream.js:62-66 | once the context is enumerated, the trace opens with exactly one prefix event per entry, in entry order, and no prefix event follows |
| `Parser.ParsePrefixesFirst` | lib/ParserStream.js:60-79 | in every trace of `parse`, no prefix event follows a non-prefix event |
| `Parser.ParseQuadsInOrder` | lib/ParserStream.js:75-79 | when every stage succeeds, the trace is the prefixes followed by exactly one quad per raw quad, in index order, each position rewritten by `term`: no drop, duplicate or reorder |
| `Parser.ParseErrorSwallowed` | lib/ParserStream.js:80-82 | `parse` never ends the stream; its last event is an error iff some stage fails; an error is only ever last; a failing parse pushes no quad |
| `Parser.JsonErrorSwallowed` | lib/ParserStream.js:62-82 | once the document is read, the trace never ends the stream, ends in an error iff enumerating the context or the conversion fails, and then holds no quad |
| `Parser.ParseEventsByStage` | lib/ParserStream.js:60-82 | a refused or malformed input, or an `in`/`Object.keys` failure, gives exactly one error event and nothing else; past that, the prefix events are followed by the processor error or by the pushed quads |
| `Parser.ParseConversionFailure` | lib/ParserStream.js:62-82 | a toRDF rejection gives all prefix events, then the one error, and no quad |
| `Parser.TextMatchesParsedValue` | lib/ParserStream.js:85-95 | text and the object value it parses to give the same trace |
| `Parser.CompletionTrace` | lib/ParserStream.js:21-33 | empty text gives `[End]` alone; otherwise the end marker occurs exactly once, last, and any error sits immediately before it |
| `Parser.MalformedTextTrace` | lib/ParserStream.js:28-31 | non-empty text that JSON.parse rejects gives exactly `[Error(e), End]` (toJson at lines 86-93) |
| `Parser.ParserStream.constructor` | lib/ParserStream.js:14-17 | the stream stores the defaulted base IRI and the context option, with no events yet |
| `Parser.ParserStream.Parse` | lib/ParserStream.js:59-83 | `parse` appends exactly the `ParseEvents` trace for its settings |
| `Parser.ParserStream.OnJson` | lib/ParserStream.js:60-75 | the first `.then` appends exactly the `JsonEvents` trace: the prefixes, then the conversion's result |
| `Parser.ParserStream.OnRawGraph` | lib/ParserStream.js:76-82 | the second `.then` and the `.catch` append the pushed quads, or the one error of a rejection |
| `Parser.ParserStream.EmitPrefixes` | lib/ParserStream.js:63-65 | the `forEach` appends one prefix event per entry, in order |
| `Parser.ParserStream.PushQuads` | lib/ParserStream.js:77-79 | the `for...in` appends one pushed quad per raw quad, in order |
| `Parser.ParserStream.OnData` | lib/ParserStream.js:21-33 | the completion callback appends `End` for empty text, otherwise the parse trace and then `End` |
| `Parser.ParserStream.OnInputError` | lib/ParserStream.js:37-39 | an input error appends one error event |

## Left out

- Readable-stream plumbing (`objectMode`, the no-op `read`, backpressure, buffering of `push`) and `input.pipe`: `push` and `emit` are modelled as appending to the event sequence.
- concat-stream aggregation (lines 21 and 35): the callback receives the whole input as one string.
- Ordering of the input's `error` listener against the completion callback: it is asynchronous event ordering. `OnInputError` only appends its event.
- Promise scheduling, and Node's throw on an `error` event with no listener: a listener is taken to be attached, and listeners are taken not to throw.
- The `factory` option (line 18): only the default `@rdfjs/data-model` factory is modelled. Its constructors are recorded as given, so the factory's own interpretation of a literal's second argument and its defaulting of an undefined graph are not modelled. A custom factory that throws inside the quad loop is not modelled.
- The `blankNodes` field (line 19): it is set and never read.
- JSON.parse lexing and the JSON-LD `toRDF` algorithm: they are foreign libraries, taken as function parameters.
- `mapTerms` from `rdf-terms`: modelled as the total function `Terms.MapTerms`, because with the default factory it cannot fail.
- JavaScript numbers are reals (no NaN).
- Strings are Dafny character sequences (Unicode scalar values), not UTF-16 code units. This matters in two places. `term.value.substr(2)` (lib/ParserStream.js:51) drops two code units, while `Terms.Substr2`, and so `Terms.RewriteBlankNodeStripsTwo`, drops two characters. For a value that begins with a character outside the Basic Multilingual Plane, JavaScript drops only that character, and the model drops one more. The character indices of a string `@context` differ in the same way. Lone surrogates, which JSON.parse produces from escapes such as `\ud800`, cannot be represented at all.
- Objects that repeat a key: JavaScript cannot produce them, so the model does not constrain them. For such a value, `Object.keys` would list every member while property access sees the first.
- Function values are modelled as having no enumerable properties and no `@context`. Symbols and bigints are not modelled.
