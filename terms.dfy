/**
 * RDF terms: the raw terms the JSON-LD processor produces, the canonical terms
 * of the RDF data model, and the rewrite between them that works around the
 * processor's blank-node prefix and its literal shape.
 */
module Terms {
  import opened Wrappers

  /**
   * A term as the JSON-LD processor returns it. `termType` is an open string;
   * `language` and `dataType` are only meaningful for literals, and a datatype
   * is itself a raw term object.
   */
  datatype RawTerm = RawTerm(termType: string, value: string, language: Option<string>, dataType: Option<RawTerm>)

  /** A quad of raw terms (`predicate` and `object` are reserved words in Dafny, hence the short names). */
  datatype RawQuad = RawQuad(subj: RawTerm, pred: RawTerm, obj: RawTerm, graph: RawTerm)

  /** The second argument handed to the factory's `literal`: a language tag, the raw datatype object, or nothing. */
  datatype LiteralArg = Language(tag: string) | Datatype(raw: RawTerm) | NoArg

  /** A term built by the default data-model factory. */
  datatype Term =
    | NamedNode(iri: string)
    | BlankNode(id: string)
    | Literal(lexical: string, arg: LiteralArg)
    | DefaultGraph

  /** A quad as pushed to the stream: each position holds what the rewrite returned, None being `undefined`. */
  datatype Quad = Quad(subj: Option<Term>, pred: Option<Term>, obj: Option<Term>, graph: Option<Term>)

  /** `s.substr(2)`: everything after the first two characters, or "" when there are fewer. */
  function Substr2(s: string): (r: string)
    ensures |s| >= 2 ==> s == s[..2] + r
    ensures |s| < 2 ==> r == ""
  {
    if |s| < 2 then "" else s[2..]
  }

  /** `language || datatype`: a non-empty language wins, then a present datatype, else nothing. */
  function LiteralArgOf(language: Option<string>, dataType: Option<RawTerm>): LiteralArg
  {
    if language.Some? && language.value != "" then Language(language.value)
    else if dataType.Some? then Datatype(dataType.value)
    else NoArg
  }

  /** The rewrite of one raw term; any term type other than the four known ones gives `undefined`. */
  function Rewrite(raw: RawTerm): Option<Term>
  {
    match raw.termType
    case "NamedNode" => Some(NamedNode(raw.value))
    case "BlankNode" => Some(BlankNode(Substr2(raw.value)))
    case "Literal" => Some(Literal(raw.value, LiteralArgOf(raw.language, raw.dataType)))
    case "DefaultGraph" => Some(DefaultGraph)
    case _ => None
  }

  /** `mapTerms` with the rewrite as mapper: all four positions are rewritten. */
  function MapTerms(q: RawQuad): Quad
  {
    Quad(Rewrite(q.subj), Rewrite(q.pred), Rewrite(q.obj), Rewrite(q.graph))
  }

  /** The term types the rewrite knows. */
  predicate KnownTermType(termType: string) {
    termType == "NamedNode" || termType == "BlankNode" || termType == "Literal" || termType == "DefaultGraph"
  }

  /** The rewrite yields a term exactly for the four known term types, and a term of the matching kind. */
  lemma RewriteDefinedOnKnownTypes(raw: RawTerm)
    ensures Rewrite(raw).Some? <==> KnownTermType(raw.termType)
    ensures Rewrite(raw).Some? ==>
      (Rewrite(raw).value.NamedNode? <==> raw.termType == "NamedNode") &&
      (Rewrite(raw).value.BlankNode? <==> raw.termType == "BlankNode") &&
      (Rewrite(raw).value.Literal? <==> raw.termType == "Literal") &&
      (Rewrite(raw).value.DefaultGraph? <==> raw.termType == "DefaultGraph")
  {
  }

  /** A named node keeps its value verbatim; a default graph becomes the default-graph marker. */
  lemma RewriteNamedNodeAndDefaultGraph(raw: RawTerm)
    ensures raw.termType == "NamedNode" ==> Rewrite(raw) == Some(NamedNode(raw.value))
    ensures raw.termType == "DefaultGraph" ==> Rewrite(raw) == Some(DefaultGraph)
  {
  }

  /**
   * A blank node loses its first two characters, whatever they are: the
   * processor's `_:` is never checked, and a value shorter than two
   * characters becomes the empty identifier.
   */
  lemma RewriteBlankNodeStripsTwo(raw: RawTerm, c0: char, c1: char, id: string)
    requires raw.termType == "BlankNode"
    ensures raw.value == [c0, c1] + id ==> Rewrite(raw) == Some(BlankNode(id))
    ensures |raw.value| < 2 ==> Rewrite(raw) == Some(BlankNode(""))
  {
  }

  /** The processor's label `_:b0` becomes the blank node `b0`. */
  lemma RewriteBlankNodeExample(language: Option<string>, dataType: Option<RawTerm>)
    ensures Rewrite(RawTerm("BlankNode", "_:b0", language, dataType)) == Some(BlankNode("b0"))
  {
  }

  /**
   * A literal keeps its lexical value; its second argument is the language
   * exactly when that is non-empty, otherwise the raw datatype object itself,
   * otherwise nothing.
   */
  lemma RewriteLiteral(raw: RawTerm)
    requires raw.termType == "Literal"
    ensures Rewrite(raw).Some? && Rewrite(raw).value.Literal?
    ensures Rewrite(raw).value.lexical == raw.value
    ensures Rewrite(raw).value.arg.Language? <==> raw.language.Some? && raw.language.value != ""
    ensures Rewrite(raw).value.arg.Language? ==> Rewrite(raw).value.arg.tag == raw.language.value
    ensures Rewrite(raw).value.arg.Datatype? <==>
      (raw.language.None? || raw.language.value == "") && raw.dataType.Some?
    ensures Rewrite(raw).value.arg.Datatype? ==> Rewrite(raw).value.arg.raw == raw.dataType.value
    ensures Rewrite(raw).value.arg.NoArg? <==>
      (raw.language.None? || raw.language.value == "") && raw.dataType.None?
  {
  }

  /** The rewrite never produces a literal with an empty language tag. */
  predicate Canonical(t: Term) {
    !(t.Literal? && t.arg.Language? && t.arg.tag == "")
  }

  /** The processor's raw shape of a canonical term: blank node labels carry the `_:` prefix. */
  function ToRaw(t: Term): RawTerm
  {
    match t
    case NamedNode(iri) => RawTerm("NamedNode", iri, None, None)
    case BlankNode(id) => RawTerm("BlankNode", "_:" + id, None, None)
    case Literal(lexical, arg) =>
      (match arg
       case Language(tag) => RawTerm("Literal", lexical, Some(tag), None)
       case Datatype(d) => RawTerm("Literal", lexical, None, Some(d))
       case NoArg => RawTerm("Literal", lexical, None, None))
    case DefaultGraph => RawTerm("DefaultGraph", "", None, None)
  }

  /** The rewrite undoes the processor's raw encoding of every canonical term. */
  lemma RewriteInvertsToRaw(t: Term)
    requires Canonical(t)
    ensures Rewrite(ToRaw(t)) == Some(t)
  {
  }

  /** Every term the rewrite produces is canonical, so it is ToRaw's image. */
  lemma RewriteIsCanonical(raw: RawTerm)
    requires Rewrite(raw).Some?
    ensures Canonical(Rewrite(raw).value)
    ensures Rewrite(ToRaw(Rewrite(raw).value)) == Rewrite(raw)
  {
  }

  /** mapTerms rewrites each of the four positions independently by the rewrite. */
  lemma MapTermsPositions(q: RawQuad)
    ensures MapTerms(q).subj == Rewrite(q.subj) && MapTerms(q).pred == Rewrite(q.pred)
    ensures MapTerms(q).obj == Rewrite(q.obj) && MapTerms(q).graph == Rewrite(q.graph)
    ensures (MapTerms(q).subj.Some? && MapTerms(q).pred.Some? && MapTerms(q).obj.Some? && MapTerms(q).graph.Some?) <==>
      (KnownTermType(q.subj.termType) && KnownTermType(q.pred.termType) &&
       KnownTermType(q.obj.termType) && KnownTermType(q.graph.termType))
  {
  }
}
