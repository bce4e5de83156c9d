/**
 * The shapes of the requests the services hand to the two stores: search
 * and point-lookup requests for the search index, mapper writes and raw
 * parameterised statements for the authoritative table store. Only the
 * shapes are the services' responsibility; executing them is not modelled.
 */
module Requests {
  import opened JsValues

  /** The existence condition a mapper write carries. */
  datatype Condition = IfNotExists | IfExists | Unconditional

  /** Mapper write options: the condition and the `ttl` forwarded as given
      (undefined means no expiry). */
  datatype WriteOptions = WriteOptions(condition: Condition, ttl: JsValue)

  /** A mapper call on one table with a row of column values. */
  datatype MapperWrite =
    | Insert(table: string, row: seq<Prop>, options: WriteOptions)
    | Update(table: string, row: seq<Prop>, options: WriteOptions)
    | Delete(table: string, row: seq<Prop>, options: WriteOptions)

  /** A prepared statement: its text with `?` placeholders and its
      positional parameters. */
  datatype Statement = Statement(query: string, params: seq<JsValue>)

  /** The search-index query forms the services build. */
  datatype Query =
    | Ids(values: seq<JsValue>)
    | Match(field: string, text: string)
    | Must(clauses: seq<Query>)

  datatype SearchRequest = SearchRequest(
    index: string, docType: string,
    from: Option<int>, size: Option<int>,
    includes: JsValue, excludes: JsValue,
    query: Query)

  datatype GetRequest = GetRequest(index: string, docType: string, id: string)

  /** A stored search document: its id and its source fields. */
  datatype Document = Document(id: string, source: seq<Prop>)

  /** When a document satisfies a query. A `match` on an identifier field is
      read as equality of the field with the text; a `must` list is the
      conjunction of its clauses. */
  predicate Satisfies(doc: Document, q: Query)
  {
    match q
    case Ids(values) => Str(doc.id) in values
    case Match(field, text) => Get(doc.source, field) == Str(text)
    case Must(clauses) => forall i :: 0 <= i < |clauses| ==> Satisfies(doc, clauses[i])
  }

  /** `USING TTL <ttl>` when `typeof ttl === 'number'`, else nothing. */
  function TtlClause(ttl: JsValue): (clause: string)
    ensures '?' !in clause
    ensures clause != "" <==> ttl.Num?
  {
    if ttl.Num? then "USING TTL " + ttl.text else ""
  }

  /** The number of `?` placeholders in a statement's text. */
  function Placeholders(query: string): nat
  {
    Occurrences(query, '?')
  }

  /** `query` contains `part` as a contiguous substring. */
  predicate Contains(query: string, part: string)
  {
    exists i :: 0 <= i <= |query| && OccursAt(query, part, i)
  }

  predicate OccursAt(query: string, part: string, i: nat)
  {
    i + |part| <= |query| && query[i..i + |part|] == part
  }

  /** A string without the letter `c` contains no substring that starts
      with it. */
  lemma {:induction false} NotContainsFirst(query: string, part: string)
    requires |part| > 0 && part[0] !in query
    ensures !Contains(query, part)
  {
  }
}
