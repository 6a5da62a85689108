/** The document list: a search over names, request ids, driver names and keywords, and two selects. */
module DocumentManager {
  import opened Wrappers
  import opened Seqs
  import opened Text
  import opened Domain

  /** `doc.keywords.some((keyword) => keyword.toLowerCase().includes(term))` with `term` already lower-cased. */
  predicate SomeKeywordContains(keywords: seq<string>, term: string)
  {
    exists i :: 0 <= i < |keywords| && Contains(Lower(keywords[i]), term)
  }

  /**
   * The search box: the lower-cased term occurs in the lower-cased name, request id, driver name (when the
   * document has one) or some keyword.
   */
  predicate MatchesSearch(d: Document, searchTerm: string)
  {
    var t := Lower(searchTerm);
    Contains(Lower(d.name), t) || Contains(Lower(d.requestId), t)
    || (d.driverName.Some? && Contains(Lower(d.driverName.value), t))
    || SomeKeywordContains(d.keywords, t)
  }

  predicate MatchesType(d: Document, typeFilter: string)
  {
    typeFilter == "all" || DocTypeName(d.kind) == typeFilter
  }

  predicate MatchesStatus(d: Document, statusFilter: string)
  {
    statusFilter == "all" || DocStatusName(d.status) == statusFilter
  }

  predicate MatchesFilters(d: Document, searchTerm: string, typeFilter: string, statusFilter: string)
  {
    MatchesSearch(d, searchTerm) && MatchesType(d, typeFilter) && MatchesStatus(d, statusFilter)
  }

  /** `filteredDocuments`: the documents matching the search AND the type AND the status, in their order. */
  function FilteredDocuments(documents: seq<Document>, searchTerm: string, typeFilter: string, statusFilter: string)
    : (r: seq<Document>)
    ensures forall i :: 0 <= i < |r| ==> r[i] in documents && MatchesFilters(r[i], searchTerm, typeFilter, statusFilter)
    ensures forall i :: 0 <= i < |documents| ==>
      (MatchesFilters(documents[i], searchTerm, typeFilter, statusFilter) ==> documents[i] in r)
    ensures IsSubsequence(r, documents)
  {
    Filter(d => MatchesFilters(d, searchTerm, typeFilter, statusFilter), documents)
  }

  /** An empty search term matches every document, so with both selects at "all" nothing is filtered out. */
  lemma EmptySearchKeepsAll(documents: seq<Document>)
    ensures forall i :: 0 <= i < |documents| ==> MatchesSearch(documents[i], "")
    ensures FilteredDocuments(documents, "", "all", "all") == documents
  {
    assert Lower("") == "";
    FilterKeepsAll(d => MatchesFilters(d, "", "all", "all"), documents);
  }

  /** A document without a driver name can match only through its name, request id or keywords. */
  lemma NoDriverNameSearch(d: Document, searchTerm: string)
    requires d.driverName.None?
    ensures MatchesSearch(d, searchTerm) <==>
      var t := Lower(searchTerm);
      Contains(Lower(d.name), t) || Contains(Lower(d.requestId), t) || SomeKeywordContains(d.keywords, t)
  {
  }

  /** A keyword that holds the term makes the document match, whatever its other fields. */
  lemma KeywordMatch(d: Document, searchTerm: string, k: int)
    requires 0 <= k < |d.keywords| && Contains(Lower(d.keywords[k]), Lower(searchTerm))
    ensures MatchesSearch(d, searchTerm)
  {
  }

  /** The type and status selects, when not "all", keep exactly the documents of that type and status. */
  lemma SelectsAreExact(d: Document, t: DocType, s: DocStatus)
    ensures MatchesType(d, DocTypeName(t)) <==> d.kind == t
    ensures MatchesStatus(d, DocStatusName(s)) <==> d.status == s
  {
    DocNamesDistinct(d.kind, t, d.status, s);
  }
}
