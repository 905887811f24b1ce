/** The deterministic part of backend/rag_system.py: the metadata filter that
    `search_knowledge` builds and the way `get_relevant_context` formats the
    passages the vector store returns. The similarity search itself is an
    external collaborator: its results come in as a parameter. */
module Rag {
  import opened Text
  import opened Wrappers

  /** What is sent to the vector store's `similarity_search`. */
  datatype SearchRequest = SearchRequest(query: string, k: int, filter: Option<map<string, string>>)

  /** `{"type": filter_type} if filter_type else None`: `None` and the empty
      string are both falsy. */
  function SearchFilter(filterType: Option<string>): Option<map<string, string>> {
    match filterType
    case Some(t) => if t == "" then None else Some(map["type" := t])
    case None => None
  }

  /** The request `search_knowledge(query, k, filter_type)` makes. */
  function SearchKnowledgeRequest(query: string, k: int, filterType: Option<string>): SearchRequest {
    SearchRequest(query, k, SearchFilter(filterType))
  }

  /** A filter is sent exactly when the type is a non-empty string, and it
      then has the single key "type". */
  lemma SearchFilterFalsy(filterType: Option<string>)
    ensures SearchFilter(filterType).None? <==> (filterType.None? || filterType.value == "")
    ensures SearchFilter(filterType).Some? ==>
              SearchFilter(filterType).value.Keys == {"type"} && SearchFilter(filterType).value["type"] == filterType.value
  {
  }

  const NoResultsText: string := "No relevant information found."

  /** `f"**Reference {i}:**\n{doc.page_content}\n"`. */
  function ReferenceBlock(i: nat, content: string): string {
    "**Reference " + NatToString(i) + ":**\n" + content + "\n"
  }

  /** One block per passage, numbered from 1 in result order. */
  function ReferenceBlocks(contents: seq<string>): seq<string> {
    seq(|contents|, i requires 0 <= i < |contents| => ReferenceBlock(i + 1, contents[i]))
  }

  /** The string `get_relevant_context` returns for the given passages. */
  function FormatContext(contents: seq<string>): string {
    if contents == [] then NoResultsText else Join(ReferenceBlocks(contents), "\n")
  }

  /** `get_relevant_context(query, insurance_type)`: asks the store for two
      passages filtered by the insurance type, then formats what came back.
      The store is a function from the request to the page contents it
      returns, in its own order, or to the error `similarity_search` raises;
      nothing here catches that error, so it is passed on. */
  method GetRelevantContext(query: string, insuranceType: Option<string>,
                            store: SearchRequest -> Result<seq<string>, string>)
    returns (context: Result<string, string>)
    ensures var answer := store(SearchRequest(query, 2, SearchFilter(insuranceType)));
      && (answer.Err? ==> context == Err(answer.error))
      && (answer.Ok? && answer.value == [] ==> context == Ok(NoResultsText))
      && (answer.Ok? && answer.value != [] ==> context == Ok(Join(ReferenceBlocks(answer.value), "\n")))
  {
    var answer := store(SearchKnowledgeRequest(query, 2, insuranceType));
    if answer.Err? {
      return Err(answer.error);
    }
    var results := answer.value;
    if |results| == 0 {
      return Ok(NoResultsText);
    }
    var parts: seq<string> := [];
    var i := 0;
    while i < |results|
      invariant 0 <= i <= |results|
      invariant |parts| == i
      invariant forall j | 0 <= j < i :: parts[j] == ReferenceBlock(j + 1, results[j])
    {
      parts := parts + [ReferenceBlock(i + 1, results[i])];
      i := i + 1;
    }
    assert parts == ReferenceBlocks(results);
    context := Ok(Join(parts, "\n"));
  }

  lemma {:induction false} JoinSnoc(parts: seq<string>, last: string, sep: string)
    requires parts != []
    ensures Join(parts + [last], sep) == Join(parts, sep) + sep + last
    decreases |parts|
  {
    if |parts| == 1 {
      assert parts + [last] == [parts[0], last];
    } else {
      assert (parts + [last])[1..] == parts[1..] + [last];
      JoinSnoc(parts[1..], last, sep);
    }
  }

  /** One more passage appends one more block, separated by a newline and
      numbered one past the previous last: order and numbering follow the
      results. */
  lemma FormatContextSnoc(contents: seq<string>, next: string)
    requires contents != []
    ensures FormatContext(contents + [next])
         == FormatContext(contents) + "\n" + ReferenceBlock(|contents| + 1, next)
  {
    assert ReferenceBlocks(contents + [next]) == ReferenceBlocks(contents) + [ReferenceBlock(|contents| + 1, next)];
    JoinSnoc(ReferenceBlocks(contents), ReferenceBlock(|contents| + 1, next), "\n");
  }

  /** The first passage is "Reference 1"; no result at all gives the fixed
      fallback text. */
  lemma FormatContextBase(first: string)
    ensures FormatContext([first]) == "**Reference 1:**\n" + first + "\n"
    ensures FormatContext([]) == "No relevant information found."
  {
  }

  /** The number in block `i` reads back as `i + 1`. */
  lemma ReferenceNumberReadsBack(contents: seq<string>, i: nat)
    requires i < |contents|
    ensures var block := ReferenceBlocks(contents)[i];
      var numeral := NatToString(i + 1);
      && block == "**Reference " + numeral + ":**\n" + contents[i] + "\n"
      && DigitsValue(numeral) == i + 1
  {
    NatToStringValue(i + 1);
  }
}
