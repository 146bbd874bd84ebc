/** The `web_search` agent tool: a fixed descriptor and a mock search that echoes the query. */
module WebSearch {
  import opened Wrappers
  import opened JsText
  import opened ToolBase

  /** The tool's `name` field, which is also the registry key. */
  const Name: string := "web_search"
  const Description: string := "Search the web for " + "information using " + "Google Search."
  const QueryDescription: string := "The search query to execute."

  /** The descriptor: one required string parameter, `query`. */
  function GetDefinition(): (d: ToolDefinition)
    ensures d.name == Name
    ensures d.parameters.kind == "object"
    ensures |d.parameters.properties| == 1
    ensures d.parameters.properties[0].0 == "query" && d.parameters.properties[0].1.kind == "string"
    ensures d.parameters.required == ["query"]
  {
    ToolDefinition(Name, Description,
      ParameterSchema("object",
        [("query", PropertySchema("string", QueryDescription))],
        ["query"]))
  }

  // The fixed pieces of the mock result text.
  const ResultsIntro: string := "Search results for \""
  const Result1: string := "\":\n        1. [Result 1] " + "Relevant information about "
  const Result2: string := "...\n        2. [Result 2] " + "More details regarding "
  const Result3: string := "...\n        3. [Result 3] " + "Another source confirming " + "facts about "
  const SearchNote: string :=
    "...\n        \n        " + "(Note: Real web search " + "requires a Google Custom " + "Search API Key or similar)"

  /** What follows the quoted query: three mock results, each naming the query, and a note. */
  function Listing(q: string): string {
    Result1 + q + Result2 + q + Result3 + q + SearchNote
  }

  /** The mock result text for a rendered query. */
  function SearchText(q: string): (r: string)
    ensures StartsWith(r, ResultsIntro + q)
    ensures Contains(r, q)
  {
    ContainsInfix(ResultsIntro, q, Listing(q));
    ResultsIntro + q + Listing(q)
  }

  /**
   * `execute(params)`: never throws. Reading `params.query` fails only when `params` is
   * `undefined` or `null`; that failure becomes an empty output and an error text.
   */
  function Execute(params: Input): (r: ToolResult)
    ensures r.error.None? <==> !(params.Undefined? || params.Null?)
    ensures r.error.None? ==>
      var q := Render(Property(params, "query").value);
      StartsWith(r.output, ResultsIntro + q) && Contains(r.output, q)
    ensures r.error.Some? ==>
      r.output == "" && r.error.value == "Search failed: " + Property(params, "query").error
  {
    match Property(params, "query")
    case Success(q) => ToolResult(SearchText(Render(q)), None)
    case Failure(m) => ToolResult("", Some("Search failed: " + m))
  }
}
