/**
 * The `code_analysis` agent tool: a fixed descriptor and a simulated static analysis
 * whose report names the file and the question asked.
 */
module CodeAnalysis {
  import opened Wrappers
  import opened JsText
  import opened ToolBase

  /** The tool's `name` field, which is also the registry key. */
  const Name: string := "code_analysis"
  const Description: string := "Analyze specific files " + "or code snippets " + "from the provided context."
  const FilenameDescription: string := "The name of the file " + "to analyze " + "from the provided context."
  const QueryDescription: string := "Specific question or aspect " + "to analyze in the code."

  /** The descriptor: string parameters `filename` and `query`, both required. */
  function GetDefinition(): (d: ToolDefinition)
    ensures d.name == Name
    ensures d.parameters.kind == "object"
    ensures |d.parameters.properties| == 2
    ensures d.parameters.properties[0].0 == "filename" && d.parameters.properties[0].1.kind == "string"
    ensures d.parameters.properties[1].0 == "query" && d.parameters.properties[1].1.kind == "string"
    ensures d.parameters.required == ["filename", "query"]
  {
    ToolDefinition(Name, Description,
      ParameterSchema("object",
        [("filename", PropertySchema("string", FilenameDescription)),
         ("query", PropertySchema("string", QueryDescription))],
        ["filename", "query"]))
  }

  /** The first line of a report. */
  function ReportHeading(filename: string, query: string): string {
    "Analysis of " + filename + " for \"" + query + "\":"
  }

  /** The fixed findings listed under the heading. */
  const Findings: string :=
    "\n            - Syntax: " + "Valid TypeScript/JavaScript\n" +
    "            - Complexity: " + "Moderate\n" +
    "            - Security: " + "No obvious hardcoded " + "secrets found " + "(heuristic check)\n" +
    "            - Suggestion: " + "Consider splitting " + "large functions if present."

  /** The simulated report for a rendered file name and question. */
  function ReportText(filename: string, query: string): string {
    ReportHeading(filename, query) + Findings
  }

  /**
   * `execute(params)`: never throws. The first property read is `params.filename`;
   * it fails only when `params` is `undefined` or `null`, and the failure becomes an
   * empty output and an error text. `params.code` is never read.
   */
  function Execute(params: Input): (r: ToolResult)
    ensures r.error.None? <==> !(params.Undefined? || params.Null?)
    ensures r.error.None? ==>
      StartsWith(r.output, ReportHeading(Render(Property(params, "filename").value),
                                         Render(Property(params, "query").value)))
    ensures r.error.Some? ==>
      r.output == "" && r.error.value == "Analysis failed: " + Property(params, "filename").error
  {
    match Property(params, "filename")
    case Failure(m) => ToolResult("", Some("Analysis failed: " + m))
    case Success(f) =>
      var q := Property(params, "query").value;
      ToolResult(ReportText(Render(f), Render(q)), None)
  }

  /** The optional `code` parameter has no influence: only `filename` and `query` matter. */
  lemma CodeIsIgnored(fields: map<string, string>, code: string)
    ensures Execute(Object(fields["code" := code])) == Execute(Object(fields - {"code"}))
  {
  }
}
