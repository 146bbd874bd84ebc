/**
 * The browser-side analysis of the single-page app: the uploaded files become one context
 * text, the agent's task prompt and the chosen output language become the request, and the
 * model's reply becomes the agent's text and its web citations. Failures never throw: a
 * missing API key and a failed call both come back as a text starting with `Error`, which
 * is what the app uses to mark an agent as failed.
 */
module GeminiService {
  import opened Wrappers
  import opened JsText

  /** An uploaded file. */
  datatype SourceFile = SourceFile(name: string, content: string, size: int)

  const ContextHeader: string := "CODEBASE CONTEXT:\n\n"
  const NoFiles: string := "No files provided."
  /** The most characters of one file that go into the context. */
  const FileBudget: nat := 50000

  /** One file's part of the context: a header, the first 50000 characters, a footer. */
  function FileSection(f: SourceFile): (r: string)
    ensures StartsWith(r, "--- FILE: " + f.name + " ---\n")
  {
    "--- FILE: " + f.name + " ---\n" + Take(f.content, FileBudget) +
    "\n--- END FILE: " + f.name + " ---\n\n"
  }

  /** The sections of the files, in input order. */
  function Sections(files: seq<SourceFile>): string {
    if files == [] then [] else Sections(files[..|files| - 1]) + FileSection(files[|files| - 1])
  }

  /** `prepareContext` as a value: a fixed text for no files, else the header and every section. */
  function ContextOf(files: seq<SourceFile>): (r: string)
    ensures files == [] <==> r == NoFiles
    ensures files != [] ==> StartsWith(r, ContextHeader)
  {
    if files == [] then NoFiles else ContextHeader + Sections(files)
  }

  /** `prepareContext`: the context text, built one file at a time. */
  method PrepareContext(files: seq<SourceFile>) returns (context: string)
    ensures context == ContextOf(files)
  {
    context := ContextHeader;
    if |files| == 0 {
      return NoFiles;
    }
    var i := 0;
    while i < |files|
      invariant 0 <= i <= |files|
      invariant context == ContextHeader + Sections(files[..i])
    {
      assert files[..i + 1][..i] == files[..i];
      context := context + FileSection(files[i]);
      i := i + 1;
    }
    assert files[..|files|] == files;
  }

  lemma {:induction false} SectionsAppend(a: seq<SourceFile>, b: seq<SourceFile>)
    ensures Sections(a + b) == Sections(a) + Sections(b)
    decreases |b|
  {
    if b != [] {
      var c := b[..|b| - 1];
      SectionsAppend(a, c);
      assert (a + b)[..|a + b| - 1] == a + c;
      assert (a + b)[|a + b| - 1] == b[|b| - 1];
    } else {
      assert a + b == a;
    }
  }

  /**
   * Every file appears in the context in input order: the context is the header, the
   * sections of the files before it, its own section, then those after it.
   */
  lemma FileInPlace(files: seq<SourceFile>, i: nat)
    requires i < |files|
    ensures ContextOf(files) ==
      ContextHeader + Sections(files[..i]) + FileSection(files[i]) + Sections(files[i + 1..])
  {
    assert files == files[..i] + [files[i]] + files[i + 1..];
    SectionsAppend(files[..i] + [files[i]], files[i + 1..]);
    SectionsAppend(files[..i], [files[i]]);
    assert [files[i]][..0] == [];
  }

  /** A file contributes at most its first 50000 characters, whatever its size. */
  lemma SectionBounded(f: SourceFile)
    ensures |FileSection(f)| <= 2 * |f.name| + FileBudget + 36
  {
  }

  /** The output languages and the names the instruction uses for them. */
  datatype Language = En | Pt | Fr

  function LanguageName(l: Language): string {
    match l
    case En => "English"
    case Pt => "Portuguese (Brazil)"
    case Fr => "French"
  }

  /** The language constraint appended to the agent's system instruction. */
  function LanguageInstruction(l: Language): string {
    var name := LanguageName(l);
    "\n\nCRITICAL INSTRUCTION: " + "The user has requested " + "the output in " + name +
    ". You MUST write the " + "entire response in " + name +
    ". Do not use any other " + "language for the main text. " +
    "Technical terms can remain " + "in English if standard, " +
    "but the explanation must be " + "in " + name + "."
  }

  /** `KeyStore.get() || VITE_GEMINI_API_KEY || ''`: the stored BYOK key first. */
  function SelectKey(stored: Option<string>, fromEnv: Option<string>): (key: string)
    ensures Truthy(stored) ==> key == stored.value
    ensures !Truthy(stored) && Truthy(fromEnv) ==> key == fromEnv.value
    ensures key == "" <==> !Truthy(stored) && !Truthy(fromEnv)
  {
    OrDefault(stored, OrDefault(fromEnv, ""))
  }

  const NoKeyPrefix: string := "Error: No API key found. "

  /** The text returned when there is no API key. */
  const NoKeyMessage: string :=
    NoKeyPrefix + "Add your Gemini API key " + "via the \"Skip trial\" flow " +
    "or set VITE_GEMINI_API_KEY " + "in .env.local for local " +
    "development. Never ship a " + "hardcoded key to " + "production."

  const NoResponse: string := "No response generated."
  const UnknownError: string := "Unknown error occurred during analysis."

  /** The part of an agent definition the analysis reads. */
  datatype Agent = Agent(taskPrompt: string, systemInstruction: string)

  /** A grounding chunk; `web` and its `uri` may be missing. */
  datatype Web = Web(uri: Option<string>)
  datatype Chunk = Chunk(web: Option<Web>)

  /** What the analysis reads from a reply: `response.text` and the first candidate's grounding chunks. */
  datatype Reply = Reply(text: Option<string>, chunks: Option<seq<Chunk>>)

  /**
   * One `generateContent` call, by API key, prompt and system instruction: the reply, or
   * the thrown error's `message` (which may be missing).
   */
  type Generate = (string, string, string) -> Result<Reply, Option<string>>

  /** What `runAgentAnalysis` returns. */
  datatype Analysis = Analysis(text: string, citations: seq<string>)

  /** `chunk.web?.uri`. */
  function UriOf(c: Chunk): Option<string> {
    if c.web.Some? then c.web.value.uri else None
  }

  /** The citations: the `web.uri` of every chunk that has a non-empty one, in chunk order. */
  function Citations(chunks: seq<Chunk>): (r: seq<string>)
    ensures |r| <= |chunks|
  {
    if chunks == [] then []
    else
      var last := chunks[|chunks| - 1];
      Citations(chunks[..|chunks| - 1]) + (if Truthy(UriOf(last)) then [UriOf(last).value] else [])
  }

  /** Every citation is the uri of some chunk, and every chunk with a uri gives a citation. */
  lemma {:induction false} CitationsAreUris(chunks: seq<Chunk>)
    ensures forall u :: u in Citations(chunks) ==> u != "" && exists i :: 0 <= i < |chunks| && UriOf(chunks[i]) == Some(u)
    ensures forall i :: 0 <= i < |chunks| && Truthy(UriOf(chunks[i])) ==> UriOf(chunks[i]).value in Citations(chunks)
  {
    if chunks != [] {
      var init := chunks[..|chunks| - 1];
      CitationsAreUris(init);
      forall u | u in Citations(chunks)
        ensures u != "" && exists i :: 0 <= i < |chunks| && UriOf(chunks[i]) == Some(u)
      {
        if u in Citations(init) {
          var i :| 0 <= i < |init| && UriOf(init[i]) == Some(u);
          assert chunks[i] == init[i];
        } else {
          assert UriOf(chunks[|chunks| - 1]) == Some(u);
        }
      }
      forall i | 0 <= i < |chunks| && Truthy(UriOf(chunks[i]))
        ensures UriOf(chunks[i]).value in Citations(chunks)
      {
        if i < |init| {
          assert chunks[i] == init[i];
        }
      }
    }
  }

  /** The citation extraction loop: push the uri of each chunk that has one. */
  method ExtractCitations(chunks: Option<seq<Chunk>>) returns (citations: seq<string>)
    ensures chunks.None? ==> citations == []
    ensures chunks.Some? ==> citations == Citations(chunks.value)
  {
    citations := [];
    if chunks.Some? {
      var all := chunks.value;
      var i := 0;
      while i < |all|
        invariant 0 <= i <= |all|
        invariant citations == Citations(all[..i])
      {
        assert all[..i + 1][..i] == all[..i];
        var uri := UriOf(all[i]);
        if uri.Some? && uri.value != "" {
          citations := citations + [uri.value];
        }
        i := i + 1;
      }
      assert all[..|all|] == all;
    }
  }

  /** The prompt and the system instruction of an agent's request. */
  function FullPrompt(agent: Agent, files: seq<SourceFile>): string {
    agent.taskPrompt + "\n\n" + ContextOf(files)
  }

  function SystemInstruction(agent: Agent, language: Language): string {
    agent.systemInstruction + LanguageInstruction(language)
  }

  /**
   * `runAgentAnalysis` as a value. Without a key: the fixed error text and no citations,
   * and no call. A failed call: `Error: ` and the message (or a default). A reply: its
   * text (or a default) and its citations.
   */
  function Analyze(files: seq<SourceFile>, agent: Agent, language: Language,
                   stored: Option<string>, fromEnv: Option<string>, generate: Generate): (r: Analysis)
    ensures SelectKey(stored, fromEnv) == "" ==> r == Analysis(NoKeyMessage, [])
    ensures var key := SelectKey(stored, fromEnv);
      key != "" ==>
      match generate(key, FullPrompt(agent, files), SystemInstruction(agent, language))
      case Failure(message) => r == Analysis("Error: " + OrDefault(message, UnknownError), [])
      case Success(reply) =>
        r.text == OrDefault(reply.text, NoResponse) &&
        r.citations == (if reply.chunks.Some? then Citations(reply.chunks.value) else [])
  {
    var key := SelectKey(stored, fromEnv);
    if key == "" then Analysis(NoKeyMessage, [])
    else
      match generate(key, FullPrompt(agent, files), SystemInstruction(agent, language))
      case Failure(message) => Analysis("Error: " + OrDefault(message, UnknownError), [])
      case Success(reply) =>
        Analysis(OrDefault(reply.text, NoResponse),
                 if reply.chunks.Some? then Citations(reply.chunks.value) else [])
  }

  /** `runAgentAnalysis`, step by step. */
  method RunAgentAnalysis(files: seq<SourceFile>, agent: Agent, language: Language,
                          stored: Option<string>, fromEnv: Option<string>, generate: Generate)
    returns (result: Analysis)
    ensures result == Analyze(files, agent, language, stored, fromEnv, generate)
  {
    var context := PrepareContext(files);
    var fullPrompt := agent.taskPrompt + "\n\n" + context;
    var languageInstruction := LanguageInstruction(language);
    var apiKey := SelectKey(stored, fromEnv);
    if apiKey == "" {
      return Analysis(NoKeyMessage, []);
    }
    var response := generate(apiKey, fullPrompt, agent.systemInstruction + languageInstruction);
    if response.Failure? {
      return Analysis("Error: " + OrDefault(response.error, UnknownError), []);
    }
    var text := OrDefault(response.value.text, NoResponse);
    var citations := ExtractCitations(response.value.chunks);
    result := Analysis(text, citations);
  }

  /** The status the app gives an agent's result: failed exactly when the text starts with `Error`. */
  predicate MarkedFailed(a: Analysis) {
    StartsWith(a.text, "Error")
  }

  /**
   * Without a key no model is asked: the result is the same whatever the model would
   * answer, and the app marks it failed.
   */
  lemma NoKeyFails(files: seq<SourceFile>, agent: Agent, language: Language,
                   stored: Option<string>, fromEnv: Option<string>, g1: Generate, g2: Generate)
    requires !Truthy(stored) && !Truthy(fromEnv)
    ensures Analyze(files, agent, language, stored, fromEnv, g1) == Analyze(files, agent, language, stored, fromEnv, g2)
    ensures MarkedFailed(Analyze(files, agent, language, stored, fromEnv, g1))
    ensures Analyze(files, agent, language, stored, fromEnv, g1).citations == []
  {
    assert NoKeyMessage == NoKeyPrefix + (NoKeyMessage[|NoKeyPrefix|..]);
  }

  /** A failed call is marked failed and has no citations. */
  lemma FailedCallFails(files: seq<SourceFile>, agent: Agent, language: Language,
                        stored: Option<string>, fromEnv: Option<string>, generate: Generate)
    requires SelectKey(stored, fromEnv) != ""
    requires generate(SelectKey(stored, fromEnv), FullPrompt(agent, files), SystemInstruction(agent, language)).Failure?
    ensures MarkedFailed(Analyze(files, agent, language, stored, fromEnv, generate))
    ensures Analyze(files, agent, language, stored, fromEnv, generate).citations == []
  {
  }

  /**
   * A reply is marked failed exactly when its own text starts with `Error`; an empty
   * reply becomes the fixed default and is not.
   */
  lemma ReplyStatus(files: seq<SourceFile>, agent: Agent, language: Language,
                    stored: Option<string>, fromEnv: Option<string>, generate: Generate)
    requires SelectKey(stored, fromEnv) != ""
    requires generate(SelectKey(stored, fromEnv), FullPrompt(agent, files), SystemInstruction(agent, language)).Success?
    ensures var reply := generate(SelectKey(stored, fromEnv), FullPrompt(agent, files), SystemInstruction(agent, language)).value;
      MarkedFailed(Analyze(files, agent, language, stored, fromEnv, generate)) <==>
        Truthy(reply.text) && StartsWith(reply.text.value, "Error")
  {
    assert !StartsWith(NoResponse, "Error") by {
      assert NoResponse[0] != "Error"[0];
    }
  }
}
