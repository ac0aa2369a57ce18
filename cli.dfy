/**
 * The command-line front end (src/cli.js): how `simulateResponse` routes a
 * document to a backend, the content reduction on its non-browsing path, the
 * placeholder document `runSimulation` builds for browsing backends, and the
 * file name a persona is saved under.
 *
 * The backend's answer comes over the network and is not modelled: each route
 * ends in the `BackendCall` it would make. Fetching a page is abstracted as
 * its outcome, and the heading scan as the heading positions it finds.
 */
module Cli {
  import opened Wrappers
  import opened JsText
  import DocumentFetcher
  import PromptBuilder
  import Personas
  import Models
  import LlmFactory

  /** The url the CLI gives a document read from a local markdown file. */
  const MarkdownUrl: string := "markdown://local"

  /** `MAX_CONTENT_SIZE` of the non-browsing path. */
  const MaxContentSize: int := 8000

  const DirectAccessMarker: string := "accessed directly by the LLM"

  const PlaceholderContent: string :=
    "This content will be " + DirectAccessMarker + " via its browsing capability."

  /** The backend call `simulateResponse` ends in. */
  datatype BackendCall =
    | Generate(userPrompt: string, options: Models.CallOptions)
    | GenerateWithBrowsing(url: string, request: string, options: Models.CallOptions)

  /** The three ways `simulateResponse` can deliver a document. */
  datatype Route =
    | EmbedContent   // OpenAI under the browsing flag: the content goes along with the url
    | BrowseUrl      // any other backend under the browsing flag: the url alone
    | SendContent    // no browsing: the (reduced) content inside the user prompt

  /**
   * The branch `simulateResponse` takes: local markdown clears the browsing
   * flag; under the flag an OpenAI backend is told apart from the others.
   */
  function CliRoute(url: string, useDirectBrowsing: bool, backend: Models.Backend): (r: Route)
    ensures url == MarkdownUrl ==> r == SendContent
    ensures r != SendContent <==> useDirectBrowsing && url != MarkdownUrl
    ensures r == EmbedContent <==> useDirectBrowsing && url != MarkdownUrl && backend == Models.OpenAI
  {
    var browsing := useDirectBrowsing && url != MarkdownUrl;
    if !browsing then SendContent
    else if backend == Models.OpenAI then EmbedContent
    else BrowseUrl
  }

  /** `compressionLevel`: aggressive when the text is over one and a half times the limit. */
  predicate Aggressive(extracted: string) {
    2 * |extracted| > 3 * MaxContentSize
  }

  /**
   * The content the non-browsing path puts into the prompt: the text itself up
   * to 8000 characters; beyond that its important parts, compressed when they
   * are still over 8000 characters.
   */
  function Reduced(content: string, headings: seq<nat>): (r: string)
    requires DocumentFetcher.ValidHeadings(content, headings)
    ensures |content| <= MaxContentSize ==> r == content
    ensures |content| > MaxContentSize ==> |r| <= |DocumentFetcher.Extracted(content, MaxContentSize, headings)|
  {
    if |content| <= MaxContentSize then content
    else
      var extracted := DocumentFetcher.Extracted(content, MaxContentSize, headings);
      if |extracted| > MaxContentSize then DocumentFetcher.CompressContent(extracted, Aggressive(extracted))
      else extracted
  }

  /**
   * Extraction leaves at most 10005 characters out of a text over 8000, so the
   * aggressive tier, which needs more than 12000, is never chosen here.
   */
  lemma ReductionNeverAggressive(content: string, headings: seq<nat>)
    requires DocumentFetcher.ValidHeadings(content, headings) && |content| > MaxContentSize
    ensures !Aggressive(DocumentFetcher.Extracted(content, MaxContentSize, headings))
    ensures |Reduced(content, headings)| <= 10005
  {
    DocumentFetcher.ExtractedLength(content, MaxContentSize, headings);
  }

  /** A text over the limit is reduced to its extraction, run through the basic tier when still too long. */
  lemma ReducedIsBasicTier(content: string, headings: seq<nat>)
    requires DocumentFetcher.ValidHeadings(content, headings) && |content| > MaxContentSize
    ensures var e := DocumentFetcher.Extracted(content, MaxContentSize, headings);
      Reduced(content, headings) == if |e| > MaxContentSize then DocumentFetcher.CompressContent(e, false) else e
  {
    ReductionNeverAggressive(content, headings);
  }

  /** A heading-free 20000-character text extracts to 8005 characters, which only the basic tier then compresses. */
  lemma HeadingFreeExample(content: string)
    requires |content| == 20000
    ensures var e := DocumentFetcher.Extracted(content, MaxContentSize, []);
      |e| == 8005 && Reduced(content, []) == DocumentFetcher.CompressContent(e, false)
  {
    DocumentFetcher.HeadAndTailExample(content);
  }

  /** Whether the OpenAI route must fetch: no content, or only the placeholder's wording. */
  predicate NeedsFetch(content: string) {
    content == "" || Contains(content, DirectAccessMarker)
  }

  /** The document object `simulateResponse` receives; its title and content can be overwritten in place. */
  class DocumentObject {
    const url: string
    var title: string
    var content: string

    constructor(doc: PromptBuilder.Document)
      ensures url == doc.url && title == doc.title && content == doc.content
    {
      url := doc.url;
      title := doc.title;
      content := doc.content;
    }

    /** The fields as a value. */
    function Snapshot(): (d: PromptBuilder.Document)
      reads this
      ensures d.url == url && d.title == title && d.content == content
    {
      PromptBuilder.Document(title, url, content)
    }
  }

  /**
   * `simulateResponse(llm, persona, document, request, useDirectBrowsing)`.
   * `fetched` is what fetching `document.url` would give; `headings` are the
   * heading positions of the document's content.
   */
  method SimulateResponse(
    llm: Models.LLM, persona: Personas.Persona, document: DocumentObject, request: string,
    useDirectBrowsing: bool, fetched: Result<PromptBuilder.Document>, headings: seq<nat>)
    returns (r: Result<BackendCall>)
    requires DocumentFetcher.ValidHeadings(document.content, headings)
    modifies document
    ensures var route := CliRoute(document.url, useDirectBrowsing, llm.backend);
      && (route == EmbedContent && NeedsFetch(old(document.content)) && fetched.Failure? ==>
            r == Failure(fetched.error) && unchanged(document))
      && (route == EmbedContent && NeedsFetch(old(document.content)) && fetched.Success? ==>
            && document.content == fetched.value.content && document.title == fetched.value.title
            && r == Success(GenerateWithBrowsing(document.url, request,
                 Models.WithContent(PromptBuilder.SystemPrompt(persona), fetched.value.content))))
      && (route == EmbedContent && !NeedsFetch(old(document.content)) ==>
            && unchanged(document)
            && r == Success(GenerateWithBrowsing(document.url, request,
                 Models.WithContent(PromptBuilder.SystemPrompt(persona), document.content))))
      && (route == BrowseUrl ==>
            && unchanged(document)
            && r == Success(GenerateWithBrowsing(document.url, request, Models.SystemOnly(PromptBuilder.SystemPrompt(persona)))))
      && (route == SendContent ==>
            && unchanged(document)
            && r == Success(Generate(
                 PromptBuilder.UserPrompt(PromptBuilder.Document(document.title, document.url, Reduced(document.content, headings)), request),
                 Models.SystemOnly(PromptBuilder.SystemPrompt(persona)))))
  {
    var browsing := useDirectBrowsing;
    if document.url == MarkdownUrl {
      browsing := false;
    }
    if browsing {
      var systemPrompt := PromptBuilder.SystemPrompt(persona);
      if llm.backend == Models.OpenAI {
        r := EmbedForOpenAI(document, request, systemPrompt, fetched);
        return;
      }
      return Success(GenerateWithBrowsing(document.url, request, Models.SystemOnly(systemPrompt)));
    }
    var processed := ReduceContent(document.content, headings);
    var prompt := PromptBuilder.CreateSimulationPrompt(
      persona, PromptBuilder.Document(document.title, document.url, processed), request);
    return Success(Generate(prompt.userPrompt, Models.SystemOnly(prompt.systemPrompt)));
  }

  /** The OpenAI branch under the browsing flag: fetch the page when the content is missing or a placeholder. */
  method EmbedForOpenAI(document: DocumentObject, request: string, systemPrompt: string,
                        fetched: Result<PromptBuilder.Document>)
    returns (r: Result<BackendCall>)
    modifies document
    ensures NeedsFetch(old(document.content)) && fetched.Failure? ==>
      r == Failure(fetched.error) && unchanged(document)
    ensures NeedsFetch(old(document.content)) && fetched.Success? ==>
      && document.content == fetched.value.content && document.title == fetched.value.title
      && r == Success(GenerateWithBrowsing(document.url, request, Models.WithContent(systemPrompt, fetched.value.content)))
    ensures !NeedsFetch(old(document.content)) ==>
      unchanged(document) && r == Success(GenerateWithBrowsing(document.url, request, Models.WithContent(systemPrompt, document.content)))
  {
    if NeedsFetch(document.content) {
      if fetched.Failure? {
        return Failure(fetched.error);
      }
      document.content := fetched.value.content;
      document.title := fetched.value.title;
    }
    return Success(GenerateWithBrowsing(document.url, request, Models.WithContent(systemPrompt, document.content)));
  }

  /** The reduction steps of the non-browsing path, reassigning `processedContent` as they go. */
  method ReduceContent(content: string, headings: seq<nat>) returns (processed: string)
    requires DocumentFetcher.ValidHeadings(content, headings)
    ensures processed == Reduced(content, headings)
  {
    processed := content;
    if |content| > MaxContentSize {
      processed := DocumentFetcher.ExtractImportantContent(content, MaxContentSize, headings);
      if |processed| > MaxContentSize {
        processed := DocumentFetcher.CompressContent(processed, Aggressive(processed));
      }
    }
  }

  /** A local markdown document goes into the prompt, whatever browsing flag the caller passes. */
  lemma MarkdownNeverBrowses(useDirectBrowsing: bool, backend: Models.Backend)
    ensures CliRoute(MarkdownUrl, useDirectBrowsing, backend) == SendContent
  {
  }

  /**
   * Both callers pass the backend's own capability as the flag, and OpenAI
   * reports none: the content-embedding route is never taken from them.
   */
  lemma OpenAIRouteUnreachable(llm: Models.LLM, url: string)
    ensures CliRoute(url, llm.SupportsBrowsing(), llm.backend) != EmbedContent
    ensures CliRoute(url, WebUseDirectBrowsing(url, llm.SupportsBrowsing()), llm.backend) != EmbedContent
  {
  }

  /** The web interface's flag: browsing only for a browsing backend and a document that is not local markdown. */
  function WebUseDirectBrowsing(url: string, supportsBrowsing: bool): (b: bool)
    ensures b <==> url != MarkdownUrl && supportsBrowsing
    ensures forall backend :: CliRoute(url, b, backend) == CliRoute(url, supportsBrowsing, backend)
  {
    url != MarkdownUrl && supportsBrowsing
  }

  /** `pathname.split('/').pop()`: the text after the last slash. */
  function LastSegment(path: string): (seg: string)
    ensures '/' !in seg && EndsWith(path, seg)
    ensures |seg| < |path| ==> path[|path| - |seg| - 1] == '/'
    decreases |path|
  {
    if path == [] then ""
    else if path[|path| - 1] == '/' then ""
    else
      var seg := LastSegment(path[..|path| - 1]) + [path[|path| - 1]];
      assert path[..|path| - 1][|path| - 1 - (|seg| - 1)..] + [path[|path| - 1]] == path[|path| - |seg|..];
      seg
  }

  /** The placeholder's title: the last path segment of the url, or `Document` when that is empty. */
  function PlaceholderTitle(pathname: string): (t: string)
    ensures t != "" && '/' !in t
    ensures LastSegment(pathname) != "" ==> t == LastSegment(pathname)
    ensures LastSegment(pathname) == "" ==> t == "Document"
  {
    if LastSegment(pathname) == "" then "Document" else LastSegment(pathname)
  }

  /**
   * The document `runSimulation` hands on: for a browsing backend a placeholder
   * (`pathname` is the url's path, `None` when the url does not parse), for any
   * other the fetched page.
   */
  function PrepareDocument(supportsBrowsing: bool, url: string, pathname: Option<string>,
                           fetched: Result<PromptBuilder.Document>): (r: Result<PromptBuilder.Document>)
    ensures supportsBrowsing && pathname.Some? ==>
      r == Success(PromptBuilder.Document(PlaceholderTitle(pathname.value), url, PlaceholderContent))
    ensures supportsBrowsing && pathname.None? ==> r.Failure?
    ensures !supportsBrowsing ==> r == fetched
  {
    if supportsBrowsing then
      match pathname
      case None => Failure("Invalid URL")
      case Some(p) => Success(PromptBuilder.Document(PlaceholderTitle(p), url, PlaceholderContent))
    else fetched
  }

  /** The placeholder's content is what the OpenAI route recognises as needing a fetch. */
  lemma PlaceholderNeedsFetch()
    ensures NeedsFetch(PlaceholderContent)
  {
    var before := "This content will be ";
    assert PlaceholderContent[|before|..|before| + |DirectAccessMarker|] == DirectAccessMarker;
    ContainsAt(PlaceholderContent, DirectAccessMarker, |before|);
  }

  /** `name.toLowerCase().replace(/\s+/g, '_')`: the lower-cased name with every whitespace run made one `_`. */
  function FileStem(name: string): string {
    ReplaceWhitespaceRuns(ToLower(name), '_')
  }

  /** `FileStem(name) + '.yml'`: where the web interface saves and deletes a persona. */
  function PersonaFileName(name: string): (f: string)
    ensures EndsWith(f, ".yml") && Personas.IsYamlFile(f)
    ensures f[..|f| - 4] == FileStem(name)
    ensures forall i :: 0 <= i < |f| ==> !IsWhitespace(f[i])
  {
    var f := FileStem(name) + ".yml";
    assert f[|f| - 4..] == ".yml";
    assert f[..|f| - 4] == FileStem(name);
    f
  }

  /**
   * A whitespace run inside a name becomes one `_` in its file name, and the
   * two sides are lower-cased and replaced on their own.
   */
  lemma FileStemJoin(a: string, w: string, b: string)
    requires a == [] || !IsWhitespace(a[|a| - 1])
    requires w != [] && forall i :: 0 <= i < |w| ==> IsWhitespace(w[i])
    requires b == [] || !IsWhitespace(b[0])
    ensures FileStem(a + w + b) == FileStem(a) + "_" + FileStem(b)
  {
    LowerConcat(a, w, b);
    LowerOfLower(w);
    ReplaceRunsSplice(ToLower(a), w, ToLower(b), '_');
  }

  /** Lower-casing works character by character and keeps whitespace where it is. */
  lemma LowerConcat(a: string, w: string, b: string)
    ensures ToLower(a + w + b) == ToLower(a) + ToLower(w) + ToLower(b)
    ensures forall i :: 0 <= i < |a| ==> (IsWhitespace(ToLower(a)[i]) <==> IsWhitespace(a[i]))
    ensures forall i :: 0 <= i < |b| ==> (IsWhitespace(ToLower(b)[i]) <==> IsWhitespace(b[i]))
  {
  }

  /** A name without whitespace is its lower-cased self. */
  lemma FileStemOfWord(x: string)
    requires forall i :: 0 <= i < |x| ==> !IsWhitespace(x[i])
    ensures FileStem(x) == ToLower(x)
  {
    ReplaceRunsKeepWord(ToLower(x), [], '_');
    assert ToLower(x) + [] == ToLower(x);
  }

  /** A two-word name. */
  lemma FileNameOfTwoWords()
    ensures PersonaFileName("Jane Doe") == "jane_doe.yml"
  {
    calc {
      PersonaFileName("Jane Doe");
      FileStem("Jane Doe") + ".yml";
      { assert "Jane Doe" == "Jane" + " " + "Doe"; FileStemJoin("Jane", " ", "Doe"); }
      FileStem("Jane") + "_" + FileStem("Doe") + ".yml";
      { FileStemOfWord("Jane"); FileStemOfWord("Doe"); }
      ToLower("Jane") + "_" + ToLower("Doe") + ".yml";
      { assert ToLower("Jane") == "jane" && ToLower("Doe") == "doe"; }
      "jane_doe.yml";
    }
  }

  /** A valid persona saved under its derived file name is one the manager loads back under its name. */
  lemma SavedPersonaLoads(d: Personas.PersonaData, n: string)
    requires Personas.IsValidData(d) && d.name == Some(n)
    ensures Personas.Contributes(Personas.PersonaFile(PersonaFileName(n), Success(d)), n)
    ensures Personas.Load([Personas.PersonaFile(PersonaFileName(n), Success(d))]).byName[n] == d
  {
    var files := [Personas.PersonaFile(PersonaFileName(n), Success(d))];
    assert files[..0] == [];
  }

  /**
   * `runSimulation`: look the persona up, get and initialise the backend,
   * prepare the document, and simulate with the backend's own capability as
   * the browsing flag. Every failure ends the run with its message.
   */
  method RunSimulation(
    manager: Personas.PersonaManager, factory: LlmFactory.Factory,
    personaName: string, model: string, url: string, request: string,
    pathname: Option<string>, fetched: Result<PromptBuilder.Document>, headings: seq<nat>, serverUp: bool)
    returns (r: Result<BackendCall>)
    requires factory.Valid()
    requires fetched.Success? ==> DocumentFetcher.ValidHeadings(fetched.value.content, headings)
    modifies factory, factory.models.Values
    ensures personaName !in manager.personas ==>
      r == Failure("Persona \"" + personaName + "\" not found.") && factory.models == old(factory.models)
    ensures r.Success? && r.value.GenerateWithBrowsing? ==>
      url != MarkdownUrl && r.value.options.documentContent.None?
    ensures r.Success? ==> personaName in manager.personas
  {
    var persona := manager.GetPersona(personaName);
    if persona.None? {
      return Failure("Persona \"" + personaName + "\" not found.");
    }
    var got := factory.GetLLM(model);
    if got.Failure? {
      return Failure("Error running simulation: " + got.error);
    }
    var llm := got.value;
    var initialized := llm.Initialize(serverUp);
    if initialized.Failure? {
      return Failure("Error running simulation: " + initialized.error);
    }
    if !initialized.value {
      return Failure("Failed to initialize " + model + " LLM.");
    }
    r := SimulateWithOwnCapability(llm, persona.value, url, request, pathname, fetched, headings);
  }

  /**
   * The second half of `runSimulation`: the backend's capability decides both
   * the document (placeholder or fetched page) and the browsing flag.
   */
  method SimulateWithOwnCapability(
    llm: Models.LLM, persona: Personas.Persona, url: string, request: string,
    pathname: Option<string>, fetched: Result<PromptBuilder.Document>, headings: seq<nat>)
    returns (r: Result<BackendCall>)
    requires fetched.Success? ==> DocumentFetcher.ValidHeadings(fetched.value.content, headings)
    ensures r.Success? && r.value.GenerateWithBrowsing? ==>
      && url != MarkdownUrl && r.value.url == url
      && r.value.options == Models.SystemOnly(PromptBuilder.SystemPrompt(persona))
  {
    var useDirectBrowsing := llm.SupportsBrowsing();
    var prepared := PrepareDocument(useDirectBrowsing, url, pathname, fetched);
    if prepared.Failure? {
      return Failure("Error running simulation: " + prepared.error);
    }
    var document := new DocumentObject(prepared.value);
    var hs := if useDirectBrowsing then [] else headings;
    ghost var route := CliRoute(document.url, useDirectBrowsing, llm.backend);
    assert route == SendContent || (route == BrowseUrl && document.url == url) by {
      OpenAIRouteUnreachable(llm, url);
    }
    r := SimulateResponse(llm, persona, document, request, useDirectBrowsing, fetched, hs);
  }
}
