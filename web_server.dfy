/**
 * The web server's socket handlers (src/web/server.js): `submit-document`
 * stores one document per connection and answers with a preview; `simulate`
 * picks a delivery route from the backend alone and ends in one backend call.
 * Events sent back to the browser are modelled as results: a `Success` is
 * the call whose answer becomes the `response` event, a `Failure` the message
 * of the `error` event.
 */
module WebServer {
  import opened Wrappers
  import opened JsText
  import DocumentFetcher
  import PromptBuilder
  import Personas
  import Models
  import LlmFactory
  import Cli
  import Config

  const MarkdownTitle: string := "Provided Markdown Document"

  const NoDocument: string := "No document available. Please submit a document first."

  /** The closing line of the web server's own system prompt. */
  const RespondAsPersona: string :=
    "Respond to the documentation and questions as this persona would, based on their expertise, background, traits, goals, and preferences."

  /** What the browser submits: a url to fetch, or markdown text. */
  datatype Submission = UrlSubmission(documentUrl: string) | MarkdownSubmission(markdownContent: string)

  /** The `document-ready` event. */
  datatype Ready = Ready(title: string, contentPreview: string)

  /** `content.substring(0, 200) + '...'`. */
  function Preview(content: string): (p: string)
    ensures |p| <= 203 && EndsWith(p, "...")
    ensures StartsWith(content, p[..|p| - 3])
    ensures |content| <= 200 ==> p == content + "..."
    ensures |content| >= 200 ==> |p| == 203
  {
    var p := Prefix(content, 200) + "...";
    assert p[..|p| - 3] == Prefix(content, 200);
    assert p[|p| - 3..] == "...";
    p
  }

  /** The system prompt the handler writes itself: the persona's text and one closing line, no instruction list. */
  function WebSystemPrompt(persona: Personas.Persona): (r: string)
    ensures StartsWith(r, PromptBuilder.Preamble) && EndsWith(r, "\n\n" + RespondAsPersona)
    ensures |r| == |PromptBuilder.Preamble| + |persona.ToPrompt()| + |"\n\n" + RespondAsPersona|
    ensures r[|PromptBuilder.Preamble|..|r| - |"\n\n" + RespondAsPersona|] == persona.ToPrompt()
    ensures Contains(r, persona.ToPrompt())
  {
    var text, tail := persona.ToPrompt(), "\n\n" + RespondAsPersona;
    Framed(PromptBuilder.Preamble, text, tail);
    ContainsMiddle(PromptBuilder.Preamble, text, tail);
    PromptBuilder.Preamble + text + tail
  }

  /** What `initialize()` reports for a backend the factory can build: a truthy key, or an answering Ollama server. */
  predicate InitializesReady(backend: Models.Backend, apiKey: Option<string>, serverUp: bool) {
    if backend == Models.Ollama then serverUp else Config.Truthy(apiKey)
  }

  /** The three branches of `simulate`, in the order it tests them. */
  datatype WebRoute = OpenAIContent | WebBrowse | WebContent

  /**
   * The branch choice of `simulate`: the OpenAI class first, then the
   * browsing flag, otherwise content. The document's url is not consulted.
   */
  function WebRouteOf(backend: Models.Backend): (r: WebRoute)
    ensures backend == Models.OpenAI <==> r == OpenAIContent
    ensures r == WebBrowse <==> backend != Models.OpenAI && Models.BrowsingCapability(backend)
  {
    if Models.ClassName(backend) == "OpenAILLM" then OpenAIContent
    else if Models.BrowsingCapability(backend) then WebBrowse
    else WebContent
  }

  /** The call `simulate` makes once it has a document, a persona and a ready backend. */
  function WebCall(backend: Models.Backend, persona: Personas.Persona, document: PromptBuilder.Document,
                   request: string, headings: seq<nat>): (c: Cli.BackendCall)
    requires DocumentFetcher.ValidHeadings(document.content, headings)
    ensures WebRouteOf(backend) == WebBrowse ==>
      c == Cli.GenerateWithBrowsing(document.url, request, Models.SystemOnly(WebSystemPrompt(persona)))
    ensures WebRouteOf(backend) == OpenAIContent ==>
      c == Cli.GenerateWithBrowsing(document.url, request,
        Models.WithContent(WebSystemPrompt(persona), Cli.Reduced(document.content, headings)))
    ensures WebRouteOf(backend) == WebContent ==>
      c == Cli.Generate(
        PromptBuilder.UserPrompt(PromptBuilder.Document(document.title, document.url, Cli.Reduced(document.content, headings)), request),
        Models.SystemOnly(WebSystemPrompt(persona)))
  {
    match WebRouteOf(backend)
    case WebBrowse =>
      Cli.GenerateWithBrowsing(document.url, request, Models.SystemOnly(WebSystemPrompt(persona)))
    case OpenAIContent =>
      Cli.GenerateWithBrowsing(document.url, request,
        Models.WithContent(WebSystemPrompt(persona), Cli.Reduced(document.content, headings)))
    case WebContent =>
      Cli.Generate(
        PromptBuilder.UserPrompt(PromptBuilder.Document(document.title, document.url, Cli.Reduced(document.content, headings)), request),
        Models.SystemOnly(WebSystemPrompt(persona)))
  }

  /** One browser connection and the document stored on it. */
  class Session {
    var document: Option<PromptBuilder.Document>

    constructor()
      ensures document == None
    {
      document := None;
    }

    /**
     * `submit-document`: a url is fetched (`fetched` is the outcome), markdown
     * becomes a local document; the document is stored and previewed. A failed
     * fetch leaves the stored document as it was.
     */
    method SubmitDocument(submission: Submission, fetched: Result<PromptBuilder.Document>) returns (r: Result<Ready>)
      modifies this
      ensures submission.MarkdownSubmission? ==>
        && document == Some(PromptBuilder.Document(MarkdownTitle, Cli.MarkdownUrl, submission.markdownContent))
        && r == Success(Ready(MarkdownTitle, Preview(submission.markdownContent)))
      ensures submission.UrlSubmission? && fetched.Success? ==>
        document == Some(fetched.value) && r == Success(Ready(fetched.value.title, Preview(fetched.value.content)))
      ensures submission.UrlSubmission? && fetched.Failure? ==>
        document == old(document) && r == Failure("Error processing document: " + fetched.error)
    {
      var doc: PromptBuilder.Document;
      if submission.UrlSubmission? {
        if fetched.Failure? {
          return Failure("Error processing document: " + fetched.error);
        }
        doc := fetched.value;
      } else {
        doc := PromptBuilder.Document(MarkdownTitle, Cli.MarkdownUrl, submission.markdownContent);
      }
      document := Some(doc);
      return Success(Ready(doc.title, Preview(doc.content)));
    }
  }

  /**
   * `simulate`: the stored document, the persona and a ready backend are
   * required in that order; a backend that cannot be found or throws while
   * initialising ends in the catch-all message.
   */
  method Simulate(
    session: Session, manager: Personas.PersonaManager, factory: LlmFactory.Factory,
    personaName: string, model: string, request: string, headings: seq<nat>, serverUp: bool)
    returns (r: Result<Cli.BackendCall>)
    requires factory.Valid()
    requires session.document.Some? ==> DocumentFetcher.ValidHeadings(session.document.value.content, headings)
    modifies factory, factory.models.Values
    ensures session.document.None? ==> r == Failure(NoDocument) && factory.models == old(factory.models)
    ensures session.document.Some? && personaName !in manager.personas ==>
      r == Failure("Persona \"" + personaName + "\" not found.") && factory.models == old(factory.models)
    ensures (&& session.document.Some? && personaName in manager.personas && model !in old(factory.models)
             && LlmFactory.ProviderBackend(ToLower(model)).None?) ==>
      r == Failure("Error generating response: " + LlmFactory.UnsupportedProvider(model))
    ensures session.document.Some? && personaName in manager.personas && model in factory.models ==>
      (var llm := factory.models[model];
       && (InitializesReady(llm.backend, llm.apiKey, serverUp) ==> r.Success?)
       && (!InitializesReady(llm.backend, llm.apiKey, serverUp) ==> r == Failure("Failed to initialize " + model + " LLM.")))
    ensures r.Success? ==>
      && session.document.Some? && personaName in manager.personas
      && model in factory.models
      && r.value == WebCall(factory.models[model].backend, manager.personas[personaName],
                            session.document.value, request, headings)
  {
    if session.document.None? {
      return Failure(NoDocument);
    }
    var document := session.document.value;
    var persona := manager.GetPersona(personaName);
    if persona.None? {
      return Failure("Persona \"" + personaName + "\" not found.");
    }
    var got := factory.GetLLM(model);
    if got.Failure? {
      return Failure("Error generating response: " + got.error);
    }
    var llm := got.value;
    var initialized := llm.Initialize(serverUp);
    match initialized {
      case Failure(e) =>
        return Failure("Error generating response: " + e);
      case Success(ready) =>
        if !ready {
          return Failure("Failed to initialize " + model + " LLM.");
        }
    }
    var call := Route(llm.backend, persona.value, document, request, headings);
    r := Success(call);
  }

  /** The three branches of `simulate` once everything is in place, each reassigning the content it sends. */
  method Route(backend: Models.Backend, persona: Personas.Persona, document: PromptBuilder.Document,
               request: string, headings: seq<nat>) returns (c: Cli.BackendCall)
    requires DocumentFetcher.ValidHeadings(document.content, headings)
    ensures c == WebCall(backend, persona, document, request, headings)
  {
    var systemPrompt := WebSystemPrompt(persona);
    if Models.ClassName(backend) == "OpenAILLM" {
      var processed := Cli.ReduceContent(document.content, headings);
      return Cli.GenerateWithBrowsing(document.url, request, Models.WithContent(systemPrompt, processed));
    } else if Models.BrowsingCapability(backend) {
      return Cli.GenerateWithBrowsing(document.url, request, Models.SystemOnly(systemPrompt));
    }
    var processed := Cli.ReduceContent(document.content, headings);
    var userPrompt := PromptBuilder.UserPrompt(PromptBuilder.Document(document.title, document.url, processed), request);
    return Cli.Generate(userPrompt, Models.SystemOnly(systemPrompt));
  }

  /**
   * The branch choice never looks at the url: stored markdown sent to a
   * browsing backend is handed over as the url `markdown://local`.
   */
  lemma MarkdownCanReachBrowsing(persona: Personas.Persona, content: string, request: string)
    ensures WebCall(Models.Claude, persona, PromptBuilder.Document(MarkdownTitle, Cli.MarkdownUrl, content), request, [])
      == Cli.GenerateWithBrowsing(Cli.MarkdownUrl, request, Models.SystemOnly(WebSystemPrompt(persona)))
  {
  }

  /** The OpenAI test comes first: its backend always gets the reduced content, never the url alone. */
  lemma OpenAIPrecedence(persona: Personas.Persona, document: PromptBuilder.Document, request: string, headings: seq<nat>)
    requires DocumentFetcher.ValidHeadings(document.content, headings)
    ensures WebCall(Models.OpenAI, persona, document, request, headings).GenerateWithBrowsing?
    ensures WebCall(Models.OpenAI, persona, document, request, headings).options.documentContent
      == Some(Cli.Reduced(document.content, headings))
  {
  }

  /** Both content-carrying branches apply the command line's reduction rule. */
  lemma SameReductionAsCli(backend: Models.Backend, persona: Personas.Persona, document: PromptBuilder.Document,
                           request: string, headings: seq<nat>)
    requires DocumentFetcher.ValidHeadings(document.content, headings)
    requires WebRouteOf(backend) == WebContent
    ensures WebCall(backend, persona, document, request, headings).userPrompt
      == PromptBuilder.UserPrompt(PromptBuilder.Document(document.title, document.url, Cli.Reduced(document.content, headings)), request)
  {
  }
}
