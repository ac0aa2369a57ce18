# impersonaid in Dafny

impersonaid simulates how a user persona would read a piece of documentation.
A persona (a YAML file: name, description, expertise, background, traits,
goals, preferences) is turned into a system prompt. The document is fetched
from a url or given as markdown. A language-model backend (OpenAI, Anthropic
Claude, Google Gemini or a local Ollama server) is then asked to answer a
request as that persona.

This project models the core of that pipeline:

- **Configuration** (`Config`). API keys are looked up in the environment first, then in the TOML file. Default models, the Ollama host and the output settings have built-in fallbacks.
- **Backends and their factory** (`Models`, `LlmFactory`). These cover:
  - the capability flags and the lazy client creation;
  - the exact OpenAI chat request, including the whitespace compression of embedded content;
  - the cache keyed by the raw provider string, with case-insensitive aliases.
- **Personas** (`Personas`). These cover validation, the rendering of a persona as prompt text, and loading a directory in which later valid files override earlier ones.
- **Prompt templates** (`PromptBuilder`). These are the single prompt and the multi-part chunked prompts.
- **Content reduction** (`DocumentFetcher`). These are `cleanContent`, the two compression tiers and `extractImportantContent`. The extraction is written as a method with loops and proved equal to a specification function.
- **Delivery routing** (`Cli`, `WebServer`). The command line and the web server each decide whether a backend receives the url to browse, the page embedded in its options, or the reduced page inside the user prompt. The web server's socket handlers keep the submitted document per connection.

Each module lives in the file of the same name in snake case.
`Wrappers` holds `Option` and `Result`. `JsText` holds the JavaScript string
built-ins the source relies on: `substring` clamping, `trim`, the `\s` class,
`replace` with a global pattern, and `toLowerCase`.

Network answers, file reads and the YAML and TOML parsers are outside the
model. Each operation receives their outcome as a parameter: a `Result` for a
fetch or a parse, the heading positions the extraction regex would find, and a
flag saying whether the Ollama server answers. What a backend would send is
returned as a value (a `Payload` or a `BackendCall`) instead of being sent.

Three behaviours of the code are easy to misread; the model follows the code:

- `cleanContent` runs only inside `fetchFromUrl`, on the text taken from the HTML, and fetching is outside the model. The reduction on the delivery paths applies only `extractImportantContent` and `compressContent`, and it does not clean the content again.
- The OpenAI branch of `simulateResponse` (the one that embeds the fetched page) cannot be reached from either caller. OpenAI's browsing flag is false, so neither the command line nor the web interface ever passes `useDirectBrowsing` for it; `Cli.OpenAIRouteUnreachable` proves this.
- The web server's `simulate` chooses its route by backend alone. Markdown stored on the connection is sent to Claude or Gemini as the url `markdown://local`; `WebServer.MarkdownCanReachBrowsing` shows this.

## Model

| member | source | states |
|---|---|---|
| Config.Config.LoadFromFile | src/config/config.js:20-30 | a parsed file replaces the configuration and marks it loaded; a failed read or parse is rethrown and leaves the old configuration and flag untouched |
| Config.EnvApiKey | src/config/config.js:39-48 | the environment supplies a key only for the four providers with a variable name, and only when that variable is set and non-empty |
| Config.Config.FileApiKey | src/config/config.js:51-53 | the file supplies a key exactly when a file was loaded, has an `api_keys` table, and holds a non-empty entry for the provider |
| Config.Config.GetApiKey | src/config/config.js:37-56 | a non-empty environment key wins, otherwise the file key, and the result is missing exactly when both are; a returned key is never empty |
| Config.Config.FileModel | src/config/config.js:64-75 | the file's model is read under `<provider>_default`, except that `google` reads `gemini_default`, and only when non-empty |
| Config.Config.GetDefaultModel | src/config/config.js:63-87 | the file's model wins, otherwise the built-in default for the provider; a returned model is never empty |
| Config.Config.GetOllamaConfig | src/config/config.js:93-99 | the file's `ollama` table when loaded, otherwise the default host `http://localhost:11434` |
| Config.Config.GetOutputConfig | src/config/config.js:105-114 | the file's `output` table when loaded, otherwise text format and the `output` directory under the working directory |
| Config.EnvironmentWins | src/config/config.js:46-49 | a set environment variable decides the key whatever the file says |
| Config.UnloadedFileIgnored | src/config/config.js:51-53 | before a successful load, every getter falls back to the environment or the built-in defaults |
| Config.OllamaKeyFromFileOnly | src/config/config.js:39-53 | Ollama has no environment variable, so its key can come only from the file |
| Config.GoogleReadsGeminiDefault | src/config/config.js:67-74 | provider `google` is configured by the `gemini_default` entry |
| Config.KnownProvidersHaveModels | src/config/config.js:72-86 | the five known providers always have a model; any other provider has one only if the file has the key `undefined` |
| Config.LoadThenLookup | src/config/config.js:20-56 | after loading a file with an Anthropic key and an empty environment, `getApiKey('anthropic')` returns the file's key |
| Config.FailedLoadKeepsDefaults | src/config/config.js:20-30 | a failed load leaves the built-in OpenAI model and the default Ollama host in place |
| JsText.ReplaceRunsSplice | src/utils/document-fetcher.js:136 | `replace(/\s+/g, rep)` turns a whole whitespace run into exactly one `rep`, and the text on each side is replaced on its own |
| JsText.ReplaceRunsKeepWord | src/utils/document-fetcher.js:136 | characters other than whitespace pass through `replace(/\s+/g, rep)` unchanged |
| JsText.SqueezeIsJoinedWords | src/models/openai.js:100-102 | `replace(/\s+/g, ' ').trim()` gives the words of the text joined by single spaces |
| JsText.WordsOfJoin | src/utils/document-fetcher.js:136-140 | words joined by single spaces split back into the same words |
| JsText.RemoveCharConcat | src/utils/document-fetcher.js:130 | removing a character from two texts one after the other removes it from each |
| DocumentFetcher.CollapseBlankLines | src/utils/document-fetcher.js:114 | no run of three newlines is left, text other than whitespace is kept, and text without such runs comes back unchanged |
| DocumentFetcher.CollapseSplice | src/utils/document-fetcher.js:114 | a whole run of k newlines is kept when k is 1 or 2 and becomes exactly two newlines when k is 3 or more; the text on each side is collapsed on its own |
| DocumentFetcher.CollapseKeepsChar | src/utils/document-fetcher.js:114 | every character other than a newline is kept in place |
| DocumentFetcher.UnescapeSplice | src/utils/document-fetcher.js:111 | every backslash-n pair becomes one newline, and the text on each side is unescaped on its own |
| DocumentFetcher.UnescapeFree | src/utils/document-fetcher.js:111 | text without a backslash-n pair is unchanged |
| DocumentFetcher.DropReturnsSplice | src/utils/document-fetcher.js:112 | every backslash-r pair is dropped, and the text on each side is handled on its own |
| DocumentFetcher.DropReturnsFree | src/utils/document-fetcher.js:112 | text without a backslash-r pair is unchanged |
| DocumentFetcher.CleanContent | src/utils/document-fetcher.js:109-116 | the result is the escaped newlines unescaped, the escaped returns dropped, then the basic tier, then trimmed; it has no carriage return, no run of three newlines, and neither begins nor ends with whitespace |
| DocumentFetcher.BasicCompression | src/utils/document-fetcher.js:129-131 | carriage returns are dropped and newline runs shortened, never lengthening the text or changing anything but whitespace; text already in that form is unchanged |
| DocumentFetcher.BasicDropsReturn | src/utils/document-fetcher.js:130 | each carriage return is removed wherever it stands |
| DocumentFetcher.BasicKeepsChar | src/utils/document-fetcher.js:129-131 | every character other than a newline or a carriage return is kept in place |
| DocumentFetcher.BasicSplice | src/utils/document-fetcher.js:131 | in text without carriage returns, a whole run of k newlines is kept when k is 1 or 2 and becomes two when k is 3 or more; the sides are compressed on their own |
| DocumentFetcher.AggressiveCompression | src/utils/document-fetcher.js:133-141 | the aggressive tier is the words of its input (maximal runs without whitespace) joined by single spaces; it is single-spaced, trimmed and keeps the text other than whitespace |
| DocumentFetcher.AggressiveKeepsWords | src/utils/document-fetcher.js:133-141 | the aggressive tier has exactly the words of its input, in order |
| DocumentFetcher.CompressContent | src/utils/document-fetcher.js:125-144 | without the option the result is the basic tier; with it, the words of the basic tier joined by single spaces; both keep the text other than whitespace and never lengthen the content |
| DocumentFetcher.CompressIdempotent | src/utils/document-fetcher.js:125-144 | compressing twice with the same option gives the same result as compressing once |
| DocumentFetcher.Sections | src/utils/document-fetcher.js:172-181 | one section per heading, running from the heading to the next one (or the end), cut to 1000 characters |
| DocumentFetcher.HeadAndTail | src/utils/document-fetcher.js:184-188 | without headings: the first 60% of the budget, the marker `\n...\n`, then the last 40% |
| DocumentFetcher.MiddleRun | src/utils/document-fetcher.js:201-213 | middle sections are appended while the remaining budget is positive; each one costs its length plus five |
| DocumentFetcher.MiddleRunHalts | src/utils/document-fetcher.js:207 | once the budget is spent, further sections change nothing, which is the `break` |
| DocumentFetcher.Combine | src/utils/document-fetcher.js:191-221 | the result opens with the first section cut to 30% of the budget; the last section is added only while budget remains |
| DocumentFetcher.ExtractedLength | src/utils/document-fetcher.js:152-222 | the extraction can overshoot its budget by at most a quarter of it plus one marker |
| DocumentFetcher.ExtractedOpensAtFirstHeading | src/utils/document-fetcher.js:194-199 | the extracted text begins with the text at the first heading |
| DocumentFetcher.ExtractedSingleHeading | src/utils/document-fetcher.js:196-216 | with one heading the result is that section alone, cut to 1000 and then to 30% of the budget |
| DocumentFetcher.PreambleIgnored | src/utils/document-fetcher.js:174-180 | text before the first heading never reaches the result |
| DocumentFetcher.HeadAndTailExample | src/utils/document-fetcher.js:184-188 | a heading-free 20000-character page reduced to 8000 yields 8005 characters |
| DocumentFetcher.CollectSections | src/utils/document-fetcher.js:172-181 | the section loop builds exactly the specified sections |
| DocumentFetcher.TakeMiddle | src/utils/document-fetcher.js:201-213 | the middle loop, with its `break`, yields exactly the specified text and remaining budget |
| DocumentFetcher.ExtractImportantContent | src/utils/document-fetcher.js:152-222 | the method returns exactly the specified extraction for every content, budget and heading list |
| Models.StringOr | src/models/openai.js:88 | the model option when it is truthy, the configured model otherwise |
| Models.MaxTokensOr | src/models/openai.js:90 | the token limit is never zero: the option when it is non-zero, otherwise 1000 |
| Models.EmbeddedContent | src/models/openai.js:100-102 | the embedded page is the words of the content joined by single spaces: single-spaced, trimmed, the same text other than whitespace and never longer |
| Models.EmbeddedIsAggressiveTier | src/models/openai.js:100-102 | OpenAI's own whitespace squeeze equals the aggressive compression tier |
| Models.BrowsingUserMessage | src/models/openai.js:105 | the user message is exactly the url line, the squeezed page, then `Based on this content, ` and the request: it starts with the first part, ends with the second, and has no other text |
| Models.OpenAIChat | src/models/openai.js:43-71 | the chat request carries the prompt as the user message, the model and token defaults, and the default system prompt |
| Models.OpenAIBrowsingChat | src/models/openai.js:92-115 | it fails with the content-required error exactly when no page is given; otherwise it is a chat with the page embedded |
| Models.OpenAIDefaults | src/models/openai.js:88-90 | with empty options the request uses the configured model, the helpful-assistant system prompt and 1000 tokens |
| Models.LLM.constructor | src/models/openai.js:8-14 | a backend takes its model and key from the configuration under its provider name and starts without a client |
| Models.LLM.SupportsBrowsing | src/models/base.js:61-63 | only Claude and Gemini report browsing; OpenAI turns it off explicitly and Ollama inherits false |
| Models.LLM.GetModelName | src/models/base.js:53-55 | the name fixed at construction, `base` for the base class |
| Models.LLM.IsReady | src/models/ollama.js:70-79 | the base class throws; the three hosted backends are ready exactly when they hold a truthy key; Ollama is ready exactly when the model list its server returns names its model, and not when the request fails |
| Models.LLM.Initialize | src/models/openai.js:20-35 | the base class throws; a hosted backend succeeds and creates its client exactly when its key is truthy; Ollama reports whether its server answers |
| Models.LLM.Generate | src/models/openai.js:43-71 | the base class throws; a hosted backend without client or key fails to initialise; OpenAI sends the specified chat |
| Models.LLM.GenerateWithBrowsing | src/models/base.js:37-39 | the base class and Ollama refuse browsing; OpenAI embeds the page or fails; Claude and Gemini hand the url to their SDK |
| LlmFactory.ProviderBackend | src/models/index.js:25-42 | the alias switch: `openai`, `anthropic` or `claude`, `google` or `gemini`, `ollama`; every other name is unsupported |
| LlmFactory.Factory.constructor | src/models/index.js:10-13 | a factory starts with an empty cache |
| LlmFactory.Factory.GetLLM | src/models/index.js:20-45 | a cached key returns the same object; a new key creates the backend its lower-cased name selects and caches it under the raw key; an unknown name throws and caches nothing |
| LlmFactory.Factory.GetSupportedProviders | src/models/index.js:51-53 | four distinct supported providers, each accepted by the switch, and no `openrouter` |
| LlmFactory.Aliases | src/models/index.js:25-41 | `Claude` and `GEMINI` reach their backends whatever the case; `openrouter` is not accepted |
| LlmFactory.SameKeySameInstance | src/models/index.js:21-23 | asking twice for one key yields one object |
| LlmFactory.CaseSplitsCache | src/models/index.js:21-27 | `OpenAI` and `openai` are cached as two distinct objects of the same class |
| Personas.ValidationErrors | src/personas/persona.js:24-43 | each error appears exactly when its rule is broken, in the source's order, and the list is empty exactly for valid data |
| Personas.DefaultExpertiseInvalid | src/personas/persona.js:10-40 | a persona without any expertise field fails, with the expertise error last |
| Personas.ExpertiseLines | src/personas/persona.js:70-86 | the expertise section is empty exactly when no expertise field is truthy, and the technical line comes first |
| Personas.Select | src/personas/persona.js:70-131 | each rendered section is one the persona has, with its proper body |
| Personas.SelectCovers | src/personas/persona.js:70-131 | every section the persona has is rendered |
| Personas.SelectAscending | src/personas/persona.js:70-131 | sections are rendered in the fixed source order |
| Personas.Blocks | src/personas/persona.js:70-84 | the expertise section always comes first, even when empty |
| Personas.BlocksExactlyPresent | src/personas/persona.js:70-131 | a section is rendered if and only if the persona has it, and in ascending order |
| Personas.Persona.constructor | src/personas/persona.js:7-18 | a persona keeps its data and validates it on construction |
| Personas.Persona.Validate | src/personas/persona.js:24-43 | recomputes the error list and succeeds exactly when it is empty |
| Personas.Persona.IsValid | src/personas/persona.js:49-51 | valid exactly when no error was recorded |
| Personas.Persona.ToPrompt | src/personas/persona.js:65-133 | the prompt opens with the name and description header, then the expertise section |
| Personas.NewPersonaValidity | src/personas/persona.js:7-51 | a freshly built persona is valid exactly when its data meets the three rules |
| Personas.Load | src/personas/persona.js:157-174 | the loaded map holds only valid personas, under their own names, and its key order lists each name once |
| Personas.LoadAppendsNew | src/personas/persona.js:167 | a valid persona under a name not seen before is added, and its name goes to the end of the key order |
| Personas.LoadCovers | src/personas/persona.js:158-168 | every valid persona in a YAML file of the directory is loaded |
| Personas.LoadSource | src/personas/persona.js:160-168 | each loaded persona comes from the last file that defines that name validly |
| Personas.PersonaManager.constructor | src/personas/persona.js:137-140 | a manager starts empty |
| Personas.PersonaManager.LoadAllPersonas | src/personas/persona.js:146-181 | the manager holds exactly what loading the listing yields; a missing directory leaves it empty |
| Personas.PersonaManager.GetPersona | src/personas/persona.js:188-190 | the persona stored under the name, or none |
| Personas.PersonaManager.GetPersonaNames | src/personas/persona.js:196-198 | the keys in the manager's insertion order, each loaded name exactly once |
| Personas.LaterFileWins | src/personas/persona.js:166-168 | a later file with the same name replaces the persona and keeps the name's position |
| Personas.NonContributingIgnored | src/personas/persona.js:158-173 | a file that is not YAML, fails to parse, or holds an invalid persona changes nothing |
| PromptBuilder.SystemPrompt | src/utils/prompt-builder.js:30-47 | the system prompt is the preamble, the persona's text and the instruction list, and the persona's text can be recovered from it |
| PromptBuilder.UserPrompt | src/utils/prompt-builder.js:56-72 | the user prompt is exactly the header with title and url, the content verbatim, then the task block and the closing instruction: it starts with the head, ends with the tail, and has the content between them |
| PromptBuilder.UserPromptDeterminesRequest | src/utils/prompt-builder.js:56-72 | for one document, different requests give different user prompts |
| PromptBuilder.CreateSimulationPrompt | src/utils/prompt-builder.js:12-23 | the pair holds the persona's text and the document content with the task block |
| PromptBuilder.ChunkAt | src/utils/prompt-builder.js:97-119 | a chunk index past the end renders as `undefined`, as JavaScript would |
| PromptBuilder.PromptCount | src/utils/prompt-builder.js:83-128 | one prompt per chunk, but always at least a first and a last |
| PromptBuilder.CreateChunkedSimulationPrompts | src/utils/prompt-builder.js:83-128 | the loop yields the specified number of prompts, each with the shared system prompt and the specified user prompt |
| PromptBuilder.ChunkDelivered | src/utils/prompt-builder.js:93-119 | with two or more chunks, prompt i is headed part i+1 of n and carries chunk i |
| PromptBuilder.OnlyFirstHasMeta | src/utils/prompt-builder.js:93-110 | only the first prompt carries the title and url; the others go straight to the content |
| PromptBuilder.OnlyLastAsks | src/utils/prompt-builder.js:97-125 | every prompt but the last asks the model to wait; the last carries the task block and the closing instruction |
| PromptBuilder.SingleChunkSentTwice | src/utils/prompt-builder.js:83-128 | a single chunk is sent in both the first and the last prompt |
| Cli.CliRoute | src/cli.js:248-296 | markdown always goes as content; otherwise the browsing flag decides, and among browsing backends only OpenAI embeds |
| Cli.Reduced | src/cli.js:297-316 | content within 8000 characters is sent as is; longer content is extracted and, if still too long, compressed |
| Cli.ReductionNeverAggressive | src/cli.js:308-312 | the extraction never exceeds 12000 characters, so the aggressive tier is never chosen and the result is at most 10005 |
| Cli.ReducedIsBasicTier | src/cli.js:300-313 | the reduction is extraction followed, when still too long, by the basic compression tier |
| Cli.HeadingFreeExample | src/cli.js:300-313 | a heading-free page of 20000 characters is extracted to 8005 and then compressed |
| Cli.DocumentObject.constructor | src/cli.js:198-202 | the document object holds the given url, title and content |
| Cli.DocumentObject.Snapshot | src/cli.js:318-321 | the document value carries the object's url, title and content |
| Cli.SimulateResponse | src/cli.js:246-329 | per route: the page embedded for OpenAI (fetched first when it is the placeholder), the url alone for browsing, or the reduced content in the user prompt; only the OpenAI fetch changes the document |
| Cli.EmbedForOpenAI | src/cli.js:259-282 | a placeholder or empty document is refetched and overwritten before its content is embedded; a failed fetch is rethrown unchanged |
| Cli.ReduceContent | src/cli.js:297-313 | the reduction steps compute exactly the specified reduction |
| Cli.MarkdownNeverBrowses | src/cli.js:248-251 | local markdown is never sent for browsing |
| Cli.OpenAIRouteUnreachable | src/cli.js:253-255 | with the flag either caller passes, OpenAI never takes the embedding branch |
| Cli.WebUseDirectBrowsing | src/cli.js:537-538 | the web flag is browsing support minus markdown, and it routes exactly as the unfiltered flag for every backend |
| Cli.LastSegment | src/cli.js:200 | the last `/`-separated segment of the path |
| Cli.PlaceholderTitle | src/cli.js:200 | the last path segment, or `Document` when it is empty |
| Cli.PrepareDocument | src/cli.js:195-208 | browsing backends get a placeholder titled from the path, and an invalid url fails; others get the fetched page |
| Cli.PlaceholderNeedsFetch | src/cli.js:260 | the placeholder content is recognised as needing a fetch |
| Cli.PersonaFileName | src/cli.js:421 | the saved file name is the lower-cased name with whitespace runs replaced, then `.yml`; it has no whitespace |
| Cli.FileStemJoin | src/cli.js:421 | a whitespace run inside a name becomes exactly one `_`, and the two sides are lower-cased and replaced on their own |
| Cli.FileNameOfTwoWords | src/cli.js:421 | `Jane Doe` is saved as `jane_doe.yml` |
| Cli.SavedPersonaLoads | src/cli.js:420-424 | a valid persona saved under its file name loads back under its name |
| Cli.RunSimulation | src/cli.js:169-235 | a missing persona is reported without touching the backend cache; a url sent for browsing is never local markdown and never carries content |
| Cli.SimulateWithOwnCapability | src/cli.js:192-209 | a call that browses sends the requested url itself, with the persona's system prompt only |
| WebServer.Preview | src/web/server.js:89-92 | the preview is the first 200 characters of the content followed by `...` |
| WebServer.WebSystemPrompt | src/web/server.js:159-163 | the web system prompt is exactly the preamble, the persona's text, a blank line and the respond-as-persona line |
| WebServer.WebRouteOf | src/web/server.js:132-200 | OpenAI first, then the browsing flag, otherwise content |
| WebServer.WebCall | src/web/server.js:130-254 | per route: the reduced page embedded for OpenAI, the url alone for browsing, or the reduced page in the user prompt |
| WebServer.Session.constructor | src/web/server.js:64 | a new connection has no document |
| WebServer.Session.SubmitDocument | src/web/server.js:68-96 | markdown becomes the local document and a fetched page is stored; each is answered with its title and preview; a failed fetch reports the error and keeps the old document |
| WebServer.Simulate | src/web/server.js:100-260 | no document, then a missing persona, then an unknown provider (the catch-all message) are reported in that order; a backend that does not initialise gives `Failed to initialize`; a ready backend gives the specified call for the stored document |
| WebServer.Route | src/web/server.js:130-245 | the three branches compute exactly the specified call |
| WebServer.MarkdownCanReachBrowsing | src/web/server.js:176-190 | markdown stored on the connection reaches a browsing backend as the url `markdown://local` |
| WebServer.OpenAIPrecedence | src/web/server.js:132-168 | OpenAI always receives the reduced content, even though it is tested before the browsing flag |
| WebServer.SameReductionAsCli | src/web/server.js:203-245 | the content route sends the same reduction and user prompt template as the command line |

## Left out

- Network fetching and HTML parsing (`fetchFromUrl`): the fetched document or the error is a parameter.
- `saveToFile` and every other file write: the model covers what is written, not the file system.
- The heading regex of `extractImportantContent`: the heading positions are a parameter, assumed strictly increasing and inside the content.
- The floating-point ratios 0.6, 0.4, 0.3 and 0.5: they are modelled as exact integer floor division. The double products could differ only when they are not integers.
- YAML and TOML parsing: a persona file or a configuration file arrives already parsed. Parse errors arrive as a `Failure`.
- `getPersonasDir` and the path joining of the personas directory: the directory listing is a parameter, and its absence is `None`.
- TOML values that are not strings: every table entry is a string.
- JavaScript object keys inherited from the prototype (`constructor`, `toString`): lookups see only the keys present.
- Models.LLM.Generate: the Claude, Gemini and Ollama request bodies are returned as `Delegated` values, not built out. Their SDK code is not part of this model.
- Models.LLM.Initialize: a client constructor that throws is not modelled. The Ollama probe's answer is the `serverUp` parameter.
- Models.LLM.IsReady: the Ollama model list is a parameter, `None` when the request fails.
- The `temperature` option of every backend: it never changes the route or the content.
- The OpenRouter backend: the factory cannot create it.
- JsText.ToLower: only ASCII letters are lowered, while JavaScript lowers all of Unicode.
- Strings are sequences of Unicode scalar values, while JavaScript counts UTF-16 code units. Lengths, the 8000 and 12000 character thresholds, `substring` cuts and the 200-character preview therefore differ on text outside the Basic Multilingual Plane.
- Cli.RunSimulation: the `fetched` document is taken as given. The model does not require that its content went through `cleanContent`, because that happens inside the fetch.
- `new URL(...)` parsing: its pathname is a parameter, and an invalid url is `None`.
- Cli.RunSimulation: the interactive session and the output handler that print the answer are not modelled. The answer itself comes from the network.
- WebServer.Simulate: status and log events are not modelled. Only the call, or the error message, is.
- Socket.io and Express wiring, the persona editor endpoints and the browser scripts.
- A markdown submission without `markdownContent`: `substring` on `undefined` throws, but the model always receives a string.
- Personas.Persona.ToPrompt: its contract states the header and the expertise section. The later sections are stated through `Personas.BlocksExactlyPresent` about the section list.
- PromptBuilder.CreateChunkedSimulationPrompts: no caller uses it. It is modelled for its own promises.
