/**
 * `PromptBuilder` (src/utils/prompt-builder.js): the system prompt that casts
 * the model as a persona, the user prompt that carries a document and a
 * request, and the sequence of prompts that delivers a document in chunks.
 */
module PromptBuilder {
  import opened Wrappers
  import opened JsText
  import Personas

  /** The fields of a document a prompt reads. */
  datatype Document = Document(title: string, url: string, content: string)

  /** What `createSimulationPrompt` and each chunked step return. */
  datatype SimulationPrompt = SimulationPrompt(systemPrompt: string, userPrompt: string)

  const Preamble: string := "You are simulating a user persona with the following characteristics:\n\n"

  const Instructions: string :=
    "\n## Simulation Instructions\n"
    + "- You are reviewing documentation as this user persona.\n"
    + "- Respond to the documentation and questions as this persona would, based on their expertise, background, traits, goals, and preferences.\n"
    + "- Be authentic to the persona's knowledge level - don't know things they wouldn't know.\n"
    + "- Express confusion when appropriate for this persona's expertise level.\n"
    + "- Use language and terminology consistent with this persona's background.\n"
    + "- Focus on aspects of the documentation that would be most relevant or challenging for this persona.\n"
    + "- If the persona would struggle with certain concepts, express that struggle in your response.\n"
    + "- If the persona would have specific questions or need clarification, include those in your response.\n"

  const Closing: string :=
    "Please respond as the user persona described in the system prompt. Consider how this persona would interact with this documentation based on their expertise, background, traits, goals, and preferences."

  const ReadOn: string :=
    " parts of the documentation. Please read and understand this part. You will receive the remaining parts in sequence. Do not respond yet."

  /** `createSystemPrompt(persona)`: the fixed preamble, the persona's own text, the fixed instructions. */
  function SystemPrompt(persona: Personas.Persona): (r: string)
    ensures StartsWith(r, Preamble) && EndsWith(r, Instructions)
    ensures PersonaText(r) == Some(persona.ToPrompt())
  {
    var text := persona.ToPrompt();
    Framed(Preamble, text, Instructions);
    Preamble + text + Instructions
  }

  /** The text between the preamble and the instructions of a system prompt, if it has that frame. */
  function PersonaText(system: string): Option<string> {
    if |system| >= |Preamble| + |Instructions| && StartsWith(system, Preamble) && EndsWith(system, Instructions)
    then Some(system[|Preamble|..|system| - |Instructions|])
    else None
  }

  /** `Title:` and `URL:` lines. */
  function MetaLines(title: string, url: string): string {
    "Title: " + title + "\nURL: " + url + "\n\n"
  }

  function TaskBlock(request: string): string {
    "# Your Task\n\n" + request + "\n\n"
  }

  /** What the user prompt puts before the document's content: the header and the title and url lines. */
  function UserHead(doc: Document): string {
    "# Documentation to Review\n\n" + MetaLines(doc.title, doc.url) + "## Content\n\n"
  }

  /** What the user prompt puts after the document's content: the request and the closing sentence. */
  function UserTail(request: string): string {
    "\n\n" + TaskBlock(request) + Closing
  }

  /**
   * `createUserPrompt(document, request)`: header, title, url, the content
   * verbatim, the request, and the fixed closing sentence, in that order.
   */
  function UserPrompt(doc: Document, request: string): (r: string)
    ensures StartsWith(r, UserHead(doc)) && EndsWith(r, UserTail(request))
    ensures |r| == |UserHead(doc)| + |doc.content| + |UserTail(request)|
    ensures r[|UserHead(doc)|..|r| - |UserTail(request)|] == doc.content
    ensures Contains(r, doc.content) && Contains(r, TaskBlock(request))
  {
    var head, tail := UserHead(doc), UserTail(request);
    Framed(head, doc.content, tail);
    ContainsMiddle(head, doc.content, tail);
    AppendRegroup(head + doc.content, "\n\n", TaskBlock(request), Closing);
    ContainsMiddle(head + doc.content + "\n\n", TaskBlock(request), Closing);
    head + doc.content + tail
  }

  /** The user prompt for a fixed document determines the request it carries. */
  lemma UserPromptDeterminesRequest(doc: Document, a: string, b: string)
    requires UserPrompt(doc, a) == UserPrompt(doc, b)
    ensures a == b
  {
    var r := UserPrompt(doc, a);
    var k := |UserHead(doc)| + |doc.content|;
    assert UserTail(a) == r[k..] == UserTail(b);
    UserTailFrame(a);
    UserTailFrame(b);
    CancelFrame("\n\n# Your Task\n\n", a, b, "\n\n" + Closing);
  }

  /** The request sits between fixed texts in the tail of the user prompt. */
  lemma UserTailFrame(request: string)
    ensures UserTail(request) == "\n\n# Your Task\n\n" + request + ("\n\n" + Closing)
  {
    var p := "\n\n# Your Task\n\n";
    assert "\n\n" + "# Your Task\n\n" == p;
    AppendRegroup("\n\n", "# Your Task\n\n" + request, "\n\n", Closing);
    assert "\n\n" + ("# Your Task\n\n" + request) == p + request;
  }

  /** `createSimulationPrompt(persona, document, request)`: the system prompt and the user prompt, side by side. */
  function CreateSimulationPrompt(persona: Personas.Persona, doc: Document, request: string): (p: SimulationPrompt)
    ensures PersonaText(p.systemPrompt) == Some(persona.ToPrompt())
    ensures Contains(p.userPrompt, doc.content) && Contains(p.userPrompt, TaskBlock(request))
    ensures p == SimulationPrompt(SystemPrompt(persona), UserPrompt(doc, request))
  {
    SimulationPrompt(SystemPrompt(persona), UserPrompt(doc, request))
  }

  /** `documentChunks[i]` in a template literal: an index past either end renders as `undefined`. */
  function ChunkAt(chunks: seq<string>, i: int): (c: string)
    ensures 0 <= i < |chunks| ==> c == chunks[i]
    ensures !(0 <= i < |chunks|) ==> c == "undefined"
  {
    if 0 <= i < |chunks| then chunks[i] else "undefined"
  }

  /** `# Documentation to Review (Part k of n)`. */
  function PartHeader(k: nat, n: nat): string {
    "# Documentation to Review (Part " + NatToString(k) + " of " + NatToString(n) + ")\n\n"
  }

  function PartNotice(k: nat, n: nat): string {
    "This is part " + NatToString(k) + " of " + NatToString(n)
  }

  function AllReceived(n: nat): string {
    "You have now received all " + NatToString(n) + " parts of the documentation. "
  }

  /** How many prompts the chunked builder yields: a first and a last, and one per chunk in between. */
  function PromptCount(n: nat): (c: nat)
    ensures c >= 2
    ensures n >= 2 ==> c == n
    ensures n < 2 ==> c == 2
  {
    if n < 2 then 2 else n
  }

  /** The pieces of the first chunked prompt: part 1, title and url, the first chunk, wait. */
  function FirstParts(n: nat, title: string, url: string, chunk: string): seq<string> {
    [PartHeader(1, n), MetaLines(title, url), "## Content\n\n", chunk, "\n\n", PartNotice(1, n), ReadOn]
  }

  /** The pieces of a middle chunked prompt: part `k`, its chunk, wait. */
  function MiddleParts(k: nat, n: nat, chunk: string): seq<string> {
    [PartHeader(k, n), "## Content\n\n", chunk, "\n\n", PartNotice(k, n), ReadOn]
  }

  /** The pieces of the last chunked prompt: part `n`, the last chunk, the task block, respond. */
  function LastParts(n: nat, chunk: string, request: string): seq<string> {
    [PartHeader(n, n), "## Content\n\n", chunk, "\n\n", TaskBlock(request), AllReceived(n), Closing]
  }

  /**
   * The template pieces of the user prompt at position `i` of the chunked
   * sequence: the first one carries title and url, the last one the request,
   * and every other one only its chunk.
   */
  function ChunkedParts(chunks: seq<string>, title: string, url: string, request: string, i: nat): seq<string> {
    var n := |chunks|;
    if i == 0 then FirstParts(n, title, url, ChunkAt(chunks, 0))
    else if i == PromptCount(n) - 1 then LastParts(n, ChunkAt(chunks, n - 1), request)
    else MiddleParts(i + 1, n, ChunkAt(chunks, i))
  }

  function ChunkedUserPrompt(chunks: seq<string>, title: string, url: string, request: string, i: nat): string {
    Concat(ChunkedParts(chunks, title, url, request, i))
  }

  /**
   * `createChunkedSimulationPrompts`: one prompt for the first chunk, one for
   * each chunk strictly between the first and the last, and one for the last,
   * all with the same system prompt.
   */
  method CreateChunkedSimulationPrompts(
    persona: Personas.Persona, chunks: seq<string>, title: string, url: string, request: string)
    returns (prompts: seq<SimulationPrompt>)
    ensures |prompts| == PromptCount(|chunks|)
    ensures forall i :: 0 <= i < |prompts| ==> prompts[i].systemPrompt == SystemPrompt(persona)
    ensures forall i :: 0 <= i < |prompts| ==> prompts[i].userPrompt == ChunkedUserPrompt(chunks, title, url, request, i)
  {
    prompts := PushChunkedPrompts(SystemPrompt(persona), chunks, title, url, request);
  }

  /** The loop of `createChunkedSimulationPrompts`, given the system prompt it shares out. */
  method PushChunkedPrompts(systemPrompt: string, chunks: seq<string>, title: string, url: string, request: string)
    returns (prompts: seq<SimulationPrompt>)
    ensures |prompts| == PromptCount(|chunks|)
    ensures forall i :: 0 <= i < |prompts| ==> prompts[i].systemPrompt == systemPrompt
    ensures forall i :: 0 <= i < |prompts| ==> prompts[i].userPrompt == ChunkedUserPrompt(chunks, title, url, request, i)
  {
    var n := |chunks|;
    var first := Concat(FirstParts(n, title, url, ChunkAt(chunks, 0)));
    assert first == ChunkedUserPrompt(chunks, title, url, request, 0);
    prompts := [SimulationPrompt(systemPrompt, first)];
    var i := 1;
    while i < n - 1
      invariant if n >= 2 then 1 <= i <= n - 1 else i == 1
      invariant |prompts| == i
      invariant forall j :: 0 <= j < i ==> prompts[j].systemPrompt == systemPrompt
      invariant forall j :: 0 <= j < i ==> prompts[j].userPrompt == ChunkedUserPrompt(chunks, title, url, request, j)
    {
      var middle := Concat(MiddleParts(i + 1, n, chunks[i]));
      assert middle == ChunkedUserPrompt(chunks, title, url, request, i) by {
        assert ChunkedParts(chunks, title, url, request, i) == MiddleParts(i + 1, n, chunks[i]);
      }
      prompts := prompts + [SimulationPrompt(systemPrompt, middle)];
      i := i + 1;
    }
    var last := Concat(LastParts(n, ChunkAt(chunks, n - 1), request));
    assert last == ChunkedUserPrompt(chunks, title, url, request, i) by {
      assert ChunkedParts(chunks, title, url, request, i) == LastParts(n, ChunkAt(chunks, n - 1), request);
    }
    prompts := prompts + [SimulationPrompt(systemPrompt, last)];
  }

  /** With at least two chunks, prompt `i` opens with `Part i+1 of n` and carries chunk `i` verbatim. */
  lemma ChunkDelivered(chunks: seq<string>, title: string, url: string, request: string, i: nat)
    requires 2 <= |chunks| && i < |chunks|
    ensures StartsWith(ChunkedUserPrompt(chunks, title, url, request, i), PartHeader(i + 1, |chunks|))
    ensures Contains(ChunkedUserPrompt(chunks, title, url, request, i), chunks[i])
  {
    var parts := ChunkedParts(chunks, title, url, request, i);
    if i == 0 {
      ConcatHas(parts, 3);
    } else {
      ConcatHas(parts, 2);
    }
  }

  /**
   * Only the first prompt has the title and url lines: in every later one the
   * content block follows the part header directly.
   */
  lemma OnlyFirstHasMeta(chunks: seq<string>, title: string, url: string, request: string, i: nat)
    requires i < PromptCount(|chunks|)
    ensures var p := ChunkedUserPrompt(chunks, title, url, request, i);
      if i == 0 then StartsWith(p, PartHeader(1, |chunks|) + MetaLines(title, url))
      else exists k: nat :: StartsWith(p, PartHeader(k, |chunks|) + "## Content\n\n")
  {
    var n := |chunks|;
    var parts := ChunkedParts(chunks, title, url, request, i);
    ConcatStartsWithTwo(parts);
    if i > 0 {
      var k: nat := if i == PromptCount(n) - 1 then n else i + 1;
      assert parts[0] + parts[1] == PartHeader(k, n) + "## Content\n\n";
    }
  }

  /**
   * Only the last prompt asks for a response: every earlier one ends by
   * telling the model not to respond yet, the last one carries the task block and
   * ends with the closing sentence.
   */
  lemma OnlyLastAsks(chunks: seq<string>, title: string, url: string, request: string, i: nat)
    requires i < PromptCount(|chunks|)
    ensures i < PromptCount(|chunks|) - 1 ==> EndsWith(ChunkedUserPrompt(chunks, title, url, request, i), ReadOn)
    ensures i == PromptCount(|chunks|) - 1 ==>
      EndsWith(ChunkedUserPrompt(chunks, title, url, request, i), Closing)
      && Contains(ChunkedUserPrompt(chunks, title, url, request, i), TaskBlock(request))
  {
    var parts := ChunkedParts(chunks, title, url, request, i);
    ConcatHas(parts, |parts| - 1);
    if i == PromptCount(|chunks|) - 1 {
      ConcatHas(parts, 4);
    }
  }

  /** A single chunk still yields two prompts, and both carry that chunk. */
  lemma SingleChunkSentTwice(chunk: string, title: string, url: string, request: string)
    ensures PromptCount(1) == 2
    ensures Contains(ChunkedUserPrompt([chunk], title, url, request, 0), chunk)
    ensures Contains(ChunkedUserPrompt([chunk], title, url, request, 1), chunk)
  {
    ConcatHas(ChunkedParts([chunk], title, url, request, 0), 3);
    ConcatHas(ChunkedParts([chunk], title, url, request, 1), 2);
  }
}
