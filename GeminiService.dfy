/** The query service (services/geminiService.ts): how a raw model response
    becomes a `SearchResult` or a `SimulationResult`, and how every failure
    is collapsed into one fixed message. The network call itself is an
    input: the outcome of `generateContent`, either a response or a thrown
    value. `JSON.parse` is an input too, as a total function from the text
    body to a parsed result or a parse error. */
module GeminiService {
  import opened Types

  const NoResultsSummary := "No results found."
  const DefaultTitle := "Source"
  const DefaultUri := "#"
  const SearchFailureMessage := "Failed to fetch research papers. Please try again."
  const NoSimulationDataMessage := "No simulation data returned."
  const SimulationFailureMessage := "Failed to simulate outcome. Please adjust your parameters."

  /** `chunk.web`: both fields may be missing. */
  datatype WebRef = WebRef(title: Option<string>, uri: Option<string>)
  /** One grounding chunk; only some carry a `web` sub-object. */
  datatype GroundingChunk = GroundingChunk(web: Option<WebRef>)
  datatype GroundingMetadata = GroundingMetadata(groundingChunks: Option<seq<GroundingChunk>>)
  datatype Candidate = Candidate(groundingMetadata: Option<GroundingMetadata>)
  /** The parts of a `generateContent` response that the service reads. */
  datatype GenerateResponse = GenerateResponse(text: Option<string>, candidates: Option<seq<Candidate>>)

  /** The opaque failure of `JSON.parse`. */
  datatype ParseError = ParseError

  /** JavaScript truthiness of an optional string: absent and "" are falsy. */
  predicate Truthy(s: Option<string>) {
    s.Some? && s.value != ""
  }

  /** `s || fallback` on an optional string. */
  function OrElse(s: Option<string>, fallback: string): (r: string)
    ensures Truthy(s) ==> r == s.value
    ensures !Truthy(s) ==> r == fallback
  {
    if Truthy(s) then s.value else fallback
  }

  /** `response.text || "No results found."`: the summary is never empty. */
  function Summary(text: Option<string>): (r: string)
    ensures r != ""
    ensures Truthy(text) ==> r == text.value
    ensures !Truthy(text) ==> r == NoResultsSummary
  {
    OrElse(text, NoResultsSummary)
  }

  /** The `PaperSource` pushed for a chunk whose `web` is `w`: a falsy title
      becomes "Source", a falsy uri becomes "#", present values are copied.
      Neither field of the result is ever empty. */
  function SourceOf(w: WebRef): (p: PaperSource)
    ensures p.title != "" && p.uri != ""
    ensures Truthy(w.title) ==> p.title == w.title.value
    ensures !Truthy(w.title) ==> p.title == DefaultTitle
    ensures Truthy(w.uri) ==> p.uri == w.uri.value
    ensures !Truthy(w.uri) ==> p.uri == DefaultUri
  {
    PaperSource(OrElse(w.title, DefaultTitle), OrElse(w.uri, DefaultUri))
  }

  /** `response.candidates?.[0]?.groundingMetadata?.groundingChunks`, with
      every absent link of the chain (and an empty candidate list) read as
      "no chunks". */
  function GroundingChunks(resp: GenerateResponse): (chunks: seq<GroundingChunk>)
    ensures resp.candidates.None? || resp.candidates.value == [] ==> chunks == []
    ensures (resp.candidates.Some? && resp.candidates.value != [] &&
             resp.candidates.value[0].groundingMetadata.Some? &&
             resp.candidates.value[0].groundingMetadata.value.groundingChunks.Some?)
            ==> chunks == resp.candidates.value[0].groundingMetadata.value.groundingChunks.value
    ensures chunks != [] ==>
              (resp.candidates.Some? && resp.candidates.value != [] &&
               resp.candidates.value[0].groundingMetadata.Some? &&
               resp.candidates.value[0].groundingMetadata.value.groundingChunks.Some?)
  {
    match resp.candidates
    case None => []
    case Some(cands) =>
      if cands == [] then []
      else match cands[0].groundingMetadata
        case None => []
        case Some(meta) =>
          match meta.groundingChunks
          case None => []
          case Some(cs) => cs
  }

  /** The sources the `forEach` loop has pushed after visiting `chunks`,
      defined the way the loop builds them: one push per web-bearing chunk,
      at the end. There are never more sources than chunks, and every
      source has a non-empty title and uri. */
  function WebSources(chunks: seq<GroundingChunk>): (sources: seq<PaperSource>)
    ensures |sources| <= |chunks|
    ensures forall k :: 0 <= k < |sources| ==> sources[k].title != "" && sources[k].uri != ""
  {
    if chunks == [] then []
    else
      var last := chunks[|chunks| - 1];
      WebSources(chunks[..|chunks| - 1]) + (if last.web.Some? then [SourceOf(last.web.value)] else [])
  }

  /** An independent description of which chunks are kept: the positions
      of the web-bearing chunks, in increasing order, each exactly once. */
  function WebIndices(chunks: seq<GroundingChunk>): (ix: seq<nat>)
    ensures forall k :: 0 <= k < |ix| ==> ix[k] < |chunks| && chunks[ix[k]].web.Some?
    ensures forall k, l :: 0 <= k < l < |ix| ==> ix[k] < ix[l]
    ensures forall j :: 0 <= j < |chunks| && chunks[j].web.Some? ==> j in ix
  {
    if chunks == [] then []
    else
      var n := |chunks| - 1;
      WebIndices(chunks[..n]) + (if chunks[n].web.Some? then [n] else [])
  }

  /** `sources` has exactly one entry per web-bearing chunk, in chunk order:
      the k-th source is built from the k-th web-bearing chunk. Chunks
      without `web` contribute nothing. */
  lemma {:induction false} WebSourcesFollowWebChunks(chunks: seq<GroundingChunk>)
    ensures |WebSources(chunks)| == |WebIndices(chunks)|
    ensures forall k :: 0 <= k < |WebSources(chunks)| ==>
              WebSources(chunks)[k] == SourceOf(chunks[WebIndices(chunks)[k]].web.value)
  {
    if chunks != [] {
      var n := |chunks| - 1;
      var init := chunks[..n];
      WebSourcesFollowWebChunks(init);
      forall j | 0 <= j < |init| ensures init[j] == chunks[j] { }
    }
  }

  /** With no web-bearing chunk (in particular with no chunks at all), the
      source list is empty. */
  lemma {:induction false} NoWebChunksNoSources(chunks: seq<GroundingChunk>)
    requires forall j :: 0 <= j < |chunks| ==> chunks[j].web.None?
    ensures WebSources(chunks) == []
  {
    if chunks != [] {
      NoWebChunksNoSources(chunks[..|chunks| - 1]);
    }
  }

  /** The `forEach` over `chunks` that pushes one source per chunk with a
      `web` field. */
  method ExtractSources(chunks: seq<GroundingChunk>) returns (sources: seq<PaperSource>)
    ensures sources == WebSources(chunks)
    ensures |sources| <= |chunks|
  {
    sources := [];
    var i := 0;
    while i < |chunks|
      invariant 0 <= i <= |chunks|
      invariant sources == WebSources(chunks[..i])
    {
      var chunk := chunks[i];
      assert chunks[..i + 1][..i] == chunks[..i];
      if chunk.web.Some? {
        sources := sources + [SourceOf(chunk.web.value)];
      }
      i := i + 1;
    }
    assert chunks[..i] == chunks;
  }

  /** `searchResearchPapers`: a failed call yields only the fixed error,
      never a partial result; a successful call yields the summary with its
      fallback and the sources of the first candidate's grounding chunks. */
  method SearchResearchPapers(call: Result<GenerateResponse, Thrown>) returns (r: Result<SearchResult, Thrown>)
    ensures call.Err? <==> r.Err?
    ensures r.Err? ==> r.error == ErrorObject(SearchFailureMessage)
    ensures call.Ok? ==> r == Ok(SearchResult(Summary(call.value.text), WebSources(GroundingChunks(call.value))))
  {
    match call {
      case Err(_) =>
        r := Err(ErrorObject(SearchFailureMessage));
      case Ok(response) =>
        var text := Summary(response.text);
        var chunks := GroundingChunks(response);
        var sources := ExtractSources(chunks);
        r := Ok(SearchResult(text, sources));
    }
  }

  /** `simulateOutcome`: a present, non-empty text body is handed to the
      parser and its value returned unchanged; an absent or empty body
      throws "No simulation data returned." inside the `try`, so it is
      re-wrapped by the `catch` like a parse failure or a failed call. */
  function SimulateOutcome(call: Result<GenerateResponse, Thrown>,
                           parse: string -> Result<SimulationResult, ParseError>): (r: Result<SimulationResult, Thrown>)
    ensures r.Ok? <==> call.Ok? && Truthy(call.value.text) && parse(call.value.text.value).Ok?
    ensures r.Ok? ==> r.value == parse(call.value.text.value).value
    ensures r.Err? ==> r.error == ErrorObject(SimulationFailureMessage)
  {
    var attempt: Result<SimulationResult, Thrown> :=
      match call
      case Err(e) => Err(e)
      case Ok(response) =>
        if Truthy(response.text) then
          match parse(response.text.value)
          case Ok(v) => Ok(v)
          case Err(_) => Err(ErrorObject("SyntaxError"))
        else Err(ErrorObject(NoSimulationDataMessage));
    match attempt
    case Ok(v) => Ok(v)
    case Err(_) => Err(ErrorObject(SimulationFailureMessage))
  }
}
