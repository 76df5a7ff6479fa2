/** The paper-search view (components/PaperSearch.tsx): its request state
    machine (`handleSearch`), the submit-disabled condition and the
    sources column of a rendered result. The `async` handler is split in
    two: `HandleSearch` runs up to the `await` and returns the query it
    hands to the service (or nothing), and `Resolve` runs the rest with the
    outcome of that call. */
module PaperSearch {
  import opened Types
  import GeminiService

  const FallbackErrorMessage := "An error occurred"

  /** The characters `String.prototype.trim` removes: ECMAScript WhiteSpace
      (including the Unicode space separators) and LineTerminator. */
  predicate IsJsWhitespace(c: char) {
    c == '\t' || c == '\U{000B}' || c == '\U{000C}' || c == ' ' || c == '\U{00A0}' || c == '\U{FEFF}' ||
    c == '\U{1680}' || ('\U{2000}' <= c <= '\U{200A}') || c == '\U{202F}' || c == '\U{205F}' || c == '\U{3000}' ||
    c == '\n' || c == '\r' || c == '\U{2028}' || c == '\U{2029}'
  }

  /** Every character of `s` is whitespace (vacuously so for ""). */
  predicate IsBlank(s: string) {
    forall i :: 0 <= i < |s| ==> IsJsWhitespace(s[i])
  }

  /** Drops the leading whitespace, and only that. */
  function TrimStart(s: string): (r: string)
    ensures |r| <= |s| && r == s[|s| - |r|..]
    ensures forall i :: 0 <= i < |s| - |r| ==> IsJsWhitespace(s[i])
    ensures r != [] ==> !IsJsWhitespace(r[0])
  {
    if s != [] && IsJsWhitespace(s[0]) then TrimStart(s[1..]) else s
  }

  /** Drops the trailing whitespace, and only that. */
  function TrimEnd(s: string): (r: string)
    ensures |r| <= |s| && r == s[..|r|]
    ensures forall i :: |r| <= i < |s| ==> IsJsWhitespace(s[i])
    ensures r != [] ==> !IsJsWhitespace(r[|r| - 1])
  {
    if s != [] && IsJsWhitespace(s[|s| - 1]) then TrimEnd(s[..|s| - 1]) else s
  }

  /** `s.trim()`: a non-empty result starts and ends with a character that
      is not whitespace, and is never longer than `s`. */
  function Trim(s: string): (r: string)
    ensures |r| <= |s|
    ensures r != [] ==> !IsJsWhitespace(r[0]) && !IsJsWhitespace(r[|r| - 1])
  {
    TrimEnd(TrimStart(s))
  }

  /** `!query.trim()` holds exactly for the empty and the whitespace-only
      strings. */
  lemma TrimEmptyIffBlank(s: string)
    ensures Trim(s) == "" <==> IsBlank(s)
  {
  }

  /** `disabled={isLoading || !query}`: a pending search blocks a second
      submission, and every query `handleSearch` would dispatch can be
      submitted. The button tests emptiness, not `trim`. */
  function SubmitDisabled(isLoading: bool, query: string): (disabled: bool)
    ensures disabled <==> isLoading || query == ""
    ensures isLoading ==> disabled
    ensures !isLoading && !IsBlank(query) ==> !disabled
  {
    isLoading || query == ""
  }

  /** A whitespace-only query leaves the button enabled although
      `handleSearch` will then do nothing: the two guards disagree. */
  lemma BlankQueryEnablesSubmitButIsNotDispatched(query: string)
    requires query != "" && IsBlank(query)
    ensures !SubmitDisabled(false, query)
    ensures Trim(query) == ""
  {
    TrimEmptyIffBlank(query);
  }

  /** `err instanceof Error ? err.message : 'An error occurred'`. */
  function ErrorText(thrown: Thrown): (m: string)
    ensures thrown.ErrorObject? ==> m == thrown.message
    ensures thrown.NonErrorValue? ==> m == FallbackErrorMessage
  {
    match thrown
    case ErrorObject(message) => message
    case NonErrorValue => FallbackErrorMessage
  }

  /** The state held by the view. */
  class SearchView {
    var query: string
    var isLoading: bool
    var result: Option<SearchResult>
    var error: Option<string>

    /** A result and an error are never shown together, and a pending
        request shows neither. */
    ghost predicate Valid()
      reads this
    {
      !(result.Some? && error.Some?) &&
      (isLoading ==> result.None? && error.None?)
    }

    constructor ()
      ensures Valid()
      ensures query == "" && !isLoading && result == None && error == None
    {
      query, isLoading, result, error := "", false, None, None;
    }

    /** The input's `onChange`. */
    method SetQuery(q: string)
      requires Valid()
      modifies this`query
      ensures Valid() && query == q
    {
      query := q;
    }

    /** `handleSearch` up to the `await`. A blank query changes nothing and
        dispatches nothing; otherwise the view turns pending with both the
        error and the previous result cleared, and the query is dispatched
        unchanged (untrimmed). */
    method HandleSearch() returns (request: Option<string>)
      requires Valid()
      modifies this
      ensures Valid() && query == old(query)
      ensures request.None? <==> IsBlank(query)
      ensures request.None? ==> isLoading == old(isLoading) && result == old(result) && error == old(error)
      ensures request.Some? ==> request.value == query && isLoading && result == None && error == None
    {
      TrimEmptyIffBlank(query);
      if Trim(query) == "" {
        return None;
      }
      isLoading := true;
      error := None;
      result := None;
      request := Some(query);
    }

    /** `handleSearch` after the `await`: the continuation of a pending
        request. Success stores the result, failure stores the message, and
        the `finally` clears the pending flag either way. */
    method Resolve(outcome: Result<SearchResult, Thrown>)
      requires Valid() && isLoading
      modifies this
      ensures Valid() && !isLoading && query == old(query)
      ensures outcome.Ok? ==> result == Some(outcome.value) && error == None
      ensures outcome.Err? ==> result == None && error == Some(ErrorText(outcome.error))
    {
      match outcome {
        case Ok(data) =>
          result := Some(data);
        case Err(thrown) =>
          error := Some(ErrorText(thrown));
      }
      isLoading := false;
    }
  }

  /** One `<a>` of the sources column. */
  datatype SourceLink = SourceLink(href: string, text: string)

  /** The sources column: the "No direct sources linked." note, or links. */
  datatype SourcesColumn = NoDirectSources | Links(links: seq<SourceLink>)

  /** `result.sources.map(...)`: one link per source, in order. */
  function LinksOf(sources: seq<PaperSource>): (links: seq<SourceLink>)
    ensures |links| == |sources|
    ensures forall i :: 0 <= i < |sources| ==>
              links[i].href == sources[i].uri && links[i].text == sources[i].title
  {
    if sources == [] then []
    else [SourceLink(sources[0].uri, sources[0].title)] + LinksOf(sources[1..])
  }

  /** `result.sources.length > 0 ? links : note`. */
  function RenderSources(r: SearchResult): (column: SourcesColumn)
    ensures column.NoDirectSources? <==> r.sources == []
    ensures column.Links? ==> |column.links| == |r.sources| > 0
    ensures column.Links? ==> forall i :: 0 <= i < |r.sources| ==>
              column.links[i] == SourceLink(r.sources[i].uri, r.sources[i].title)
  {
    if |r.sources| > 0 then Links(LinksOf(r.sources)) else NoDirectSources
  }

  /** From response to screen: a successful search renders one link per
      web-bearing grounding chunk, and the "No direct sources linked." note
      exactly when no chunk carries `web`. */
  lemma SearchRendersOneLinkPerWebChunk(response: GeminiService.GenerateResponse)
    ensures var chunks := GeminiService.GroundingChunks(response);
            var column := RenderSources(SearchResult(GeminiService.Summary(response.text),
                                                     GeminiService.WebSources(chunks)));
            (column.NoDirectSources? <==> forall j :: 0 <= j < |chunks| ==> chunks[j].web.None?) &&
            (column.Links? ==> |column.links| == |GeminiService.WebIndices(chunks)|)
  {
    var chunks := GeminiService.GroundingChunks(response);
    GeminiService.WebSourcesFollowWebChunks(chunks);
    var ix := GeminiService.WebIndices(chunks);
    if ix != [] {
      assert chunks[ix[0]].web.Some?;
    }
  }
}
