/** The news service: the displayed collection, the two loading flags and the
    error message, and the fetch that updates them. The provider round trip
    (the one await of a fetch) is an input, an `Outcome`; the JSON parser is
    an input function; the wall clock is an input string. */
module Service {
  import opened News
  import opened Span
  import opened Merge

  /** One grounding citation; `webUri` is its `web.uri`, when it has one. */
  datatype GroundingChunk = GroundingChunk(webUri: Option<string>)

  /** What the provider round trip delivered: an exception, or a response
      whose text may be missing, with its grounding chunks (`[]` when the
      response carries none). */
  datatype Outcome = Failure | Success(text: Option<string>, chunks: seq<GroundingChunk>)

  /** The JSON step: no span found, a span that parsed, a span that did not. */
  datatype Parsed = NoSpan | Items(items: seq<NewsItem>) | Malformed

  /** The arguments of a fetch. */
  datatype Request = Request(categories: seq<string>, append: bool)

  /** Everything a fetch can change. */
  datatype Feed = Feed(items: seq<NewsItem>, isLoading: bool, isMoreLoading: bool, error: Option<string>)

  /** Extract the span and hand it to the parser; `parse` returns None where
      the parser throws. */
  function ParseResponse(text: string, parse: string -> Option<seq<NewsItem>>): (r: Parsed)
    ensures r.NoSpan? <==> !HasBracketPair(text)
    ensures !r.NoSpan? ==> (r.Items? <==> parse(ExtractSpan(text).value).Some?)
    ensures r.Items? ==> r.items == parse(ExtractSpan(text).value).value
  {
    match ExtractSpan(text)
    case None => NoSpan
    case Some(span) =>
      match parse(span)
      case None => Malformed
      case Some(items) => Items(items)
  }

  /** The link for the item at `index`: the same-indexed chunk's uri, when
      that chunk exists and its uri is a non-empty string. */
  function ChunkUri(chunks: seq<GroundingChunk>, index: nat): (r: Option<string>)
    ensures r.Some? ==> index < |chunks| && r == chunks[index].webUri && r.value != ""
    ensures index < |chunks| && chunks[index].webUri.Some? && chunks[index].webUri.value != "" ==> r.Some?
  {
    if index < |chunks| && chunks[index].webUri.Some? && chunks[index].webUri.value != ""
    then chunks[index].webUri
    else None
  }

  /** One item after stamping. */
  function Stamped(item: NewsItem, uri: Option<string>, now: string): (r: NewsItem)
    ensures r.timestamp == now
    ensures r.sourceUrl == if uri.Some? then uri else item.sourceUrl
    ensures r.title == item.title && r.summary == item.summary
    ensures r.category == item.category && r.sourceName == item.sourceName
  {
    item.(timestamp := now, sourceUrl := if uri.Some? then uri else item.sourceUrl)
  }

  /** The parsed items after stamping: every timestamp overwritten, a link
      attached where the same-indexed chunk has one, nothing else touched. */
  function StampAll(items: seq<NewsItem>, chunks: seq<GroundingChunk>, now: string): (r: seq<NewsItem>)
    ensures |r| == |items|
    ensures forall k :: 0 <= k < |r| ==>
              r[k].title == items[k].title && r[k].summary == items[k].summary &&
              r[k].category == items[k].category && r[k].sourceName == items[k].sourceName
    ensures forall k :: 0 <= k < |r| ==> r[k].timestamp == now
    ensures forall k :: 0 <= k < |r| ==>
              r[k].sourceUrl == if ChunkUri(chunks, k).Some? then ChunkUri(chunks, k) else items[k].sourceUrl
  {
    seq(|items|, k requires 0 <= k < |items| => Stamped(items[k], ChunkUri(chunks, k), now))
  }

  /** What the guarded block of a fetch produced: the stamped candidate
      list, or None where it threw. */
  function Received(outcome: Outcome, parse: string -> Option<seq<NewsItem>>, now: string): (r: Option<seq<NewsItem>>)
    ensures r.None? <==>
              outcome.Failure? || outcome.text.None? || ParseResponse(outcome.text.value, parse).Malformed?
    ensures r == Some([]) <== outcome.Success? && outcome.text.Some? && !HasBracketPair(outcome.text.value)
    ensures outcome.Success? && outcome.text.Some? && ParseResponse(outcome.text.value, parse).Items? ==>
              r == Some(StampAll(ParseResponse(outcome.text.value, parse).items, outcome.chunks, now))
  {
    match outcome
    case Failure => None
    case Success(text, chunks) =>
      if text.None? then None
      else
        match ParseResponse(text.value, parse)
        case NoSpan => Some([])
        case Malformed => None
        case Items(items) => Some(StampAll(items, chunks, now))
  }

  /** The displayed collection after a fetch that received `received`. */
  function NextItems(current: seq<NewsItem>, append: bool, received: Option<seq<NewsItem>>): (r: seq<NewsItem>)
    ensures append ==> current <= r
    ensures !append ==> |r| > 0
  {
    match received
    case None => if append then current else FallbackNews()
    case Some(items) =>
      if |items| > 0 then (if append then AppendUnique(current, items) else items)
      else if append then current
      else FallbackNews()
  }

  /** The state at the end of a fetch that started from `current`. */
  function Fetched(current: seq<NewsItem>, append: bool, outcome: Outcome,
                   parse: string -> Option<seq<NewsItem>>, now: string): (f: Feed)
    ensures !f.isLoading && !f.isMoreLoading
    ensures f.error.Some? <==> !append && Received(outcome, parse, now).None?
    ensures f.error.Some? ==> f.error == Some(FailureMessage) && f.items == FallbackNews()
    ensures append ==> current <= f.items
    ensures !append ==> |f.items| > 0
  {
    var received := Received(outcome, parse, now);
    var items := NextItems(current, append, received);
    var error: Option<string> := if received.None? && !append then Some(FailureMessage) else None;
    assert error.Some? ==> received == None && items == FallbackNews();
    Feed(items, false, false, error)
  }

  /** Replace: a non-empty parsed list becomes the collection, stamped and
      in provider order, whatever was on display before. */
  lemma FetchReplaces(current: seq<NewsItem>, text: string, chunks: seq<GroundingChunk>,
                      parse: string -> Option<seq<NewsItem>>, now: string, parsed: seq<NewsItem>)
    requires ParseResponse(text, parse) == Items(parsed) && parsed != []
    ensures Fetched(current, false, Success(Some(text), chunks), parse, now)
            == Feed(StampAll(parsed, chunks, now), false, false, None)
  {
  }

  /** Append: the old collection followed by the stamped candidates whose
      title was not on display. */
  lemma FetchAppends(current: seq<NewsItem>, text: string, chunks: seq<GroundingChunk>,
                     parse: string -> Option<seq<NewsItem>>, now: string, parsed: seq<NewsItem>)
    requires ParseResponse(text, parse) == Items(parsed)
    ensures Fetched(current, true, Success(Some(text), chunks), parse, now)
            == Feed(AppendUnique(current, StampAll(parsed, chunks, now)), false, false, None)
  {
  }

  /** Append idempotence: candidates whose titles are all on display leave
      the collection as it was. */
  lemma FetchAppendKnownTitles(current: seq<NewsItem>, text: string, chunks: seq<GroundingChunk>,
                               parse: string -> Option<seq<NewsItem>>, now: string, parsed: seq<NewsItem>)
    requires ParseResponse(text, parse) == Items(parsed)
    requires forall x :: x in parsed ==> x.title in Titles(current)
    ensures Fetched(current, true, Success(Some(text), chunks), parse, now).items == current
  {
    var stamped := StampAll(parsed, chunks, now);
    forall y | y in stamped ensures y.title in Titles(current) {
      var k :| 0 <= k < |stamped| && stamped[k] == y;
      assert parsed[k] in parsed;
    }
    AppendKnownIsIdentity(current, stamped);
  }

  /** No span, or a span that parses to nothing: a replace fetch shows the
      fallback list, an append fetch changes nothing; neither is an error. */
  lemma FetchNothingParsed(current: seq<NewsItem>, append: bool, text: string, chunks: seq<GroundingChunk>,
                           parse: string -> Option<seq<NewsItem>>, now: string)
    requires ParseResponse(text, parse) == NoSpan || ParseResponse(text, parse) == Items([])
    ensures Fetched(current, append, Success(Some(text), chunks), parse, now)
            == Feed(if append then current else FallbackNews(), false, false, None)
  {
  }

  /** Failure (a thrown request, a missing text, an unparsable span): a
      replace fetch shows the fallback list and the failure message, an
      append fetch changes nothing and leaves no error. */
  lemma FetchFails(current: seq<NewsItem>, append: bool, outcome: Outcome,
                   parse: string -> Option<seq<NewsItem>>, now: string)
    requires outcome.Failure? || outcome.text.None? || ParseResponse(outcome.text.value, parse).Malformed?
    ensures Fetched(current, append, outcome, parse, now)
            == if append then Feed(current, false, false, None)
               else Feed(FallbackNews(), false, false, Some(FailureMessage))
  {
  }

  /** The service's image generation: a JPEG data URL around the first
      generated image's base64 bytes, or None when the call throws (no
      reply, or no image in it). */
  function GenerateImage(reply: Option<string>): (r: Option<string>)
    ensures r.Some? <==> reply.Some?
    ensures r.Some? ==> "data:image/jpeg;base64," <= r.value && r.value[23..] == reply.value
  {
    if reply.Some? then Some("data:image/jpeg;base64," + reply.value) else None
  }

  /** The `forEach` of the fetch: stamps the parsed items one by one, in place. */
  method StampInPlace(items: array<NewsItem>, chunks: seq<GroundingChunk>, now: string)
    modifies items
    ensures items[..] == StampAll(old(items[..]), chunks, now)
  {
    var index := 0;
    while index < items.Length
      invariant 0 <= index <= items.Length
      invariant forall k :: 0 <= k < index ==> items[k] == Stamped(old(items[k]), ChunkUri(chunks, k), now)
      invariant forall k :: index <= k < items.Length ==> items[k] == old(items[k])
    {
      var item := items[index].(timestamp := now);
      if index < |chunks| && chunks[index].webUri.Some? && chunks[index].webUri.value != "" {
        item := item.(sourceUrl := chunks[index].webUri);
      }
      items[index] := item;
      index := index + 1;
    }
  }

  class NewsService {
    var newsItems: seq<NewsItem>
    var isLoading: bool
    var isMoreLoading: bool
    var error: Option<string>
    /** The arguments of the most recent fetch. */
    ghost var lastRequest: Option<Request>

    function State(): Feed
      reads this
    {
      Feed(newsItems, isLoading, isMoreLoading, error)
    }

    constructor ()
      ensures State() == Feed([], false, false, None) && lastRequest == None
    {
      newsItems := [];
      isLoading, isMoreLoading := false, false;
      error := None;
      lastRequest := None;
    }

    method SetFallbackNews()
      modifies this`newsItems
      ensures newsItems == FallbackNews()
    {
      newsItems := FallbackNews();
    }

    /** The part of a fetch before its await: raise the flag `append`
        selects, clear the error. */
    method BeginFetch(categories: seq<string>, append: bool)
      modifies this`isLoading, this`isMoreLoading, this`error, this`lastRequest
      ensures isLoading == (old(isLoading) || !append)
      ensures isMoreLoading == (old(isMoreLoading) || append)
      ensures error == None
      ensures lastRequest == Some(Request(categories, append))
    {
      lastRequest := Some(Request(categories, append));
      if append {
        isMoreLoading := true;
      } else {
        isLoading := true;
      }
      error := None;
    }

    /** The part of a fetch after its await: parse, stamp, merge, and lower
        both flags whatever happened. */
    method CompleteFetch(append: bool, outcome: Outcome, parse: string -> Option<seq<NewsItem>>, now: string)
      modifies this`newsItems, this`isLoading, this`isMoreLoading, this`error
      ensures newsItems == NextItems(old(newsItems), append, Received(outcome, parse, now))
      ensures error == if Received(outcome, parse, now).None? && !append then Some(FailureMessage) else old(error)
      ensures !isLoading && !isMoreLoading
    {
      // None where the guarded block throws
      var received: Option<seq<NewsItem>> := None;
      if outcome.Success? && outcome.text.Some? {
        match ParseResponse(outcome.text.value, parse) {
          case NoSpan =>
            received := Some([]);
          case Malformed =>
            received := None;
          case Items(parsed) =>
            var buffer := new NewsItem[|parsed|](k requires 0 <= k < |parsed| => parsed[k]);
            assert buffer[..] == parsed;
            StampInPlace(buffer, outcome.chunks, now);
            received := Some(buffer[..]);
        }
      }
      assert received == Received(outcome, parse, now);

      match received {
        case Some(items) =>
          if |items| > 0 {
            if append {
              var existingTitles := Titles(newsItems);
              var newUniqueItems := FreshCandidates(items, existingTitles);
              newsItems := newsItems + newUniqueItems;
            } else {
              newsItems := items;
            }
          } else if !append {
            SetFallbackNews();
          }
        case None =>
          if !append {
            error := Some(FailureMessage);
            SetFallbackNews();
          }
      }

      isLoading := false;
      isMoreLoading := false;
    }

    /** One fetch, run to completion. */
    method FetchNews(categories: seq<string>, append: bool, outcome: Outcome,
                     parse: string -> Option<seq<NewsItem>>, now: string)
      modifies this
      ensures State() == Fetched(old(newsItems), append, outcome, parse, now)
      ensures lastRequest == Some(Request(categories, append))
    {
      BeginFetch(categories, append);
      CompleteFetch(append, outcome, parse, now);
    }
  }
}
