# Global News Explorer: a verified model of its fetch and selection state

The news reader keeps two small state machines:

- **The news service.** It holds the displayed collection (`newsItems`), two loading flags (`isLoading`, `isMoreLoading`) and an error message. `fetchNews(categories, append)` raises one flag and clears the error. It then asks a generative-text provider for headlines, finds the JSON array in the reply, stamps each item, and merges the result. A replace fetch swaps the collection. An append fetch adds the items whose title is new. When a replace fetch brings back nothing, the service falls back to six fixed placeholder items; an append fetch that brings back nothing keeps the collection. A failed replace fetch also shows the fallback, with an error message. A failed append fetch keeps the collection, and the error stays cleared from the start of the fetch. Both flags are lowered at the end.
- **The root component.** It holds the category selection. This is a set that is never empty: toggling away the last label leaves `{"World"}`. Every selection change triggers a replace fetch. An infinite-scroll guard triggers append fetches. The component also holds the article-detail view, which shows a generated image or a title-seeded placeholder, and a read-aloud flag.

Modules, one concept each:

- `News` (news.dfy): the `NewsItem` record, `Option`, and the fallback list.
- `Span` (span.dfy): where the pattern `\[[\s\S]*\]` matches. The match runs from the first `[` to the last `]`.
- `Merge` (merge.dfy): the title-deduplicating append.
- `Service` (service.dfy): the `NewsService` class and the specification of one fetch (`Fetched`).
- `Selection` (selection.dfy): the selection as a duplicate-free sequence, and `Toggle`.
- `App` (app.dfy): the `AppComponent` class.

Inputs stand in for everything outside the program:

- The provider round trip is an `Outcome`. It is either `Failure` (the request threw) or `Success(text, chunks)`. The text is optional because the SDK's `text` may be undefined, and then `.match` throws.
- The JSON parser is a function `string -> Option<seq<NewsItem>>`. `None` means the parser threw.
- The wall clock is a display string, `now`.
- The image provider's reply is an `Option<string>` of base64 bytes.
- The URI encoder is a function `string -> string`.

Each `async` method is split at its one `await`:

- `BeginFetch` and `CompleteFetch` make up `FetchNews`.
- `OpenArticle` and `ShowArticleImage` make up `SelectArticle`.

This split lets the model state the flags between the two halves.

Three behaviours of the fetch are worth stating plainly:

- The JSON span runs greedily from the first `[` to the last `]` after it (src/services/news.service.ts:52, `Span.TwoArraysGiveOneSpan`).
- A span that `JSON.parse` rejects throws, so the failure branch runs: a replace fetch shows the fallback list and the failure message (src/services/news.service.ts:53 and 76-81, `Service.FetchFails`).
- The error is cleared when a fetch starts (src/services/news.service.ts:31), so a failed append fetch ends with no error.

## Model

| member | source | states |
|---|---|---|
| `News.FallbackNews` | src/services/news.service.ts:110-118 | the fallback list has exactly six items (the six literal records are `News.FallbackItem`) |
| `Span.FirstIndex` | src/services/news.service.ts:52 | the result is the first position of the character, or none exactly when the character does not occur |
| `Span.LastIndex` | src/services/news.service.ts:52 | the result is the last position of the character, or none exactly when the character does not occur |
| `Span.SpanBounds` | src/services/news.service.ts:52 | the pattern matches exactly when some `[` precedes some `]`; the match starts at the first `[` of the text and ends at its last `]` |
| `Span.ExtractSpan` | src/services/news.service.ts:52 | a span exists exactly when some `[` precedes some `]`; the span begins with `[` and ends with `]` |
| `Span.ExtractWrapped` | src/services/news.service.ts:52-53 | an array wrapped in commentary is extracted whole and alone, provided there is no `[` before it and no `]` after it |
| `Span.TwoArraysGiveOneSpan` | src/services/news.service.ts:52 | the match is greedy, not balanced: `a [1] b [2] c` yields `[1] b [2]` |
| `Merge.Titles` | src/services/news.service.ts:66 | every displayed item's title is in the set, and every title in the set belongs to a displayed item |
| `Merge.FreshCandidates` | src/services/news.service.ts:66-67 | every kept candidate comes from the batch and has a title that was not on display; the result is no longer than the batch |
| `Merge.AppendUnique` | src/services/news.service.ts:66-68 | the old collection is a prefix of the result; the result grows by at most the batch; every appended item comes from the batch and has a title that was not on display |
| `Merge.FreshKeepsOrder` | src/services/news.service.ts:67 | the kept candidates are a subsequence of the batch, so provider order is kept |
| `Merge.FreshMultiplicity` | src/services/news.service.ts:66-67 | a candidate with a known title is kept zero times; one with a new title is kept as often as it occurs in the batch |
| `Merge.FreshAllKnown` | src/services/news.service.ts:66-67 | a batch whose titles are all on display keeps nothing |
| `Merge.FreshAllNew` | src/services/news.service.ts:66-67 | a batch with no title on display is kept whole, duplicates included |
| `Merge.AppendUniqueSpec` | src/services/news.service.ts:64-68 | the old collection is a prefix of the result; the appended tail is a provider-order subsequence of the batch, with each new-title item at its batch multiplicity and each known-title item absent |
| `Merge.AppendKnownIsIdentity` | src/services/news.service.ts:66-68 | appending a batch whose titles are all on display leaves the collection unchanged |
| `Merge.AppendUniqueIdempotent` | src/services/news.service.ts:64-68 | merging the same batch twice gives the same collection as merging it once |
| `Merge.MergeExample` | src/services/news.service.ts:64-68 | `[A,B]` merged with `[B,C]` gives `[A,B,C]` |
| `Merge.MergeKeepsBatchDuplicates` | src/services/news.service.ts:66-68 | two candidates in one batch that share a new title are both appended |
| `Service.ParseResponse` | src/services/news.service.ts:52-53 | "no span" exactly when no `[` precedes a `]`; otherwise the result is items exactly when the parser accepts the extracted span, and then the items are what the parser returned for that span |
| `Service.ChunkUri` | src/services/news.service.ts:58-59 | a link is only ever the same-indexed chunk's uri and is never empty; the chunk's uri is taken whenever it exists and is non-empty |
| `Service.Stamped` | src/services/news.service.ts:57-60 | the timestamp becomes the clock value; the link becomes the given uri when there is one and is otherwise kept; title, summary, category and source name are unchanged |
| `Service.StampAll` | src/services/news.service.ts:55-61 | the same number of items; every timestamp is the clock value; `sourceUrl` is the same-indexed chunk's non-empty uri when there is one, and is otherwise kept; title, summary, category and source name are unchanged |
| `Service.Received` | src/services/news.service.ts:35-81 | the guarded block throws exactly on a failed request, a missing text or an unparsable span; text with no bracket pair yields the empty list; a parsed span yields the parsed items, stamped |
| `Service.NextItems` | src/services/news.service.ts:63-81 | an append fetch keeps the old collection as a prefix; a replace fetch never leaves the collection empty |
| `Service.Fetched` | src/services/news.service.ts:25-86 | after a fetch both flags are down; there is an error exactly when a replace fetch threw, and then it is the failure message and the fallback list is shown; append keeps the old prefix; replace leaves a non-empty collection |
| `Service.FetchReplaces` | src/services/news.service.ts:63-70 | a replace fetch with a non-empty parsed list shows exactly that list, stamped and in provider order, whatever was shown before, with no error |
| `Service.FetchAppends` | src/services/news.service.ts:63-68 | an append fetch with a parsed list shows the old collection merged with the stamped list, with no error (an empty list changes nothing) |
| `Service.FetchAppendKnownTitles` | src/services/news.service.ts:66-68 | an append fetch whose parsed titles are all on display leaves the collection unchanged |
| `Service.FetchNothingParsed` | src/services/news.service.ts:53-74 | no span, or an empty parsed list: a replace fetch shows the fallback list and an append fetch changes nothing; neither sets an error |
| `Service.FetchFails` | src/services/news.service.ts:76-85 | a thrown request, a missing text or an unparsable span: a replace fetch shows the fallback list with the failure message; an append fetch leaves the collection unchanged and the error cleared |
| `Service.StampInPlace` | src/services/news.service.ts:56-61 | the in-place loop leaves the array equal to the stamped list |
| `Service.NewsService.constructor` | src/services/news.service.ts:20-23 | the service starts with an empty collection, both flags down and no error |
| `Service.NewsService.SetFallbackNews` | src/services/news.service.ts:110-119 | the collection becomes the fallback list |
| `Service.NewsService.BeginFetch` | src/services/news.service.ts:26-31 | an append fetch raises `isMoreLoading`, a replace fetch raises `isLoading`, and the other flag is untouched; the error is cleared |
| `Service.NewsService.CompleteFetch` | src/services/news.service.ts:51-85 | the collection becomes the merge result; the error is set to the failure message only when a replace fetch threw; both flags end down |
| `Service.NewsService.FetchNews` | src/services/news.service.ts:25-86 | the whole fetch takes the service to `Fetched` of the old collection, and records its categories and append flag |
| `Selection.Without` | src/app.component.ts:72 | deleting a label keeps exactly the other labels; no duplicates are introduced; the length drops by one when the label was present; nothing changes when it was absent |
| `Selection.Toggle` | src/app.component.ts:69-81 | the selection is never empty and stays duplicate-free; an absent label is appended and the rest is unchanged; removing a present label leaves the set minus that label, or exactly `{"World"}` when nothing else remains |
| `Selection.SizeIsLength` | src/app.component.ts:37 | a duplicate-free selection has as many members as elements |
| `Selection.ToggleLastLabel` | src/app.component.ts:71-80 | toggling the only selected label yields `["World"]` |
| `Selection.WithoutSplit` | src/app.component.ts:72 | removing a label that occurs once leaves the labels before it followed by the labels after it, each in their order |
| `Selection.ToggleTwiceRestores` | src/app.component.ts:71-75 | toggling an absent label twice restores a non-empty selection |
| `App.TitleSeed` | src/app.component.ts:111 | the seed is the title's prefix of length min(10, title length) |
| `App.PlaceholderImage` | src/app.component.ts:111-112 | the placeholder is the picsum seed address, with the encoded title seed between the prefix and `/1200/675` |
| `Service.GenerateImage` | src/services/news.service.ts:88-107 | the result is null exactly when the call failed; otherwise it is a JPEG data URL wrapping the returned bytes |
| `App.AppComponent.constructor` | src/app.component.ts:15-30 | the component starts with the selection `["World"]`, no article, no image, and no speech |
| `App.AppComponent.IsCategoryActive` | src/app.component.ts:33-35 | a category is active exactly when it is a member of the selection |
| `App.AppComponent.ShouldLoadMore` | src/app.component.ts:54 | more is loaded only when the sentinel is visible, something is on display and no fetch is in flight; in that situation it always is |
| `App.AppComponent.ActiveCount` | src/app.component.ts:37 | the count is the size of the selection set, and is positive |
| `App.AppComponent.RefreshNews` | src/app.component.ts:91-93 | a replace fetch of the current selection; afterwards a visible sentinel passes the scroll guard |
| `App.AppComponent.LoadMore` | src/app.component.ts:95-97 | an append fetch of the current selection; the old collection stays a prefix |
| `App.AppComponent.OnInit` | src/app.component.ts:39-41 | start-up performs a replace fetch of the selection |
| `App.AppComponent.OnIntersection` | src/app.component.ts:53-56 | an append fetch runs exactly when the sentinel intersects, neither flag is up and the collection is non-empty; otherwise the service is untouched; nothing on display is ever dropped |
| `App.AppComponent.ToggleCategory` | src/app.component.ts:68-84 | the selection becomes `Toggle` of the old one, stays non-empty and duplicate-free, and a replace fetch of the new selection follows |
| `App.AppComponent.ClearAllCategories` | src/app.component.ts:86-89 | the selection becomes exactly `["World"]`, and a replace fetch for `["World"]` follows |
| `App.AppComponent.OpenArticle` | src/app.component.ts:99-103 | the article is selected, the image is cleared, the image is loading, and speech is stopped |
| `App.AppComponent.ShowArticleImage` | src/app.component.ts:105-115 | loading ends with an image: the generated one when it is a non-empty string, the placeholder otherwise |
| `App.AppComponent.SelectArticle` | src/app.component.ts:99-116 | after the await the image is the generated data URL when the provider answered, else the title-seeded placeholder; loading has ended and speech is stopped |
| `App.AppComponent.ToggleSpeech` | src/app.component.ts:118-136 | when speaking, speech stops; otherwise, when a speech engine exists, the old utterance is replaced by one for the text |
| `App.AppComponent.StopSpeech` | src/app.component.ts:138-144 | speaking ends and no utterance remains |
| `App.AppComponent.CloseDetails` | src/app.component.ts:146-150 | speech stops and the selected article and image are cleared; the image-loading flag is untouched |
| `App.AppComponent.OnDestroy` | src/app.component.ts:47-50 | tear-down stops speech |

## Left out

- Prompt construction, including `categories.join(', ')` and the model name: the categories only shape the wording of the request. The model records them in the `lastRequest` ghost field.
- The generative-text and image calls are foreign network calls. They are inputs (`Outcome`, and the image reply).
- `JSON.parse` is a library. It is an input function that yields `NewsItem` records or fails. Two things are therefore not modelled: elements that are not objects (the stamping loop would throw on them) and missing or mistyped fields.
- `toLocaleTimeString` is an opaque string, `now`. The source reads the clock once per item, so items stamped across a minute boundary can differ. The model uses one reading per fetch.
- `encodeURIComponent` is an input function. `substring(0, 10)` counts UTF-16 code units, while the model counts Dafny characters (Unicode scalar values).
- App.AppComponent.SelectArticle: when the first ten UTF-16 code units of a title end in the first half of a surrogate pair, `encodeURIComponent` throws in the source, `selectArticle` rejects, and the image never appears and loading never ends. Dafny strings cannot hold half a surrogate pair and `encode` is total, so the model promises an image on every input, and `App.AppComponent.ShowArticleImage` likewise.
- Concurrency: overlapping fetches and their last-write-wins race are not modelled. Each component method runs its fetch to completion before the next event. In the source, `toggleCategory`, `refreshNews` and `loadMore` return at the fetch's await.
- The `IntersectionObserver` setup and teardown are browser APIs. The callback's `entries[0].isIntersecting` is an input of `OnIntersection`.
- Speech synthesis is a browser API. This covers `speak`, `cancel`, and the start, end and error callbacks that set `isSpeaking`. Only the flag and utterance effects of `stopSpeech`, `toggleSpeech` and `closeDetails` are modelled.
- News.FallbackNews: the six titles and six categories of the fallback list are pairwise distinct, but no lemma states this, because comparing the long literal strings is too costly for the verifier. The model proves only that the list has six items.
- `console.error` logging, the list of seven category labels offered by the page, the ticker component and all template markup are display only.
- Angular signals, `computed`, dependency injection and lifecycle hooks: signals are plain fields, `activeCount` is a function, and the hooks are plain methods.
