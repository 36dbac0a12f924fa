/** The root component: the category selection that drives the fetches, the
    infinite-scroll guard, and the article-detail view with its generated
    image and read-aloud state. Each await (image generation, the provider
    round trip inside a fetch) is an input; the browser's speech engine and
    intersection observer are left to the environment. */
module App {
  import opened News
  import opened Service
  import opened Selection

  /** The first ten characters of a title (all of it when shorter). */
  function TitleSeed(title: string): (r: string)
    ensures |r| == if |title| < 10 then |title| else 10
    ensures r <= title
  {
    if |title| < 10 then title else title[..10]
  }

  /** The stand-in image address for an article, seeded by its title;
      `encode` is the URI-component encoder. */
  function PlaceholderImage(title: string, encode: string -> string): (r: string)
    ensures "https://picsum.photos/seed/" <= r && |r| >= 36
    ensures r[|r| - 9..] == "/1200/675"
    ensures r[27..|r| - 9] == encode(TitleSeed(title))
  {
    "https://picsum.photos/seed/" + encode(TitleSeed(title)) + "/1200/675"
  }

  class AppComponent {
    const news: NewsService
    var selectedCategories: seq<string>
    var selectedArticle: Option<NewsItem>
    var articleImage: Option<string>
    var isImageLoading: bool
    var isSpeaking: bool
    /** The text of the utterance handed to the speech engine, if any. */
    var currentUtterance: Option<string>

    /** The selection is a non-empty set, kept in insertion order. */
    ghost predicate Valid()
      reads this
    {
      |selectedCategories| > 0 && NoDuplicates(selectedCategories)
    }

    constructor (news: NewsService)
      ensures Valid() && this.news == news
      ensures selectedCategories == [DefaultCategory]
      ensures selectedArticle == None && articleImage == None && !isImageLoading
      ensures !isSpeaking && currentUtterance == None
    {
      this.news := news;
      selectedCategories := [DefaultCategory];
      selectedArticle, articleImage := None, None;
      isImageLoading, isSpeaking := false, false;
      currentUtterance := None;
    }

    function IsCategoryActive(category: string): (active: bool)
      reads this
      ensures active <==> category in Members(selectedCategories)
    {
      category in selectedCategories
    }

    /** The number of selected categories: the size of the set. */
    function ActiveCount(): (n: nat)
      reads this
      requires Valid()
      ensures n == |Members(selectedCategories)| && n > 0
    {
      SizeIsLength(selectedCategories);
      |selectedCategories|
    }

    /** The scroll handler's condition for loading more. */
    function ShouldLoadMore(isIntersecting: bool): (fire: bool)
      reads this, news
      ensures fire ==> isIntersecting && |news.newsItems| > 0
      ensures fire ==> !news.isLoading && !news.isMoreLoading
      ensures isIntersecting && !news.isLoading && !news.isMoreLoading && news.newsItems != [] ==> fire
    {
      isIntersecting && !news.isLoading && !news.isMoreLoading && |news.newsItems| > 0
    }

    /** A replace fetch for the current selection. Once it completes, a
        visible sentinel may load more. */
    method RefreshNews(outcome: Outcome, parse: string -> Option<seq<NewsItem>>, now: string)
      modifies news
      ensures news.State() == Fetched(old(news.newsItems), false, outcome, parse, now)
      ensures news.lastRequest == Some(Request(selectedCategories, false))
      ensures ShouldLoadMore(true)
    {
      news.FetchNews(selectedCategories, false, outcome, parse, now);
    }

    /** An append fetch for the current selection; nothing on display is lost. */
    method LoadMore(outcome: Outcome, parse: string -> Option<seq<NewsItem>>, now: string)
      modifies news
      ensures news.State() == Fetched(old(news.newsItems), true, outcome, parse, now)
      ensures news.lastRequest == Some(Request(selectedCategories, true))
      ensures old(news.newsItems) <= news.newsItems
    {
      news.FetchNews(selectedCategories, true, outcome, parse, now);
    }

    method OnInit(outcome: Outcome, parse: string -> Option<seq<NewsItem>>, now: string)
      modifies news
      ensures news.State() == Fetched(old(news.newsItems), false, outcome, parse, now)
      ensures news.lastRequest == Some(Request(selectedCategories, false))
    {
      RefreshNews(outcome, parse, now);
    }

    /** The intersection callback: load more only when the sentinel is
        visible, no fetch is in flight and something is on display. */
    method OnIntersection(isIntersecting: bool, outcome: Outcome,
                          parse: string -> Option<seq<NewsItem>>, now: string)
      modifies news
      ensures old(ShouldLoadMore(isIntersecting)) ==>
                news.State() == Fetched(old(news.newsItems), true, outcome, parse, now) &&
                news.lastRequest == Some(Request(selectedCategories, true))
      ensures !old(ShouldLoadMore(isIntersecting)) ==>
                news.State() == old(news.State()) && news.lastRequest == old(news.lastRequest)
      ensures old(news.newsItems) <= news.newsItems
    {
      if isIntersecting && !news.isLoading && !news.isMoreLoading && |news.newsItems| > 0 {
        LoadMore(outcome, parse, now);
      }
    }

    method ToggleCategory(category: string, outcome: Outcome,
                          parse: string -> Option<seq<NewsItem>>, now: string)
      requires Valid()
      modifies this`selectedCategories, news
      ensures Valid()
      ensures selectedCategories == Toggle(old(selectedCategories), category)
      ensures news.State() == Fetched(old(news.newsItems), false, outcome, parse, now)
      ensures news.lastRequest == Some(Request(selectedCategories, false))
    {
      var next := selectedCategories;
      if category in next {
        next := Without(next, category);
      } else {
        next := next + [category];
      }
      if |next| == 0 {
        next := next + [DefaultCategory];
      }
      selectedCategories := next;
      RefreshNews(outcome, parse, now);
    }

    method ClearAllCategories(outcome: Outcome, parse: string -> Option<seq<NewsItem>>, now: string)
      modifies this`selectedCategories, news
      ensures Valid()
      ensures selectedCategories == [DefaultCategory]
      ensures news.State() == Fetched(old(news.newsItems), false, outcome, parse, now)
      ensures news.lastRequest == Some(Request([DefaultCategory], false))
    {
      selectedCategories := [DefaultCategory];
      RefreshNews(outcome, parse, now);
    }

    /** The part of `selectArticle` before its await. */
    method OpenArticle(item: NewsItem)
      modifies this`selectedArticle, this`articleImage, this`isImageLoading, this`isSpeaking, this`currentUtterance
      ensures selectedArticle == Some(item) && articleImage == None && isImageLoading
      ensures !isSpeaking && currentUtterance == None
    {
      selectedArticle := Some(item);
      articleImage := None;
      isImageLoading := true;
      StopSpeech();
    }

    /** The part of `selectArticle` after its await: the generated image
        when there is one (a non-empty string), the placeholder otherwise. */
    method ShowArticleImage(title: string, generated: Option<string>, encode: string -> string)
      modifies this`articleImage, this`isImageLoading
      ensures !isImageLoading && articleImage.Some?
      ensures articleImage == if generated.Some? && generated.value != "" then generated
                              else Some(PlaceholderImage(title, encode))
    {
      if generated.Some? && generated.value != "" {
        articleImage := generated;
      } else {
        var seed := encode(TitleSeed(title));
        articleImage := Some("https://picsum.photos/seed/" + seed + "/1200/675");
      }
      isImageLoading := false;
    }

    /** Open an article and show its image; `reply` is the image provider's
        answer, None when it threw. */
    method SelectArticle(item: NewsItem, reply: Option<string>, encode: string -> string)
      modifies this`selectedArticle, this`articleImage, this`isImageLoading, this`isSpeaking, this`currentUtterance
      ensures selectedArticle == Some(item) && !isImageLoading
      ensures !isSpeaking && currentUtterance == None
      ensures articleImage == if reply.Some? then GenerateImage(reply) else Some(PlaceholderImage(item.title, encode))
    {
      OpenArticle(item);
      var generated := GenerateImage(reply);
      ShowArticleImage(item.title, generated, encode);
    }

    /** Start reading `text` aloud, or stop when already speaking. Whether
        the browser has a speech engine is `speechAvailable`; the engine's
        start/end/error callbacks, which set `isSpeaking`, are not modelled. */
    method ToggleSpeech(text: string, speechAvailable: bool)
      modifies this`isSpeaking, this`currentUtterance
      ensures !isSpeaking
      ensures currentUtterance == if !old(isSpeaking) && speechAvailable then Some(text)
                                  else if old(isSpeaking) || speechAvailable then None
                                  else old(currentUtterance)
    {
      if isSpeaking {
        StopSpeech();
        return;
      }
      if speechAvailable {
        StopSpeech();
        currentUtterance := Some(text);
      }
    }

    method StopSpeech()
      modifies this`isSpeaking, this`currentUtterance
      ensures !isSpeaking && currentUtterance == None
    {
      isSpeaking := false;
      currentUtterance := None;
    }

    method CloseDetails()
      modifies this`selectedArticle, this`articleImage, this`isSpeaking, this`currentUtterance
      ensures selectedArticle == None && articleImage == None
      ensures !isSpeaking && currentUtterance == None
    {
      StopSpeech();
      selectedArticle := None;
      articleImage := None;
    }

    method OnDestroy()
      modifies this`isSpeaking, this`currentUtterance
      ensures !isSpeaking && currentUtterance == None
    {
      StopSpeech();
    }
  }
}
