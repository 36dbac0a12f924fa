/** The news record shared by the service and the component, and the fixed
    list of placeholder headlines the service falls back to. */
module News {

  datatype Option<+T> = None | Some(value: T)

  /** One headline. `title` is the identity used when deduplicating;
      `timestamp` is stamped locally, never taken from the provider. */
  datatype NewsItem = NewsItem(
    title: string,
    summary: string,
    category: string,
    timestamp: string,
    sourceUrl: Option<string>,
    sourceName: Option<string>)

  /** The message a failed replace fetch shows. */
  const FailureMessage: string := "Failed to load news. Please try again."

  /** The placeholder item at position `index` of the fallback list. */
  function FallbackItem(index: nat): NewsItem
    requires index < 6
  {
    if index == 0 then
      NewsItem("Major Tech Breakthrough in AI Chips",
               "A new architecture promises 5x efficiency in large model inference.",
               "Technology", "Just now", None, Some("Tech Daily"))
    else if index == 1 then
      NewsItem("Global Climate Summit Reaches Historical Accord",
               "World leaders agree on aggressive new carbon neutral targets for 2040.",
               "World", "12m ago", None, Some("World News"))
    else if index == 2 then
      NewsItem("Market Volatility Decreases After Central Bank Update",
               "Stocks rally as investors process new economic guidance on interest rates.",
               "Business", "45m ago", None, Some("Financial Times"))
    else if index == 3 then
      NewsItem("Discovery of Prehistoric Cave Art in Europe",
               "Archaeologists find perfectly preserved paintings dating back 30,000 years.",
               "Science", "1h ago", None, Some("Science Monitor"))
    else if index == 4 then
      NewsItem("Championship Finals Set for Weekend Showdown",
               "The top two seeds secure their spots after thrilling semi-final victories.",
               "Sports", "2h ago", None, Some("Sports Central"))
    else
      NewsItem("New Study Links Sleep Quality to Heart Health",
               "Longitudinal research suggests consistent rest is vital for cardiovascular longevity.",
               "Health", "3h ago", None, Some("Health Report"))
  }

  /** The fallback list: the six placeholder items, in order. It is built
      element by element, so that a proof that only needs its length never
      expands the string literals. */
  function FallbackNews(): (r: seq<NewsItem>)
    ensures |r| == 6
  {
    seq(6, k requires 0 <= k < 6 => FallbackItem(k))
  }
}
