/**
 The decision rules of the `SmartTrader` class: the company-name
 fallback of its constructor, the choice of a Gemini model, the shaping
 of the NewsAPI headlines, the guards in front of the advice request,
 the BUY/SELL alert predicate and the credential guard of the e-mail
 notification. Every call to the outside world (yfinance, NewsAPI, the
 Gemini model listing and generation, the environment) is an input
 value here: what it returned, or that it raised.
 */
module SmartTrader {
  import opened PyStr

  datatype Option<T> = None | Some(value: T)

  /** An environment variable as `os.environ.get` returns it. */
  type Setting = Option<string>

  /** Python truthiness of a setting: `None` and `""` are both missing. */
  predicate IsSet(v: Setting) {
    v.Some? && v.value != ""
  }

  /** The five environment variables the bot reads at start-up. */
  datatype Config = Config(
    newsApiKey: Setting,
    geminiApiKey: Setting,
    emailSender: Setting,
    emailPassword: Setting,
    emailReceiver: Setting)

  // ---------------------------------------------------------------
  // Construction: ticker and company name
  // ---------------------------------------------------------------

  /** Outcome of `yf.Ticker(ticker).info`: it raised, or it gave the
      info dictionary (its string-valued entries). */
  datatype InfoLookup = LookupRaised | Info(fields: map<string, string>)

  datatype Trader = Trader(ticker: string, companyName: string)

  const ShortNameKey := "shortName"

  /** `SmartTrader(ticker)`: the company name is the info's `shortName`
      when there is one, and the ticker otherwise, also when the lookup
      raised. */
  function NewTrader(ticker: string, lookup: InfoLookup): (t: Trader)
    ensures t.ticker == ticker
    ensures lookup.Info? && ShortNameKey in lookup.fields ==> t.companyName == lookup.fields[ShortNameKey]
    ensures lookup.LookupRaised? || ShortNameKey !in lookup.fields ==> t.companyName == ticker
  {
    match lookup
    case LookupRaised => Trader(ticker, ticker)
    case Info(info) => Trader(ticker, if ShortNameKey in info then info[ShortNameKey] else ticker)
  }

  // ---------------------------------------------------------------
  // Model selection
  // ---------------------------------------------------------------

  /** The three model names the bot can ask for. */
  datatype ModelName = Flash | FlashLatest | Pro

  function Id(m: ModelName): string {
    match m
    case Flash => "gemini-1.5-flash"
    case FlashLatest => "gemini-1.5-flash-latest"
    case Pro => "gemini-pro"
  }

  /** Outcome of `genai.list_models()`: it raised, or it gave the `name`
      of every model, in listing order. */
  datatype Listing = ListingRaised | Listed(names: seq<string>)

  /** The listing names the model, under its `models/`-prefixed name. */
  predicate Offers(listing: Listing, m: ModelName) {
    listing.Listed? && "models/" + Id(m) in listing.names
  }

  /** Preference order, best first; `Default` is used when none is offered. */
  const Preference: seq<ModelName> := [Flash, FlashLatest, Pro]
  const Default: ModelName := Flash

  /** `get_model`: the first name of the preference order that the
      listing offers, with the `models/` prefix dropped; the default
      when none is offered or the listing raised. */
  function SelectModel(listing: Listing): (m: ModelName)
    ensures Offers(listing, Flash) ==> m == Flash
    ensures m == FlashLatest <==> !Offers(listing, Flash) && Offers(listing, FlashLatest)
    ensures m == Pro <==> !Offers(listing, Flash) && !Offers(listing, FlashLatest) && Offers(listing, Pro)
    ensures m == Default || Offers(listing, m)
    ensures (forall k :: !Offers(listing, k)) ==> m == Default
    ensures Id(m) in {"gemini-1.5-flash", "gemini-1.5-flash-latest", "gemini-pro"}
  {
    assert "models/" + Id(Flash) == "models/gemini-1.5-flash";
    assert "models/" + Id(FlashLatest) == "models/gemini-1.5-flash-latest";
    assert "models/" + Id(Pro) == "models/gemini-pro";
    match listing
    case ListingRaised => Flash
    case Listed(available) =>
      if "models/gemini-1.5-flash" in available then Flash
      else if "models/gemini-1.5-flash-latest" in available then FlashLatest
      else if "models/gemini-pro" in available then Pro
      else Flash
  }

  /** Reference definition of a first-match choice: the position of the
      earliest entry of `prefs` that the listing offers, or `|prefs|`
      when it offers none of them. */
  function FirstOfferedIndex(listing: Listing, prefs: seq<ModelName>): (i: nat)
    ensures i <= |prefs|
    ensures forall k :: 0 <= k < i ==> !Offers(listing, prefs[k])
    ensures i < |prefs| ==> Offers(listing, prefs[i])
  {
    if prefs == [] || Offers(listing, prefs[0]) then 0
    else 1 + FirstOfferedIndex(listing, prefs[1..])
  }

  /** The if/elif chain of `get_model` is the first-match choice over
      `Preference`, falling back to `Default`. */
  lemma SelectModelIsFirstOffered(listing: Listing)
    ensures var i := FirstOfferedIndex(listing, Preference);
      SelectModel(listing) == if i < |Preference| then Preference[i] else Default
  {
    var i := FirstOfferedIndex(listing, Preference);
    if i == |Preference| {
      assert !Offers(listing, Preference[0]) && !Offers(listing, Preference[1]) && !Offers(listing, Preference[2]);
      assert forall k :: !Offers(listing, k);
    }
  }

  // ---------------------------------------------------------------
  // News
  // ---------------------------------------------------------------

  /** One entry of the NewsAPI `articles` array; `None` marks a key that
      is absent from the article object. */
  datatype Article = Article(title: Option<string>, description: Option<string>)

  /** Outcome of the NewsAPI request and of decoding its JSON body: it
      raised, or it gave an object whose `articles` key may be absent. */
  datatype NewsResponse = FetchRaised | Payload(articles: Option<seq<Article>>)

  /** How many articles `get_stable_news` keeps. */
  const NewsLimit := 5

  predicate Renderable(a: Article) {
    a.title.Some? && a.description.Some?
  }

  function Headline(a: Article): string
    requires Renderable(a)
  {
    a.title.value + " - " + a.description.value
  }

  /** Python's slice `xs[:n]`. */
  function Take<T>(xs: seq<T>, n: nat): (r: seq<T>)
    ensures |r| <= n && |r| <= |xs| && r == xs[..|r|]
    ensures |xs| >= n ==> |r| == n
    ensures |xs| <= n ==> r == xs
  {
    if |xs| <= n then xs else xs[..n]
  }

  /** The list comprehension `[f"{a['title']} - {a['description']}" for a in articles]`,
      evaluated left to right: `None` when some article lacks a key (the
      comprehension raises `KeyError`). */
  function Headlines(articles: seq<Article>): (r: Option<seq<string>>)
    ensures r.None? <==> exists i :: 0 <= i < |articles| && !Renderable(articles[i])
    ensures r.Some? ==>
      && |r.value| == |articles|
      && forall i :: 0 <= i < |articles| ==> Renderable(articles[i]) && r.value[i] == Headline(articles[i])
  {
    if articles == [] then Some([])
    else if !Renderable(articles[0]) then None
    else
      match Headlines(articles[1..])
      case None => None
      case Some(rest) => Some([Headline(articles[0])] + rest)
  }

  /** `get_stable_news`. */
  function StableNews(newsApiKey: Setting, response: NewsResponse): (r: seq<string>)
    ensures |r| <= NewsLimit
    ensures !IsSet(newsApiKey) || response.FetchRaised? ==> r == []
    ensures response.Payload? && response.articles.None? ==> r == []
    ensures r != [] ==>
      && IsSet(newsApiKey) && response.Payload? && response.articles.Some?
      && var articles := response.articles.value;
         && |r| == (if |articles| < NewsLimit then |articles| else NewsLimit)
         && forall i :: 0 <= i < |r| ==> Renderable(articles[i]) && r[i] == Headline(articles[i])
    ensures IsSet(newsApiKey) && response.Payload? && response.articles.Some? ==>
      var articles := response.articles.value;
      (r == [] <==> |articles| == 0 || exists i :: 0 <= i < |articles| && i < NewsLimit && !Renderable(articles[i]))
  {
    if !IsSet(newsApiKey) then []
    else
      match response
      case FetchRaised => []
      case Payload(found) =>
        var articles := match found case Some(a) => a case None => [];
        match Headlines(Take(articles, NewsLimit))
        case Some(lines) => lines
        case None => []
  }

  /** Articles past the fifth are never looked at: whatever follows the
      first five, even articles missing a key, the headlines are the same. */
  lemma NewsIgnoresLaterArticles(newsApiKey: Setting, articles: seq<Article>, more: seq<Article>)
    requires |articles| == NewsLimit
    ensures StableNews(newsApiKey, Payload(Some(articles + more))) == StableNews(newsApiKey, Payload(Some(articles)))
  {
  }

  // ---------------------------------------------------------------
  // Advice
  // ---------------------------------------------------------------

  /** What `ask_gemini_for_advice` returns: the model's stripped text,
      or one of its `(tag, message)` tuples. */
  datatype Advice = Text(text: string) | Pair(tag: string, msg: string)

  /** Outcome of `model.generate_content(prompt)` followed by reading
      `response.text`: the text, or the raised exception's `str`. */
  datatype Generation = Generated(text: string) | GenerationRaised(message: string)

  const MissingKeyAdvice := Pair("ERROR", "Missing Gemini API Key")
  const NoNewsAdvice := Pair("NEUTRAL", "No news found.")

  /** `ask_gemini_for_advice`. The missing key is checked before the empty
      news, and neither guard looks at the listing or the generator;
      past both, the model chosen by `SelectModel` is asked and its
      stripped text, or its error, is the advice. The prompt is part of
      `generate`. */
  function AskForAdvice(geminiApiKey: Setting, news: seq<string>, listing: Listing,
                        generate: ModelName -> Generation): (a: Advice)
    ensures !IsSet(geminiApiKey) ==> a == MissingKeyAdvice
    ensures IsSet(geminiApiKey) && news == [] ==> a == NoNewsAdvice
    ensures IsSet(geminiApiKey) && news != [] ==>
      match generate(SelectModel(listing))
      case Generated(t) => a.Text? && Trimmed(a.text) && exists k: nat :: StrippedAt(t, k, a.text)
      case GenerationRaised(e) => a == Pair("ERROR", e)
  {
    if !IsSet(geminiApiKey) then Pair("ERROR", "Missing Gemini API Key")
    else if news == [] then Pair("NEUTRAL", "No news found.")
    else
      match generate(SelectModel(listing))
      case Generated(t) => Text(Strip(t))
      case GenerationRaised(e) => Pair("ERROR", e)
  }

  /** When a guard fires, the listing and the generator play no part. */
  lemma GuardsSkipTheModel(geminiApiKey: Setting, news: seq<string>,
                           listing1: Listing, generate1: ModelName -> Generation,
                           listing2: Listing, generate2: ModelName -> Generation)
    requires !IsSet(geminiApiKey) || news == []
    ensures AskForAdvice(geminiApiKey, news, listing1, generate1) == AskForAdvice(geminiApiKey, news, listing2, generate2)
    ensures AskForAdvice(geminiApiKey, news, listing1, generate1).Pair?
  {
  }

  // ---------------------------------------------------------------
  // Alert predicate
  // ---------------------------------------------------------------

  /** Python's `x in (tag, msg)`: equality with one of the two elements. */
  predicate PairHas(tag: string, msg: string, x: string) {
    x == tag || x == msg
  }

  /** `"BUY" in advice or "SELL" in advice`: a substring test on text, an
      element test on a tuple. */
  function Alert(advice: Advice): (r: bool)
    ensures advice.Text? ==>
      (r <==> exists i: nat :: OccursAt(advice.text, "BUY", i) || OccursAt(advice.text, "SELL", i))
    ensures advice.Pair? ==>
      (r <==> advice.tag in {"BUY", "SELL"} || advice.msg in {"BUY", "SELL"})
  {
    match advice
    case Text(s) => Contains(s, "BUY") || Contains(s, "SELL")
    case Pair(tag, msg) => PairHas(tag, msg, "BUY") || PairHas(tag, msg, "SELL")
  }

  /** Neither fixed guard tuple ever raises an alert. */
  lemma GuardAdviceNeverAlerts()
    ensures !Alert(MissingKeyAdvice) && !Alert(NoNewsAdvice)
  {
  }

  /** Any text in which "SELLING" occurs raises an alert. */
  lemma SellingAlerts(s: string, i: nat)
    requires OccursAt(s, "SELLING", i)
    ensures Alert(Text(s))
  {
    assert s[i..i + 4] == s[i..i + 7][..4] == "SELL";
    assert OccursAt(s, "SELL", i);
  }

  /** Text without an upper-case 'B' or 'S' (a "HOLD - ..." reply, or a
      lower-case "buy") never raises an alert: the test is case-sensitive. */
  lemma NoKeywordLetterNoAlert(s: string)
    requires forall i :: 0 <= i < |s| ==> s[i] != 'B' && s[i] != 'S'
    ensures !Alert(Text(s))
  {
    forall i: nat | i < |s|
      ensures !OccursAt(s, "BUY", i) && !OccursAt(s, "SELL", i)
    {
      if i + 3 <= |s| {
        assert s[i..i + 3][0] == s[i];
      }
      if i + 4 <= |s| {
        assert s[i..i + 4][0] == s[i];
      }
    }
  }

  /** Stripping the model's reply never changes whether it alerts. */
  lemma AlertIgnoresStrip(t: string)
    ensures Alert(Text(Strip(t))) == Alert(Text(t))
  {
    assert NoSpace("BUY") && NoSpace("SELL");
    StripKeepsOccurrences(t, "BUY");
    StripKeepsOccurrences(t, "SELL");
  }

  // ---------------------------------------------------------------
  // Notification
  // ---------------------------------------------------------------

  /** What `send_notification` does: skip, or try to deliver a message
      with these credentials, recipient and subject (delivery itself,
      which may fail, is outside the model). */
  datatype Notification =
    | Skipped
    | Delivery(sender: string, password: string, receiver: Setting, subject: string)

  /** `send_notification`: skipped exactly when the sender or the
      password is missing; the receiver is passed on unchecked. */
  function SendNotification(cfg: Config, trader: Trader): (n: Notification)
    ensures n.Skipped? <==> !IsSet(cfg.emailSender) || !IsSet(cfg.emailPassword)
    ensures n.Delivery? ==>
      && n.sender == cfg.emailSender.value
      && n.password == cfg.emailPassword.value
      && n.receiver == cfg.emailReceiver
      && n.subject == "Stock Alert: " + trader.ticker
  {
    if !IsSet(cfg.emailSender) || !IsSet(cfg.emailPassword) then Skipped
    else Delivery(cfg.emailSender.value, cfg.emailPassword.value, cfg.emailReceiver,
                  "Stock Alert: " + trader.ticker)
  }

  // ---------------------------------------------------------------
  // One analysis run
  // ---------------------------------------------------------------

  /** The advice of one run and, when the alert predicate held, what
      `send_notification` did. */
  datatype Report = Report(advice: Advice, notification: Option<Notification>)

  /** `run_analysis`: fetch the news, ask for advice, notify on BUY/SELL. */
  function RunAnalysis(cfg: Config, trader: Trader, response: NewsResponse, listing: Listing,
                       generate: ModelName -> Generation): (r: Report)
    ensures r.notification.Some? <==> Alert(r.advice)
    ensures r.notification.Some? ==> r.notification.value == SendNotification(cfg, trader)
    ensures r.advice == AskForAdvice(cfg.geminiApiKey, StableNews(cfg.newsApiKey, response), listing, generate)
  {
    var news := StableNews(cfg.newsApiKey, response);
    var advice := AskForAdvice(cfg.geminiApiKey, news, listing, generate);
    Report(advice, if Alert(advice) then Some(SendNotification(cfg, trader)) else None)
  }

  /** Without a Gemini key, or without a NewsAPI key, no e-mail is ever
      attempted, whatever the other inputs. */
  lemma MissingKeyNeverNotifies(cfg: Config, trader: Trader, response: NewsResponse, listing: Listing,
                                generate: ModelName -> Generation)
    requires !IsSet(cfg.geminiApiKey) || !IsSet(cfg.newsApiKey)
    ensures RunAnalysis(cfg, trader, response, listing, generate).notification.None?
  {
    GuardAdviceNeverAlerts();
  }

  /** When the selected model's reply is text, an e-mail is attempted
      exactly when the reply, stripped or not, contains "BUY" or "SELL". */
  lemma ReplyDecidesNotification(cfg: Config, trader: Trader, response: NewsResponse, listing: Listing,
                                 generate: ModelName -> Generation, reply: string)
    requires IsSet(cfg.geminiApiKey) && StableNews(cfg.newsApiKey, response) != []
    requires generate(SelectModel(listing)) == Generated(reply)
    ensures RunAnalysis(cfg, trader, response, listing, generate).notification.Some?
      <==> Contains(reply, "BUY") || Contains(reply, "SELL")
  {
    AlertIgnoresStrip(reply);
  }

  /** When the model call raises, the advice is the tuple ("ERROR", message)
      and an e-mail is attempted only if the message is exactly "BUY" or "SELL". */
  lemma GenerationErrorNotifiesOnlyOnKeywordMessage(cfg: Config, trader: Trader, response: NewsResponse,
                                                    listing: Listing, generate: ModelName -> Generation, e: string)
    requires IsSet(cfg.geminiApiKey) && StableNews(cfg.newsApiKey, response) != []
    requires generate(SelectModel(listing)) == GenerationRaised(e)
    ensures RunAnalysis(cfg, trader, response, listing, generate).notification.Some? <==> e == "BUY" || e == "SELL"
  {
  }
}
