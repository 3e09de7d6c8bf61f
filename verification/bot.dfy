/** The bot's event handlers (index.js:64-180) as pure functions. Every
    network answer a handler would await is an input, and what the handler
    does is returned as data: the queries it issues, in order, and the
    messages it sends, in order. In every handler all queries are awaited
    before the first message is sent, so a run is a list of queries followed
    by a list of sends. */
module Bot {
  import opened Wrappers
  import opened Text
  import opened Config
  import opened Gate
  import opened Catalog
  import opened Payload
  import opened Render

  type ChatId = int
  type UserId = int

  /** An inline-keyboard button. */
  datatype Button =
    | UrlButton(text: string, url: string)
    | CallbackButton(text: string, data: string)

  /** The options passed with a message: Markdown parsing, link previews
      switched off, and the inline keyboard as rows of buttons. */
  datatype SendOptions = SendOptions(markdown: bool, noPreview: bool, keyboard: seq<seq<Button>>)

  const Plain := SendOptions(false, false, [])

  /** A request the handler awaits. */
  datatype Query =
    | GetChatMember(channel: string, user: UserId)
    | SearchRequest(text: string)
    | FetchRequest(movieId: string)

  /** A message the handler sends. */
  datatype Send =
    | SendMessage(chat: ChatId, text: string, options: SendOptions)
    | SendPhoto(chat: ChatId, photo: string, caption: string, options: SendOptions)

  datatype Trace = Trace(queries: seq<Query>, sends: seq<Send>)

  /** A handler either finishes with a trace or throws before doing anything
      (the message handler reading `startsWith` of a missing text). */
  datatype Outcome = Completed(trace: Trace) | Crashed

  /** The answers the network would give to each query, should it be made. */
  datatype Answers = Answers(
    member: MemberAnswer,
    search: Answer<seq<Movie>>,
    fetch: Answer<DownloadRecord>)

  /** An update delivered by the platform. */
  datatype Update =
    | MessageUpdate(chat: ChatId, user: UserId, text: Option<string>)
    | CallbackUpdate(chat: ChatId, data: string)
    | OtherUpdate

  /** What one update causes: the replies of the two text-pattern handlers
      and the outcome of the general handler for the update's kind. */
  datatype Reaction = Reaction(commandReplies: seq<Send>, handler: Outcome)

  // Fixed texts.

  const SubscribePrompt := "Please subscribe to the channel to use this bot."
  const JoinLabel := "Join Channel"
  const DownloadLabel := "Download"
  const NoResults := "No results found or an error occurred."
  const StartPattern := "/start"
  const HelpPattern := "/help"
  const CommandPrefix := "/"
  const WelcomeText :=
    "🎬 *Welcome to the Movie Bot!* 🎬\n\n"
    + "This bot allows you to search for movies and get download links. To get started, simply type the name of a movie.\n\n"
    + "For example: *Deadpool*\n\n"
    + "Use /help for more information."
  const HelpText :=
    "🆘 *Help Guide* 🆘\n\n"
    + "1. To search for a movie, simply type the name of the movie. For example: *Inception*\n\n"
    + "2. The bot will display search results with a \"Download\" button.\n\n"
    + "3. Click the \"Download\" button to get the download links.\n\n"
    + "4. Make sure you are subscribed to the channel to use this bot.\n\n"
    + "If you have any issues, please contact the bot administrator."

  // The messages the handlers build.

  /** The reply to a user who is not subscribed: one "Join Channel" button
      linking to the channel. */
  function JoinPrompt(chat: ChatId, channelId: string): (s: Send)
    ensures s.SendMessage? && s.chat == chat && s.text == SubscribePrompt && !s.options.markdown
    ensures |s.options.keyboard| == 1 && |s.options.keyboard[0]| == 1
    ensures s.options.keyboard[0][0].UrlButton? && s.options.keyboard[0][0].text == JoinLabel
    ensures |channelId| > 0 ==> s.options.keyboard[0][0].url == LinkPrefix + channelId[1..]
  {
    SendMessage(chat, SubscribePrompt, SendOptions(false, false, [[UrlButton(JoinLabel, JoinUrl(channelId))]]))
  }

  /** The photo message of one search result, with a "Download" button whose
      payload names the result. */
  function ResultCard(chat: ChatId, m: Movie): (s: Send)
    ensures s.SendPhoto? && s.chat == chat && s.photo == m.img && s.caption == Caption(m)
    ensures s.options.markdown && !s.options.noPreview
    ensures |s.options.keyboard| == 1 && |s.options.keyboard[0]| == 1
    ensures s.options.keyboard[0][0].CallbackButton? && s.options.keyboard[0][0].text == DownloadLabel
    ensures Decode(s.options.keyboard[0][0].data) == Some(Split(m.id, Delimiter)[0])
    ensures Delimiter !in m.id ==> Decode(s.options.keyboard[0][0].data) == Some(m.id)
  {
    DecodeEncode(m.id);
    SendPhoto(chat, m.img, Caption(m), SendOptions(true, false, [[CallbackButton(DownloadLabel, Encode(m.id))]]))
  }

  /** One result card per movie, in list order (the `forEach` loop). */
  function ResultCards(chat: ChatId, movies: seq<Movie>): (cards: seq<Send>)
    ensures |cards| == |movies|
    ensures forall i :: 0 <= i < |movies| ==> cards[i] == ResultCard(chat, movies[i])
  {
    if |movies| == 0 then [] else [ResultCard(chat, movies[0])] + ResultCards(chat, movies[1..])
  }

  /** Whether a run issued a catalog search. */
  predicate Searched(o: Outcome) {
    o.Completed? && exists k :: 0 <= k < |o.trace.queries| && o.trace.queries[k].SearchRequest?
  }

  /** Whether the catalog answer is one the handler shows as "no results":
      a failure, a missing result field, or an empty list. */
  predicate NothingFound(a: Answer<seq<Movie>>) {
    a.RequestFailed? || a.FieldMissing? || (a.Found? && |a.value| == 0)
  }

  /** The general message handler (index.js:89-149). A missing text throws.
      Text starting with "/" does nothing at all. Any other text first asks
      for the sender's membership; a user who is not subscribed gets the
      join prompt and nothing is searched; a subscribed user's text is
      searched verbatim and answered with one card per result, in order, or
      with a single "no results" message when the search failed or found
      nothing. */
  function HandleMessage(channelId: string, chat: ChatId, user: UserId, text: Option<string>, answers: Answers): (o: Outcome)
    ensures o.Crashed? <==> text.None?
    ensures text.Some? && StartsWith(text.value, CommandPrefix) ==> o == Completed(Trace([], []))
    ensures text.Some? && !StartsWith(text.value, CommandPrefix) ==>
              o.Completed? && |o.trace.queries| >= 1
              && o.trace.queries[0] == GetChatMember(channelId, user)
    ensures Searched(o) <==>
              text.Some? && !StartsWith(text.value, CommandPrefix) && IsUserSubscribed(answers.member)
    ensures Searched(o) ==> o.trace.queries == [GetChatMember(channelId, user), SearchRequest(text.value)]
    ensures text.Some? && !StartsWith(text.value, CommandPrefix) && !IsUserSubscribed(answers.member) ==>
              o.trace == Trace([GetChatMember(channelId, user)], [JoinPrompt(chat, channelId)])
    ensures Searched(o) && NothingFound(answers.search) ==>
              o.trace.sends == [SendMessage(chat, NoResults, Plain)]
    ensures Searched(o) && !NothingFound(answers.search) ==>
              var movies := answers.search.value;
              |o.trace.sends| == |movies| > 0
              && forall i :: 0 <= i < |movies| ==> o.trace.sends[i] == ResultCard(chat, movies[i])
  {
    match text
    case None => Crashed
    case Some(t) =>
      if StartsWith(t, CommandPrefix) then Completed(Trace([], []))
      else
        var gate := GetChatMember(channelId, user);
        if !IsUserSubscribed(answers.member) then
          Completed(Trace([gate], [JoinPrompt(chat, channelId)]))
        else
          var movieData := SearchMovies(answers.search);
          var sends :=
            if movieData.Some? && |movieData.value| > 0 then ResultCards(chat, movieData.value)
            else [SendMessage(chat, NoResults, Plain)];
          var queries := [gate, SearchRequest(t)];
          assert queries[1].SearchRequest?;
          Completed(Trace(queries, sends))
  }

  /** The "Download" button handler (index.js:152-180): the id taken from
      the payload is fetched, and the reply is the rendered download record,
      or the failure notice when the fetch failed or its result field was
      missing. */
  function HandleCallback(chat: ChatId, data: string, answers: Answers): (t: Trace)
    ensures t.queries == [FetchRequest(RequestId(Decode(data)))]
    ensures |t.sends| == 1
    ensures answers.fetch.Found? ==>
              t.sends[0] == SendMessage(chat, DownloadMessage(answers.fetch.value), SendOptions(true, true, []))
    ensures !answers.fetch.Found? ==> t.sends[0] == SendMessage(chat, FetchFailed, Plain)
  {
    var movieId := Decode(data);
    var downloadData := FetchDownloadLinks(answers.fetch);
    var reply :=
      if downloadData.Some? then SendMessage(chat, DownloadMessage(downloadData.value), SendOptions(true, true, []))
      else SendMessage(chat, FetchFailed, Plain);
    Trace([FetchRequest(RequestId(movieId))], [reply])
  }

  /** The two text-pattern handlers (index.js:65-86): each fires when its
      pattern occurs anywhere in the text, whether or not the text starts
      with it. A message without text fires neither. */
  function CommandReplies(chat: ChatId, text: Option<string>): (replies: seq<Send>)
    ensures SendMessage(chat, WelcomeText, SendOptions(true, false, [])) in replies
            <==> text.Some? && Contains(text.value, StartPattern)
    ensures SendMessage(chat, HelpText, SendOptions(true, false, [])) in replies
            <==> text.Some? && Contains(text.value, HelpPattern)
    ensures |replies| == (if text.Some? && Contains(text.value, StartPattern) then 1 else 0)
                       + (if text.Some? && Contains(text.value, HelpPattern) then 1 else 0)
    ensures forall k :: 0 <= k < |replies| ==>
              replies[k] in {SendMessage(chat, WelcomeText, SendOptions(true, false, [])),
                             SendMessage(chat, HelpText, SendOptions(true, false, []))}
  {
    match text
    case None => []
    case Some(t) =>
      (if Contains(t, StartPattern) then [SendMessage(chat, WelcomeText, SendOptions(true, false, []))] else [])
      + (if Contains(t, HelpPattern) then [SendMessage(chat, HelpText, SendOptions(true, false, []))] else [])
  }

  /** Routing of one update: a message reaches both the pattern handlers and
      the general handler, a button press reaches only the callback handler,
      which never consults the subscription gate, and any other update is
      ignored. */
  function HandleUpdate(cfg: Config, u: Update, answers: Answers): (r: Reaction)
    ensures u.MessageUpdate? ==> r.commandReplies == CommandReplies(u.chat, u.text)
    ensures u.MessageUpdate? ==> r.handler == HandleMessage(cfg.channelId, u.chat, u.user, u.text, answers)
    ensures u.CallbackUpdate? ==> r == Reaction([], Completed(HandleCallback(u.chat, u.data, answers)))
    ensures u.CallbackUpdate? ==>
              r.handler.trace.queries == [FetchRequest(RequestId(Decode(u.data)))]
              && |r.handler.trace.sends| == 1
    ensures u.OtherUpdate? ==> r == Reaction([], Completed(Trace([], [])))
  {
    match u
    case MessageUpdate(chat, user, text) =>
      Reaction(CommandReplies(chat, text), HandleMessage(cfg.channelId, chat, user, text, answers))
    case CallbackUpdate(chat, data) =>
      Reaction([], Completed(HandleCallback(chat, data, answers)))
    case OtherUpdate =>
      Reaction([], Completed(Trace([], [])))
  }

  // Properties relating several handlers.

  /** The payload on the button of a result card. */
  function ButtonData(card: Send): string
    requires card.SendPhoto? && |card.options.keyboard| > 0 && |card.options.keyboard[0]| > 0
    requires card.options.keyboard[0][0].CallbackButton?
  {
    card.options.keyboard[0][0].data
  }

  /** Pressing the button of the i-th result card fetches exactly that
      result's id when the id has no "_" in it; otherwise it fetches only the
      part of the id before its first "_". */
  lemma ButtonFetchesItsResult(channelId: string, chat: ChatId, user: UserId, text: string,
                               answers: Answers, later: Answers, i: int)
    requires !StartsWith(text, CommandPrefix) && IsUserSubscribed(answers.member)
    requires answers.search.Found? && 0 <= i < |answers.search.value|
    ensures var o := HandleMessage(channelId, chat, user, Some(text), answers);
            var id := answers.search.value[i].id;
            var card := o.trace.sends[i];
            && card.SendPhoto? && card.options.keyboard == [[CallbackButton(DownloadLabel, Encode(id))]]
            && (HandleCallback(chat, ButtonData(card), later).queries == [FetchRequest(id)] <==> Delimiter !in id)
            && HandleCallback(chat, ButtonData(card), later).queries == [FetchRequest(Split(id, Delimiter)[0])]
  {
    var id := answers.search.value[i].id;
    DecodeEncode(id);
  }

  /** A text that mentions "/start" anywhere but does not start with "/" gets
      the welcome message and is also searched when its sender is subscribed. */
  lemma PatternTextAlsoSearched(cfg: Config, chat: ChatId, user: UserId, text: string, answers: Answers)
    requires Contains(text, StartPattern) && !StartsWith(text, CommandPrefix)
    requires IsUserSubscribed(answers.member)
    ensures var r := HandleUpdate(cfg, MessageUpdate(chat, user, Some(text)), answers);
            && SendMessage(chat, WelcomeText, SendOptions(true, false, [])) in r.commandReplies
            && Searched(r.handler)
            && r.handler.trace.queries[1] == SearchRequest(text)
  {
  }

  /** "watch /start" is such a text: a subscribed sender gets the welcome
      message and a search for "watch /start". */
  lemma WatchStartIsBoth(cfg: Config, chat: ChatId, user: UserId, answers: Answers)
    requires IsUserSubscribed(answers.member)
    ensures Contains("watch /start", StartPattern) && !StartsWith("watch /start", CommandPrefix)
    ensures var r := HandleUpdate(cfg, MessageUpdate(chat, user, Some("watch /start")), answers);
            && SendMessage(chat, WelcomeText, SendOptions(true, false, [])) in r.commandReplies
            && r.handler.Completed?
            && r.handler.trace.queries == [GetChatMember(cfg.channelId, user), SearchRequest("watch /start")]
  {
    assert StartsWith("watch /start"[6..], StartPattern);
    assert "watch /start"[..1][0] == 'w';
    PatternTextAlsoSearched(cfg, chat, user, "watch /start", answers);
  }

  /** A command other than the two known ones gets no reply and causes no
      request at all. */
  lemma UnknownCommandIgnored(cfg: Config, chat: ChatId, user: UserId, text: string, answers: Answers)
    requires StartsWith(text, CommandPrefix)
    requires !Contains(text, StartPattern) && !Contains(text, HelpPattern)
    ensures HandleUpdate(cfg, MessageUpdate(chat, user, Some(text)), answers)
         == Reaction([], Completed(Trace([], [])))
  {
  }

  /** A message without text (a photo, a sticker) makes the general handler
      throw before it asks anything or sends anything, and no pattern handler
      fires. */
  lemma TextlessMessageCrashes(cfg: Config, chat: ChatId, user: UserId, answers: Answers)
    ensures HandleUpdate(cfg, MessageUpdate(chat, user, None), answers) == Reaction([], Crashed)
  {
  }

  /** A worked run: a subscribed member searches "Deadpool" and the catalog
      returns one movie with id 7; the bot sends one photo whose button
      carries "download_7". */
  lemma DeadpoolSearch(cfg: Config, chat: ChatId, user: UserId, fetched: Answer<DownloadRecord>)
    ensures var movie := Movie("7", "Deadpool", "movie", "poster.jpg");
            var answers := Answers(MemberStatus("member"), Found([movie]), fetched);
            var r := HandleUpdate(cfg, MessageUpdate(chat, user, Some("Deadpool")), answers);
            && r.commandReplies == []
            && r.handler == Completed(Trace(
                 [GetChatMember(cfg.channelId, user), SearchRequest("Deadpool")],
                 [SendPhoto(chat, "poster.jpg", "🎬 *Deadpool*\n📅 *Type:* movie\n",
                            SendOptions(true, false, [[CallbackButton("Download", "download_7")]]))]))
  {
    var movie := Movie("7", "Deadpool", "movie", "poster.jpg");
    DeadpoolHandled(cfg.channelId, chat, user, fetched);
    DeadpoolNoReplies(chat);
    DeadpoolCard(chat, movie);
  }

  /** The general handler's run on the worked search: the membership check,
      the search, and the one card. */
  lemma DeadpoolHandled(channelId: string, chat: ChatId, user: UserId, fetched: Answer<DownloadRecord>)
    ensures var movie := Movie("7", "Deadpool", "movie", "poster.jpg");
            HandleMessage(channelId, chat, user, Some("Deadpool"),
                          Answers(MemberStatus("member"), Found([movie]), fetched))
            == Completed(Trace([GetChatMember(channelId, user), SearchRequest("Deadpool")],
                               [ResultCard(chat, movie)]))
  {
    var movie := Movie("7", "Deadpool", "movie", "poster.jpg");
    DeadpoolIsPlainText();
    assert ResultCards(chat, [movie]) == [ResultCard(chat, movie)];
  }

  /** "Deadpool" draws no pattern reply. */
  lemma DeadpoolNoReplies(chat: ChatId)
    ensures CommandReplies(chat, Some("Deadpool")) == []
  {
    DeadpoolIsPlainText();
  }

  /** "Deadpool" is neither a command nor mentions one. */
  lemma DeadpoolIsPlainText()
    ensures !StartsWith("Deadpool", CommandPrefix)
    ensures !Contains("Deadpool", StartPattern) && !Contains("Deadpool", HelpPattern)
  {
    assert "Deadpool"[..1][0] == 'D';
    assert '/' !in "Deadpool";
    NotContained("Deadpool", StartPattern);
    NotContained("Deadpool", HelpPattern);
  }

  /** The result card of the Deadpool movie. */
  lemma DeadpoolCard(chat: ChatId, movie: Movie)
    requires movie == Movie("7", "Deadpool", "movie", "poster.jpg")
    ensures ResultCard(chat, movie)
         == SendPhoto(chat, "poster.jpg", "🎬 *Deadpool*\n📅 *Type:* movie\n",
                      SendOptions(true, false, [[CallbackButton("Download", "download_7")]]))
  {
    assert Caption(movie) == "🎬 *Deadpool*\n📅 *Type:* movie\n";
    assert Encode("7") == "download_7";
  }

  /** Pressing the button "download_7" asks the catalog for id "7". */
  lemma DeadpoolPress(chat: ChatId, answers: Answers)
    ensures HandleCallback(chat, "download_7", answers).queries == [FetchRequest("7")]
  {
    RoundTrip("7");
    assert Encode("7") == "download_7";
  }
}
