/** The nutrition agent's request pipeline: a router node classifies the
    query, exactly one handler answers it, the voice node may speak the
    answer, and the run ends. Each node returns a partial update that is
    merged into the shared state. The language model, the web search
    service and the speech service are parameters. */
module Workflow {
  import opened Wrappers
  import opened Text
  import Seqs
  import Json
  import UserProfile
  import KnowledgeStore
  import DietaryStore
  import UniversalRag
  import ShoppingTool
  import RestaurantTool

  // ---------------------------------------------------------------------
  // State and updates

  /** `NutritionState`; keys not set yet are `None`. `audioPath` is
      `Some(None)` once a node has set it to `None`. */
  datatype State = State(
    query: string,
    voiceEnabled: Option<bool>,
    intent: Option<string>,
    responseText: Option<string>,
    audioPath: Option<Option<string>>,
    error: Option<string>)

  /** The dictionary a node returns: the keys it sets. */
  datatype Update = Update(
    intent: Option<string>,
    responseText: Option<string>,
    audioPath: Option<Option<string>>,
    error: Option<string>)

  function NoUpdate(): Update {
    Update(None, None, None, None)
  }

  function Reply(text: string): Update {
    Update(None, Some(text), None, None)
  }

  function Pick<T>(update: Option<T>, current: Option<T>): Option<T> {
    if update.Some? then update else current
  }

  /** The keys an update sets replace those of the state; the others stay. */
  function Merge(s: State, u: Update): State {
    s.(intent := Pick(u.intent, s.intent),
       responseText := Pick(u.responseText, s.responseText),
       audioPath := Pick(u.audioPath, s.audioPath),
       error := Pick(u.error, s.error))
  }

  /** The input of a run: the query and the voice toggle. */
  function Initial(query: string, voiceEnabled: bool): State {
    State(query, Some(voiceEnabled), None, None, None, None)
  }

  // ---------------------------------------------------------------------
  // Prompts

  /** The prompts the nodes send to the language model. */
  datatype Prompt =
    | Classify(query: string)
    | ExtractFood(query: string)
    | ExtractProduct(query: string)
    | ExtractCuisine(query: string)
    | Humanize(query: string, found: string)

  const ClassifyHead := "\n        Classify this query: \""
  const ClassifyTail :=
    "\"\n"
    + "        Output ONLY one word:\n"
    + "        - \"LOG\" if user says they ate something (e.g. \"I ate an apple\", \"Add burger\").\n"
    + "        - \"SHOP\" if user wants to buy food (e.g. \"Buy noodles\", \"Tesco nearby\").\n"
    + "        - \"EAT\" if user wants restaurant (e.g. \"Suggest dinner\", \"Vegan restaurants\").\n"
    + "        - \"ASK\" if asking questions (e.g. \"Apple calories\", \"Is Keto good?\").\n"
    + "        - \"CHAT\" for greetings.\n"
    + "        "
  const HumanizeHead :=
    "\n            You are EatWise, a sophisticated, highly knowledgeable clinical nutritionist.\n"
    + "            \n"
    + "            User Query: \""
  const HumanizeMiddle := "\"\n            Found Information: \""
  const HumanizeTail :=
    "\"\n"
    + "            \n"
    + "            Task: Synthesize a helpful, warm response. \n"
    + "            - Use short paragraphs and markdown.\n"
    + "            - Be encouraging but scientific.\n"
    + "            "

  /** The text of each prompt, as sent. */
  function PromptText(p: Prompt): string {
    match p
    case Classify(query) => ClassifyHead + query + ClassifyTail
    case ExtractFood(query) => "Extract the food name from: '" + query + "'. Output ONLY the name."
    case ExtractProduct(query) => "Extract the product to buy from: '" + query + "'. Output ONLY the product name."
    case ExtractCuisine(query) => "Extract the cuisine or restaurant type from: '" + query + "'. Output ONLY the type."
    case Humanize(query, found) => HumanizeHead + query + HumanizeMiddle + found + HumanizeTail
  }

  /** Every prompt quotes the user's query, and the wording prompt also the
      information found. */
  lemma PromptQuotes(p: Prompt)
    ensures IsSubstring(p.query, PromptText(p))
    ensures p.Humanize? ==> IsSubstring(p.found, PromptText(p))
  {
    match p
    case Classify(query) => Quoted(ClassifyHead, query, ClassifyTail);
    case ExtractFood(query) => Quoted("Extract the food name from: '", query, "'. Output ONLY the name.");
    case ExtractProduct(query) => Quoted("Extract the product to buy from: '", query, "'. Output ONLY the product name.");
    case ExtractCuisine(query) => Quoted("Extract the cuisine or restaurant type from: '", query, "'. Output ONLY the type.");
    case Humanize(query, found) => BothOccur(HumanizeHead, query, HumanizeMiddle, found, HumanizeTail);
  }

  lemma Quoted(head: string, q: string, tail: string)
    ensures IsSubstring(q, head + q + tail)
  {
    SubstringOfSelf(q);
    SubstringInContext(q, q, head, tail);
  }

  /** The services a run calls. `chat` is the language model given one of
      the prompts (rendered by `PromptText`); `Err` is the message of the
      exception it raised; `summarise` is the knowledge
      aggregator's own model and `summariseError` what its exception
      prints; `search` is the web search given a query and a location. */
  datatype Services = Services(
    chat: Prompt -> Result<string, string>,
    summarise: string -> Option<string>,
    summariseError: string,
    search: (string, string) -> seq<Json.Object>,
    shopping: (string, string) -> seq<Json.Object>,
    places: (string, string) -> seq<Json.Object>,
    speak: string -> Result<Option<string>, string>)

  /** The aggregator searches the web at its default location. */
  function RagSearch(search: (string, string) -> seq<Json.Object>): string -> seq<Json.Object> {
    (q: string) => search(q, "London, UK")
  }

  // ---------------------------------------------------------------------
  // Router

  const Intents: seq<string> := ["LOG", "SHOP", "EAT", "ASK"]


  function OccursIn(text: string): string -> bool {
    (v: string) => IsSubstring(v, text)
  }

  /** The intent read from the model's answer. */
  function ParseIntent(answer: string): string {
    var text := Upper(Strip(answer));
    match Seqs.FirstIndex(OccursIn(text), Intents)
    case Some(i) => Intents[i]
    case None => "ASK"
  }

  /** The intent is always one of the four; it is the first of LOG, SHOP,
      EAT, ASK (in that order) that occurs in the stripped, upper-cased
      answer, and ASK when none does. */
  lemma ParseIntentSpec(answer: string)
    ensures ParseIntent(answer) in Intents
    ensures var text := Upper(Strip(answer));
      && (forall i :: 0 <= i < |Intents| ==> !IsSubstring(Intents[i], text)) ==> ParseIntent(answer) == "ASK"
    ensures var text := Upper(Strip(answer));
      forall i :: 0 <= i < |Intents| && IsSubstring(Intents[i], text) ==>
        (exists k :: && 0 <= k <= i && ParseIntent(answer) == Intents[k] && IsSubstring(Intents[k], text)
                     && forall j :: 0 <= j < k ==> !IsSubstring(Intents[j], text))
  {
    var text := Upper(Strip(answer));
    match Seqs.FirstIndex(OccursIn(text), Intents)
    case Some(k) =>
      assert OccursIn(text)(Intents[k]);
      assert forall j :: 0 <= j < k ==> !OccursIn(text)(Intents[j]);
      forall i | 0 <= i < |Intents| && IsSubstring(Intents[i], text)
        ensures k <= i
      {
        assert OccursIn(text)(Intents[i]);
      }
    case None =>
      assert forall i :: 0 <= i < |Intents| ==> !OccursIn(text)(Intents[i]);
  }

  /** `route_query`: the router's update, or the exception the model raised. */
  function RouteUpdate(s: State, chat: Prompt -> Result<string, string>): Result<Update, string> {
    match chat(Classify(s.query))
    case Err(e) => Err(e)
    case Ok(answer) => Ok(Update(Some(ParseIntent(answer)), None, None, None))
  }

  // ---------------------------------------------------------------------
  // The graph

  datatype Stage = Router | ProcessLog | ProcessShop | ProcessEat | ProcessAsk | GenerateVoice | End

  predicate IsHandler(stage: Stage) {
    stage.ProcessLog? || stage.ProcessShop? || stage.ProcessEat? || stage.ProcessAsk?
  }

  /** The conditional edges' target table. */
  function Destinations(): map<string, Stage> {
    map["process_log" := ProcessLog, "process_shop" := ProcessShop,
        "process_eat" := ProcessEat, "process_ask" := ProcessAsk]
  }

  /** `route_decision` */
  function RouteDecision(s: State): string {
    var intent := Lower(s.intent.GetOr("ASK"));
    "process_" + (if intent == "chat" then "ask" else intent)
  }

  /** The edges: the router branches on the route decision, every handler
      goes to the voice node, and the voice node ends the run. `None` is a
      decision outside the table. */
  function Successor(stage: Stage, s: State): Option<Stage> {
    match stage
    case Router =>
      var name := RouteDecision(s);
      if name in Destinations() then Some(Destinations()[name]) else None
    case GenerateVoice => Some(End)
    case End => None
    case _ => Some(GenerateVoice)
  }

  /** How many steps are left; every edge lowers it. */
  function Rank(stage: Stage): nat {
    match stage
    case Router => 3
    case GenerateVoice => 1
    case End => 0
    case _ => 2
  }

  /** The handler an intent is meant for. */
  function HandlerFor(intent: string): Stage {
    if intent == "LOG" then ProcessLog
    else if intent == "SHOP" then ProcessShop
    else if intent == "EAT" then ProcessEat
    else ProcessAsk
  }

  lemma LowerIntents()
    ensures Lower("LOG") == "log" && Lower("SHOP") == "shop" && Lower("EAT") == "eat"
    ensures Lower("ASK") == "ask" && Lower("CHAT") == "chat"
  {
  }

  /** Every intent the router can produce, and CHAT, lands in the table, on
      the handler meant for it. */
  lemma RouteLands(s: State)
    requires s.intent.Some? && (s.intent.value in Intents || s.intent.value == "CHAT")
    ensures Successor(Router, s) == Some(HandlerFor(s.intent.value))
  {
    LowerIntents();
    var v := s.intent.value;
    assert v == "LOG" || v == "SHOP" || v == "EAT" || v == "ASK" || v == "CHAT";
    if v == "LOG" {
      assert RouteDecision(s) == "process_log";
    } else if v == "SHOP" {
      assert RouteDecision(s) == "process_shop";
    } else if v == "EAT" {
      assert RouteDecision(s) == "process_eat";
    } else {
      assert RouteDecision(s) == "process_ask";
    }
  }

  /** The router's update sends a run to the handler of the parsed intent. */
  lemma RoutedToHandler(query: string, voiceEnabled: bool, chat: Prompt -> Result<string, string>)
    requires chat(Classify(query)).Ok?
    ensures var intent := ParseIntent(chat(Classify(query)).value);
      var routed := Merge(Initial(query, voiceEnabled), RouteUpdate(Initial(query, voiceEnabled), chat).value);
      && routed == Initial(query, voiceEnabled).(intent := Some(intent))
      && Successor(Router, routed) == Some(HandlerFor(intent))
      && IsHandler(HandlerFor(intent))
  {
    var answer := chat(Classify(query)).value;
    var intent := ParseIntent(answer);
    var routed := Merge(Initial(query, voiceEnabled), RouteUpdate(Initial(query, voiceEnabled), chat).value);
    assert routed == Initial(query, voiceEnabled).(intent := Some(intent));
    assert intent in Intents by {
      ParseIntentSpec(answer);
    }
    RouteLands(routed);
  }

  /** Every edge moves on to a later stage, and after a handler comes the
      voice node and then the end. */
  lemma SuccessorAdvances(stage: Stage, s: State)
    ensures Successor(stage, s).Some? ==> Rank(Successor(stage, s).value) < Rank(stage)
    ensures IsHandler(stage) ==> Successor(stage, s) == Some(GenerateVoice)
    ensures Successor(GenerateVoice, s) == Some(End) && Successor(End, s).None?
  {
    if stage == Router && Successor(stage, s).Some? {
      assert IsHandler(Destinations()[RouteDecision(s)]);
    }
  }

  // ---------------------------------------------------------------------
  // Handlers that only compute

  /** `process_shop`, with the shopping tool at its default location. */
  function ShopUpdate(s: State, services: Services): Result<Update, string> {
    match services.chat(ExtractProduct(s.query))
    case Err(e) => Err(e)
    case Ok(product) => Ok(Reply(ShoppingTool.Reply(Strip(product), "London", services.shopping, services.search)))
  }

  /** `process_eat`, with the restaurant tool at its default location. */
  function EatUpdate(s: State, services: Services): Result<Update, string> {
    match services.chat(ExtractCuisine(s.query))
    case Err(e) => Err(e)
    case Ok(cuisine) =>
      var c := Strip(cuisine);
      Ok(Reply(RestaurantTool.Reply(c, "London", services.places(c, "London"))))
  }

  // ---------------------------------------------------------------------
  // Asking

  const Apology := "I apologize, but I'm having trouble retrieving that information right now. Could you rephrase?"


  /** `process_ask` once the aggregator has answered (`None` when its model
      raised): any exception becomes the apology and its message. */
  function AskUpdate(query: string, found: Option<string>, services: Services): Update {
    match found
    case None => Update(None, Some(Apology), None, Some(services.summariseError))
    case Some(raw) =>
      match services.chat(Humanize(query, raw))
      case Err(e) => Update(None, Some(Apology), None, Some(e))
      case Ok(response) => Reply(response)
  }

  /** Asking never fails the run: either the model's answer is the response,
      or the response is the apology and the error is set. */
  lemma AskNeverRaises(query: string, found: Option<string>, services: Services)
    ensures var u := AskUpdate(query, found, services);
      && u.intent.None? && u.audioPath.None? && u.responseText.Some?
      && (u.error.Some? <==> found.None? || services.chat(Humanize(query, found.value)).Err?)
      && (u.error.Some? ==> u.responseText == Some(Apology))
  {
  }

  // ---------------------------------------------------------------------
  // Voice

  /** The text sent to the speech service: stars removed ("**", then "*"),
      and cut to 1000 characters plus "..." when longer. */
  function SpokenText(text: string): string {
    var clean := Replace(Replace(text, "**", ""), "*", "");
    if |clean| > 1000 then clean[..1000] + "..." else clean
  }

  /** Every star is removed and nothing else; a longer text keeps its first
      1000 characters and gains "...", so at most 1003 are spoken. */
  lemma SpokenTextSpec(text: string)
    ensures var clean := Without(text, '*');
      && SpokenText(text) == (if |clean| > 1000 then clean[..1000] + "..." else clean)
      && '*' !in SpokenText(text)
      && |SpokenText(text)| <= 1003
      && (|clean| <= 1000 ==> SpokenText(text) == clean)
  {
    ReplaceDoubleThenSingle(text, '*');
    assert "**" == ['*', '*'] && "*" == ['*'];
    var clean := Without(text, '*');
    if |clean| > 1000 {
      var r := clean[..1000] + "...";
      forall i | 0 <= i < |r| ensures r[i] != '*' {
        if i < 1000 {
          assert r[i] == clean[i];
        }
      }
    }
  }

  /** `generate_voice` */
  function VoiceUpdate(s: State, speak: string -> Result<Option<string>, string>): Update {
    if s.voiceEnabled != Some(true) then Update(None, None, Some(None), None)
    else
      var text := s.responseText.GetOr("");
      if |text| == 0 then NoUpdate()
      else match speak(SpokenText(text))
        case Ok(path) => Update(None, None, Some(path), None)
        case Err(e) => Update(None, None, None, Some("Voice failed: " + e))
  }

  /** The voice node never changes the query, the intent or the response;
      without voice it sets only the audio path, to `None`; with no text it
      changes nothing; a speech failure sets only the error. */
  lemma VoiceOutcome(s: State, speak: string -> Result<Option<string>, string>)
    ensures var after := Merge(s, VoiceUpdate(s, speak));
      && after.query == s.query && after.intent == s.intent && after.responseText == s.responseText
      && (s.voiceEnabled != Some(true) ==> after == s.(audioPath := Some(None)))
      && (s.voiceEnabled == Some(true) && s.responseText.GetOr("") == "" ==> after == s)
      && (s.voiceEnabled == Some(true) && s.responseText.GetOr("") != "" ==>
            match speak(SpokenText(s.responseText.value))
            case Ok(path) => after == s.(audioPath := Some(path))
            case Err(e) => after == s.(error := Some("Voice failed: " + e)))
  {
  }

  // ---------------------------------------------------------------------
  // The nodes and a run

  const LogNutrients: map<string, string> := map["source" := "user_input"]

  function LogReply(food: string): string {
    "Tracking: I've logged **" + food + "** to your daily intake."
  }

  /** `process_log`'s update: the tracking message for the food the model
      names, or the exception it raised. */
  function LogUpdate(s: State, chat: Prompt -> Result<string, string>): Result<Update, string> {
    match chat(ExtractFood(s.query))
    case Err(e) => Err(e)
    case Ok(name) => Ok(Reply(LogReply(Strip(name))))
  }

  /** The profile after `process_log`: one entry for the named food, or no
      change when the model raised. */
  function LoggedProfile(p: UserProfile.Profile, s: State, chat: Prompt -> Result<string, string>,
                         today: string, now: string): UserProfile.Profile
  {
    match chat(ExtractFood(s.query))
    case Err(_) => p
    case Ok(name) => p.(history := p.history + [UserProfile.Entry(today, now, Strip(name), LogNutrients)])
  }

  /** What the aggregator answers for `query` over the given dietary records
      and knowledge documents (`None` when its model raised). */
  function AskFound(query: string, services: Services, dietaryDocs: seq<DietaryStore.Record>,
                    knowledgeDocs: seq<string>): Option<string>
  {
    var q := UniversalRag.Normalize(query);
    var tier := UniversalRag.TierOf(q, dietaryDocs, knowledgeDocs);
    UniversalRag.Answer(q, tier, RagSearch(services.search)(UniversalRag.SearchQuery(q)), services.summarise)
  }

  /** The update of each handler node, given what the aggregator holds. */
  function HandlerUpdate(stage: Stage, s: State, services: Services, dietaryDocs: seq<DietaryStore.Record>,
                         knowledgeDocs: seq<string>): Result<Update, string>
    requires IsHandler(stage)
  {
    match stage
    case ProcessLog => LogUpdate(s, services.chat)
    case ProcessShop => ShopUpdate(s, services)
    case ProcessEat => EatUpdate(s, services)
    case _ => Ok(AskUpdate(s.query, AskFound(s.query, services, dietaryDocs, knowledgeDocs), services))
  }

  /** A handler either raises or replies: it always sets the response, and
      never the intent or the audio path; only asking can set the error. A
      run's reply is therefore always the handler's. */
  lemma HandlerReplies(stage: Stage, s: State, services: Services, dietaryDocs: seq<DietaryStore.Record>,
                       knowledgeDocs: seq<string>)
    requires IsHandler(stage)
    ensures var u := HandlerUpdate(stage, s, services, dietaryDocs, knowledgeDocs);
      && (stage == ProcessAsk ==> u.Ok?)
      && (u.Ok? ==> && u.value.intent.None? && u.value.audioPath.None? && u.value.responseText.Some?
                    && (stage != ProcessAsk ==> u.value.error.None?)
                    && Merge(s, u.value).intent == s.intent
                    && Merge(s, u.value).responseText == u.value.responseText)
  {
    if stage == ProcessAsk {
      AskNeverRaises(s.query, AskFound(s.query, services, dietaryDocs, knowledgeDocs), services);
    }
  }

  class NutritionGraphNodes {
    const rag: UniversalRag.UniversalNutritionRag
    const memory: UserProfile.UserProfileStore

    ghost predicate Valid()
      reads this, memory
    {
      memory.Valid()
    }

    /** The aggregator over the dietary tables in `directory` and the
        knowledge store file, and the profile store over its file. */
    constructor (directory: Option<seq<DietaryStore.DirEntry>>, storeFile: KnowledgeStore.StoreFile,
                 profileFile: UserProfile.ProfileFile)
      requires profileFile.Written? ==> UserProfile.WellFormed(profileFile.profile)
      ensures Valid() && fresh(rag) && fresh(memory)
      ensures rag.webQueries == [] && memory.file == profileFile
      ensures memory.profile == (if profileFile.Written? then profileFile.profile else UserProfile.DefaultProfile())
      ensures rag.dietary.documents == (if directory.Some? then DietaryStore.DirectoryRecords(directory.value) else [])
      ensures rag.knowledge.persistent
      ensures !storeFile.Missing? ==> rag.knowledge.Current() == KnowledgeStore.Loaded(storeFile, KnowledgeStore.Contents([], [], map[]))
      ensures storeFile.Missing? ==> rag.knowledge.Current() == KnowledgeStore.Seeded()
    {
      rag := new UniversalRag.UniversalNutritionRag(directory, storeFile);
      memory := new UserProfile.UserProfileStore(profileFile);
    }

    /** `process_log`: the model names the food, which is logged stripped. */
    method HandleLog(s: State, chat: Prompt -> Result<string, string>, today: string, now: string)
      returns (u: Result<Update, string>)
      modifies memory
      requires Valid()
      ensures Valid()
      ensures match chat(ExtractFood(s.query))
        case Err(e) => u == Err(e) && memory.profile == old(memory.profile) && memory.file == old(memory.file)
        case Ok(name) =>
          var food := Strip(name);
          && u == Ok(Reply(LogReply(food)))
          && memory.profile == old(memory.profile).(history := old(memory.profile).history + [UserProfile.Entry(today, now, food, LogNutrients)])
          && memory.file == UserProfile.Written(memory.profile)
    {
      var answer := chat(ExtractFood(s.query));
      if answer.Err? {
        return Err(answer.error);
      }
      var food := Strip(answer.value);
      memory.LogFood(food, LogNutrients, today, now);
      u := Ok(Reply(LogReply(food)));
    }

    /** `process_ask`: the aggregator answers and the model words it. */
    method HandleAsk(s: State, services: Services) returns (u: Update)
      modifies rag, rag.knowledge
      ensures var q := UniversalRag.Normalize(s.query);
        var web := RagSearch(services.search);
        var tier := UniversalRag.TierOf(q, rag.dietary.documents, old(rag.knowledge.documents));
        && u == AskUpdate(s.query, UniversalRag.Answer(q, tier, web(UniversalRag.SearchQuery(q)), services.summarise), services)
        && rag.webQueries == old(rag.webQueries) + (if tier.FromWeb? then [UniversalRag.SearchQuery(q)] else [])
        && var learned := if tier.FromWeb? then UniversalRag.Learned(q, web(UniversalRag.SearchQuery(q)), services.summarise) else None;
          rag.Stored(learned, UniversalRag.LearnedId(q), old(rag.knowledge.Current()), old(rag.knowledge.file))
    {
      var found := rag.Search(s.query, RagSearch(services.search), services.summarise);
      if found.None? {
        return Update(None, Some(Apology), None, Some(services.summariseError));
      }
      var answer := services.chat(Humanize(s.query, found.value));
      if answer.Err? {
        return Update(None, Some(Apology), None, Some(answer.error));
      }
      u := Reply(answer.value);
    }

    /** The profile store and the aggregator after the handler of `stage`
        ran on `s`, given what they held before: only `process_log`
        changes the profile, and only `process_ask` the aggregator. */
    ghost predicate Handled(stage: Stage, s: State, services: Services, today: string, now: string,
                            profile0: UserProfile.Profile, file0: UserProfile.ProfileFile,
                            queries0: seq<string>, knowledge0: KnowledgeStore.Contents, store0: KnowledgeStore.StoreFile)
      reads this, memory, rag, rag.knowledge, rag.dietary
    {
      && (if stage == ProcessLog then
            && memory.profile == LoggedProfile(profile0, s, services.chat, today, now)
            && memory.file == (if services.chat(ExtractFood(s.query)).Ok? then UserProfile.Written(memory.profile) else file0)
          else memory.profile == profile0 && memory.file == file0)
      && (if stage == ProcessAsk then
            var q := UniversalRag.Normalize(s.query);
            var web := RagSearch(services.search);
            var tier := UniversalRag.TierOf(q, rag.dietary.documents, knowledge0.documents);
            && rag.webQueries == queries0 + (if tier.FromWeb? then [UniversalRag.SearchQuery(q)] else [])
            && var learned := if tier.FromWeb? then UniversalRag.Learned(q, web(UniversalRag.SearchQuery(q)), services.summarise) else None;
              rag.Stored(learned, UniversalRag.LearnedId(q), knowledge0, store0)
          else rag.webQueries == queries0 && rag.knowledge.Current() == knowledge0 && rag.knowledge.file == store0)
    }

    /** One run of the compiled graph, following its edges: router, exactly
        one handler, voice, end. An exception in the router or a handler ends the run with its
        message; `handled` is the state the voice node saw: the handler's
        update merged into the routed state. */
    method Invoke(query: string, voiceEnabled: bool, services: Services, today: string, now: string)
      returns (result: Result<State, string>, ghost visited: seq<Stage>, ghost handled: State)
      modifies memory, rag, rag.knowledge
      requires Valid()
      ensures Valid()
      ensures match services.chat(Classify(query))
        case Err(e) => result == Err(e) && visited == [Router] && unchanged(memory, rag, rag.knowledge)
        case Ok(answer) =>
          var intent := ParseIntent(answer);
          var routed := Merge(Initial(query, voiceEnabled), RouteUpdate(Initial(query, voiceEnabled), services.chat).value);
          var u := HandlerUpdate(HandlerFor(intent), routed, services, rag.dietary.documents, old(rag.knowledge.documents));
          && routed == Initial(query, voiceEnabled).(intent := Some(intent))
          && Handled(HandlerFor(intent), routed, services, today, now, old(memory.profile), old(memory.file),
                     old(rag.webQueries), old(rag.knowledge.Current()), old(rag.knowledge.file))
          && (result.Err? <==> u.Err?)
          && (result.Err? ==> visited == [Router, HandlerFor(intent)] && result.error == u.error)
          && (result.Ok? ==>
                && visited == [Router, HandlerFor(intent), GenerateVoice]
                && handled == Merge(routed, u.value)
                && result.value == Merge(handled, VoiceUpdate(handled, services.speak)))
    {
      var state := Initial(query, voiceEnabled);
      visited := [Router];
      handled := state;
      var routing := RouteUpdate(state, services.chat);
      if routing.Err? {
        return Err(routing.error), visited, handled;
      }
      state := Merge(state, routing.value);
      RoutedToHandler(query, voiceEnabled, services.chat);
      var handler := Successor(Router, state).value;
      visited := visited + [handler];
      var handling := Handle(handler, state, services, today, now);
      if handling.Err? {
        return Err(handling.error), visited, handled;
      }
      state := Merge(state, handling.value);
      SuccessorAdvances(handler, state);
      var voice := Successor(handler, state).value;
      assert visited + [voice] == [Router, handler, GenerateVoice];
      handled := state;
      visited := visited + [voice];
      state := Merge(state, VoiceUpdate(state, services.speak));
      result := Ok(state);
    }

    /** Runs the handler node of `stage` on the routed state. */
    method Handle(stage: Stage, state: State, services: Services, today: string, now: string)
      returns (update: Result<Update, string>)
      modifies memory, rag, rag.knowledge
      requires Valid() && IsHandler(stage)
      ensures Valid()
      ensures update == HandlerUpdate(stage, state, services, rag.dietary.documents, old(rag.knowledge.documents))
      ensures Handled(stage, state, services, today, now, old(memory.profile), old(memory.file),
                      old(rag.webQueries), old(rag.knowledge.Current()), old(rag.knowledge.file))
    {
      match stage {
        case ProcessLog =>
          update := HandleLog(state, services.chat, today, now);
        case ProcessShop =>
          update := ShopStep(state, services);
        case ProcessEat =>
          update := EatStep(state, services);
        case ProcessAsk =>
          var asked := HandleAsk(state, services);
          update := Ok(asked);
      }
    }

    /** `process_shop`, calling the shopping tool. */
    static method ShopStep(s: State, services: Services) returns (u: Result<Update, string>)
      ensures u == ShopUpdate(s, services)
    {
      var answer := services.chat(ExtractProduct(s.query));
      if answer.Err? {
        return Err(answer.error);
      }
      var response := ShoppingTool.Execute(Strip(answer.value), "London", services.shopping, services.search);
      u := Ok(Reply(response));
    }

    /** `process_eat`, calling the restaurant tool. */
    static method EatStep(s: State, services: Services) returns (u: Result<Update, string>)
      ensures u == EatUpdate(s, services)
    {
      var answer := services.chat(ExtractCuisine(s.query));
      if answer.Err? {
        return Err(answer.error);
      }
      var response := RestaurantTool.Execute(Strip(answer.value), "London", services.places);
      u := Ok(Reply(response));
    }
  }
}
