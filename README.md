# EatWise in Dafny

A model of the core of EatWise, a nutrition assistant. It covers:

- **The request pipeline.** A router asks the language model to classify the query. Exactly one handler answers:
  - *log* records a food in the user's profile;
  - *shop* searches for groceries;
  - *eat* searches for restaurants;
  - *ask* consults the knowledge aggregator and has the model word its answer.

  A voice node may then speak the reply.
- **The knowledge aggregator.** It looks in three places in order: the dietary recommendation tables, a keyword knowledge store, and the web. A web summary is learned into the knowledge store.
- **The stores.**
  - The keyword knowledge store of nutrition facts, with its JSON snapshot.
  - The dietary recommendation store, flattened from JSON tables of age group, gender and nutrient.
  - The user profile: food history, favourites, chat sessions, remembered facts.
  - The per-user memory graph kept in the `graph_nodes` and `graph_edges` tables.
- **The four tools** that format search results as replies.
- **The account endpoints:** registration, code verification and login.

Modules follow the source files:

| source file | module |
|---|---|
| `store.py` | `KnowledgeStore` |
| `dietary_store.py` | `DietaryStore` |
| `universal_rag.py` | `UniversalRag` |
| `graph_db.py` | `GraphDb` |
| `user_profile.py` | `UserProfile` |
| `workflow.py` | `Workflow` |
| `shopping_tool.py` | `ShoppingTool` |
| `restaurant_tool.py` | `RestaurantTool` |
| `rag_tool.py` | `RagTool` |
| `dietary_tool.py` | `DietaryTool` |
| `auth.py` | `Auth` |

Shared helpers live in their own modules:

- `Wrappers`: `Option`, and `Result` for a raised exception.
- `Text`: Python's string operations on ASCII.
- `Seqs`: sequence helpers.
- `StableSort`: a stable sort by a total preorder, proved sorted, a permutation and stable. It stands for Python's `sort`/`sorted`.
- `Ranking`: score-pair helpers shared by the two searches.
- `Listing`: the "one line per result" shape of the tools' replies.
- `Json`: records as maps from key to rendered value.

Objects whose fields the source updates are classes: `NutritionVectorStore`, `DietaryVectorStore`, `UniversalNutritionRag`, `UserProfileStore`, `GraphService`, `AuthService` and `NutritionGraphNodes`. Loops in the source are `while` loops with invariants. Each one is proved against a function that specifies it.

The clock, `uuid4` and `random.randint` are parameters. So are the language model, the web search service, the speech service, password hashing, password checking and token creation.

- **The workflow's language model** is a function of a structured `Workflow.Prompt`. `Workflow.PromptText` renders each prompt's exact text. A model that reads only the text is the special case `p => m(PromptText(p))`, so every property proved holds for it too.
- **The aggregator's own model** receives the rendered prompt string.

A file that has been read is a value: missing, unreadable, or its parsed contents. Saving writes the contents into that value.

Behaviour of the code worth knowing:

- **The spoken text can be 1003 characters.** `generate_voice` cuts the cleaned text to 1000 characters and then appends `"..."`.
- **The aggregator's repeat answer is conditional.** Asking the same question again is answered from the cache only when the learned summary contains a keyword of the query (`UniversalRag.LearnedIsCached`).
- **An unreadable snapshot leaves the store empty.** A failed `load` keeps the store's current contents. At start-up those are still empty: a file that exists but cannot be read is not replaced by the seed facts.
- **`add_message` on an unknown session id fails.** The fallback creates a "Restored Session" under a new id, not under the one asked for. The append then raises `KeyError`; this is modelled as `ok == false`, and the restored session is kept.

## Model

| member | source | states |
|---|---|---|
| KnowledgeStore.NutritionVectorStore.constructor | src/rag/store.py:17-37 | A persistent store whose file exists loads it; otherwise it seeds the sixteen facts, and a persistent store then writes its first snapshot |
| KnowledgeStore.NutritionVectorStore.Save | src/rag/store.py:39-50 | The contents are unchanged; a persistent store's file then holds their snapshot, and a store without a file writes nothing |
| KnowledgeStore.NutritionVectorStore.Load | src/rag/store.py:52-64 | A persistent store takes the contents of a readable file; a missing or unreadable file, or no file, leaves them as they are |
| KnowledgeStore.Loaded | src/rag/store.py:52-64 | Loading a file that was not written never changes the contents |
| KnowledgeStore.LoadAfterSave | src/rag/store.py:39-64 | Loading what `save` wrote gives back exactly the saved documents, ids and structured data, whatever was in memory |
| KnowledgeStore.NutritionVectorStore.AddStructuredFood | src/rag/store.py:66-74 | The food is stored under its lower-cased name. Its text is appended under `food_<name>` and the store saves. Any spelling of the name that lower-cases the same then finds the food |
| KnowledgeStore.FoodTextNamesFood | src/rag/store.py:70-72 | A food's knowledge text starts with "Nutrition for <name>: " |
| KnowledgeStore.FoodIdHasNoSpace | src/rag/store.py:73 | A food's document id contains no space |
| KnowledgeStore.NutritionVectorStore.GetStructuredFood | src/rag/store.py:76-78 | The lookup finds a food exactly when its lower-cased name is stored, and returns what is stored there |
| KnowledgeStore.NutritionVectorStore.SeedInitialKnowledge | src/rag/store.py:80-109 | The sixteen seed facts are appended in order, with ids `knowledge_0` to `knowledge_15` |
| KnowledgeStore.NutritionVectorStore.AddNumbered | src/rag/store.py:108-109 | The seeding loop appends each fact under the id numbered by its position |
| KnowledgeStore.KeywordsIgnoreCase | src/rag/store.py:116-119 | The keywords of a query do not depend on its case, because the query is lower-cased before it is split |
| KnowledgeStore.MatchedAdd | src/rag/store.py:129-131 | One more keyword adds one to the score exactly when the document contains it |
| KnowledgeStore.NutritionVectorStore.CountMatches | src/rag/store.py:127-131 | The inner loop computes the document's score: how many keywords it contains |
| KnowledgeStore.Scored | src/rag/store.py:125-132 | The score list pairs each document, in order, with its own score |
| KnowledgeStore.NutritionVectorStore.Search | src/rag/store.py:111-139 | The loop-built search result equals the ranked top-`n` positive documents; the store does not change |
| KnowledgeStore.StopWordsFindNothing | src/rag/store.py:121-123 | A query made only of stop words finds nothing |
| KnowledgeStore.SearchResultsMatch | src/rag/store.py:137-139 | At most `n` results, each a stored document that contains a keyword of the query |
| KnowledgeStore.SearchResultsDescending | src/rag/store.py:134-138 | Results come in descending score order |
| KnowledgeStore.SearchResultsStable | src/rag/store.py:134-135 | Documents with equal scores keep their stored order (Python's sort is stable) |
| KnowledgeStore.SearchResultsComplete | src/rag/store.py:137-139 | When fewer than `n` results come back, every document with a keyword is among them |
| KnowledgeStore.RankedArePrefix | src/rag/store.py:137-138 | The results are the positive-scoring part of the first `n` ranked pairs |
| KnowledgeStore.InScored | src/rag/store.py:132-135 | Every ranked pair is a stored document with its own score |
| KnowledgeStore.NutritionVectorStore.AddKnowledge | src/rag/store.py:141-147 | Text and id are appended. The default id is `knowledge_<count of documents before>`. Nothing else changes |
| DietaryStore.DietaryVectorStore.constructor | src/rag/dietary_store.py:12-20 | The records are those of the directory's files, or none when the directory does not exist |
| DietaryStore.DietaryVectorStore.LoadData | src/rag/dietary_store.py:22-53 | The records of every `.json` file are appended in directory order |
| DietaryStore.DietaryVectorStore.LoadFile | src/rag/dietary_store.py:23-53 | Only a `.json` file contributes. Its contributions: an object's flattened leaves, a list's elements, or nothing when it does not parse |
| DietaryStore.DietaryVectorStore.LoadTable | src/rag/dietary_store.py:31-48 | The outer loop appends the rendered leaves of the age entries it reads |
| DietaryStore.DietaryVectorStore.LoadAge | src/rag/dietary_store.py:31-48 | One age entry that is a gender table appends the leaves under it |
| DietaryStore.DietaryVectorStore.LoadGenders | src/rag/dietary_store.py:32-48 | The middle loop appends the leaves of each gender entry in turn |
| DietaryStore.DietaryVectorStore.LoadEntry | src/rag/dietary_store.py:33-48 | A gender entry that is a nutrient table appends its leaves; any other entry is skipped |
| DietaryStore.DietaryVectorStore.LoadNutrients | src/rag/dietary_store.py:34-48 | The inner loop appends one record per nutrient, in order |
| DietaryStore.DietaryVectorStore.AppendLeaf | src/rag/dietary_store.py:41-48 | One leaf becomes one record with its cleaned name, value, age group, gender and file name |
| DietaryStore.DietaryVectorStore.CleanName | src/rag/dietary_store.py:36-42 | The cleaning steps compute `PrettyName` |
| DietaryStore.PrettyNameIsClean | src/rag/dietary_store.py:36-42 | A cleaned name has no `_` and no surrounding whitespace |
| DietaryStore.DropSuffixIsPrefix | src/rag/dietary_store.py:38-39 | Dropping a unit suffix keeps a prefix of the name |
| DietaryStore.CutUnitsIsPrefix | src/rag/dietary_store.py:37-39 | Dropping the four unit suffixes in turn keeps a prefix |
| DietaryStore.FourSuffixes | src/rag/dietary_store.py:37-39 | The suffixes " Mg", " Mcg", " G", " Iu" are tried in that order, each at most once |
| DietaryStore.VitaminCName | src/rag/dietary_store.py:35-42 | `vitamin_c_mg` is cleaned to "Vitamin C", the example the loader gives |
| DietaryStore.ReadAgesAt | src/rag/dietary_store.py:31-32 | Reading goes past an age entry exactly when it is a gender table: `genders.items()` on anything else raises and ends the file |
| DietaryStore.AgeLeavesAreLeaves | src/rag/dietary_store.py:31-48 | A leaf is read exactly when it is a nutrient leaf under an age entry before the first one that is not a table |
| DietaryStore.TableFileRecords | src/rag/dietary_store.py:29-48 | The records of an object file are exactly the records of its leaves that are read |
| DietaryStore.RenderHas | src/rag/dietary_store.py:41-48 | A record comes from a leaf list exactly when it is the record of one of its leaves |
| DietaryStore.DietaryVectorStore.Search | src/rag/dietary_store.py:55-92 | The loop-built result equals the stably sorted, positively scored top `k`; the records are not changed |
| DietaryStore.PositiveScoredPairs | src/rag/dietary_store.py:66-88 | Exactly the records with a positive score are kept, each with its score |
| DietaryStore.SearchResultsScorePositive | src/rag/dietary_store.py:87-92 | At most `k` results, each a stored record with a positive score |
| DietaryStore.SearchResultsDescending | src/rag/dietary_store.py:90-92 | Results come in descending score order |
| DietaryStore.SearchResultsTopIsBest | src/rag/dietary_store.py:87-92 | With `k >= 1`, whenever some record scores, the first result has the best score of all |
| DietaryStore.SearchResultsTopK | src/rag/dietary_store.py:87-92 | The results are the top `k`: a positively scoring record is missing only when `k` results came back, each scoring at least as much as it |
| DietaryStore.SearchResultsStable | src/rag/dietary_store.py:90-91 | Records with equal scores keep their load order |
| DietaryStore.VitaminCScore | src/rag/dietary_store.py:71-81 | The query "vitamin c" gives a "Vitamin C" record at least 30 points |
| DietaryStore.VitaminAScore | src/rag/dietary_store.py:76-85 | A "Vitamin A" record gets at most the 5-point gender bonus for "vitamin c": the single shared token "vitamin" does not count |
| DietaryStore.VitaminAAtMostGender | src/rag/dietary_store.py:66-88 | Every "Vitamin A" record scores at most 5 for the query "vitamin c" |
| DietaryStore.VitaminCRanksFirst | src/rag/dietary_store.py:66-92 | For "vitamin c", a store holding a "Vitamin C" record never ranks a "Vitamin A" record first |
| DietaryStore.BestBeatsGenderOnly | src/rag/dietary_store.py:87-92 | A record scoring more than 5 keeps every record that can score only 5 out of first place |
| UniversalRag.UniversalNutritionRag.constructor | src/rag/universal_rag.py:21-25 | The aggregator owns a dietary store over the directory and a persistent knowledge store. The knowledge store is loaded from its file, or seeded when the file is missing |
| UniversalRag.UniversalNutritionRag.Search | src/rag/universal_rag.py:27-51 | The answer is that of the tier the query falls in, for the lower-cased and stripped query. The web is searched only in the web tier, and only then is the knowledge store changed |
| UniversalRag.NormalizeIdempotent | src/rag/universal_rag.py:31 | Normalising twice is normalising once |
| UniversalRag.UniversalNutritionRag.FindDietary | src/rag/universal_rag.py:33-40 | Step 1 takes the top dietary record and keeps it only when name and query contain one another |
| UniversalRag.FormatDietaryShows | src/rag/universal_rag.py:53-57 | A dietary answer opens with the record's name in bold and ends with its value and the guidelines tag; a missing name or value reads "None" |
| UniversalRag.DietaryTierIsBest | src/rag/universal_rag.py:33-40 | A dietary answer is a relevant record with the best score of all records |
| UniversalRag.UniversalNutritionRag.FindCached | src/rag/universal_rag.py:42-47 | Step 2 takes the knowledge store's single best match |
| UniversalRag.CacheTierMatches | src/rag/universal_rag.py:44-47 | A cache answer is a stored fact that contains a keyword of the query |
| UniversalRag.WebTierMeansNoMatch | src/rag/universal_rag.py:49-51 | The web is asked only when no stored fact contains a keyword of the query |
| UniversalRag.UniversalNutritionRag.LearnFromWeb | src/rag/universal_rag.py:59-93 | It searches for "<query> nutrition facts health benefits". No results gives the not-found reply and stores nothing. Otherwise the model's summary is stored under `learned_<query>`, saved, and returned |
| UniversalRag.UniversalNutritionRag.BuildContext | src/rag/universal_rag.py:69-71 | The context loop computes one numbered line per result for the first three |
| UniversalRag.ContextLines | src/rag/universal_rag.py:69-71 | Each line sits in the context after the lines of the earlier results |
| UniversalRag.ContextIgnoresRest | src/rag/universal_rag.py:70 | Only the first three web results reach the model |
| UniversalRag.LearnedIsCached | src/rag/universal_rag.py:42-47 | After a web answer whose summary contains a keyword of the query, the same query is answered from the cache (src/rag/universal_rag.py:89-91) |
| GraphDb.GraphService.GetUserGraph | src/services/graph_db.py:9-21 | The graph returned is the user's nodes and the edges between them |
| GraphDb.UserGraphExact | src/services/graph_db.py:10-16 | A node is listed exactly when it is the user's; an edge exactly when both of its ends are the user's nodes |
| GraphDb.GraphService.AddNode | src/services/graph_db.py:23-36 | An existing node with the user and name is returned unchanged. Otherwise one node is appended with the next row id |
| GraphDb.AddNodeIdempotent | src/services/graph_db.py:25-30 | A second `add_node` with the same user and name changes nothing, whatever type it asks for, and returns the same node |
| GraphDb.AddNodeFindable | src/services/graph_db.py:23-36 | The returned node is in the table with that user and name; row ids stay distinct; the table grows only by that node, with the type asked for |
| GraphDb.NextId | src/services/graph_db.py:32-35 | The new row id exceeds every id in the table and is 1 or one more than an existing id |
| GraphDb.GraphService.AddEdge | src/services/graph_db.py:38-49 | An edge with the same ends and relationship is returned unchanged; otherwise one edge is appended |
| GraphDb.AddEdgeIdempotent | src/services/graph_db.py:39-44 | A second `add_edge` with the same arguments changes nothing and returns the same edge |
| GraphDb.AddEdgeFindable | src/services/graph_db.py:38-49 | The edge is in the table afterwards; the table grows by one exactly when it had no such edge |
| GraphDb.GraphService.DeleteNode | src/services/graph_db.py:54-66 | It returns true exactly when the node exists; then that node and every edge touching it are removed. Otherwise nothing is committed and the tables stay as they were |
| GraphDb.DeleteKeepsTheRest | src/services/graph_db.py:57-63 | Deleting keeps exactly the other nodes and the edges that do not touch the node |
| GraphDb.GraphService.UpdateNode | src/services/graph_db.py:68-74 | The node with the id gets the new name and is returned; an unknown id gives `None` and no change |
| UserProfile.UserProfileStore.constructor | src/memory/user_profile.py:12-33 | The profile is the file's, or the default profile when the file is missing or unreadable |
| UserProfile.UserProfileStore.Save | src/memory/user_profile.py:35-40 | The file then holds the profile, which is unchanged |
| UserProfile.UserProfileStore.LogFood | src/memory/user_profile.py:42-54 | Exactly one entry, dated today and stamped now, is appended to the history; the profile is saved |
| UserProfile.LoggedIsLastToday | src/memory/user_profile.py:42-71 | A food logged today is the last entry of today's log |
| UserProfile.UserProfileStore.AddFavorite | src/memory/user_profile.py:56-60 | A new favourite is appended and saved; a present one changes nothing and nothing is written |
| UserProfile.AddOnce | src/memory/user_profile.py:58-59 | The item is in the list afterwards, the list grows by one exactly when it was missing, and a present item changes nothing |
| UserProfile.AddOnceIdempotent | src/memory/user_profile.py:58-59 | Adding twice is adding once, and a list without repeats keeps none |
| UserProfile.UserProfileStore.GetFavorites | src/memory/user_profile.py:62-63 | The favourites are returned as stored, in the order they were added |
| UserProfile.EntriesOnExact | src/memory/user_profile.py:65-71 | An entry is in today's log exactly when it is in the history and dated today |
| UserProfile.EntriesOnInOrder | src/memory/user_profile.py:65-71 | Today's log keeps the history's order: the log of two histories joined is their logs joined; an entry alone is kept exactly when dated today; no history gives no log |
| UserProfile.UserProfileStore.GetTodayLog | src/memory/user_profile.py:65-71 | The returned entries are exactly the history's entries dated today |
| UserProfile.SliceStart | src/memory/user_profile.py:75 | The start index of Python's `s[start:]` for a start of either sign |
| UserProfile.RecentEntriesSpec | src/memory/user_profile.py:73-75 | A positive limit gives the last `min(limit, len)` entries, 0 gives the whole history, a negative limit drops the first `-limit` entries |
| UserProfile.UserProfileStore.GetRecentHistory | src/memory/user_profile.py:73-75 | A positive limit gives the last `min(limit, len)` entries, 0 the whole history, a negative limit the history without its first `-limit` entries |
| UserProfile.UserProfileStore.CreateSession | src/memory/user_profile.py:78-93 | A new empty session under the given id, stamped now, is stored in the sessions object and saved; the id is returned |
| UserProfile.Put | src/memory/user_profile.py:91 | Assigning a key either keeps the object's size or appends the pair at the end |
| UserProfile.PutLookup | src/memory/user_profile.py:91 | After assignment the key holds the value and every other key what it held; a new key goes last; keys stay distinct |
| UserProfile.Lookup | src/memory/user_profile.py:100 | A lookup finds a session exactly when the key is present |
| UserProfile.UserProfileStore.AddMessage | src/memory/user_profile.py:95-110 | A known session gets the message appended and is saved. An unknown id first creates a "Restored Session" under the fresh id; the append then fails unless that id is the one asked for |
| UserProfile.AllSessionsOrdered | src/memory/user_profile.py:112-118 | Every session once, newest first, with equal timestamps in creation order |
| UserProfile.UserProfileStore.GetAllSessions | src/memory/user_profile.py:112-118 | No sessions object gives none; otherwise every session once, sorted newest first |
| UserProfile.UserProfileStore.GetSessionMessages | src/memory/user_profile.py:120-124 | A known session's messages; an unknown id, or no sessions object, gives none |
| UserProfile.SessionMessagesSpec | src/memory/user_profile.py:95-124 | An unknown id has no messages; appending a message to a known session makes it the last of that session's messages |
| UserProfile.NewerOrSameIsTotalPreorder | src/memory/user_profile.py:118 | Ordering by timestamp, newest first, is a total preorder, so the sort is well defined |
| UserProfile.UserProfileStore.SaveFact | src/memory/user_profile.py:128-158 | The fact is remembered once and saved only when new. User 1 gets a "User" node, a node labelled by `FactLabel`, and an "IS" edge between them |
| UserProfile.FactLabelOfIAm | src/memory/user_profile.py:150 | "I am <w>" is labelled `w`, stripped and title-cased |
| UserProfile.UserProfileStore.GetFacts | src/memory/user_profile.py:160-161 | The remembered facts, or none before the first is saved |
| Workflow.PromptQuotes | src/graph/workflow.py:41-105 | Every prompt quotes the user's query, and the wording prompt also the information found |
| Workflow.ParseIntentSpec | src/graph/workflow.py:51-59 | The intent is one of LOG, SHOP, EAT, ASK: the first in that order to occur in the stripped, upper-cased answer, and ASK when none does |
| Workflow.RouteLands | src/graph/workflow.py:146-158 | Every intent the router produces, and CHAT, is routed to the handler meant for it |
| Workflow.RoutedToHandler | src/graph/workflow.py:37-59 | After a successful classification the state holds exactly the parsed intent, and the router's edge leads to that intent's handler |
| Workflow.SuccessorAdvances | src/graph/workflow.py:144-163 | Every edge moves to a later stage; each handler goes to the voice node, which ends the run |
| Workflow.AskNeverRaises | src/graph/workflow.py:87-109 | Asking never fails the run. It replies with the model's answer, or with the apology and the error set exactly when the aggregator or the model raised |
| Workflow.SpokenTextSpec | src/graph/workflow.py:120-122 | Every star and nothing else is removed; a longer text keeps 1000 characters plus "...", so at most 1003 are spoken |
| Workflow.VoiceOutcome | src/graph/workflow.py:111-128 | The voice node never changes the query, intent or reply. Without voice it sets only the audio path to `None`; with no text it changes nothing; a speech failure sets only the error |
| Workflow.NutritionGraphNodes.constructor | src/graph/workflow.py:28-35 | The nodes hold a fresh aggregator and a fresh profile store. The profile is the file's, or the default when the file is missing or unreadable. The aggregator holds the directory's dietary records (none without a directory) and a persistent knowledge store, loaded from its file or seeded when the file is missing, and has searched the web for nothing yet |
| Workflow.NutritionGraphNodes.HandleLog | src/graph/workflow.py:61-69 | It logs the stripped food the model names and replies with the tracking message. A model exception changes nothing |
| Workflow.NutritionGraphNodes.ShopStep | src/graph/workflow.py:71-77 | It replies with the shopping tool's answer for the stripped product, in London |
| Workflow.NutritionGraphNodes.EatStep | src/graph/workflow.py:79-85 | It replies with the restaurant tool's answer for the stripped cuisine, in London |
| Workflow.NutritionGraphNodes.HandleAsk | src/graph/workflow.py:87-109 | The aggregator answers the query and the model words that answer; the aggregator's effects are as its search states |
| Workflow.HandlerReplies | src/graph/workflow.py:61-109 | Every handler's update sets the reply and never the intent or the audio path; only ASK may set the error, and ASK never fails |
| Workflow.NutritionGraphNodes.Handle | src/graph/workflow.py:61-109 | Runs the handler for the stage. LOG appends exactly the logged entry to the profile and saves; every other handler leaves the profile and its file as they were. Only ASK may search the web and learn into the knowledge store, and only in the web tier |
| Workflow.NutritionGraphNodes.Invoke | src/graph/workflow.py:131-165 | A run visits the router, the handler for the parsed intent, and the voice node, in that order. A router exception ends the run at once, changing nothing; a handler exception ends it after the handler. The handled state is the handler's update merged into the routed state, the final one the voice node's update merged into that. The profile and knowledge-store effects are those `Handle` states for the intent's handler |
| ShoppingTool.Execute | src/tools/shopping_tool.py:29-48 | The reply is the shopping search's listing, or the web search's listing when the shopping search found nothing |
| ShoppingTool.ReplyFallsBack | src/tools/shopping_tool.py:40-48 | Both branches of the fallback are stated, and "No specific products found nearby." never reaches the user |
| ShoppingTool.FormatShopping | src/tools/shopping_tool.py:50-60 | The loop builds the header and one line for each of the first four items |
| ShoppingTool.ShoppingTextLists | src/tools/shopping_tool.py:54-59 | The `i`-th item's line follows the lines of the items before it |
| ShoppingTool.ShoppingTextIgnoresRest | src/tools/shopping_tool.py:55 | Items after the fourth are never shown |
| ShoppingTool.ShoppingLineDefaults | src/tools/shopping_tool.py:56-59 | For every item, each field is shown as given or, when missing, as its default, whatever the other fields hold: the title ("Unknown") at the start, the price ("N/A") in the parentheses, the store ("Unknown Store") at the end |
| ShoppingTool.FormatOrganic | src/tools/shopping_tool.py:62-71 | The loop builds the header and one line for each of the first three results |
| ShoppingTool.OrganicTextLists | src/tools/shopping_tool.py:66-70 | The `i`-th result's line follows the lines of the results before it |
| ShoppingTool.OrganicTextIgnoresRest | src/tools/shopping_tool.py:67 | Results after the third are never shown |
| RestaurantTool.Execute | src/tools/restaurant_tool.py:29-43 | The loop builds the not-found text, or the header and one line for each of the first four places |
| RestaurantTool.ReplyNamesTheRequest | src/tools/restaurant_tool.py:34-36 | Both kinds of reply name the cuisine and the location |
| RestaurantTool.ReplyLists | src/tools/restaurant_tool.py:36-41 | The `i`-th place's line follows the header and the lines of the places before it |
| RestaurantTool.ReplyIgnoresRest | src/tools/restaurant_tool.py:37 | Places after the fourth are never shown |
| RestaurantTool.PlaceLineDefaults | src/tools/restaurant_tool.py:38-41 | For every place, each field is shown as given or, when missing, as its default, whatever the other fields hold: the name ("Unknown") at the start, the rating ("N/A") after the star, the address ("No address") at the end |
| RagTool.RagTool.constructor | src/tools/rag_tool.py:32-34 | The tool opens a persistent knowledge store |
| RagTool.RagTool.Execute | src/tools/rag_tool.py:36-52 | The reply lists the store's top three results. Each result is a stored document sharing a keyword with the query |
| RagTool.ReplyLists | src/tools/rag_tool.py:44-49 | Every result is listed under its number, in ranked order |
| DietaryTool.DietaryTool.constructor | src/tools/dietary_tool.py:26-28 | The tool owns a fresh dietary store loaded from the directory, or empty when there is none |
| DietaryTool.DietaryTool.Execute | src/tools/dietary_tool.py:34-50 | The reply lists the store's search results for the nutrient name, each a stored record with a positive score. A scoring record is missing only when three came back, none scoring less than it |
| DietaryTool.ReplyLists | src/tools/dietary_tool.py:41-50 | The `i`-th record's line follows those before it, and a non-empty reply ends with the source note |
| DietaryTool.RecordLineOfEmpty | src/tools/dietary_tool.py:43-47 | A record without age, gender or value is listed with "None" in their places |
| Auth.ValidatePasswordStrength | src/api/auth.py:33-38 | A password passes exactly when it has at least 8 characters and a digit or one of the listed symbols; a short password always gets the length message |
| Auth.FindUser | src/api/auth.py:48 | The lookup by address finds a row exactly when some user has that address |
| Auth.RegisterSpec | src/api/auth.py:42-67 | The password is checked before the table. A known address is refused with no change. Otherwise the user is added unverified with a six-digit code, and addresses stay unique |
| Auth.CodeHasSixDigits | src/api/auth.py:59 | A number drawn from 100000 to 999999 is written as six digits |
| Auth.AuthService.Register | src/api/auth.py:42-67 | The endpoint's reply and new tables are those of `RegisterOn` |
| Auth.VerifySpec | src/api/auth.py:69-89 | No record for the pair gives "Invalid code"; a missing user gives 404; both change nothing. Success verifies exactly that user and deletes one matching record |
| Auth.AuthService.Verify | src/api/auth.py:69-89 | The endpoint's reply and new tables are those of `VerifyOn` |
| Auth.LoginSpec | src/api/auth.py:91-107 | An unknown address and a wrong password give the identical error. A right password on an unverified account gives "Email not verified". A token is issued exactly to a verified user whose password checks |
| Auth.AuthService.Login | src/api/auth.py:91-107 | Login changes nothing and succeeds exactly for a verified user whose password checks |
| Auth.SignUpFlow | src/api/auth.py:42-107 | A fresh address with a strong password registers. Login then says "Email not verified". The issued code verifies the account, after which login issues the token |

## Left out

- File and network I/O, `print` and logging are not modelled. A file is a value: missing, unreadable, or its contents. `os.makedirs` and directory creation are left out.
- `async`/`await`: each node and endpoint runs to completion in turn. No concurrency is modelled.
- The language model, the web, shopping and places searches, and the speech service are parameters, and so are the clock, `uuid4`, `random.randint`, password hashing, password checking and JWT creation. The model names passed to them (`gpt-4o-mini`) are not modelled.
- Exception messages of the services are strings supplied with the services (`Services.summariseError` for the aggregator's model). Only exceptions the source catches or propagates on purpose are modelled.
- JSON values are kept as the text Python would print for them (`Json.Object`). The tools' `.get` falls back to its default only when a key is absent. A JSON `null` prints as "None".
- Dietary store: a file listing `.json` entries that are not records is taken as records as written. Non-string values in a nutrient table are kept by their printed text. A listed record whose "name" is JSON `null` holds the text "None" and is scored as "none"; in the source `doc.get("name", "").lower()` raises `AttributeError` on it during search.
- `UserProfile.UserProfileStore.SaveFact`: the memory graph is assumed to accept both nodes and the edge. The catch-all `except` around the graph part, the database session and `db.close()` are not modelled.
- `UserProfile.UserProfileStore.Save`: a failing write is not modelled. The file afterwards always holds the profile.
- `GraphDb.GraphService.DeleteNode`: the edge deletion that is never committed when the node is missing is modelled as no change, because the session is rolled back when it closes.
- `GraphDb.GraphService.GetUserGraph`: the result's dictionaries (`id`, `label`, `type`, `group`, `from`, `to`) are the rows themselves.
- `RagTool.RagTool.Execute`: the `except` branch ("Error searching knowledge base: …") cannot be reached, because the store's search raises nothing in this model. `RagTool.ErrorText` gives its text.
- `Auth`: pydantic's `EmailStr` validation and normalisation, the `expires_at` clock value (a parameter `now`), row ids, `created_at`, the database session and commits are not modelled. `Auth.AuthService.Register` requires the drawn number to lie in 100000..999999, which is what `random.randint` guarantees.
- The FastAPI routes, CORS and static files of `main.py`/`graph.py`, and the singleton `SpoonService`, are not part of this model.
- `Workflow.NutritionGraphNodes.Invoke` follows the compiled graph's edges for the one path it has: router, handler, voice, end. The graph engine itself is not part of this model. A `route_decision` outside the destination table cannot occur, as `Workflow.RouteLands` shows.
- Text: the string operations are those of ASCII. Python's `lower()`, `upper()` and `title()` also change non-ASCII letters ("CRÈME" lowers to "crème"), and `split()` and `strip()` also treat other Unicode whitespace such as U+00A0 as a separator. Here those characters are left as they are.
- UserProfile.UserProfileStore.constructor: a profile is a record with every field present. A profile file that parses but lacks "history" or "favorites" makes `log_food` or `add_favorite` raise `KeyError` in the source; that case is not modelled.
- Default arguments are explicit parameters at every call: `search`'s `n_results=3` and `top_k=3`, `get_recent_history`'s `limit=5`, `create_session`'s title "New Chat", `add_node`'s type "FACT", the tools' location "London", and the default file and directory paths. The counts `n` and `k` of the two searches are natural numbers: the source accepts a negative `n_results` or `top_k`, which slices from the end, but every caller passes 1 or 3.
