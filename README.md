# NotRandomPeopleBot core, modelled in Dafny

NotRandomPeopleBot is a Telegram bot written in C#. It answers chat messages through one of
three language-model backends and builds walking routes between heritage sites in Kazan.
This project models the part of the bot that decides things, rather than the part that talks
to the network:

- **Route builder** (`RouteService`):
  - takes the catalog objects within 2 km of a start point;
  - keeps at most `maxPoints` of them;
  - orders them by the greedy nearest-neighbour rule;
  - writes the text description and the Yandex Maps link.
- **Catalog queries** (`HeritageService`): nearby objects sorted by distance, lookup by id,
  the whole catalog, search by district or by name ignoring case, and the sorted list of
  distinct districts.
- **Conversation store** (`ConversationService`): one context per Telegram user. It holds the
  message history with its trimming rule, the chosen interface language and the chosen AI
  provider. The store also supports reset and age-based cleanup.
- **Content filter** (`ContentFilterService`): a case-insensitive blocked-word check and the
  warning text.
- **Localization** (`LocalizationService`): the Russian and Tatar text tables, with every
  unknown language code falling back to Russian.
- **Provider selection** (`AiServiceFactory`): the case-insensitive mapping from a provider
  name to a backend, with DeepSeek as the default.

Modules, one per file:

| file | module | what it holds |
|---|---|---|
| `models.dfy` | `Models` | the value types: `HeritageObject`, `RoutePoint`, `TourRoute`, `Option` |
| `seqs.dfy` | `Seqs` | sequence lemmas used by the other modules |
| `strings.dfy` | `Strings` | letter-case folding, ordinal substring search, `string.Join`, integer rendering, white-space test, ordinal string order |
| `heritage.dfy` | `Heritage` | the catalog queries, as functions over the catalog list |
| `nearestneighbour.dfy` | `NearestNeighbour` | `BuildOptimalRoute` (a loop) and its specification `Visit` (a recursive function) |
| `routetext.dfy` | `RouteText` | `GenerateRouteDescription` (a loop over a string builder) and `GenerateYandexMapsUrl` |
| `route.dfy` | `Route` | `BuildRouteAsync`, which composes the above |
| `conversation.dfy` | `Conversation` | the class `ConversationService` over a `map` from user id to context, plus the pure functions that specify it |
| `contentfilter.dfy` | `ContentFilter` | the filter's scan loop and its specification |
| `localization.dfy` | `Localization` | the class `LocalizationService` with its translation table |
| `aiproviders.dfy` | `AiProviders` | the provider dispatch |

The model has these parameters:

- The great-circle distance is a function parameter `dist`. The model assumes no fact about
  it, so every route property holds for any distance function.
- Number formatting is a function parameter.
- Times are plain instants, passed in by the caller.
- C# `double` is modelled as `real`.
- The 32-bit `int` arithmetic on `MaxHistoryMessages` is modelled with explicit wrap-around.

## Model

| member | source | states |
|---|---|---|
| Strings.FoldChar | AiTelegramBot/Services/ContentFilterService.cs:25 | `ToLowerInvariant` on one character: A–Z, the Latin-1 capitals À–Þ except ×, А–Я, Ѐ–Џ and the Tatar capitals Җ Ң Ү Һ Ә Ө map to their lower-case forms; a–z stay |
| Strings.FoldCharIdempotent | AiTelegramBot/Services/ContentFilterService.cs:25-29 | lower-casing a lower-cased character changes nothing |
| Strings.Fold | AiTelegramBot/Services/ContentFilterService.cs:25 | `ToLowerInvariant` keeps the length of the string |
| Strings.FoldIdempotent | AiTelegramBot/Services/ContentFilterService.cs:25-29 | lower-casing a lower-cased string changes nothing |
| Strings.Contains | AiTelegramBot/Services/ContentFilterService.cs:29 | ordinal `Contains` never finds a needle longer than the text |
| Strings.ContainsEmpty | AiTelegramBot/Services/ContentFilterService.cs:29 | the empty string occurs in every text |
| Strings.ContainsIgnoreCase | AiTelegramBot/Services/HeritageService.cs:78 | `Contains(…, OrdinalIgnoreCase)`: the empty query matches every text, and a query longer than the text never matches |
| Strings.Join | AiTelegramBot/Services/RouteService.cs:145 | `string.Join` of no parts is empty, and a join of parts starts with the first part |
| Strings.JoinUnfold | AiTelegramBot/Services/RouteService.cs:145 | a join is the first part followed by separator-and-part for every later part |
| Strings.IntToString | AiTelegramBot/Services/RouteService.cs:112 | `int.ToString()` is non-empty, made of digits and a minus sign, and starts with the minus sign exactly for negative numbers |
| Strings.NatToStringRoundTrip | AiTelegramBot/Services/RouteService.cs:118 | reading the printed digits back gives the number |
| Strings.IsWhiteSpace | AiTelegramBot/Services/HeritageService.cs:95 | `char.IsWhiteSpace`: space, tab, line feed and carriage return are white space; Latin letters, digits and Cyrillic letters are not |
| Strings.IsBlank | AiTelegramBot/Services/HeritageService.cs:95 | `IsNullOrWhiteSpace` holds for the empty string and fails for a string whose first character is not white space |
| Strings.Less | AiTelegramBot/Services/HeritageService.cs:97 | the character-code order that stands for the culture comparer of `OrderBy(d => d)` (see "## Left out") is irreflexive: no string precedes itself |
| Strings.LessTransitive | AiTelegramBot/Services/HeritageService.cs:97 | the district order is transitive |
| Strings.LessTotal | AiTelegramBot/Services/HeritageService.cs:97 | any two different districts are ordered one way or the other |
| NearestNeighbour.NearestIndex | AiTelegramBot/Services/RouteService.cs:78-85 | the pick is a position in the unvisited list; which one it is, is stated by `NearestIndexMinimal` |
| NearestNeighbour.NearestIndexMinimal | AiTelegramBot/Services/RouteService.cs:78-85 | the object `OrderBy(distance).First()` picks is at least as near as every unvisited object, and strictly nearer than every object listed before it, so ties go to the earliest |
| NearestNeighbour.RemoveFirst | AiTelegramBot/Services/RouteService.cs:99 | `List.Remove` takes away at most one element, so the list shrinks by one or stays as it is |
| NearestNeighbour.RemoveFirstMultiset | AiTelegramBot/Services/RouteService.cs:99 | `List.Remove` takes away exactly one copy of the object |
| NearestNeighbour.RemoveFirstAt | AiTelegramBot/Services/RouteService.cs:99 | when the object first occurs at index k, `Remove` deletes exactly that element and keeps the rest in order |
| NearestNeighbour.RemoveFirstAbsent | AiTelegramBot/Services/RouteService.cs:99 | `Remove` of an object that is not in the list leaves the list unchanged |
| NearestNeighbour.RemoveFirstLength | AiTelegramBot/Services/RouteService.cs:99 | removing a present object shortens the list by one, so the loop ends |
| NearestNeighbour.Visit | AiTelegramBot/Services/RouteService.cs:76-100 | the greedy tour emits one route point per unvisited object |
| NearestNeighbour.VisitPermutation | AiTelegramBot/Services/RouteService.cs:69-100 | the visited objects are a permutation of the input list, duplicates included |
| NearestNeighbour.VisitOrders | AiTelegramBot/Services/RouteService.cs:72-94 | the stops are numbered consecutively from the starting order, without gaps or repeats |
| NearestNeighbour.VisitLegs | AiTelegramBot/Services/RouteService.cs:87-98 | every leg is 1000 × `dist` from the start point (first leg) or from the previous stop (later legs) |
| NearestNeighbour.VisitMembers | AiTelegramBot/Services/RouteService.cs:78-99 | every stop is one of the listed objects |
| NearestNeighbour.VisitGreedy | AiTelegramBot/Services/RouteService.cs:76-100 | each stop is at least as near to where its leg starts as every stop visited after it |
| NearestNeighbour.VisitTieBreak | AiTelegramBot/Services/RouteService.cs:78-85 | a stop that is exactly as near as a later stop comes earlier in the input list than that stop |
| NearestNeighbour.BuildTieBreak | AiTelegramBot/Services/RouteService.cs:69-85 | for an input with no two equal objects, the tie rule holds for the whole route, relative to the input order |
| NearestNeighbour.SumLegsSnoc | AiTelegramBot/Services/RouteService.cs:88 | adding a point adds its leg to the running total |
| NearestNeighbour.LoopStep | AiTelegramBot/Services/RouteService.cs:76-100 | one loop iteration keeps the invariant: the points placed so far followed by the greedy tour of what is left equal the greedy tour of the input, and the running total is the sum of the placed legs |
| NearestNeighbour.BuildOptimalRoute | AiTelegramBot/Services/RouteService.cs:58-104 | the loop produces exactly the greedy tour `Visit` from the start point, numbered from 1. The total is the sum of the legs. The start point is kept, and the description and link are empty. An empty list gives an empty route |
| NearestNeighbour.OptimalRouteStops | AiTelegramBot/Services/RouteService.cs:66-100 | the built route has one stop per object, visits the input as a permutation, and numbers the stops 1..n |
| RouteText.Line | AiTelegramBot/Services/RouteService.cs:112-124 | `AppendLine` adds the text followed by exactly one line terminator |
| RouteText.LineCount | AiTelegramBot/Services/RouteService.cs:112-124 | a text without a line break becomes exactly one line |
| RouteText.Header | AiTelegramBot/Services/RouteService.cs:112-114 | the header ends with an empty line, which separates it from the first stop |
| RouteText.PointBlock | AiTelegramBot/Services/RouteService.cs:118-124 | a stop's block opens with the stop's number and ends with an empty line |
| RouteText.PointBlocks | AiTelegramBot/Services/RouteService.cs:116-125 | the stop blocks are empty exactly when there are no stops |
| RouteText.GenerateRouteDescription | AiTelegramBot/Services/RouteService.cs:106-128 | "Маршрут пуст" for an empty route; otherwise the three header lines followed by one block per stop, in route order |
| RouteText.PointBlocksSnoc | AiTelegramBot/Services/RouteService.cs:116-125 | the `foreach` appends the blocks in point order |
| RouteText.PointBlockLines | AiTelegramBot/Services/RouteService.cs:118-124 | a stop's block has 3 lines, plus a leg line when its order is above 1 |
| RouteText.PointBlocksLines | AiTelegramBot/Services/RouteService.cs:116-125 | for stops numbered 1..n the blocks hold 4n − 1 lines |
| RouteText.HeaderLines | AiTelegramBot/Services/RouteService.cs:112-114 | the header is exactly three lines |
| RouteText.DescriptionLines | AiTelegramBot/Services/RouteService.cs:106-128 | a route of n ≥ 1 stops numbered 1..n is described in 4n + 2 lines |
| RouteText.CoordinatePair | AiTelegramBot/Services/RouteService.cs:140-143 | a position is the rendered latitude, one comma, then the rendered longitude, and holds no `~` when neither number does |
| RouteText.StopPairs | AiTelegramBot/Services/RouteService.cs:138-143 | one coordinate pair per stop |
| RouteText.GenerateYandexMapsUrl | AiTelegramBot/Services/RouteService.cs:130-147 | the link is empty exactly when the route has no stops |
| RouteText.MapsUrlShape | AiTelegramBot/Services/RouteService.cs:138-146 | the link is the `rtext=` prefix, then the start pair, then each stop's pair after a `~`, then `&rtt=pd` |
| RouteText.PrefixedCount | AiTelegramBot/Services/RouteService.cs:145 | `string.Join("~", …)` puts exactly one separator before each part after the first |
| RouteText.StopPairsNoTilde | AiTelegramBot/Services/RouteService.cs:143 | a stop's coordinate pair holds no `~` when numbers never render with one |
| RouteText.MapsPrefixNoTilde | AiTelegramBot/Services/RouteService.cs:146 | the URL prefix holds no `~` |
| RouteText.MapsSuffixNoTilde | AiTelegramBot/Services/RouteService.cs:146 | the URL suffix holds no `~` |
| RouteText.MapsUrlSeparators | AiTelegramBot/Services/RouteService.cs:130-147 | a link for n stops holds exactly n separators, i.e. n + 1 coordinate pairs |
| Route.Take | AiTelegramBot/Services/RouteService.cs:35 | `Take(count)` is the prefix of length min(count, length), and empty for a count of zero or below |
| Route.BuildRoute | AiTelegramBot/Services/RouteService.cs:18-56 | `None` exactly when nothing lies within 2 km. Otherwise the route starts at the given point and visits the first `maxPoints` nearby objects (a permutation of them) in greedy order. Its total is the sum of its legs, and its description and link are the ones the two generators produce for it |
| Heritage.Within | AiTelegramBot/Services/HeritageService.cs:53 | the radius test is inclusive: an object exactly `radiusKm` away is kept, and one farther away is dropped |
| Heritage.Filter | AiTelegramBot/Services/HeritageService.cs:53 | `Where` never lengthens the list |
| Heritage.FilterMembers | AiTelegramBot/Services/HeritageService.cs:53 | `Where` keeps exactly the elements satisfying the predicate |
| Heritage.FilterMultiset | AiTelegramBot/Services/HeritageService.cs:53 | `Where` keeps every copy of an accepted element and no copy of a rejected one |
| Heritage.FilterAppend | AiTelegramBot/Services/HeritageService.cs:77-79 | `Where` keeps the relative order: it distributes over concatenation |
| Heritage.FilterAll | AiTelegramBot/Services/HeritageService.cs:78 | a predicate that accepts everything returns the list unchanged |
| Heritage.InsertByKey | AiTelegramBot/Services/HeritageService.cs:54 | one insertion step of the stable sort adds exactly one element and keeps the inserted one |
| Heritage.InsertByKeyMultiset | AiTelegramBot/Services/HeritageService.cs:54 | one insertion step of the sort adds exactly the inserted element |
| Heritage.InsertByKeySorted | AiTelegramBot/Services/HeritageService.cs:54 | an insertion step keeps a sorted list sorted |
| Heritage.SortByKey | AiTelegramBot/Services/HeritageService.cs:54 | `OrderBy` keeps the number of elements |
| Heritage.SortByKeySorts | AiTelegramBot/Services/HeritageService.cs:54 | `OrderBy` returns a sorted permutation of its input |
| Heritage.InsertByKeyStable | AiTelegramBot/Services/HeritageService.cs:54 | an insertion step keeps elements with equal keys in their relative order |
| Heritage.SortByKeyStable | AiTelegramBot/Services/HeritageService.cs:54 | `OrderBy` is stable: the elements with any one key keep their input order |
| Heritage.WithKeyWithin | AiTelegramBot/Services/HeritageService.cs:53 | the radius filter keeps every object at a distance inside the radius |
| Heritage.GetNearbyObjects | AiTelegramBot/Services/HeritageService.cs:45-62 | exactly the catalog objects within the radius, every copy of each, sorted nearest first |
| Heritage.NearbyStable | AiTelegramBot/Services/HeritageService.cs:47-56 | objects at the same distance keep their catalog order |
| Heritage.FirstWithId | AiTelegramBot/Services/HeritageService.cs:66 | the index of the first object with the id, or the list length when none has it |
| Heritage.GetObjectById | AiTelegramBot/Services/HeritageService.cs:64-68 | null (`None`) exactly when no object has the id; otherwise the first object carrying it |
| Heritage.GetAllObjects | AiTelegramBot/Services/HeritageService.cs:70-73 | the whole catalog, unfiltered and in catalog order |
| Heritage.GetByDistrict | AiTelegramBot/Services/HeritageService.cs:75-81 | exactly the objects whose district contains the query ignoring case, every copy of each |
| Heritage.SearchByName | AiTelegramBot/Services/HeritageService.cs:83-89 | exactly the objects whose name contains the query ignoring case, every copy of each |
| Heritage.ByDistrictKeepsOrder | AiTelegramBot/Services/HeritageService.cs:77-79 | the district search keeps catalog order |
| Heritage.ByNameKeepsOrder | AiTelegramBot/Services/HeritageService.cs:85-87 | the name search keeps catalog order |
| Heritage.ByDistrictEmptyQuery | AiTelegramBot/Services/HeritageService.cs:78 | the empty district query returns the whole catalog |
| Heritage.ByNameEmptyQuery | AiTelegramBot/Services/HeritageService.cs:86 | the empty name query returns the whole catalog |
| Heritage.ByDistrictIgnoresCase | AiTelegramBot/Services/HeritageService.cs:78 | a lower-cased district query gives the same answer as the original |
| Heritage.ByNameIgnoresCase | AiTelegramBot/Services/HeritageService.cs:86 | a lower-cased name query gives the same answer as the original |
| Heritage.InsertDistinct | AiTelegramBot/Services/HeritageService.cs:96-97 | adding a district to a strictly ordered list keeps it strictly ordered and adds just that district |
| Heritage.GetDistricts | AiTelegramBot/Services/HeritageService.cs:91-100 | exactly the non-blank districts of the catalog, strictly ascending |
| Heritage.DistrictsDistinct | AiTelegramBot/Services/HeritageService.cs:96 | no district is listed twice |
| Conversation.Wrap32 | AiTelegramBot/Services/ConversationService.cs:43-45 | the result is a 32-bit value congruent to the exact one modulo 2^32, and equal to it when that fits |
| Conversation.NewContext | AiTelegramBot/Models/ConversationContext.cs:3-11 | a new context carries the user's id and name, an empty history, "ru", "YandexGpt" and the creation time |
| Conversation.GetOrAdd | AiTelegramBot/Services/ConversationService.cs:23-30 | `GetOrAdd` adds the user's key and no other, never changes an existing context, and creates a new one only for an unknown user |
| Conversation.GetOrAddIdempotent | AiTelegramBot/Services/ConversationService.cs:23-30 | a second call for the same user changes nothing, whatever name it passes |
| Conversation.ReplaceAfterGetOrAdd | AiTelegramBot/Services/ConversationService.cs:34-49 | writing the user's context back hides whether it had just been created |
| Conversation.Trim | AiTelegramBot/Services/ConversationService.cs:43-47 | a successful trim keeps a suffix of the history |
| Conversation.TrimKeepsNewest | AiTelegramBot/Services/ConversationService.cs:43-47 | for 0 ≤ max < 2^30 the trim never throws and leaves at most 2×max messages. Past that bound it keeps exactly the newest max, in order; below it, everything |
| Conversation.TrimNegativeThrows | AiTelegramBot/Services/ConversationService.cs:43-47 | a negative max (down to −2^30) makes `RemoveRange` throw on every append |
| Conversation.TrimLargeBoundThrows | AiTelegramBot/Services/ConversationService.cs:43-47 | a max of 2^30 or more overflows when doubled, so trimming starts at once and throws while the history is shorter than max |
| Conversation.AfterAddMessage | AiTelegramBot/Services/ConversationService.cs:32-51 | after `AddMessage`, whether or not the trim throws, the store holds a context for the user |
| Conversation.AddMessageLeavesOthers | AiTelegramBot/Services/ConversationService.cs:32-50 | `AddMessage` touches only that user's entry, creating it if absent, whether or not it completes |
| Conversation.AddMessageAppends | AiTelegramBot/Services/ConversationService.cs:32-50 | for a sensible max the call completes. The new history is a suffix of the old history plus the new message, at most 2×max long, and ends with the new message unless max is 0. `LastInteraction` becomes now; name, language and provider are unchanged |
| Conversation.AddMessageNegativeBound | AiTelegramBot/Services/ConversationService.cs:32-50 | with a negative max the call fails after appending: the message stays and `LastInteraction` is not updated |
| Conversation.Cleanup | AiTelegramBot/Services/ConversationService.cs:61-74 | cleanup only removes contexts and never adds one |
| Conversation.CleanupIdempotent | AiTelegramBot/Services/ConversationService.cs:61-74 | cleanup removes exactly the contexts last used before the cutoff, leaves the rest unchanged, and a second cleanup removes nothing more |
| Conversation.CleanupNegativeAgeClearsAll | AiTelegramBot/Services/ConversationService.cs:61-74 | a negative age puts the cutoff after every past interaction, so every context goes |
| Conversation.SetLanguage | AiTelegramBot/Services/ConversationService.cs:76-81 | setting the language creates the user's context if absent and leaves every other user untouched |
| Conversation.SetAiProvider | AiTelegramBot/Services/ConversationService.cs:89-94 | setting the provider creates the user's context if absent and leaves every other user untouched |
| Conversation.UserLanguage | AiTelegramBot/Services/ConversationService.cs:83-87 | the stored language of a known user, or "ru" for an unknown one |
| Conversation.UserAiProvider | AiTelegramBot/Services/ConversationService.cs:96-100 | the stored provider of a known user, or "YandexGpt" for an unknown one |
| Conversation.SetThenGet | AiTelegramBot/Services/ConversationService.cs:76-100 | the getter returns the value just set, for the language and for the provider, and setting one leaves the other unchanged |
| Conversation.FreshUserDefaults | AiTelegramBot/Models/ConversationContext.cs:7-8 | an unknown user reads "ru" and "YandexGpt" |
| Conversation.ResetStartsOver | AiTelegramBot/Services/ConversationService.cs:53-59 | after a reset, the next `GetOrCreateContext` starts the user over with an empty history, and nobody else is affected |
| Conversation.ConversationService.constructor | AiTelegramBot/Services/ConversationService.cs:15-21 | the store starts empty with the given settings |
| Conversation.ConversationService.GetOrCreateContext | AiTelegramBot/Services/ConversationService.cs:23-30 | the store after `GetOrAdd`. The result is the user's context: the existing one unchanged, or a new one with the given id and name and no messages |
| Conversation.ConversationService.AddMessage | AiTelegramBot/Services/ConversationService.cs:32-51 | the store and the outcome are those of the append-then-trim specification, including the failure where `RemoveRange` throws |
| Conversation.ConversationService.ResetContext | AiTelegramBot/Services/ConversationService.cs:53-59 | removes only that user, and changes nothing for an unknown user |
| Conversation.ConversationService.CleanupOldContexts | AiTelegramBot/Services/ConversationService.cs:61-74 | the loop over the stale keys leaves exactly the cleanup specification's store |
| Conversation.ConversationService.SetUserLanguage | AiTelegramBot/Services/ConversationService.cs:76-81 | the store after `SetLanguage` |
| Conversation.ConversationService.GetUserLanguage | AiTelegramBot/Services/ConversationService.cs:83-87 | returns the stored language, or "ru" for an unknown user, whose default context it inserts |
| Conversation.ConversationService.SetUserAiProvider | AiTelegramBot/Services/ConversationService.cs:89-94 | the store after `SetAiProvider` |
| Conversation.ConversationService.GetUserAiProvider | AiTelegramBot/Services/ConversationService.cs:96-100 | returns the stored provider, or "YandexGpt" for an unknown user, whose default context it inserts |
| ContentFilter.Blocked | AiTelegramBot/Services/ContentFilterService.cs:20-37 | the filter's verdict: nothing is blocked when filtering is off or when the word list is empty |
| ContentFilter.ContainsBlockedContent | AiTelegramBot/Services/ContentFilterService.cs:20-37 | the scan answers true exactly when filtering is enabled and some blocked word, lower-cased, occurs in the lower-cased message. It is false when filtering is off or the list is empty |
| ContentFilter.GetWarningMessage | AiTelegramBot/Services/ContentFilterService.cs:39-44 | non-empty exactly when warnings are on, and then the fixed warning text |
| ContentFilter.BlockedIgnoresMessageCase | AiTelegramBot/Services/ContentFilterService.cs:25-29 | two messages differing only in letter case get the same verdict |
| ContentFilter.BlockedLowerCaseMessage | AiTelegramBot/Services/ContentFilterService.cs:25 | the lower-cased message gets the same verdict as the message |
| ContentFilter.BlockedLowerCaseWords | AiTelegramBot/Services/ContentFilterService.cs:29 | lower-casing the configured words changes no verdict |
| ContentFilter.BlockedMonotone | AiTelegramBot/Services/ContentFilterService.cs:27-36 | adding blocked words never lets a blocked message through |
| ContentFilter.EmptyWordBlocksEverything | AiTelegramBot/Services/ContentFilterService.cs:29 | an empty blocked word matches every message, since `Contains("")` is always true |
| ContentFilter.UpperCaseSpamBlocked | AiTelegramBot.Tests/Services/ContentFilterServiceTests.cs:54-65 | "Это СПАМ сообщение" is blocked by the word "спам" |
| Localization.LocalizationService.constructor | AiTelegramBot/Services/LocalizationService.cs:9-12 | the table after construction is the Russian and the Tatar entry, so the fallback entry exists |
| Localization.LocalizationService.InitializeTranslations | AiTelegramBot/Services/LocalizationService.cs:27-116 | stores the "ru" and "tt" tables |
| Localization.LocalizationService.GetStrings | AiTelegramBot/Services/LocalizationService.cs:14-19 | returns the stored table for a known code and the "ru" table for any other code. It always returns one of the stored tables and never fails |
| Localization.LocalizationService.GetAvailableLanguagesMessage | AiTelegramBot/Services/LocalizationService.cs:21-25 | the language menu of the table `GetStrings` picks |
| Localization.InitialTranslationsKeys | AiTelegramBot/Services/LocalizationService.cs:27-116 | the start-up table holds exactly "ru" and "tt", and the two tables differ |
| Localization.GetStringsFallback | AiTelegramBot/Services/LocalizationService.cs:14-19 | on the start-up table, "tt" reads the Tatar texts and every other code the Russian ones |
| AiProviders.CreateService | AiTelegramBot/Services/AiServiceFactory.cs:32-56 | ignoring letter case: "openai" selects OpenAI; "yandexgpt" and "yandex" select YandexGpt; every other name, "deepseek" included, falls back to DeepSeek |
| AiProviders.StoredName | AiTelegramBot/Handlers/CommandHandler.cs:52-66 | each name the provider commands store selects, through the factory, the backend it was stored for |
| AiProviders.CreateServiceIgnoresCase | AiTelegramBot/Services/AiServiceFactory.cs:36 | names that differ only in letter case select the same backend |
| AiProviders.YandexAlias | AiTelegramBot/Services/AiServiceFactory.cs:44 | "yandex", in any letter case, selects YandexGpt |
| AiProviders.DefaultProviderIsYandexGpt | AiTelegramBot/Models/ConversationContext.cs:8 | a fresh user's provider "YandexGpt" selects YandexGpt |
| AiProviders.ProviderCommandSelects | AiTelegramBot/Handlers/MessageHandler.cs:75-76 | after a provider command stores a backend's name, that user's next message goes to that backend |

## Left out

- The Haversine distance (`CalculateDistance` in `RouteService` and `HeritageService`) is a
  parameter, because it is floating-point trigonometry. No metric property of it is assumed.
- `F2`/`F0` formatting and the default rendering of `double` in the link are a formatter
  parameter, because they depend on the culture and on floating point.
- `double` arithmetic is exact `real` arithmetic; rounding is not modelled.
- Loading the catalog from JSON is not part of this model; every query takes the catalog list
  as given.
- The `try`/`catch` in `BuildRouteAsync` is not modelled. Once the distance is a parameter,
  nothing in the modelled code can throw, so the `null` result appears only when no object is
  nearby.
- Logging and the `async`/`Task` wrappers are not part of this model.
- `DateTime.UtcNow` is a `now` parameter, and each operation uses one instant for all its
  clock reads. `AddMessage` reads the clock several times:
  - for a new user, the `LastInteraction` initialiser (`ConversationContext.cs:10`);
  - the `Message.Timestamp` initialiser (`ConversationContext.cs:17`), which the explicit
    `Timestamp` then overwrites;
  - the explicit `Timestamp` itself (`ConversationService.cs:39`);
  - the new `LastInteraction` (`ConversationService.cs:49`).
  Differences between these instants are not modelled.
- Conversation.CleanupOldContexts: `DateTime.UtcNow - maxAge` throws when the cutoff falls
  outside the `DateTime` range. The model's instants are unbounded integers, so the model
  never throws there.
- `StringBuilder.AppendLine` ends each line with `Environment.NewLine`. The model writes
  `"\n"`, which is the terminator on Linux; on Windows the text would use `"\r\n"`.
- Default arguments are not modelled. `maxPoints = 5` in `BuildRouteAsync`,
  `radiusKm = 2.0` in `GetNearbyObjectsAsync` and `userName = null` in `GetOrCreateContext`
  are ordinary parameters, so a caller always supplies them. Where the source relies on a
  default, the model passes that value: the service's own `GetOrCreateContext(userId)` calls
  pass `None`, and `BuildRoute` passes 2.0 to the nearby query.
- The `ConcurrentDictionary` is a sequential map; thread interleavings are not modelled.
- `GetOrCreateContext` returns a copy of the context value, not the shared object. Changes a
  caller makes through that reference are not modelled. The operations of the service itself
  write their changes back into the map.
- Conversation.AddMessageAppends: assumes the history stays below 2^31 − 1 entries, the
  capacity of a `List`.
- `ToLowerInvariant`, `ToLower` and `OrdinalIgnoreCase` are one case mapping covering ASCII,
  Latin-1, basic Cyrillic and the Tatar letters. Other scripts and culture-specific rules are
  not covered; for example, under a Turkish culture `"OPENAI".ToLower()` ends in a dotless ı.
- Strings are never null in the model. `string.IsNullOrWhiteSpace` also accepts `null`, and
  `GetByDistrictAsync` and `SearchByNameAsync` would throw `NullReferenceException` on a
  catalog entry whose `District` or `Name` is null; neither case is modelled.
- Heritage.GetDistricts: `OrderBy(d => d)` compares strings with the current culture. The
  model orders them by character code.
- Localization: the two tables are reproduced word for word. No property of the wording is
  proved.
- The network clients (DeepSeek, OpenAI, Yandex GPT, ElevenLabs, geocoding), the tour guide,
  the Telegram handlers, the Loki logging sink and the program start-up are network I/O or
  transport glue and are not part of this model. The handlers appear only as the source of
  the provider names.
- ContentFilter.ContainsBlockedContent: logging which word matched is not modelled; only the
  verdict is.
