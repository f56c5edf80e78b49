# CulinaGlass AI — a Dafny model of the client's state logic

CulinaGlass AI is a React client over a generative-AI service. It searches gourmet recipes,
transforms them on request, analyses a pantry photo, teaches lessons and chats as a personal
chef. This project models the sequential logic around the service calls and proves its
properties. The service calls themselves are abstract: each awaited call is an outcome given as
a parameter, either settled with a value or rejected.

The modules follow the source files:

- `Common` (common.dfy): `Option` and `Outcome`, and JavaScript's `||` on strings. It also holds
  the dictionary lookup `if (record[key])` on a plain object, both as written and as intended.
- `Strings` (strings.dfy): the JavaScript string built-ins the client relies on. These are
  `trim`, `toLowerCase`, `startsWith`, `split` and `toString` on a non-negative integer.
- `Types` (types.dfy): the records of `types.ts` and the step-number default.
- `GeminiService` (gemini_service.dfy): what `services/geminiService.ts` does with a settled
  provider response. That is the `"[]"`/`"{}"` defaults, the single parse, the synthesised
  image URL and which fields survive.
- `App` (app.dfy): the search screen. It has the recipe cache keyed by the trimmed, lower-cased
  query, the fetch on a miss, the blank-search guard and the pantry results.
- `ChefAcademy` (chef_academy.dfy): the lesson screen. It has the topic choice, the guard, and
  the lesson cache keyed by the topic exactly as given.
- `RecipeDetails` (recipe_details.dfy): the two toggled progress lists, the transformation, the
  nutrition analysis and the display defaults.
- `ChefAssistant` (chef_assistant.dfy): the chat transcript and its loading gate.
- `RecipeCard` (recipe_card.dfy): the share decision, the composed texts and the reported message.
- `PantryScanner` (pantry_scanner.dfy): the data-URL payload and the bracketed callback sequence
  of a photo upload.

Stateful components are classes whose methods change their fields. Their `ensures` state the
new state, including what stays unchanged. The arguments handed to each service call are
recorded in a log field (`fetched`, `generated`, `modifyRequests`, `analyzed`, `sent`), so that
"no request is made" and "the request carries the raw text" can be stated. Where the source
renders a default or composes a string, the model has a function with its properties proved.

## Model

| member | source | states |
|---|---|---|
| Common.TextOr | services/geminiService.ts:111 | JavaScript's `a or fallback` on a string that may be absent: a present non-empty string is kept, an absent or empty one gives the fallback |
| Common.StringOr | services/geminiService.ts:114 | JavaScript's `a or fallback` on a present string agrees with `TextOr`, and a non-empty fallback gives a non-empty result |
| Common.HitAsWritten | App.tsx:54 | the test `if (record[key])` as written, on a record whose stored values are truthy: a stored key, or a name every object inherits from `Object.prototype` |
| Common.Hit | App.tsx:54 | the evidently intended test: exactly the keys that were stored |
| Common.EmptyRecordHitsAsWritten | App.tsx:54 | on an empty plain object, `record["constructor"]` is truthy under the source's test, while no key is a hit under the intended one |
| Common.HitAfterStore | App.tsx:62 | under the intended lookup a stored key is a hit, and storing one key leaves every other key's answer unchanged |
| Strings.IsSpace | App.tsx:53 | the characters `trim` removes: the ECMAScript white space and line terminators |
| Strings.TrimStart | App.tsx:53 | `trimStart` is no longer than its input, is empty exactly for blank text, and otherwise starts with a non-blank character |
| Strings.TrimEnd | App.tsx:53 | `trimEnd` is no longer than its input, is empty exactly for blank text, and otherwise ends with a non-blank character and keeps the first one |
| Strings.Trim | App.tsx:53 | `trim` is empty exactly for blank text, and otherwise starts and ends with a non-blank character |
| Strings.TrimStartIsSuffix | App.tsx:53 | `trimStart` cuts a blank prefix off `s` and keeps the rest of `s` unchanged |
| Strings.TrimEndIsPrefix | App.tsx:53 | `trimEnd` cuts a blank suffix off `s` and keeps the rest of `s` unchanged |
| Strings.TrimIsInfix | App.tsx:53 | `trim` keeps a contiguous part of `s`, with only blanks cut off on either side |
| Strings.TrimUntouched | components/ChefAssistant.tsx:30 | text with no blank at either end is its own trim |
| Strings.TrimIdempotent | components/ChefAssistant.tsx:30 | trimming twice is trimming once |
| Strings.TrimStartPadded | App.tsx:53 | leading blanks do not change `trimStart` |
| Strings.TrimEndPadded | App.tsx:53 | trailing blanks do not change `trimEnd` |
| Strings.TrimStartAppend | App.tsx:53 | on non-blank text, `trimStart` keeps whatever is appended |
| Strings.TrimPadded | App.tsx:53 | blanks around a query do not change its trim |
| Strings.LowerChar | App.tsx:53 | `toLowerCase` on one character: the Basic Latin capitals and the Latin-1 capitals À to Þ except × move to their small letters, every other character is kept |
| Strings.LowerCharFixes | App.tsx:53 | lower-casing one character is idempotent and keeps blanks blank and non-blanks non-blank |
| Strings.ToLower | App.tsx:53 | `toLowerCase` keeps the length |
| Strings.ToLowerAt | App.tsx:53 | `toLowerCase` lowers each character in place |
| Strings.ToLowerFixesLower | App.tsx:53 | text without capitals is its own lower case |
| Strings.ToLowerAppend | App.tsx:53 | `toLowerCase` distributes over concatenation |
| Strings.ToLowerIdempotent | App.tsx:53 | lower-casing twice is lower-casing once |
| Strings.TrimStartToLower | App.tsx:53 | `trimStart` commutes with `toLowerCase` |
| Strings.TrimEndToLower | App.tsx:53 | `trimEnd` commutes with `toLowerCase` |
| Strings.TrimToLower | App.tsx:53 | `trim` commutes with `toLowerCase`, so the order in the key does not matter |
| Strings.StartsWith | components/RecipeCard.tsx:18 | `s.startsWith(prefix)`: the prefix fits and the first characters of `s` are the prefix |
| Strings.Split | components/PantryScanner.tsx:22 | `split` on one character gives at least one piece, exactly one iff the separator is absent, no piece holds the separator, and joining the pieces gives the input back |
| Strings.SplitOnce | components/PantryScanner.tsx:22 | text with exactly one separator splits into its two sides |
| Strings.NatToString | services/geminiService.ts:114 | `toString` of a non-negative integer is a non-empty string of digits with no leading zero: a numeral starting with 0 is "0" itself, for 0 |
| Strings.DecimalRoundTrip | services/geminiService.ts:114 | the decimal numeral of `n` reads back as `n` |
| Strings.NatToStringInjective | services/geminiService.ts:114 | distinct indices get distinct seeds |
| Types.StepBadge | components/RecipeDetails.tsx:165 | `step.order or idx + 1` (JavaScript's or) is never 0: the step's own order when it has one, otherwise the position counted from 1 |
| GeminiService.ParseReply | services/geminiService.ts:111 | the call succeeds iff the provider answered and the text, or else the fallback literal, parses; the parsed value is returned unchanged |
| GeminiService.MissingTextReadsAsFallback | services/geminiService.ts:128 | a missing or empty response text is read exactly as the fallback literal |
| GeminiService.ImageLock | services/geminiService.ts:95 | the `lock` number lies between the seed's length and that length plus 999 |
| GeminiService.FoodImageUrl | services/geminiService.ts:94-96 | the image URL is the fixed prefix followed by a decimal numeral, with no leading zero, that reads back as the lock number |
| GeminiService.FoodImageUrlIgnoresQuery | services/geminiService.ts:94-96 | the query argument does not affect the URL |
| GeminiService.ListSeed | services/geminiService.ts:114 | the seed is the recipe's id when it has one, otherwise the element's index in decimal, and is never empty |
| GeminiService.WithFoodImages | services/geminiService.ts:112-115 | the processed list keeps the length, the order and every field but `imageUrl`, and each `imageUrl` is synthesised from that element's title, seed and draw |
| GeminiService.ProviderImageIgnored | services/geminiService.ts:112-115 | the processed list does not depend on the `imageUrl` values the provider sent |
| GeminiService.FetchRecipesByQuery | services/geminiService.ts:98-116 | the search succeeds iff the provider answered and the text (or "[]") parses; the result is the parsed list re-imaged |
| GeminiService.AnalyzePantryImage | services/geminiService.ts:148-177 | as the search: success iff answered and parsed (with "[]"), and the parsed list re-imaged |
| GeminiService.ModifyRecipe | services/geminiService.ts:118-133 | success iff answered and parsed (with "{}"); the result is the parsed recipe with the original recipe's image |
| GeminiService.AnalyzeNutrition | services/geminiService.ts:135-146 | success iff answered and parsed (with "{}"); the parsed report unchanged |
| GeminiService.GenerateLesson | services/geminiService.ts:179-190 | success iff answered and parsed (with "{}"); the parsed lesson unchanged |
| GeminiService.GetChefRecommendation | services/geminiService.ts:192-207 | success iff answered and parsed (with "{}"); the parsed recipe with an image seeded by its id, or "chef-rec" without one |
| App.RecipeKey | App.tsx:53 | the cache key is empty exactly for a blank query |
| App.RecipeKeyNormalised | App.tsx:53 | a key has no surrounding blanks and no capitals, so it is its own key |
| App.EquivalentQueriesShareKey | App.tsx:53 | queries that differ only in surrounding blanks or in case have one key |
| App.InheritedKeyHitsAsWritten | App.tsx:54 | the query "constructor" has the key "constructor", which the source's lookup finds in an empty cache while the intended lookup does not |
| App.SearchScreen.constructor | App.tsx:20-33 | the home view, an empty query, no recipes, no selection, not loading, an empty cache and no fetch |
| App.SearchScreen.LoadRecipes | App.tsx:52-69 | a hit shows the cached list with no fetch and `loading` untouched; a miss fetches the raw query and ends not loading; success stores exactly key ↦ data and shows it; failure leaves the cache and the recipes alone; every key stays normalised |
| App.SearchScreen.Mount | App.tsx:71-73 | the mount loads the fixed initial query |
| App.SearchScreen.SetSearchQuery | App.tsx:149 | the search box holds the typed text |
| App.SearchScreen.HandleSearch | App.tsx:75-81 | a blank query changes nothing; otherwise the query is loaded and the search view shown |
| App.SearchScreen.PickSuggestion | App.tsx:181 | a suggestion is shown in the box, loaded, and the search view shown |
| App.SearchScreen.HandlePantryResults | App.tsx:89-94 | the pantry recipes are shown in the search view under the pantry label, with the cache and the fetch log untouched |
| App.SearchScreen.HandleRecipeClick | App.tsx:83-87 | the clicked recipe is selected and the details view shown |
| App.SearchScreen.GoHome | App.tsx:109 | the logo returns to the home view with an empty search box |
| App.SearchScreen.ShowView | App.tsx:120-126 | the header buttons and the details screen's `onBack` (App.tsx:160) set the view to the target and change nothing else |
| App.SearchScreen.SetLoading | App.tsx:202 | the scanner's `onLoading` sets the loading flag |
| App.StoredEntriesReachable | App.tsx:53-62 | since every stored key is normalised, a search for a stored key, padded with blanks or not, lands on that very entry |
| App.RepeatedQueryFetchesOnce | App.tsx:53-63 | after a successful miss, an equivalent query is a hit: one fetch in all, and the list shown is the stored one |
| ChefAcademy.ActiveTopic | components/ChefAcademy.tsx:16 | the topic is the override when it is present and non-empty, otherwise the typed query |
| ChefAcademy.DisplayedDifficulty | components/ChefAcademy.tsx:140 | the lesson's difficulty when present and non-empty, otherwise "Personalizada"; never empty |
| ChefAcademy.DisplayedEstimatedTime | components/ChefAcademy.tsx:144 | the lesson's time when present and non-empty, otherwise "45 min"; never empty |
| ChefAcademy.CommonTopicsNotBlank | components/ChefAcademy.tsx:36-42 | every suggested topic passes the blank guard |
| ChefAcademy.Academy.constructor | components/ChefAcademy.tsx:8-12 | an empty query, no lesson, not loading, an empty cache and nothing generated |
| ChefAcademy.Academy.StartLesson | components/ChefAcademy.tsx:14-34 | a blank active topic changes nothing; a hit on the raw topic shows the cached lesson with nothing generated and `loading` untouched; a miss generates the topic and ends not loading; success stores and shows the lesson, failure leaves lesson and cache alone; only generated, non-blank topics are stored |
| ChefAcademy.Academy.SetQuery | components/ChefAcademy.tsx:59 | the form holds the typed text |
| ChefAcademy.Academy.PickTopic | components/ChefAcademy.tsx:75 | a suggested topic is put in the form and started as the override |
| ChefAcademy.RespellingGeneratesAgain | components/ChefAcademy.tsx:19-27 | "Risotto" and "risotto " are two cache entries: after the first is generated, the second is generated too |
| RecipeDetails.TransformTagsNotBlank | components/RecipeDetails.tsx:121 | each of the four quick requests passes the blank guard, so a chosen tag reaches the service |
| RecipeDetails.Without | components/RecipeDetails.tsx:40 | `filter(i => i !== x)` drops every occurrence of `x`, keeps the multiplicity of every other element, and keeps a list free of duplicates; with `WithoutConcat` it keeps the kept elements in their order |
| RecipeDetails.WithoutConcat | components/RecipeDetails.tsx:40 | `filter` goes element by element: filtering a concatenation filters each part, so the kept elements keep their order |
| RecipeDetails.WithoutAbsent | components/RecipeDetails.tsx:40 | filtering out an absent element changes nothing |
| RecipeDetails.WithoutAppended | components/RecipeDetails.tsx:40 | filtering `x` out of a list with `x` appended once gives the list back |
| RecipeDetails.Toggle | components/RecipeDetails.tsx:38-42 | membership of the toggled element flips and no other membership changes; a present element is removed with all its copies, an absent one is appended at the end |
| RecipeDetails.TogglePreservesNoDup | components/RecipeDetails.tsx:38-48 | toggling keeps a list free of duplicates |
| RecipeDetails.ToggleTwiceRestores | components/RecipeDetails.tsx:38-48 | toggling an absent element twice gives the original list |
| RecipeDetails.SameItemRowsToggleTogether | components/RecipeDetails.tsx:195-199 | clicking an ingredient row flips the mark of every row with the same item name and of no other |
| RecipeDetails.IngredientMarked | components/RecipeDetails.tsx:195 | an ingredient row is marked iff its item name is among the marked items |
| RecipeDetails.DisplayedCalories | components/RecipeDetails.tsx:226 | `recipe.calories or 350` (JavaScript's or) is never 0: the recipe's count when non-zero, otherwise 350 |
| RecipeDetails.RecipeView.constructor | components/RecipeDetails.tsx:13-20 | the opened recipe, empty progress, no request, hidden input, no report and nothing called |
| RecipeDetails.RecipeView.LoadNutrition | components/RecipeDetails.tsx:23-36 | the opening recipe is analysed; success keeps the report, failure the previous one; the loading flag ends down |
| RecipeDetails.RecipeView.ToggleStep | components/RecipeDetails.tsx:38-42 | the completed steps are toggled at the index, and stay free of duplicates |
| RecipeDetails.RecipeView.ToggleIngredient | components/RecipeDetails.tsx:44-48 | the marked items are toggled at the item, and stay free of duplicates |
| RecipeDetails.RecipeView.ToggleTransformInput | components/RecipeDetails.tsx:81 | the transformation input is shown iff it was hidden |
| RecipeDetails.RecipeView.SetTransformQuery | components/RecipeDetails.tsx:124 | the request holds the typed text or the chosen tag |
| RecipeDetails.RecipeView.Transform | components/RecipeDetails.tsx:50-66 | a blank request changes nothing; otherwise the current recipe and the raw request go to the service and `isTransforming` ends false; success replaces the recipe, clears the request, hides the input and empties both progress lists; failure changes none of those and raises the alert; the report is kept either way |
| ChefAssistant.ModelTurn | components/ChefAssistant.tsx:35-40 | the model turn is never empty: the reply's text, the apology for an empty reply, or the error line for a failed call |
| ChefAssistant.Assistant.constructor | components/ChefAssistant.tsx:9-13 | the transcript is the greeting alone, the input empty and nothing awaited |
| ChefAssistant.Assistant.SetInput | components/ChefAssistant.tsx:92 | the input holds the typed text |
| ChefAssistant.Assistant.Submit | components/ChefAssistant.tsx:27-33 | refused, changing nothing, iff the input is blank or a reply is awaited; otherwise the trimmed input is sent and appended as a user turn, the input cleared and loading raised; the transcript keeps alternating from the greeting |
| ChefAssistant.Assistant.Receive | components/ChefAssistant.tsx:35-42 | the awaited reply appends one model turn and lowers the loading flag |
| ChefAssistant.Assistant.Send | components/ChefAssistant.tsx:27-43 | an accepted send appends exactly the user turn and the model turn, keeps the earlier messages and ends not loading; a refused one changes nothing |
| ChefAssistant.SendWhileAwaitingIsRefused | components/ChefAssistant.tsx:28 | while a reply is awaited, a send is refused whatever was typed |
| RecipeCard.IsValidHttpUrl | components/RecipeCard.tsx:18 | the page address is valid when it starts with `http://` or `https://` |
| RecipeCard.WebSchemesOnly | components/RecipeCard.tsx:18 | every `http://` and `https://` address is valid, while `file://` and `about:` addresses and the empty string are not |
| RecipeCard.MakeShareData | components/RecipeCard.tsx:20-25 | the data carries the address iff it is valid; the title is the fixed prefix, the recipe's title and "!"; the text is the fixed prefix, the title, ". " and the description |
| RecipeCard.FallbackText | components/RecipeCard.tsx:33 | the clipboard text is the title and the text as two paragraphs, followed by the address as a third one exactly when the data carries it |
| RecipeCard.FallbackCarriesUrlIffValid | components/RecipeCard.tsx:33 | for the recipe's share data, the fallback text is the title and the text as two paragraphs, plus the whole address as a third exactly when the address is valid |
| RecipeCard.LastEffortText | components/RecipeCard.tsx:43 | the last-effort clipboard text is the recipe's title, then ": " and the description |
| RecipeCard.HandleShare | components/RecipeCard.tsx:13-50 | the share sheet gets the data iff native sharing is offered; the clipboard gets the fallback text iff it is not; a success or a cancellation writes nothing else; no message iff the attempt was cancelled; success reports "shared" or "link copied"; any other error adds the copy of "title: description" and reports whether that copy worked |
| RecipeCard.CancelIsSilent | components/RecipeCard.tsx:40 | a cancelled share reports nothing and makes no further copy |
| RecipeCard.LastCopyMattersOnlyAfterError | components/RecipeCard.tsx:42-47 | the last-effort copy's outcome matters only after an error that was not a cancellation |
| PantryScanner.DataUrlPayload | components/PantryScanner.tsx:22 | the payload is absent iff the data URL has no comma, and holds no comma |
| PantryScanner.PayloadIsBody | components/PantryScanner.tsx:22 | for a header and a body with no comma, the payload is the body |
| PantryScanner.FoundCount | components/PantryScanner.tsx:28 | the number of `onRecipesFound` calls is 0 exactly when there is none |
| PantryScanner.ScanEvents | components/PantryScanner.tsx:25-33 | exactly three callbacks: `onLoading(true)` first and `onLoading(false)` last with no other loading call between; `onRecipesFound` is called once on success with the result and never on failure; the alert is raised iff the analysis failed |
| PantryScanner.Scanner.constructor | components/PantryScanner.tsx:13 | no preview, no callback and nothing analysed |
| PantryScanner.Scanner.HandleFileChange | components/PantryScanner.tsx:16-37 | no file changes nothing; otherwise the preview is the whole data URL, its payload is analysed, and the callbacks of `ScanEvents` are made |

## Left out

- The service calls (`generateContent`, `chats.create`, `sendMessage`) are not modelled. Each is the outcome it settles with. The prompts, the model name and the response schemas (services/geminiService.ts:8-88) are left out.
- `JSON.parse` is the parameter `parse` of the service functions. It is `None` where the parse throws or the value does not have the expected shape. A reply of JSON `null`, which the lesson cache would store but never find, is not modelled.
- `Math.random` is the parameter `Roll`, one draw in `[0, 1000)`. The list calls take one draw per element.
- Numbers are integers. NaN, fractions and numeric overflow are not modelled. Optional fields (`calories`, a lesson's `estimatedTime` and `difficulty`, a step's `tip`) are `Option`. Some fields are not required by the response schema, but the model treats them as present: `servings`, `difficulty` and `tags` of a recipe, and `proTips` of a lesson (services/geminiService.ts:67-69). A payload without one of them is a value of the wrong shape, so `parse` gives `None` for it and the call fails. The source instead goes on with the field undefined, and shows no tips for a missing `proTips`, which it reads with `?.map` (components/ChefAcademy.tsx:154).
- Async interleaving is not modelled: every awaited call settles before the next event. The exception is the chat, where `Submit` and `Receive` are separate halves. So a second search or lesson started while one is in flight, and out-of-order completions, are outside the model.
- The disabled state of the form buttons is not modelled. The lesson topic buttons have no loading guard, and the model's sequential events cannot overlap anyway.
- The toast timers, the theme and `localStorage`, `window.print`, `scrollTo`, the scroll-to-bottom effect, `FileReader` and `console.error` are not modelled. The `alert` calls are a log of messages, and the toasts are the message handed to `onShare`.
- `startChefChat` (services/geminiService.ts:209-216) only creates the provider's chat session, so it is not modelled. The chat's replies are outcomes.
- `navigator.share`, `canShare` and the clipboard are parameters of `HandleShare`: whether native sharing is offered, and how each write settles. Whether the optional `onShare` callback is present is not modelled.
- Strings.LowerChar and Strings.ToLower: only the Basic Latin capitals and the Latin-1 capitals À–Þ (all but ×) are lowered, one character for one. JavaScript's `toLowerCase` also lowers the other Unicode capitals ('Ł', 'Ω', 'Д' …), uses context (a final 'Σ' becomes 'ς') and can change the length ('İ' becomes two code units). So ToLower's length ensures, Strings.ToLowerAt, Strings.ToLowerAppend, Strings.ToLowerIdempotent and the lemmas that combine trim with lower case hold for this subset of the mapping. They are not claimed for the full one.
- Strings.IsSpace follows the ECMAScript white-space and line-terminator set exactly.
- GeminiService.ImageLock: characters are Unicode scalar values rather than UTF-16 code units, so `seed.length` counts scalar values. For a seed holding characters outside the Basic Multilingual Plane, JavaScript counts two units each, and the model's lock can be lower than the source's.
- The rendering, the styling and components/GlassCard.tsx are presentation only.

## Findings

| source | as written | input that shows it | evidently intended | confidence | as-written member | corrected member |
|---|---|---|---|---|---|---|
| App.tsx:54 | `if (cache.current[trimmedQuery])` looks the key up on a plain object, so names inherited from `Object.prototype` read as hits | the search "constructor" (key "constructor") on an empty cache: no fetch is made and the screen is handed the `Object` function as its recipe list | a hit only for a key that was stored | not executed | App.InheritedKeyHitsAsWritten | Common.HitAfterStore |
| components/ChefAcademy.tsx:19 | `if (lessonCache.current[activeQuery])` makes the same lookup on the raw topic | the topic "constructor" on an empty lesson cache: nothing is generated, the `Object` function becomes the lesson, and rendering `lesson.practicalSteps.map` (components/ChefAcademy.tsx:110) throws a TypeError, so no lesson is shown | a hit only for a topic that was stored | not executed | Common.EmptyRecordHitsAsWritten | ChefAcademy.Academy.StartLesson |

The model uses the intended lookup (`Common.Hit`, a stored key) in every cache.
