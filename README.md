# Local assistant, reminders and dashboard routes of the business suite

This project models in Dafny the logic at the core of the suite's built-in assistant and of three of its server routes:

- **The server-side assistant** (`server/localAI.ts`):
  - the message normaliser;
  - the regular-expression intent table, tried intent by intent and pattern by pattern, with its keyword fallback;
  - the keyword-to-module table;
  - the answer built for each intent;
  - `processLocalAIMessage`;
  - the "did you mean" suggestions.
- **The routes** (`server/routes.ts`):
  - `GET /api/reminders`: the reminders gathered from tickets, tasks, deals, projects and leads, then sorted;
  - `GET /api/stats`: the counts and the recent-activity list;
  - `GET /api/search`: which collections are consulted;
  - `POST /api/ai/chat`: the guard in front of the assistant.
- **The browser side** (`client/src/lib/intents.ts`):
  - what handling an assistant answer does, as a list of effects;
  - the browser's own keyword classifier.

Module layout:

- `Text`: the JavaScript string primitives the code relies on: `\s`, `\w`, ASCII `toLowerCase`, `trim`, `includes` and `split(/\s+/)`.
- `Matcher`: a backtracking matcher for the fragment of regular expressions the intent table uses. It has:
  - alternatives of words tried in order;
  - greedy `\s+` and `?`;
  - lazy `.+?` groups that stop at line terminators;
  - `$` anchoring;
  - leftmost-start search.
- `ModuleMap`: the keyword-to-module table as written, with a repeated key where the last entry wins while the key keeps its first position.
- `Responses`: the answer record.
- `LocalAI`: the assistant.
- `Records` and `Sorting`:
  - `Records` holds the rows the routes read;
  - `Sorting` holds `Array.prototype.sort` with a comparator, which is stable.
- `Reminders`: the reminders route.
- `Routes`: the stats, search and chat routes.
- `ClientIntents`: the browser side.

Loops in the source are Dafny methods proved equal to a specification function:

- `ExtractIntent` and `GenerateResponse`;
- `CollectHits` and `SuggestCorrections`;
- the five push loops of `CollectReminders`.

The remaining properties are lemmas about those functions.

Inputs the code takes from its environment are parameters:

- the current time `now` of the reminders route;
- the clock reading `clock` that stands in for `Date.now()` when a lead has no creation date. The handler reads `Date.now()` afresh for each such lead, while the model uses one reading for all of them; the outcome is the same, because every such reading comes after `now` and so never makes the lead two days old (`Reminders.UndatedLeadIsNotStale`);
- the rows the storage layer returns, as sequences in storage order;
- whether the browser passed a form opener.

## Model

| member | source | states |
|---|---|---|
| Text.NormalizeIsNormal | server/localAI.ts:112-114 | the normalised message holds only lower-case word characters and whitespace, with no whitespace at either end |
| Text.NormalizeIdempotent | server/localAI.ts:112-114 | normalising a normalised message changes nothing |
| Text.NormalIsFixed | server/localAI.ts:112-114 | a string already in normal form is returned unchanged |
| Text.TrimShape | server/routes.ts:550 | `trim` returns a contiguous piece of its input with no whitespace at either end, and leaves a string without surrounding whitespace unchanged |
| Text.TrimRemovesPadding | server/routes.ts:550 | whitespace added around a trimmed non-empty string is removed again |
| Text.ContainsIff | server/localAI.ts:132-140 | `includes` holds exactly when the word occurs at some position |
| Text.SplitPiecesHaveNoSpace | server/localAI.ts:149 | the pieces of `split(/\s+/)` contain no whitespace |
| Text.SplitOfWord | server/localAI.ts:149 | a string without whitespace splits into itself alone |
| Matcher.Exec | server/localAI.ts:122 | a pattern matches exactly when it matches at some start, and the match found is the one at the leftmost such start |
| Matcher.MatchGroups | server/localAI.ts:122-125 | the groups exist exactly when the pattern matches, one per capturing group |
| Matcher.ExecHasMandatoryWord | server/localAI.ts:10-42 | a pattern matches only text that contains one of the words of each alternative it cannot skip |
| ModuleMap.LookupIsLastEntry | server/localAI.ts:44-83 | a word maps to a module exactly when some group of the table lists it, and then to the last group that does |
| ModuleMap.AnalyticsIsReports | server/localAI.ts:78-81 | `analytics`, listed for the dashboard and again for reports, maps to reports |
| ModuleMap.LookupIsModule | server/localAI.ts:44-83 | every keyword maps to one of the ten modules |
| ModuleMap.KeysAreTheMappedWords | server/localAI.ts:44-83 | the keys of the table are exactly the mapped words, each listed once |
| ModuleMap.KeysStart | server/localAI.ts:45-46 | the keys begin with "lead", "leads", "customer" |
| ModuleMap.KeysAreLong | server/localAI.ts:44-83 | every key has at least three letters |
| ModuleMap.LeadFirstAndKeysLong | server/localAI.ts:44-83 | "lead" is the first alternative of the key pattern and no alternative is shorter than three letters |
| ModuleMap.RemoveAllShape | server/localAI.ts:192 | deleting every occurrence of the keys never lengthens the text, and leaves it unchanged exactly when no key occurs |
| ModuleMap.StripKeys | server/localAI.ts:192 | the search term is no longer than the target, and a normal target without keys is its own term |
| LocalAI.FirstHitIsFirst | server/localAI.ts:120-129 | the hit found is the first pattern, in table order, that matches, and no hit means no pattern matches |
| LocalAI.FindFirstHit | server/localAI.ts:120-129 | the nested loops over intents and patterns stop at the first pattern, in table order, that matches, and find none when no pattern matches |
| LocalAI.Truthies | server/localAI.ts:125 | the context holds exactly the non-empty captured groups after the first |
| LocalAI.ExtractIntent | server/localAI.ts:116-143 | the loop over intents and patterns returns the intent of the first match, or the keyword fallback |
| LocalAI.IntentOfIsFirstMatch | server/localAI.ts:116-143 | the intent is that of the first matching pattern, with its first group as target; when nothing matches, the whole normalised message is the target and the context is empty |
| LocalAI.EarlierIntentWins | server/localAI.ts:120-127 | a matching pattern decides the intent unless a pattern of an earlier intent matches first |
| LocalAI.RespondExactlyWhenNothingApplies | server/localAI.ts:131-142 | a message gets the general intent exactly when no pattern matches and none of the fallback keywords occurs |
| LocalAI.FallbackOrder | server/localAI.ts:131-142 | when no pattern matches, the intent is create exactly when a creation word occurs, search exactly when no creation word but a search word occurs, and navigation exactly when neither occurs but a navigation word does |
| LocalAI.ShowMeIsNavigation | server/localAI.ts:12 | "show me" followed by text is a navigation, because the navigation patterns come before the search patterns |
| LocalAI.ShowMeMatchesNavigation | server/localAI.ts:12 | the first navigation pattern matches "show me" followed by whitespace and more text |
| LocalAI.PhraseThenTextMatches | server/localAI.ts:12 | a pattern of an opening phrase, whitespace, an optional "the", a lazy group and optional endings matches any normal text where that phrase is followed by whitespace and more |
| LocalAI.AssignIsCaughtByUpdate | server/localAI.ts:26-41 | "assign" followed by text never reaches the assign intent: the update pattern on `set` or `assign` is tried earlier |
| LocalAI.AssignMatchesUpdate | server/localAI.ts:28 | the second update pattern matches "assign" followed by whitespace and more text |
| LocalAI.PhraseThenCaptureMatches | server/localAI.ts:27-28 | a pattern of an opening phrase, whitespace and a lazy group followed only by optional parts matches any normal text where that phrase is followed by whitespace and more |
| LocalAI.FirstMappedFrom | server/localAI.ts:149-157 | the module is the mapping of the first mapped word of the target, and there is none exactly when no word is mapped |
| LocalAI.FindModule | server/localAI.ts:149-157 | the loop over the words of the target stops at the first word the keyword table knows and gives its module, or none when no word is known |
| LocalAI.GenerateResponse | server/localAI.ts:145-267 | the loop that stops at the first mapped word, followed by the switch, gives the answer `Answer` describes for the intent and the module found |
| LocalAI.Answer | server/localAI.ts:159-266 | every answer carries a non-empty message and is never `create`; it switches page only to the module found or to the dashboard; a form opens exactly for a creation with a module; a search term is sent exactly for a search with a module |
| LocalAI.NavigationGoesToModule | server/localAI.ts:160-172 | a navigation goes to the module found, with its message, and without a module only explains where one can go |
| LocalAI.ProcessLocalAIMessage | server/localAI.ts:269-286 | the reply is the answer to the intent extracted from the message |
| LocalAI.ReplyModuleIsKnown | server/localAI.ts:145-267 | whenever the reply switches page, it switches to one of the ten modules |
| LocalAI.UnsupportedIntentsExplain | server/localAI.ts:206-243 | update, delete and assign intents only get a fixed explanation, whatever the target and the message |
| LocalAI.OpenModalCreates | server/localAI.ts:174-182 | a form is opened only for creation, in the module found |
| LocalAI.CreateAndSearchAnswers | server/localAI.ts:174-204 | a creation with a module opens that module's creation form with the message "Opening form to create a new <module minus its last letter>."; a creation without a module answers the list of creatable entities, and a search without one the list of searchable entities |
| LocalAI.CreateCompanyMessage | server/localAI.ts:174-182 | creating in `companies` announces a new "companie" |
| LocalAI.StatusNavigates | server/localAI.ts:218-237 | a status question always navigates, to the dashboard unless a module other than the dashboard was found and no overview or summary was asked for |
| LocalAI.StatusShowsFoundModule | server/localAI.ts:218-230 | a status question about a module other than the dashboard, without "overview" or "summary" in the target, navigates to that module and shows its status |
| LocalAI.HelpBeforeStats | server/localAI.ts:245-265 | in the message as typed, ignoring case, "help" wins over "stats" and "numbers", which win over the default reply |
| LocalAI.SearchAnswerTerm | server/localAI.ts:190-198 | a search with a module navigates to it and sends the first context word as the term, or else the target with the keys removed; a non-empty term is announced as `Searching for "<term>" in <module>.`, and an empty one says it shows all of the module |
| LocalAI.EntityNames | server/localAI.ts:176 | the entity name drops the last letter of the module, giving "companie" and "dashboar" as written |
| LocalAI.SearchTermOfLeads | server/localAI.ts:192 | removing the keys from "leads" leaves "s", because "lead" is removed before "leads" is tried |
| LocalAI.LeadFirstLeavesS | server/localAI.ts:192 | with "lead" as first alternative and no alternative shorter than three letters, removing the alternatives from "leads" leaves "s" |
| LocalAI.Suggestions | server/localAI.ts:288-306 | at most three suggestions; each is the short-message tip, only for messages shorter than three code units, or names a key related to a word of the message |
| LocalAI.MessageSuggestionsOrder | server/localAI.ts:288-306 | for a message, the key suggestions for its words come first in order; the tip follows them only for a message shorter than three code units that earned fewer than three; without the tip the answer is the first three key suggestions, or all of them when fewer |
| LocalAI.SuggestionsFrom | server/localAI.ts:290-305 | for any list of keys: at most three suggestions, each the short-message tip or a "Did you mean" for a key related to some word |
| LocalAI.SuggestionsOrder | server/localAI.ts:293-305 | key suggestions come first in word-then-key order; the tip comes after them and is kept exactly when the message is short and fewer than three keys were suggested; otherwise the answer is the first three key suggestions |
| LocalAI.TipIsNoKeySuggestion | server/localAI.ts:296-302 | the short-message tip is never one of the "Did you mean" suggestions |
| LocalAI.CollectHits | server/localAI.ts:293-299 | the nested loops collect one suggestion per word and related key, in order |
| LocalAI.SuggestCorrections | server/localAI.ts:288-306 | the method returns exactly `Suggestions` of the message |
| LocalAI.EmptyMessageSuggestsFirstKeys | server/localAI.ts:288-306 | a message that normalises to nothing gets the first three keys as suggestions, because the empty word occurs in every key |
| LocalAI.EmptyWordSuggestsFirstKeys | server/localAI.ts:293-305 | the empty word is related to every key, so it earns the first three keys of any list of at least three |
| LocalAI.NoSuggestionWithoutRelatedKey | server/localAI.ts:288-306 | a message of three or more code units with no word related to a key gets no suggestion |
| Records.Decimal | server/routes.ts:618 | an id is written as a non-empty string of decimal digits |
| Records.DecimalInjective | server/routes.ts:618 | different ids are written differently |
| Sorting.SortBy | server/routes.ts:710-719 | the sort returns a permutation of its input, sorted by the key, with elements of equal keys in their original order |
| Reminders.DueWordAgreesWithUrgency | server/routes.ts:621-623 | the due word and the priority agree: now and overdue, tomorrow and urgent, soon and upcoming, split at now and now plus a day |
| Reminders.TicketReminders | server/routes.ts:613-628 | a reminder is produced for exactly the tickets that are due, not resolved or closed, and at most two days ahead |
| Reminders.TaskReminders | server/routes.ts:632-647 | a reminder is produced for exactly the tasks that are due, not completed or cancelled, and at most two days ahead |
| Reminders.DealReminders | server/routes.ts:651-666 | a reminder is produced for exactly the deals that are expected to close within two days and are not closed won or lost |
| Reminders.ProjectReminders | server/routes.ts:670-685 | a reminder is produced for exactly the projects that end within two days and are not completed or cancelled |
| Reminders.LeadReminders | server/routes.ts:688-706 | a follow-up is produced for exactly the new or contacted leads created at least two days ago, with the clock standing in for a missing creation date |
| Reminders.UndatedLeadIsNotStale | server/routes.ts:694 | a lead without a creation date never needs a follow-up when the clock reads later than two days before now |
| Reminders.PushTicketReminders | server/routes.ts:613-628 | the ticket loop appends the ticket reminders |
| Reminders.PushTaskReminders | server/routes.ts:632-647 | the task loop appends the task reminders |
| Reminders.PushDealReminders | server/routes.ts:651-666 | the deal loop appends the deal reminders |
| Reminders.PushProjectReminders | server/routes.ts:670-685 | the project loop appends the project reminders |
| Reminders.PushLeadReminders | server/routes.ts:692-706 | the lead loop appends the follow-ups |
| Reminders.CollectReminders | server/routes.ts:604-725 | the handler answers the gathered reminders, sorted |
| Reminders.CompareIsByKey | server/routes.ts:710-719 | on well-formed reminders the comparator orders exactly as the key (rank, due date) does |
| Reminders.GatheredAreWellFormed | server/routes.ts:613-706 | every reminder is a follow-up exactly when it has no due date, exactly when it is a lead's; a dated one is due within two days with the priority its date gives; its id is its kind and item |
| Reminders.AnswerIsPermutation | server/routes.ts:710-721 | the answer holds exactly the gathered reminders |
| Reminders.AnswerOrder | server/routes.ts:710-719 | urgent, then upcoming, then follow-ups, and overdue last of all (its rank 0 is falsy and becomes 999); within a priority, earlier due dates first |
| Reminders.AnswerIsStable | server/routes.ts:710-719 | reminders with equal priority and date keep the order in which they were gathered |
| Reminders.IdIdentifiesItem | server/routes.ts:618 | two reminder ids are equal exactly when they are about the same item of the same kind |
| Routes.CountWhere | server/routes.ts:574-576 | the filtered count is at most the length, equals it exactly when every row qualifies, and is zero exactly when none does |
| Routes.CountWhereConcat | server/routes.ts:574-576 | the filtered count of two row lists put together is the sum of their counts |
| Routes.CountWhereOne | server/routes.ts:574-576 | a single row counts one exactly when it qualifies, so with the concatenation rule the count is the number of qualifying rows |
| Routes.StatsAreTheCounts | server/routes.ts:572-595 | the stats object counts every lead and user; `activeTickets` is the count of tickets not resolved, which with the resolved ones make up all tickets; `activeProjects` is the count of projects whose status is `active`; the activity is the recent activity, at most nine lines |
| Routes.ActiveTicketsAndResolved | server/routes.ts:574 | every ticket is either active or resolved, so the two counts add up to the number of tickets |
| Routes.LastThree | server/routes.ts:579-593 | `slice(-3)` is the suffix of exactly three elements of a longer sequence, and the whole sequence when it is that short |
| Routes.MapMembers | server/routes.ts:579-593 | the mapped lines are exactly the images of the rows |
| Routes.RecentActivityIsSortedLines | server/routes.ts:578-594 | at most nine lines, so the cap of ten never applies; newest first; exactly the lines gathered; equal times in gathering order |
| Routes.FewLinesSortNewestFirst | server/routes.ts:594 | sorting at most ten lines newest first and keeping ten keeps them all, sorted by time, as a stable permutation |
| Routes.ActivityLinesAreTheLatest | server/routes.ts:578-593 | each line comes from one of the last three leads, tickets or deals, and each of those has its line |
| Routes.Search | server/routes.ts:511-538 | the search is refused exactly when the query is not a non-empty string, and otherwise is for that query |
| Routes.SearchWithoutType | server/routes.ts:521-532 | without a type, or with an empty one, all four collections are searched in order |
| Routes.SearchWithType | server/routes.ts:521-532 | a type naming a collection searches only it; any other type searches nothing |
| Routes.ChatAnswers | server/routes.ts:541-559 | exactly the falsy messages are refused; every other message gets a non-empty reply that never uses `create` and switches only to a known module |
| Routes.ChatIgnoresSurroundingSpace | server/routes.ts:550 | whitespace around a message does not change the reply |
| Routes.TrimmedAgain | server/routes.ts:550 | padding a trimmed non-empty message with whitespace and trimming again gives it back |
| ClientIntents.Effects | client/src/lib/intents.ts:11-60 | a plain reply does nothing; at most two effects; every page switch is to the answer's module or to the CRM or tickets page of a legacy creation |
| ClientIntents.EffectsByAction | client/src/lib/intents.ts:17-58 | a navigation switches page and announces it only when the answer names a module; `open_modal` switches exactly when a module is named and, given a type and an opener, ends by scheduling `onOpenModal(type, module or "")`; the legacy `create` sends a lead to `crm` and a ticket to `tickets` with their toasts and does nothing for any other type |
| ClientIntents.FormFollowsSwitch | client/src/lib/intents.ts:27-37 | a form is opened only for `open_modal` with an opener, after the delay, and after the switch to its module when one is named |
| ClientIntents.ShapedAnswerEffects | client/src/lib/intents.ts:11-60 | for an answer of the assistant's shape, a navigation switches page and shows a toast, an `open_modal` switches page and then opens the creation form, and every switch is to a known module |
| ClientIntents.RepliesAreAssistantShaped | server/localAI.ts:145-286 | every reply of the assistant has that shape |
| ClientIntents.ParseIsFirstGroup | client/src/lib/intents.ts:62-102 | the classifier returns the intent of the first keyword group found in the lower-cased message, else "general" |
| ClientIntents.ParseNeverCreates | client/src/lib/intents.ts:85-99 | the classifier never returns a `create:` intent: a message naming a lead, ticket, deal or project has already been classified as navigation |
| ClientIntents.ParseGeneralIff | client/src/lib/intents.ts:62-102 | "general" is returned exactly when none of the keywords occurs |

## Left out

- The object lookup of `MODULE_MAPPINGS[word]` also finds inherited properties such as `constructor`. Only the table's own keys are modelled. As a result, the error branch of `processLocalAIMessage` (server/localAI.ts:279-285) cannot be reached in the model.
- `STATUS_MAPPINGS` and `PRIORITY_MAPPINGS` (server/localAI.ts:85-110) are not used by any modelled operation.
- Lower-casing covers ASCII only. `toLowerCase` can also turn a few non-ASCII characters into ASCII letters; that case is not modelled.
- Strings are sequences of Unicode scalar values, not of UTF-16 code units, so a message holding a lone surrogate cannot be represented. Message lengths are counted in code units as JavaScript does. No pattern or keyword can match between the two halves of a surrogate pair, so the answers are unaffected.
- Regular expressions are not parsed. Each pattern of the intent table is encoded by hand as an element list.
- The pattern that removes every key for a search term (server/localAI.ts:192) is modelled by a left-to-right deletion that tries the keys in table order at each position.
- Matching a message against the whole table is proved in general lemmas rather than evaluated on sample messages.
- Logging (`console.log` and `console.error`) is left out.
- The `async` and `await` machinery is left out.
- Toasts are recorded as effects, not displayed.
- The timer behind `setTimeout` is recorded as a delayed effect; its timing is not modelled.
- The storage layer is not part of this model. Rows are given as sequences, and the storage search functions are represented only by which of them is called.
- Responses with status 500 are not modelled; they only happen when storage throws.
- `Date` objects are milliseconds since the epoch, as integers.
- `Date.now()` is a parameter.
- Sorting.SortBy: specifies the result of the engine's `sort` (stable, sorted, a permutation), not the engine's algorithm or its in-place update of the array.
- `totalRevenue` (server/routes.ts:575) sums `parseFloat` of decimal values. Floating point is not modelled.
- Responses.AIResponse: the `data` payload is modelled only by its `search` term, the only thing the server puts in it.
- A request body that is not an object, which makes the destructuring in server/routes.ts:543 throw, is not modelled.
- The JSON shape of the search results is not modelled.
- The other routes of server/routes.ts (CRUD on each collection, email, users) are not part of this model.
