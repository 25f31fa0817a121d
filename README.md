# TelAuto core, modelled in Dafny

TelAuto is a set of Telegram userbots with a desktop setup GUI. Under the
Telegram client, AI SDK, Electron, Express and Flask glue sit small pieces
of sequential logic. This project models those pieces and proves what they
promise:

- **Learning store** (`ai-p/intelligent-telegram-userbot.js`). It covers:
  - the ordered intent, sentiment and category classifiers and keyword extraction;
  - the similarity score and the best-match search with its 0.7 threshold;
  - feedback learning over the `patterns` map, the stats counters and the personality traits;
  - the periodic pruning pass and the learned-versus-AI reply choice.
- **Patch bot** (`ai-p/ai-bot-with-patch.js`). It covers:
  - the four-pattern patch command parser;
  - the request table with its create and approve transitions;
  - the admin check and the formatted reply;
  - the per-user 20-turn conversation buffer, the fallback replies and the message router.
- **Patch service simulator** (`ai-p/patch-service-simulator.js`). It covers:
  - risk grading and the affected-system lookup;
  - the POST and GET handlers over the `patches` map;
  - the timer that moves a patch through its status list, one tick per call.
- **Setup wizard** (`telbot/telegram-userbot-gui/src/components/SetupWizard.jsx`). It covers the step index, per-step validation and single-field edits.
- **Config normalisers**. `loadAndFixConfig` in `telbot/auto-fix-everything.js` searches candidate paths, fills defaults and converts percentages. The `save-config` and `start-bot` handlers live in `ai-p/telegram-userbot-gui/src/main/main.js`.
- **Chat-style learner**. `PersonalityCloner` in `ai_chat_system.py` collects phrases and counts emojis.

Modules:

| module | what it holds |
|---|---|
| `Common`, `Strings`, `OrderedMaps` | shared helpers (listed below) |
| `JsValues` | the JavaScript values the configuration code handles |
| `Classifier`, `Learning` | the learning store |
| `PatchParser`, `PatchBot` | the patch bot |
| `PatchService` | the simulator |
| `SetupWizard` | the wizard |
| `ConfigDefaults`, `AutoFix`, `MainProcess` | the normalisers |
| `PersonalityCloner` | the chat-style learner |

The shared helpers are:
- `Common`: options, results and `slice(-n)`.
- `Strings`: JavaScript `\s`, `trim`, ASCII lower-casing and substring tests.
- `OrderedMaps`: a JavaScript `Map` as an insertion-ordered entry list.

Objects whose fields the source updates in place are classes:
- `LearningSystem`
- `PatchRequestManager`
- `AIManager`
- `Patch`
- `PatchServer`
- `Wizard` (the React state cells)
- `Cloner`

Each state-changing method is specified by a pure function of the old
state. The properties are proved about those functions.

Inputs the source takes from the environment are parameters:
- clock readings, generated ids and `Math.random` choices;
- AI replies, and the HTTP reply of the patch service;
- file contents and whether `APPDATA` is set.

## Model

| member | source | states |
|---|---|---|
| Classifier.DetectIntent | ai-p/intelligent-telegram-userbot.js:138-156 | the result is the first intent, in the order greeting, question, request, confirmation, farewell, business, urgent, emotional, whose pattern matches; 'general' exactly when none matches |
| Classifier.AnalyzeSentiment | ai-p/intelligent-telegram-userbot.js:158-167 | positive iff a positive word occurs; negative iff none does and a negative word occurs; neutral otherwise |
| Classifier.SplitWs | ai-p/intelligent-telegram-userbot.js:171 | `split(/\s+/)` gives at least one field, no field contains white space, and lower-case input gives lower-case fields |
| Classifier.FilterKeywords | ai-p/intelligent-telegram-userbot.js:170-173 | keeps exactly the words that are not stop words and are longer than 2 UTF-16 code units, each as often as it occurs, as an order-preserving subsequence |
| Classifier.ExtractKeywords | ai-p/intelligent-telegram-userbot.js:169-174 | every keyword is lower case, whitespace-free, longer than 2 code units and not a stop word; the keywords are a subsequence of the split lower-cased message, and each qualifying word occurs in them as often as in the split message |
| Classifier.Utf16Length | ai-p/intelligent-telegram-userbot.js:172 | `word.length` counts code units: one per character below U+10000 and two above, so it lies between the character count and twice it, and equals it without astral characters |
| Classifier.TwoEmojiAreAKeyword | ai-p/intelligent-telegram-userbot.js:172 | a word of two astral emoji has length 4 and is a keyword |
| Classifier.CategorizeMessage | ai-p/intelligent-telegram-userbot.js:176-187 | business iff the relationship is client or a business word occurs; else social iff friend or a social word; else family iff family; else general |
| Classifier.InitialAnalysis | ai-p/intelligent-telegram-userbot.js:119-126 | a fresh analysis has confidence 0 and no suggested response |
| Classifier.Jaccard | ai-p/intelligent-telegram-userbot.js:210-217 | keyword overlap lies in [0, 1]; equal non-empty sets give 1 and disjoint sets give 0 |
| Classifier.Similarity | ai-p/intelligent-telegram-userbot.js:204-220 | the score lies in [0, 1] |
| Classifier.JaccardSymmetric | ai-p/intelligent-telegram-userbot.js:210-217 | the keyword overlap does not depend on argument order |
| Classifier.SimilaritySymmetric | ai-p/intelligent-telegram-userbot.js:204-220 | the score does not depend on argument order |
| Classifier.SimilarityOfEqualIsOne | ai-p/intelligent-telegram-userbot.js:204-220 | equal intent, sentiment, category and equal non-empty keyword sets score exactly 1 |
| Classifier.SimilarityWithoutKeywordsAtMost | ai-p/intelligent-telegram-userbot.js:204-220 | with no keywords on either side the score is at most 0.7 |
| Learning.ArgMaxAbove | ai-p/intelligent-telegram-userbot.js:190-199 | the loop returns exactly the index `FirstMaxAbove` picks |
| Learning.SearchUpTo | ai-p/intelligent-telegram-userbot.js:190-199 | after n scores the loop holds no index and 0 iff none so far is above 0.7; otherwise the first index of the largest score so far, which is above 0.7 |
| Learning.FirstMaxAbove | ai-p/intelligent-telegram-userbot.js:190-199 | no index iff every score is at most 0.7; otherwise the first index holding the maximum, which is above 0.7 |
| Learning.BestMatch | ai-p/intelligent-telegram-userbot.js:189-202 | nothing iff every stored pattern scores at most 0.7 against its own analysis; otherwise the first pattern with the highest score, and that score |
| Learning.Analyze | ai-p/intelligent-telegram-userbot.js:119-136 | with the corrected search: the four features come from the classifiers; a suggested response exists iff the best match exists, with its response and its score above 0.7; otherwise confidence stays 0 |
| Learning.ScoreAgainstStringKeyIsZero | ai-p/intelligent-telegram-userbot.js:193-194 | an analysis compared with a string key scores 0, since the string has no intent, sentiment, category or keywords |
| Learning.StoredAnalysisScoresOne | ai-p/intelligent-telegram-userbot.js:204-220 | a pattern learned from an analysis with keywords scores 1.0 against that analysis |
| Learning.LearningSystem.FindSimilarPattern | ai-p/intelligent-telegram-userbot.js:189-202 | as written, it never returns a match |
| Learning.LearningSystem.FindSimilarPatternByAnalysis | ai-p/intelligent-telegram-userbot.js:189-202 | nothing unless some stored pattern scores above 0.7; otherwise the first pattern with the highest score, with that score as its confidence |
| Learning.LearningSystem.AnalyzeMessage | ai-p/intelligent-telegram-userbot.js:119-136 | with the corrected search (see Findings): the analysis is `Analyze` over the stored patterns |
| Learning.LearningSystem.AnalyzeMessageAsWritten | ai-p/intelligent-telegram-userbot.js:119-136 | as written: the analysis is the four features with confidence 0 and no suggested response, whatever is stored |
| Learning.GoodPattern | ai-p/intelligent-telegram-userbot.js:230-240 | a 'good' rating stores confidence 0.9, without avoidance or approval |
| Learning.BadPattern | ai-p/intelligent-telegram-userbot.js:246-256 | a 'bad' rating stores confidence 0.1 with avoidance |
| Learning.ImprovedPattern | ai-p/intelligent-telegram-userbot.js:261-271 | a better response is stored with confidence 1.0 and admin approval |
| Learning.FeedbackTouchesOnlyItsKey | ai-p/intelligent-telegram-userbot.js:229-272 | feedback writes only the key of the rated analysis; a better response wins over the rating there; every other key keeps its pattern and the keys stay distinct |
| Learning.FeedbackStats | ai-p/intelligent-telegram-userbot.js:230-274 | `learningEvents` grows by exactly 1; `successfulResponses` by 1 on 'good'; `failedResponses` by 1 on 'bad'; other counters are unchanged |
| Learning.BlendKeepsUnitRange | ai-p/intelligent-telegram-userbot.js:288-294 | blending keeps the trait names, ignores unknown names, and keeps traits in [0, 1] |
| Learning.LearningSystem.UpdatePersonalityTraits | ai-p/intelligent-telegram-userbot.js:284-301 | a missing argument changes nothing; otherwise each known trait becomes 0.9·old + 0.1·given and exactly one snapshot of the new traits is appended |
| Learning.LearningSystem.LearnFromFeedback | ai-p/intelligent-telegram-userbot.js:223-281 | an unknown message id changes nothing and returns nothing; otherwise the patterns and counters change as above; on 'good' the traits blend and exactly one snapshot is appended when traits are given, and otherwise traits and snapshots are unchanged; the outcome names positive/negative and added/updated |
| Learning.Phrases | ai-p/intelligent-telegram-userbot.js:420-426 | a phrase is listed iff some rule whose trait is above its bar carries it; the phrases are a subsequence of the rules' phrases, one per rule above its bar; there are none iff no trait is above its bar |
| Learning.PhrasesOfTraitRules | ai-p/intelligent-telegram-userbot.js:420-426 | for the five rules, each phrase is listed iff its own trait is above its bar, and there are as many phrases as such traits |
| Learning.DescribePersonality | ai-p/intelligent-telegram-userbot.js:419-429 | 'balanced and adaptive' iff no trait is above its bar; otherwise the phrases joined with ', ' |
| Learning.PrunedExactly | ai-p/intelligent-telegram-userbot.js:676-680 | pruning deletes exactly the patterns with confidence < 0.3 that are not admin-approved; every other entry keeps its value and order |
| Learning.PrunedDistinct | ai-p/intelligent-telegram-userbot.js:676-680 | pruning keeps the keys distinct and adds none |
| Learning.SumConfidenceBounds | ai-p/intelligent-telegram-userbot.js:684-686 | a sum of confidences in [0, 1] lies between 0 and the count |
| Learning.AverageInUnit | ai-p/intelligent-telegram-userbot.js:683-687 | the average over the last 100 responses lies in [0, 1] |
| Learning.LearningSystem.LearningCycle | ai-p/intelligent-telegram-userbot.js:672-690 | the patterns become their pruned version; the average confidence becomes the mean of the last 100 history entries, and is left alone when there is no history |
| Learning.ChooseReply | ai-p/intelligent-telegram-userbot.js:355-393 | the learned response is used iff the confidence is above the threshold and there is a non-empty suggested response, and then with that confidence and no message id; otherwise the AI reply with the message id, with the analysis's confidence, or 0.5 when it is 0 |
| Learning.LearnedReplyIffMatch | ai-p/intelligent-telegram-userbot.js:350-394 | with the corrected search, the reply is learned iff a stored pattern scores above 0.7, its score clears the threshold and its response is non-empty |
| Learning.AsWrittenRepliesFromAi | ai-p/intelligent-telegram-userbot.js:350-394 | with the search as written, every reply is the AI's, with confidence 0.5 and the message id |
| Learning.LearningSystem.GetResponse | ai-p/intelligent-telegram-userbot.js:350-394 | with the corrected search: the analysis is `Analyze` over the stored patterns and the reply is `ChooseReply` of it; a learned reply changes nothing; an AI reply is recorded in the history, and queued for feedback iff approval is required and the sender is the admin |
| PatchParser.FirstSplit | ai-p/ai-bot-with-patch.js:43-46 | the lazy `(.+?)` stops at the first position from which the rest of the pattern matches |
| PatchParser.InfoOf | ai-p/ai-bot-with-patch.js:53-58 | the description is the trimmed second group when non-empty, else the target |
| PatchParser.FirstMatch | ai-p/ai-bot-with-patch.js:49-60 | the result is the capture of the first pattern that matches; nothing iff none matches |
| PatchParser.ParsePatchCommand | ai-p/ai-bot-with-patch.js:41-63 | the four patterns are tried in order and the first match gives target, description and raw command; not a patch request iff none matches |
| PatchParser.ParseInOrder | ai-p/ai-bot-with-patch.js:41-63 | the parse is '/patch', then 'patch request:', then 'deploy patch', then '/update … to …' |
| PatchParser.SlashPatchRoundTrip | ai-p/ai-bot-with-patch.js:43-57 | '/patch T: D' parses back to target T and description D |
| PatchParser.PatchRequestRoundTrip | ai-p/ai-bot-with-patch.js:44-57 | 'patch request: D' parses to target D with description D |
| PatchParser.DeployPatchRoundTrip | ai-p/ai-bot-with-patch.js:45-57 | 'deploy patch T' parses to target T with description T |
| PatchParser.UpdateRoundTrip | ai-p/ai-bot-with-patch.js:46-57 | '/update X to Y' parses to target X and description Y |
| PatchParser.OrdinaryTextIsNotPatch | ai-p/ai-bot-with-patch.js:41-63 | text that starts with anything other than '/', 'p' or 'd' is never a patch request |
| PatchBot.RequireApprovalOf | ai-p/ai-bot-with-patch.js:33 | approval is required unless the config sets `requireApproval` to false |
| PatchBot.AdminIdsOf | ai-p/ai-bot-with-patch.js:34 | the configured admin list, or else `[adminId]` with a falsy id dropped |
| PatchBot.IsAdmin | ai-p/ai-bot-with-patch.js:237-239 | a user is an admin iff their id is one of the admin list's entries |
| PatchBot.DefaultAdmins | ai-p/ai-bot-with-patch.js:237-239 | without an admin list, a user is an admin iff their id equals a non-empty configured admin id |
| PatchBot.PatchRequestManager.constructor | ai-p/ai-bot-with-patch.js:29-35 | an empty request table with the configured approval rule and admin list |
| PatchBot.PatchRequestManager.CreatePatchRequest | ai-p/ai-bot-with-patch.js:65-83 | stores a 'pending' request under its id, with `approved` = !requireApproval and no approver; other ids are unchanged |
| PatchBot.PatchRequestManager.ApprovePatch | ai-p/ai-bot-with-patch.js:185-203 | an unknown id gives 'Patch request not found' and no change; otherwise the request is approved by the approver, with status 'approved'; no other entry changes |
| PatchBot.OptionalLine | ai-p/ai-bot-with-patch.js:214-222 | an optional line is empty or ends with a newline |
| PatchBot.ServiceFirstLine | ai-p/ai-bot-with-patch.js:213-224 | the status or error line is non-empty and ends with a newline |
| PatchBot.FormatPatchResponse | ai-p/ai-bot-with-patch.js:205-235 | the reply starts with the heading and then the ID, target, description, requester and time lines, and contains the service line; it ends with the `/approve` command exactly when approval is still pending, and with a newline otherwise |
| PatchBot.ExchangedKeepsLastTwenty | ai-p/ai-bot-with-patch.js:353-361 | after an exchange the buffer holds at most 20 turns; the user turn then the assistant turn end it, preceded by the tail of the old buffer |
| PatchBot.AIManager.GetConversationContext | ai-p/ai-bot-with-patch.js:346-351 | an unknown user gets an empty history, which is stored; a known user's history is returned unchanged |
| PatchBot.AIManager.UpdateConversationHistory | ai-p/ai-bot-with-patch.js:353-361 | the user's buffer becomes the old buffer (empty if missing) plus the exchange, cut to its last 20 turns; other users are unchanged |
| PatchBot.SmartFallback | ai-p/ai-bot-with-patch.js:363-383 | the patch hint iff the lower-cased message mentions 'patch' or 'update'; else the status hint iff it mentions 'status'; else the chosen default reply |
| PatchBot.AIManager.GenerateResponse | ai-p/ai-bot-with-patch.js:278-344 | Gemini's reply if there is one, else Claude's, else the fallback; only a provider reply is recorded in the history |
| PatchBot.Route | ai-p/ai-bot-with-patch.js:481-571 | ignored iff empty, channel or own; otherwise, each iff the earlier ones fail: a patch command creates a request with its parse; '/status ' checks the trimmed rest; '/approve ' approves the trimmed rest for an admin and is refused otherwise; exactly '/patch help' shows help; else the AI reply, flagged patch-related iff the text mentions patch, update or deploy |
| PatchBot.StatusRoute | ai-p/ai-bot-with-patch.js:512-531 | '/status ID' checks the trimmed ID |
| PatchBot.ApproveRoute | ai-p/ai-bot-with-patch.js:532-550 | '/approve ID' approves the trimmed ID for an admin and is refused for anyone else |
| PatchBot.PatchHelpRoute | ai-p/ai-bot-with-patch.js:551-563 | '/patch help' in any case shows the help and is not taken for a patch command |
| PatchBot.SlashPatchHelpFails | ai-p/ai-bot-with-patch.js:551-563 | '/patch help' in any case does not match the '/patch target: description' pattern |
| PatchBot.SlashCommandIsNotPatch | ai-p/ai-bot-with-patch.js:41-63 | a slash command other than '/p…' or '/u…' is never a patch request |
| PatchService.GenerateAffectedSystems | ai-p/patch-service-simulator.js:83-100 | the systems of the first key, in the order api, database, auth, frontend, backend, found in the lower-cased target; else the two defaults |
| PatchService.CalculateRisk | ai-p/patch-service-simulator.js:102-115 | high iff a high-risk word occurs in the lower-cased "target description"; medium iff none does and a medium word does; low otherwise |
| PatchService.SecurityIsHighRisk | ai-p/patch-service-simulator.js:103-110 | a target mentioning security is always high risk |
| PatchService.TickKeepsConsistent | ai-p/patch-service-simulator.js:123-155 | a tick keeps the status, progress and completion time in step with the index; progress never falls and never exceeds 100; logs only grow, by at least one line while the patch moves; `completedAt` is set only on reaching 'deployed' |
| PatchService.RunKeepsConsistent | ai-p/patch-service-simulator.js:123-155 | any number of ticks keeps those invariants |
| PatchService.FiveTicksDeploy | ai-p/patch-service-simulator.js:117-156 | five ticks after creation the patch is 'deployed' at 100% with its completion time, and later ticks change nothing |
| PatchService.Patch.constructor | ai-p/patch-service-simulator.js:26-42 | a new patch is 'validating' at 10% with one log line, its affected systems and its risk |
| PatchService.Patch.OnTick | ai-p/patch-service-simulator.js:123-155 | the patch's new state is one tick of the old one |
| PatchService.PatchServer.Post | ai-p/patch-service-simulator.js:26-58 | stores the new patch under its request id and replies 'validating' with its systems and risk |
| PatchService.PatchServer.Fetch | ai-p/patch-service-simulator.js:60-76 | an unknown id gives 404 'Patch request not found'; otherwise currentStatus is the status and at most the last 5 log lines are returned |
| JsValues.StringToNumber | telbot/auto-fix-everything.js:107 | blank text converts to 0; the result is a non-negative number or NaN |
| JsValues.ToNumber | telbot/auto-fix-everything.js:107 | null is 0, booleans are 1 and 0, numbers are kept, objects are NaN |
| JsValues.Percent | telbot/auto-fix-everything.js:107 | `value / 100` is a number iff the value converts to one, and then it is a hundredth of it |
| JsValues.PercentOfPercentageInUnit | telbot/auto-fix-everything.js:105-108 | a percentage in [0, 100] becomes a fraction in [0, 1] |
| SetupWizard.TelegramErrors | telbot/telegram-userbot-gui/src/components/SetupWizard.jsx:55-58 | an error key exists exactly for each of apiId, apiHash and phoneNumber that is empty |
| SetupWizard.AiErrors | telbot/telegram-userbot-gui/src/components/SetupWizard.jsx:59-69 | no error iff 'claude' has a Claude key, 'gemini' has a Gemini key and 'both' has at least one |
| SetupWizard.StepErrors | telbot/telegram-userbot-gui/src/components/SetupWizard.jsx:50-74 | the telegram step is valid iff its three fields are filled, each missing one with its own key; the AI step as above; every other step is valid |
| SetupWizard.NextStep | telbot/telegram-userbot-gui/src/components/SetupWizard.jsx:76-80 | one step forward, capped at the last of the 7, only when valid; the step stays put otherwise |
| SetupWizard.PreviousStep | telbot/telegram-userbot-gui/src/components/SetupWizard.jsx:82-84 | one step back, never below the first |
| SetupWizard.PreviousUndoesNext | telbot/telegram-userbot-gui/src/components/SetupWizard.jsx:76-84 | going back undoes a successful step forward everywhere but on the last step |
| SetupWizard.Updated | telbot/telegram-userbot-gui/src/components/SetupWizard.jsx:86-93 | only config[section][field] changes; every other field and section is unchanged |
| SetupWizard.FilledTelegramValidates | telbot/telegram-userbot-gui/src/components/SetupWizard.jsx:55-93 | filling the three telegram fields makes the telegram step valid |
| SetupWizard.Wizard.constructor | telbot/telegram-userbot-gui/src/components/SetupWizard.jsx:5-35 | the wizard starts on step 0 with the initial config and no errors |
| SetupWizard.Wizard.ValidateStep | telbot/telegram-userbot-gui/src/components/SetupWizard.jsx:50-74 | the errors become the current step's errors, and the result is true iff there are none |
| SetupWizard.Wizard.HandleNext | telbot/telegram-userbot-gui/src/components/SetupWizard.jsx:76-80 | the step moves as `NextStep` says, validity as `validateStep` computes it; the index stays in [0, 6] |
| SetupWizard.Wizard.HandlePrevious | telbot/telegram-userbot-gui/src/components/SetupWizard.jsx:82-84 | the step moves back as `PreviousStep` says, without validation |
| SetupWizard.Wizard.UpdateConfig | telbot/telegram-userbot-gui/src/components/SetupWizard.jsx:86-95 | the config changes only at the edited field, and that field's error becomes null |
| ConfigDefaults.StatsDefaultsAreZero | telbot/auto-fix-everything.js:93-99 | the default stats section has exactly the five counters, all 0 |
| ConfigDefaults.OwnEntries | ai-p/telegram-userbot-gui/src/main/main.js:67 | an object's entries are its fields; a number or boolean has none |
| ConfigDefaults.Rescaled | telbot/auto-fix-everything.js:105-108 | the traits have exactly the keys of the input personality |
| ConfigDefaults.RescaledValues | telbot/auto-fix-everything.js:105-108 | each trait is its entry divided by 100 |
| ConfigDefaults.RescaledPercentagesInUnit | ai-p/telegram-userbot-gui/src/main/main.js:66-69 | percentages in [0, 100] become traits in [0, 1] |
| ConfigDefaults.RescaleTraits | telbot/auto-fix-everything.js:105-108 | the loop builds every entry divided by 100, under the same key |
| AutoFix.FirstParsed | telbot/auto-fix-everything.js:53-64 | the first candidate that read and parsed, in candidate order; nothing iff none did |
| AutoFix.WithSession | telbot/auto-fix-everything.js:75 | a truthy sessionString is kept and a missing or falsy one becomes ''; nothing else in the section changes |
| AutoFix.Fixed | telbot/auto-fix-everything.js:74-115 | sessionString is normalised; automation and stats get defaults only when absent; the personality is converted only when `professional` is a number > 1, to {name 'You', style 'adaptive', traits}; other sections are unchanged |
| AutoFix.Load | telbot/auto-fix-everything.js:41-122 | an unset APPDATA fails in `path.join`; no usable candidate, or a falsy first one, gives 'No configuration file found…'; no telegram section gives 'Invalid configuration: missing telegram section'; otherwise the fixed config and the index of its path |
| AutoFix.FixedIsIdempotent | telbot/auto-fix-everything.js:75-115 | a second normalisation pass changes nothing |
| AutoFix.LoadAndFixConfig | telbot/auto-fix-everything.js:41-122 | the loop over candidates and the in-place fixes compute exactly `Load` |
| MainProcess.SavedConfig | ai-p/telegram-userbot-gui/src/main/main.js:34-77 | a missing telegram section or personality stops at a TypeError; otherwise sessionString is '', automation and stats are the defaults with every counter 0, the personality is {name 'You', style 'adaptive', traits = entries / 100}, and every other section is unchanged |
| MainProcess.SavedConfigNeedsNoFix | ai-p/telegram-userbot-gui/src/main/main.js:43-75 | the auto-fixer leaves a configuration saved by this handler unchanged |
| MainProcess.SaveConfig | ai-p/telegram-userbot-gui/src/main/main.js:34-89 | replies with the saved configuration, the fixed message and the path; or with the TypeError or write failure |
| MainProcess.StartBot | ai-p/telegram-userbot-gui/src/main/main.js:91-98 | always success false with needsTerminal true and the terminal instruction |
| PersonalityCloner.Split | ai_chat_system.py:607 | `split('\n')` gives at least one piece; no piece contains a newline; joining the pieces with newlines gives the text back |
| PersonalityCloner.FirstSeparator | ai_chat_system.py:610 | the position of the first ': ' in the line |
| PersonalityCloner.AfterSeparatorSplits | ai_chat_system.py:610 | the phrase is what follows the first ': ', with no ': ' before it |
| PersonalityCloner.PhrasesOfCount | ai_chat_system.py:608-611 | exactly one phrase per line that contains both the name and ': ' |
| PersonalityCloner.PhrasesOfConcat | ai_chat_system.py:608-611 | phrases accumulate in line order: two chats give the first chat's phrases and then the second's |
| PersonalityCloner.TallyCounts | ai_chat_system.py:614-616 | an emoji in U+1F600–U+1F64F occurring k times in a message raises its count by k; other entries and non-emojis are untouched |
| PersonalityCloner.TallyAllCounts | ai_chat_system.py:614-616 | over several messages, an emoji's count grows by its total number of occurrences; other characters gain no entry |
| PersonalityCloner.Cloner.constructor | ai_chat_system.py:596-603 | a new cloner has no phrases or emojis, style 'casual' and no examples |
| PersonalityCloner.Cloner.CountEmojis | ai_chat_system.py:614-616 | the counts after one message's emojis, left to right |
| PersonalityCloner.Cloner.LearnFromChat | ai_chat_system.py:605-616 | the new phrases are appended after the old ones, and the counts are the old counts tallied over the new phrases; style and examples are never touched |

## Left out

- I/O and external services are not modelled. This covers:
  - the Telegram client (connect, getEntity, sendMessage, typing) and the MTProto authentication;
  - the Anthropic and Gemini calls and prompt building;
  - axios calls to the patch service, Express and Flask servers, and file reads and writes;
  - `setInterval`/`setTimeout`, which is modelled as one tick per method call.
- Their results become parameters:
  - an AI reply is a string;
  - a provider that is missing or throws is `None`;
  - the patch service's reply is a value;
  - a candidate config file is its parsed content or `None`;
  - a write failure is an optional message.
- `loadLearningData`, `saveLearningData` and `generateImprovementSuggestions` are file I/O and prompt text with no logic of their own.
- `submitToPatchService`, `simulatePatchService` and `checkPatchStatus` are HTTP calls and a random status; their replies enter as parameters.
- Floating point is modelled with reals. This applies to similarity scores, trait blending, `/ 100` and averages; rounding is not modelled.
- `toLowerCase` is modelled as ASCII lower-casing only. The case-insensitive regexes use only ASCII literals, so for them this is exact.
- Regex `.` is treated as any character; that it does not match a line terminator is not modelled.
- Object key order is not modelled. JavaScript objects and Python dicts are finite maps. `Map`s whose order matters (`patterns`, `pendingRequests`, `conversationHistory`) keep insertion order as entry lists.
- Learning.LearningSystem.AnalyzeMessage and Learning.Analyze model the corrected search of the Findings table. As written, the analysis keeps confidence 0 and no suggested response (`AnalyzeMessageAsWritten`).
- Learning.LearningSystem.GetResponse models the corrected search too. As written, every reply is the AI's with confidence 0.5 (`AsWrittenRepliesFromAi`).
- Learning.LearningSystem.GetResponse also returns the analysis it computed. The source keeps that analysis only inside the history entry.
- PatchBot.PatchRequestManager.ApprovePatch: request objects are values. The source returns the same object it keeps in the table, so later mutation through that alias is not modelled.
- PatchBot.AIManager.GenerateResponse: the prompt text and `senderName` are not modelled, because they only feed the AI call.
- JsValues.StringToNumber handles blank text and plain decimal digits only. Signs, decimal points, exponents, hexadecimal and `Infinity` become NaN in the model, whereas JavaScript parses them.
- JsValues.ToNumber: arrays become NaN. JavaScript converts `[]` to 0 and a one-element array through its element.
- ConfigDefaults.OwnEntries: a personality given as a string or an array has no entries in the model. JavaScript would enumerate its indices.
- AutoFix.WithSession: an array `telegram` section is left unchanged. JavaScript would attach an unserialised `sessionString` property to it.
- AutoFix.Load returns the index of the candidate path rather than the path string. The paths depend on `__dirname`.
- The setup wizard's rendering, authentication steps and `saveConfiguration` are not modelled. They are JSX and IPC calls.
- The React state setters are modelled as immediate assignments. Their batching does not change the final state of these handlers.
- PersonalityCloner: a Python string is modelled as a sequence of Unicode scalar values. Lone surrogates are not modelled.

## Findings

| source | as written | input that shows it | evidently intended | confidence | as-written member | corrected member |
|---|---|---|---|---|---|---|
| ai-p/intelligent-telegram-userbot.js:193-194 | `findSimilarPattern` scores the analysis against the map key, a JSON string, which has no intent, sentiment, category or keywords, so every score is 0 and no stored pattern is ever matched | a pattern learned with 'good' feedback for a message with keywords, then the same message again: the stored analysis scores 1.0, but the search returns null | score against the stored pattern's own analysis (`data.analysis`) | not executed | Learning.LearningSystem.FindSimilarPattern | Learning.LearningSystem.FindSimilarPatternByAnalysis |
