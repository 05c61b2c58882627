# Study-guide web app: the deterministic rules, modelled in Dafny

The application lets students generate an AI-written, week-by-week study
curriculum, tick off its modules, and chat with an "ethics-constrained" study
assistant. Almost all of it is React views and calls to hosted services; this
project models the small deterministic rules underneath, with every network,
model, clock and database call replaced by an input:

- **Chat assistant** (`chat_assistant.dfy`): the keyword heuristic that picks
  three follow-up suggestions; the mapping of stored history to the language
  model's turns, with the system prompt spliced into the last user turn; the
  stored transcript, its 50-character title and the update-or-insert choice.
- **Curriculum generation** (`generate_curriculum.dfy`): the learning-path
  guidance block, the kept-or-generated plan identifier, the video-search
  adapter and its query, the Video/Mixed resource-mixing loop, and the saved
  row's title and goal.
- **Curriculum view** (`curriculum_view.dfy`): the completed-index set built
  from the modules, the two-phase `toggleModule` (guard and busy flag, then
  commit-on-successful-write), the rewritten module array and the progress
  record derived from it.
- **Registration** (`register.dfy`): the validation chain in front of sign-up
  and the loading flag.
- **App layout** (`app_layout.dfy`): the navigation table, route highlighting,
  the theme toggle and the sidebar flags.

Shared pieces: `wrappers.dfy` (Option, Result), `text.dfy` (the JavaScript
string operations used: ASCII `toLowerCase`, `includes`, `slice(0, n)`, `join`,
decimal formatting, and truthiness of optional strings), `curriculum_data.dfy`
(Resource, Module), `language_model.dfy` (the language model's answer).

`toggleModule` awaits two writes, and its busy-flag guard only matters while a
toggle is in flight; it is therefore modelled as `BeginToggle` (the click) and
`EndToggle` (the writes complete, with their success as inputs). The
enrichment loop runs over a class whose `modules` sequence is reassigned one
element at a time, as the handler mutates `module.resources`.

## Model

| member | source | states |
|---|---|---|
| ChatAssistant.GenerateSuggestions | supabase/functions/chat-assistant/index.ts:15-46 | The push/pad/slice procedure returns the three best of the ranked prompt list (keyword prompts, plan prompts, clarification); always 2 or 3 entries, exactly 3 with a plan |
| ChatAssistant.TriggeredPrompts | supabase/functions/chat-assistant/index.ts:20-31 | At most three keyword-triggered prompts |
| ChatAssistant.PlanPrompts | supabase/functions/chat-assistant/index.ts:33-38 | Two plan prompts when planId is truthy, otherwise one |
| ChatAssistant.SuggestionCount | supabase/functions/chat-assistant/index.ts:33-45 | Between 2 and 3 suggestions; exactly 3 when planId is truthy |
| ChatAssistant.SuggestionMembership | supabase/functions/chat-assistant/index.ts:20-45 | Each of the seven prompts appears iff its trigger fires and there is room: keyword prompts iff their keyword occurs (question for how/what, reply for concept/topic and study/learn); plan prompts only after at most 2 or 1 keyword prompts; clarification iff fewer than 3 were collected |
| ChatAssistant.SuggestionsDistinct | supabase/functions/chat-assistant/index.ts:21-43 | No suggestion appears twice (so clarification at most once) |
| ChatAssistant.AllTriggersCrowdOutPlan | supabase/functions/chat-assistant/index.ts:20-45 | When all three keyword triggers fire the result is exactly the three keyword prompts, with no plan prompt |
| ChatAssistant.TriggerIgnoresCase | supabase/functions/chat-assistant/index.ts:17-23 | A question containing "how" or "what" in any letter case gets the example prompt |
| ChatAssistant.TurnRole | supabase/functions/chat-assistant/index.ts:128 | Assistant messages become "model" turns; every other role becomes "user" |
| ChatAssistant.HistoryTurns | supabase/functions/chat-assistant/index.ts:126-130 | One turn per history message, in order, with role relabelled and content as text |
| ChatAssistant.ContentsFor | supabase/functions/chat-assistant/index.ts:126-135 | The contents have length history+1: the history's turns, then the user's message as a user turn |
| ChatAssistant.SystemPrompt | supabase/functions/chat-assistant/index.ts:81-123 | The prompt starts with the fixed ethical instructions and, after a blank line, ends with the plan clause iff planId is truthy, the no-plan clause otherwise |
| ChatAssistant.FinalUserText | supabase/functions/chat-assistant/index.ts:158 | The last turn's text is the system prompt, "\n\nUser: ", then the message |
| ChatAssistant.RequestTurns | supabase/functions/chat-assistant/index.ts:153-160 | The request's contents: the history's turns unchanged, then one user turn carrying the spliced text |
| ChatAssistant.RequestSplicesLastTurn | supabase/functions/chat-assistant/index.ts:154-160 | The request keeps every history turn unchanged and replaces only the final turn by the user turn whose text is exactly the system prompt, "\n\nUser: " and the message |
| ChatAssistant.StoredMessages | supabase/functions/chat-assistant/index.ts:200-204 | The stored transcript is the history unchanged, then the question as a user message, then the reply as an assistant message |
| ChatAssistant.FirstUserContent | supabase/functions/chat-assistant/index.ts:217 | `find` returns the content of the first user-role message, None exactly when there is none |
| ChatAssistant.FirstUserOfStored | supabase/functions/chat-assistant/index.ts:200-217 | In the stored transcript the first user message is the history's first one, else the new question |
| ChatAssistant.ConversationTitle | supabase/functions/chat-assistant/index.ts:217-218 | The title is the first user message when it has at most 50 characters, exactly its first 50 characters when longer, and "New Conversation" when there is none or it is empty |
| ChatAssistant.StoredConversationTitle | supabase/functions/chat-assistant/index.ts:200-218 | For the stored transcript, the title is taken from the history's first user message, else the question: all of it up to 50 characters, its first 50 when longer, the default title when empty |
| ChatAssistant.ConversationWriteFor | supabase/functions/chat-assistant/index.ts:191-245 | A row is written iff userId and conversationId are truthy and storage is configured; an existing row is updated, otherwise inserted with the user and curriculum_id = planId; messages and title as derived |
| ChatAssistant.HandleChat | supabase/functions/chat-assistant/index.ts:71-260 | Missing key, a thrown model call (rejected request or non-JSON body), non-success status and missing reply text each give their error and no write; on success the reply, the suggestions for (message, reply, planId), the spliced request and the write of history ++ [question, reply] |
| GenerateCurriculum.ResourceGuidance | supabase/functions/generate-curriculum/index.ts:76-101 | Guidance is non-empty iff the path is exactly Video, Article, Question & Practice or Mixed |
| GenerateCurriculum.GuidanceDistinct | supabase/functions/generate-curriculum/index.ts:76-101 | The four known paths select four different blocks |
| GenerateCurriculum.PromptFor | supabase/functions/generate-curriculum/index.ts:104-110 | The prompt carries the selected guidance and the goal, defaulting to "General mastery" |
| GenerateCurriculum.VideoResources | supabase/functions/generate-curriculum/index.ts:40-44 | Each search item maps, in order and count, to {title, watch URL + videoId, "free"} |
| GenerateCurriculum.FetchVideos | supabase/functions/generate-curriculum/index.ts:11-52 | A missing key, a thrown call, a non-ok response or missing items give no videos; otherwise the mapped items; every video is free and points at a watch URL |
| GenerateCurriculum.SearchQuery | supabase/functions/generate-curriculum/index.ts:228 | The query is the subjects joined by spaces, then a space, the module title and " tutorial" (prefix, separator, suffix and length) |
| GenerateCurriculum.MixResources | supabase/functions/generate-curriculum/index.ts:231-240 | Empty fetch or another path: unchanged; Video: exactly the videos; Mixed: the videos followed by the first (at most 2) originals, missing originals read as empty |
| GenerateCurriculum.MixModule | supabase/functions/generate-curriculum/index.ts:226-242 | Enrichment changes a module's resources and no other field |
| GenerateCurriculum.GeneratedPlanId | supabase/functions/generate-curriculum/index.ts:214 | A generated identifier starts with "plan-" |
| GenerateCurriculum.CurriculumDraft.EnsurePlanId | supabase/functions/generate-curriculum/index.ts:213-215 | A truthy planId is kept; otherwise a generated one is assigned |
| GenerateCurriculum.CurriculumDraft.SetLearningPath | supabase/functions/generate-curriculum/index.ts:218 | The curriculum's learningPath becomes the request's |
| GenerateCurriculum.CurriculumDraft.EnrichWithVideos | supabase/functions/generate-curriculum/index.ts:223-245 | Only for Video/Mixed: module count kept, each module mixed with its own fetch, one query per module in order; other paths change nothing |
| GenerateCurriculum.SavedTitle | supabase/functions/generate-curriculum/index.ts:261 | The saved title is the subjects joined by ", ", " - ", the week count in plain decimal (reads back to durationWeeks, no leading zero), " weeks" |
| Text.NoLeadingZero | supabase/functions/generate-curriculum/index.ts:261 | Decimal formatting of a count, as `${n}` does, never starts with '0' unless it is the single digit 0 |
| GenerateCurriculum.SavedRow | supabase/functions/generate-curriculum/index.ts:248-266 | A row is inserted iff userId is truthy and storage is configured, with plan id, title, subjects, goal (default "General mastery"), weeks and the enriched modules |
| GenerateCurriculum.Generate | supabase/functions/generate-curriculum/index.ts:65-278 | Error cases in order (key, thrown model call, status, missing text, parse), each with no search and no row; on success planId kept or generated, learningPath = request's, module count kept, each module mixed with its fetch, no queries unless Video/Mixed, saved row as above |
| CurriculumView.InitialCompleted | ethical-study-guide-main/src/components/CurriculumView.tsx:20-28 | The initial set is exactly the indices whose module is marked completed |
| CurriculumView.Flip | ethical-study-guide-main/src/components/CurriculumView.tsx:35-40 | Membership of the index flips; no other membership changes |
| CurriculumView.FlipTwice | ethical-study-guide-main/src/components/CurriculumView.tsx:35-40 | Flipping an index twice restores the set |
| CurriculumView.Rewrite | ethical-study-guide-main/src/components/CurriculumView.tsx:44-47 | Same length; each module keeps every field but `completed`, which equals membership in the set |
| CurriculumView.RewriteCount | ethical-study-guide-main/src/components/CurriculumView.tsx:44-66 | The rewritten array has exactly set-size modules flagged completed |
| CurriculumView.FullIffAll | ethical-study-guide-main/src/components/CurriculumView.tsx:84 | A set of valid indices has module-count members iff it holds every index |
| CurriculumView.ProgressFor | ethical-study-guide-main/src/components/CurriculumView.tsx:57-69 | The progress record counts the completed flags of the written array and its length, keyed by user and plan |
| CurriculumView.ViewState.constructor | ethical-study-guide-main/src/components/CurriculumView.tsx:18-29 | A new view is idle with the initial completed set |
| CurriculumView.ViewState.IsComplete | ethical-study-guide-main/src/components/CurriculumView.tsx:84 | The curriculum shows as complete iff every module index is in the set |
| CurriculumView.ViewState.BeginToggle | ethical-study-guide-main/src/components/CurriculumView.tsx:31-40 | Without a user or while busy nothing changes; otherwise busy, with the flipped set pending and the committed set unchanged |
| CurriculumView.ViewState.EndToggle | ethical-study-guide-main/src/components/CurriculumView.tsx:42-80 | The rewritten array is written; the set is committed, the progress record produced and the observer notified only if that write succeeded; the busy flag ends false |
| CurriculumView.ToggleTwice | ethical-study-guide-main/src/components/CurriculumView.tsx:31-80 | Two successful toggles of one index restore the completed set, and the second write carries the original modules |
| Register.Validate | src/pages/Register.tsx:26-37 | Missing field first, then mismatch, then length below 6, else accepted; each as an if-and-only-if |
| Register.MismatchBeforeLength | src/pages/Register.tsx:30-33 | A mismatch is reported even when the password is also too short |
| Register.LengthBoundary | src/pages/Register.tsx:34-37 | A 6-character password passes; a 5-character one is weak |
| Register.RejectionToast | src/pages/Register.tsx:26-37 | Each rejection shows its own destructive notification title |
| Register.RegisterForm.constructor | src/pages/Register.tsx:16-18 | The form starts empty and not loading |
| Register.RegisterForm.SetField | src/pages/Register.tsx:60-74 | Typing replaces one field and nothing else |
| Register.RegisterForm.HandleSubmit | src/pages/Register.tsx:24-52 | sign-up is called with the form's credentials, with loading true, iff validation passes; loading then ends false; navigation to /login iff no error; failures report "Registration Failed" |
| AppLayout.IsActiveRoute | src/components/layouts/AppLayout.tsx:74-77 | "/" is active iff the path is "/"; any other href iff the path starts with it |
| AppLayout.NavigationTable | src/components/layouts/AppLayout.tsx:38-45 | Six entries, pairwise distinct hrefs, the first is "/" |
| AppLayout.NoHrefPrefixOfAnother | src/components/layouts/AppLayout.tsx:38-45 | No non-root href is a prefix of another |
| AppLayout.AtMostOneActive | src/components/layouts/AppLayout.tsx:38-77 | For every path at most one entry is active |
| AppLayout.OwnPageActive | src/components/layouts/AppLayout.tsx:38-77 | On an entry's own href exactly that entry is active |
| AppLayout.ToggleTheme | src/components/layouts/AppLayout.tsx:70-72 | "light" iff the resolved theme is "dark", otherwise "dark"; never the current theme |
| AppLayout.LayoutState.constructor | src/components/layouts/AppLayout.tsx:53-54 | Both sidebar flags start false |
| AppLayout.LayoutState.ToggleCollapsed | src/components/layouts/AppLayout.tsx:126 | The collapse button flips `sidebarCollapsed` only |
| AppLayout.LayoutState.OpenSidebar | src/components/layouts/AppLayout.tsx:141 | The menu button opens the mobile sidebar |
| AppLayout.LayoutState.CloseSidebar | src/components/layouts/AppLayout.tsx:89-106 | The backdrop or a sidebar link closes the mobile sidebar |
| AppLayout.LayoutState.LocationChanged | src/components/layouts/AppLayout.tsx:57-59 | A changed path closes the mobile sidebar; the same path leaves it as it is |
| AppLayout.LayoutState.ActiveEntries | src/components/layouts/AppLayout.tsx:224-225 | The highlighted entries for the current path, at most one of them |

## Left out

- Network and storage calls: the language-model requests, the video search HTTP request, and the conversation, curriculum and progress reads and writes. Their results are inputs (`ModelAnswer`, `SearchResponse`, `conversationExists`, `writeOk`). The writes are outputs describing the row sent. A failed non-authoritative write changes nothing in the response.
- The diagnostic model-information request in the chat handler, the CORS/OPTIONS handling and the `Deno.serve` wrappers. An unparseable request body is not modelled either.
- The choice between the two language-model keys, and their trimming, is modelled as one boolean "key configured".
- Prompt texts: the ethical system prompt and the four guidance blocks are shortened to their first line; the generation prompt is modelled as the values interpolated into it (`PromptParams`), and `hoursPerDay`, which only appears in that text, is not modelled.
- Code-fence stripping and `JSON.parse` of the model's text: the parse result is an input (`parsed`). The model does not claim the text is fence-free. Only the curriculum fields used here (planId, duration, modules) are kept; a structurally malformed answer (no module list, non-string fields) is not modelled.
- Nothing in the generation handler checks that the model returned `durationWeeks` modules, so no such property is claimed.
- `Date.now()` and the base-36 random suffix of a generated plan id are inputs. All timestamps (`updated_at`, `last_activity`) are left out.
- The search request asks for 3 results, but nothing in the code enforces that bound on the response, so the videos per module (and with them the Mixed length bound) are not bounded by 3 or 5 here.
- `toLowerCase` is modelled for ASCII letters only. String lengths (the 50-character title, the 6-character password) count Unicode scalar values, not UTF-16 code units.
- Concurrency: the read-then-write race in conversation saving, and last-writer-wins across tabs or sessions. The view's curriculum prop is fixed for the view's lifetime; a refresh by the parent after `onPageUpdate` is not modelled.
- The float progress percentage in the curriculum view; the registration page's redirect of a signed-in user and its show-password toggle; the layout's logout handler.
- Dashboard, count-up animation, card carousel, login page, history pages, landing, settings, not-found, auth layout, blur and index pages: presentation, data loading or animation.
