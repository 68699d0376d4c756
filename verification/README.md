# euromed-intelplanner, modelled in Dafny

This project models the behaviour of the marketing-planner web application
euromed-intelplanner. It covers the parts of the application that hold state and
make decisions, and proves what they promise:

- **The wizard step-state machine** (`GravityContext`). This is a fixed, ordered list of six steps:
  `dashboard`, `strategy`, `channels`, `roi`, `timeline` and `rival-intel`. Each step is locked,
  active or completed and carries an opaque result. The list is kept together with the
  `seed`, `budget` and `market` that the pages share. `setSeed`, `completeStep`,
  `resetChain` and `unlockStep` are methods of the class `Gravity.GravityProvider`. Each is proved
  against a function that gives the new step list, and the walk through the wizard in order is
  proved as a lemma.
- **The shared-password gate** (`AuthContext`). One password is valid at a time, chosen by comparing
  the clock with a fixed expiry. The gate also keeps an authenticated flag and one
  session-storage entry.
- **The interface language** (`LanguageContext`). It covers the `t` lookup with its fallback to the key,
  `setLang`, and the `useLanguage` guard.
- **The Gemini client** (`google-gemini.ts`). It covers the retry classifier and the attempt loop with
  exponential backoff, which is a `while` loop over attempt outcomes given as an input. It also
  covers the error the loop finally throws and the reply clean-up: strip the code fences, trim,
  and take the brace span.
- **The Groq client** (`groq.ts`). It covers the brace-span extraction every `generate*` applies,
  the `generateDeepDive` guard, its recommendation list and its blank-reply check, the
  `langMap` and market fallbacks, and the lazily created client.
- **The channels page**. Its `handleGenerate` builds the channel mix from substring triggers,
  a region test and conditional pushes, then passes the list to `completeStep("channels", …)`.
- **The timeline page**. Its `handleGenerate` picks the phases with their month buffers, adds the
  Impact-only September/October deadline alert, and numbers and dates the phase milestones.
- **The two numeric API routes** (`/api/ai/roi`, `/api/ai/strategy`). Each is a validation chain
  with its 400 and 500 answers.

Files:

| file | what |
|---|---|
| `wrappers.dfy` | `Option` and `Result` |
| `strings.dfy` | the JavaScript string primitives used: `findIndex`, `includes`, `replace(/…/g, "")`, `trim`, `toLowerCase`, integer interpolation, `join`/`split` |
| `json_span.dfy` | the match of `/\{[\s\S]*\}/` shared by both clients |
| `gravity.dfy` | the wizard |
| `auth.dfy`, `language.dfy` | the two other contexts |
| `gemini.dfy`, `groq.dfy` | the two model clients |
| `records.dfy` | the channel and milestone records the pages store as step data |
| `channels.dfy`, `timeline.dfy` | the two page builders |
| `http.dfy`, `roi_route.dfy`, `strategy_route.dfy` | the routes |

Where the source does its work by updating state, the model does too:

- The contexts and pages are classes whose methods `modify` their fields.
- The Gemini attempt loop and the timeline's `forEach` are `while` loops with invariants.
- The channel and milestone builders assign and append in the order of the source.

Each such method is proved equal to a function of its inputs, and the properties are lemmas
about those functions.

Inputs from outside the program become parameters:

- the clock (milliseconds);
- the session storage (a map);
- `process.env.GROQ_API_KEY`;
- the outcome of each Gemini attempt;
- the model's reply and `JSON.parse`;
- JavaScript truthiness and `parseFloat` in the routes.

## Model

| member | source | states |
|---|---|---|
| Gravity.InitialSteps | src/context/GravityContext.tsx:34-41 | six steps in the fixed id order, `dashboard` completed, every other step locked, every `data` null |
| Gravity.GravityProvider.constructor | src/context/GravityContext.tsx:44-47 | seed "", budget 0, market "", steps `INITIAL_STEPS`, and the layout invariant holds |
| Gravity.IndexOfId | src/context/GravityContext.tsx:64 | `findIndex` on ids: -1 exactly when no step has the id, otherwise the first step with it |
| Gravity.IndexOfStepId | src/context/GravityContext.tsx:34-41 | in every reachable list, each fixed id is found at its own position |
| Gravity.Reseeded | src/context/GravityContext.tsx:54-58 | the layout is kept; the dashboard is completed with its data kept; `strategy` is active with null data; every other step is locked with null data |
| Gravity.GravityProvider.SetSeed | src/context/GravityContext.tsx:51-59 | the seed is stored verbatim, the steps become `Reseeded` of the old steps, budget and market are unchanged, and the layout invariant is kept |
| Gravity.ReseedShape | src/context/GravityContext.tsx:34-58 | after `setSeed` the list is `INITIAL_STEPS` with the dashboard's old data and `strategy` active |
| Gravity.ReseedForgetsHistory | src/context/GravityContext.tsx:54-58 | two histories whose dashboards hold the same data reseed to the same list |
| Gravity.CompletedSteps | src/context/GravityContext.tsx:62-79 | an unknown id leaves the list unchanged. Otherwise step i becomes completed with the new data, and step i+1 (if any) becomes active whatever its status, keeping its data. Every other step and the layout are unchanged |
| Gravity.GravityProvider.CompleteStep | src/context/GravityContext.tsx:62-79 | copies the list and writes slots `index` and `index + 1`. The result equals `CompletedSteps`, seed, budget and market are unchanged, and the layout invariant is kept |
| Gravity.CompleteLastStep | src/context/GravityContext.tsx:73-75 | completing `rival-intel` rewrites that one step only |
| Gravity.CompleteIdempotent | src/context/GravityContext.tsx:62-79 | completing a step twice with the same data is completing it once |
| Gravity.CompleteMovesForward | src/context/GravityContext.tsx:67-75 | no step goes back to locked, and no step before the completed one changes |
| Gravity.GravityProvider.ResetChain | src/context/GravityContext.tsx:82-85 | seed "", steps `INITIAL_STEPS`, budget and market unchanged |
| Gravity.UnlockedSteps | src/context/GravityContext.tsx:87-89 | the matching step becomes active. All data, all other statuses and the layout are kept, and an unknown id changes nothing |
| Gravity.GravityProvider.UnlockStep | src/context/GravityContext.tsx:87-89 | the steps become `UnlockedSteps` of the old steps and nothing else changes |
| Gravity.GravityProvider.SetBudget | src/context/GravityContext.tsx:45 | sets the budget only |
| Gravity.GravityProvider.SetMarket | src/context/GravityContext.tsx:46 | sets the market only |
| Gravity.FirstActive | src/context/GravityContext.tsx:92 | `currentStepIndex`: the smallest index of an active step, or -1 exactly when none is active |
| Gravity.InOrderWalk | src/context/GravityContext.tsx:51-92 | after `setSeed` and k in-order completions: steps 0..k are completed and hold their results, exactly step k+1 is active, later steps are locked and empty, and `currentStepIndex` is k+1 (or -1 once `rival-intel` is completed) |
| Gravity.WalkStep | src/context/GravityContext.tsx:67-75 | one more in-order completion extends that shape by one step |
| Gravity.CompleteCurrent | src/context/GravityContext.tsx:62-92 | a page that completes the current step moves `currentStepIndex` one step on |
| Auth.CurrentPassword | src/context/AuthContext.tsx:14-28 | `next` exactly when now is strictly after the expiry, otherwise `current` |
| Auth.OnePasswordAtATime | src/context/AuthContext.tsx:23-51 | at any instant `login` accepts exactly one of `current` and `next`, accepts no other text, and any two accepted passwords are equal |
| Auth.RotationAtExpiry | src/context/AuthContext.tsx:23-28 | after the expiry `current` is rejected; at or before it `next` is rejected |
| Auth.AuthProvider.constructor | src/context/AuthContext.tsx:31-32 | not authenticated, loading, storage as the browser holds it |
| Auth.AuthProvider.Mount | src/context/AuthContext.tsx:34-41 | authenticated exactly when the stored value is "true" (or was already), loading ends, storage is untouched |
| Auth.AuthProvider.Login | src/context/AuthContext.tsx:43-51 | true exactly when `Accepts(now, password)`, that is for the password valid now. Then the flag is set and "true" is stored under `euromed_auth`. Otherwise flag and storage are unchanged |
| Auth.AuthProvider.Logout | src/context/AuthContext.tsx:53-56 | flag cleared, the `euromed_auth` entry removed and every other entry kept |
| Auth.UseAuth | src/context/AuthContext.tsx:69-75 | the provider in scope, or the error "useAuth must be used within an AuthProvider" exactly when there is none |
| Wrappers.UseContext | src/context/AuthContext.tsx:69-75 | a context hook returns the provider's value, and fails with the hook's message exactly when no provider is in scope |
| Language.Code | src/context/LanguageContext.tsx:5 | the language is one of "en", "es", "ca" |
| Language.Translate | src/context/LanguageContext.tsx:297-299 | a present non-empty entry of the language's table, otherwise the key itself |
| Language.MissingKeyShownVerbatim | src/context/LanguageContext.tsx:298 | a key missing from every table is shown as itself in every language |
| Language.LanguageProvider.constructor | src/context/LanguageContext.tsx:295 | the initial language is Spanish |
| Language.LanguageProvider.SetLang | src/context/LanguageContext.tsx:295-299 | sets the language; `t` then reads that language's table |
| Language.LanguageProvider.T | src/context/LanguageContext.tsx:297-299 | the lookup in the current language's table with the key as fallback |
| Language.UseLanguage | src/context/LanguageContext.tsx:308-313 | the provider in scope, or the error "useLanguage must be used within a LanguageProvider" exactly when there is none |
| GoogleGemini.IsRetryable | src/lib/google-gemini.ts:177-198 | true exactly when the message contains "timeout", "ECONNRESET", "ETIMEDOUT" or "rate limit", or the status is one of 408, 429, 500, 502, 503, 504, or the code is one of the three listed codes |
| GoogleGemini.TimeoutRetried | src/lib/google-gemini.ts:99-181 | the timer's rejection is retryable |
| GoogleGemini.EmptyResponseFinal | src/lib/google-gemini.ts:177-197 | the empty-reply error is not retryable, so it ends the loop |
| GoogleGemini.NoRetryableFragment | src/lib/google-gemini.ts:177-197 | a message lacking the letters that the four fragments need, with no code or status, is not retryable |
| GoogleGemini.AttemptError | src/lib/google-gemini.ts:116-126 | what `lastError` becomes: the empty-reply error for an empty reply, else the thrown error |
| GoogleGemini.CallWithRetries | src/lib/google-gemini.ts:70-172 | between 1 and maxRetries+1 attempts. Every attempt but the last failed retryably. Success exactly when the last attempt replied non-empty, and then with that text. On failure the budget was spent or the last error was not retryable, and the thrown error is `Enhanced` of the last one. The waits are `Backoff` of the attempts after the first |
| GoogleGemini.Enhanced | src/lib/google-gemini.ts:159-171 | the thrown error reports maxRetries+1 attempts however many ran, and copies the last error's code and status |
| GoogleGemini.Backoff | src/lib/google-gemini.ts:75-78 | one wait per attempt after the first |
| GoogleGemini.BackoffAt | src/lib/google-gemini.ts:75-78 | the wait before attempt k+1 is retryDelay·2^k, and each wait is twice the one before |
| GoogleGemini.DelayIsProduct | src/lib/google-gemini.ts:76 | k doublings of the delay are `retryDelay * Math.pow(2, k)` |
| GoogleGemini.BackoffSum | src/lib/google-gemini.ts:75-78 | the waits so far plus retryDelay equal the next wait |
| GoogleGemini.BackoffTotal | src/lib/google-gemini.ts:75-78 | before attempt n the loop has waited retryDelay·(2^n − 1) in all |
| GoogleGemini.LeadTicks | src/lib/google-gemini.ts:254 | the number of leading backticks is at most the length |
| GoogleGemini.FenceAtStart | src/lib/google-gemini.ts:254 | a text starts with "```" exactly when at least three backticks lead it |
| GoogleGemini.RemovalLeadTicks | src/lib/google-gemini.ts:254 | removing "```" left to right leaves n mod 3 of n leading backticks |
| GoogleGemini.NoFenceAfterRemoval | src/lib/google-gemini.ts:254 | after `replace(/```/g, "")` no "```" is left |
| GoogleGemini.CleanReply | src/lib/google-gemini.ts:254 | the clean-up never lengthens the reply |
| GoogleGemini.CleanReplyHasNoFence | src/lib/google-gemini.ts:254 | the cleaned reply holds no code fence |
| GoogleGemini.ExtractJson | src/lib/google-gemini.ts:254-256 | either the error "Invalid JSON response from Gemini" or a text that starts with "{" and ends with "}" |
| GoogleGemini.ExtractedHasNoFence | src/lib/google-gemini.ts:254-256 | what reaches `JSON.parse` holds no code fence |
| GoogleGemini.ExtractionIgnoresTrim | src/lib/google-gemini.ts:254-255 | the trim before `match` never changes what is extracted |
| GoogleGemini.CleanMarkdown | src/lib/google-gemini.ts:384 | the deep-dive clean-up never lengthens the reply |
| GoogleGemini.CleanMarkdownHasNoFence | src/lib/google-gemini.ts:384 | the deep-dive text holds no code fence |
| JsonSpan.FirstOpen | src/lib/groq.ts:118 | the first "{", or -1 exactly when there is none |
| JsonSpan.LastClose | src/lib/groq.ts:118 | the last "}", or -1 exactly when there is none |
| JsonSpan.Extract | src/lib/groq.ts:118-121 | failure with the given error exactly when no "{" precedes a "}". Otherwise the text from the first "{" to the last "}", which starts with "{" and ends with "}" |
| JsonSpan.SpanKeepsAbsence | src/lib/groq.ts:118-123 | the span lacks whatever the reply lacks |
| JsonSpan.BraceSpanIgnoresTrim | src/lib/google-gemini.ts:254-255 | trimming never changes the span |
| Groq.GroqClientCache.constructor | src/lib/groq.ts:4 | the cache starts empty |
| Groq.GroqClientCache.GetGroqClient | src/lib/groq.ts:6-15 | a cached client is returned unchanged. Without one, a missing or empty key throws and caches nothing, and a key builds the client, caches it and returns it |
| Groq.ReplyText | src/lib/groq.ts:38 | the reply content, or "" when there is none |
| Groq.GenerateJson | src/lib/groq.ts:114-124 | a failed call passes its error through. A reply without a span throws "Invalid JSON response from AI". Otherwise the span is parsed |
| Groq.GenerateChannelMix | src/lib/groq.ts:185-194 | the same outcome as the shared extraction, with only the `channels` field returned |
| Groq.Lines | src/lib/groq.ts:330 | one line per recommendation, line i being recommendation i numbered i+1, with "Recomendación" for a missing title |
| Groq.RecommendationsText | src/lib/groq.ts:329-331 | an empty list reads "No hay recomendaciones disponibles"; a non-empty one is its `Lines` joined by newlines |
| Groq.RecommendationsOf | src/lib/groq.ts:328 | a missing `recommendations` reads as the empty list, a present one as itself |
| Groq.DeepDivePromptOf | src/lib/groq.ts:328-374 | the prompt carries the mission, the recommendations text, the seed and the language name given by the corrected `LangName` |
| Groq.DeepDivePromptAsWritten | src/lib/groq.ts:328-374 | the same prompt with the language name as the code computes it |
| Groq.PromptsAgreeOnOwnKeys | src/lib/groq.ts:333-350 | the two prompts agree for every `lang` that is not an inherited `Object.prototype` key, and differ for "constructor" |
| Groq.RecommendationLines | src/lib/groq.ts:328-331 | splitting the text at newlines gives back one line per recommendation, in order |
| Groq.LineNumbered | src/lib/groq.ts:330 | line i starts with "i+1. " |
| Groq.GenerateDeepDive | src/lib/groq.ts:321-388 | a missing strategy or `missionCritical` throws before the model call. Otherwise the model is called on `DeepDivePromptOf`: its error passes through unchanged, a blank reply throws "Empty response from AI", and any other reply is returned verbatim |
| Groq.GuardBeforeModel | src/lib/groq.ts:323-326 | a request that fails the guard gives the same error whatever the model |
| Groq.BlankReplyRejected | src/lib/groq.ts:379-381 | whatever the model does with other prompts, a whitespace-only reply to the deep-dive prompt throws "Empty response from AI" |
| Groq.VisibleReplyReturned | src/lib/groq.ts:379-383 | whatever the model does with other prompts, a reply to the deep-dive prompt with a visible character comes back verbatim |
| Groq.LangName | src/lib/groq.ts:53-68 | "es", "ca" and "en" map to their names; every other value maps to "español" |
| Groq.LangFallback | src/lib/groq.ts:68 | every other language reads as Spanish |
| Groq.LangNameAsWritten | src/lib/groq.ts:53-68 | as written, any value that is not an inherited member of `Object.prototype` agrees with `LangName` |
| Groq.LangMapPrototypeLeak | src/lib/groq.ts:53-68 | for `lang` "constructor" the code as written differs from the intended "español" |
| Groq.MarketContext | src/lib/groq.ts:406-408 | a falsy market gives the line with "Global", any other market the line with it |
| Groq.MarketLabel | src/lib/groq.ts:418 | a falsy market reads as "global" |
| Groq.GapDetectionAlwaysGlobal | src/app/api/ai/gap-detection/route.ts:7-21 | example: at the absent market both fallbacks read "Global"; that the route forwards no market is read from the route, not modelled |
| Channels.RegionOf | src/app/channels/page.tsx:46-59 | USA exactly when the lower-cased market contains "usa", "us", "america" or "states". Asia only on an Asia keyword. Europe otherwise, and then no Asia keyword is present |
| Channels.AustraliaCountsAsUSA | src/app/channels/page.tsx:46-55 | example: "Australia" contains "us" and gets the US venue |
| Channels.PickVenue | src/app/channels/page.tsx:45-59 | the event and media reassigned from the European default are the venue of the market's region |
| Channels.Optional | src/app/channels/page.tsx:70-95 | at most two optional entries |
| Channels.MixOf | src/app/channels/page.tsx:61-214 | between 3 and 5 entries, each with relevance at most 100 |
| Channels.ChannelMix | src/app/channels/page.tsx:30-110 | between 3 and 5 entries, each with relevance at most 100 |
| Channels.PushOptional | src/app/channels/page.tsx:70-95 | the conditional pushes append exactly the optional entries |
| Channels.PushEntries | src/app/channels/page.tsx:61-214 | each language branch pushes the mix for the triggers and venue |
| Channels.BuildChannels | src/app/channels/page.tsx:28-214 | the list built is `ChannelMix` of the inputs |
| Channels.ChannelsPage.constructor | src/app/channels/page.tsx:19-22 | empty market and audience, not loading, no channels |
| Channels.ChannelsPage.HandleGenerate | src/app/channels/page.tsx:24-220 | the same list goes to `setChannels` and to `completeStep("channels", …)`. Seed, budget and market are unchanged |
| Channels.MixShape | src/app/channels/page.tsx:63-110 | LinkedIn (Digital, 95) is first. Instagram is present exactly on its trigger, and then second. The length is 3 plus one per trigger group. Journal and then Events are the last two |
| Channels.AtMostOnePortal | src/app/channels/page.tsx:40-95 | the immune portal exactly on the immune trigger, the probiotics portal exactly on the probiotic trigger without the immune one, never both |
| Channels.ProfileOfMix | src/app/channels/page.tsx:61-214 | kinds and relevances depend on the triggers only |
| Channels.SameProfileInEveryLanguage | src/app/channels/page.tsx:61-214 | the es, ca and en branches give the same kinds and relevances in the same order |
| Timeline.Buffers | src/app/timeline/page.tsx:35 | the buffers of the phases, in order |
| Timeline.AddMonths | src/app/timeline/page.tsx:38-42 | the month exactly `months` months after the start's, counting across years |
| Timeline.PhaseMilestones | src/app/timeline/page.tsx:108-115 | one milestone per phase |
| Timeline.ChooseImpactPhases | src/app/timeline/page.tsx:45-64 | the Impact phases of the page language |
| Timeline.ChooseMaintenancePhases | src/app/timeline/page.tsx:82-104 | the Maintenance phases of the page language |
| Timeline.PushPhases | src/app/timeline/page.tsx:108-115 | the `forEach` appends exactly the numbered phase milestones |
| Timeline.BuildMilestones | src/app/timeline/page.tsx:31-115 | the list built is `Milestones` of the inputs |
| Timeline.TimelinePage.constructor | src/app/timeline/page.tsx:21-23 | campaign type "Impact", not loading, no milestones |
| Timeline.TimelinePage.HandleGenerate | src/app/timeline/page.tsx:27-121 | the same list goes to `setMilestones` and to `completeStep("timeline", …)` |
| Timeline.PhaseOffsets | src/app/timeline/page.tsx:45-104 | Impact buffers are [0, 1, 2] and Maintenance buffers are [0, 4, 8, 11] |
| Timeline.MilestoneCount | src/app/timeline/page.tsx:45-115 | 3 or 4 milestones for Impact, always 4 for Maintenance |
| Timeline.AlertOnlyWhenDue | src/app/timeline/page.tsx:67-80 | an "ALERTA" milestone is present exactly for Impact with a start month of 8 or 9, and then it is first |
| Timeline.AlertDate | src/app/timeline/page.tsx:74-79 | the alert has phase "ALERTA" and date "<year>-10-28" |
| Timeline.PhaseNumbering | src/app/timeline/page.tsx:108-115 | phase k is labelled "Fase k+1" or "Phase k+1" whether or not the alert precedes it. It keeps its title and is dated its buffer after the start |
| Timeline.PhasesInOrder | src/app/timeline/page.tsx:108-115 | later phases are dated strictly later |
| Timeline.SeptemberLaunch | src/app/timeline/page.tsx:45-115 | example: a Spanish Impact plan started in September 2025, written out in full |
| Timeline.MaintenanceWrapsYear | src/app/timeline/page.tsx:38-42 | example: a Maintenance plan started in March reaches February of the next year |
| RoiRoute.Post | src/app/api/ai/roi/route.ts:4-52 | each answer exactly on its condition, in order. Missing field: 400. Investment unparsable or below 5000: 400. Revenue unparsable or at most 0: 400. Otherwise the generator's result. Any thrown error: 500 "Failed to generate ROI analysis" |
| RoiRoute.InvestmentBoundary | src/app/api/ai/roi/route.ts:20-25 | exactly 5000 passes, anything below is rejected |
| RoiRoute.RevenueBoundary | src/app/api/ai/roi/route.ts:27-32 | a revenue at most 0 is rejected, any positive revenue passes |
| RoiRoute.GeneratorOnlyWhenAccepted | src/app/api/ai/roi/route.ts:10-42 | the generator is consulted only after every check passes |
| StrategyRoute.Post | src/app/api/ai/strategy/route.ts:4-42 | each answer exactly on its condition, in order. Missing field: 400. Budget unparsable or below 5000: 400. Otherwise the generator's result on the parsed budget. Any thrown error: 500 "Failed to generate strategy analysis" |
| StrategyRoute.BudgetBoundary | src/app/api/ai/strategy/route.ts:17-23 | exactly 5000 passes, anything below is rejected |
| StrategyRoute.GeneratorOnlyWhenAccepted | src/app/api/ai/strategy/route.ts:10-32 | the generator is consulted only after every check passes |
| Strings.FindIndex | src/context/GravityContext.tsx:64 | `findIndex`: -1 exactly when no element satisfies the test, otherwise the first one that does |
| Strings.FindLastIndex | src/lib/groq.ts:118 | the last element that satisfies the test, or -1 exactly when none does |
| Strings.RemoveAll | src/lib/google-gemini.ts:254 | removal never lengthens the text |
| Strings.NothingToRemove | src/lib/google-gemini.ts:254 | a text without the pattern is left unchanged |
| Strings.TrimBounds | src/lib/groq.ts:379 | everything cut is whitespace, and the kept part neither starts nor ends with whitespace |
| Strings.TrimEmptyIffBlank | src/lib/groq.ts:379 | `trim() === ''` exactly when the text is all whitespace |
| Strings.ToLower | src/app/channels/page.tsx:30-32 | the same length, with each character lowered |
| Strings.NatToString | src/app/timeline/page.tsx:110 | a non-empty string of decimal digits |
| Strings.SplitJoin | src/lib/groq.ts:330 | splitting a `join` at the separator gives the pieces back when no piece contains the separator |

## Left out

- The presentation layer is left out: JSX, CSS, the sidebar, tooltips, cards, the login page and the
  markdown-to-HTML rendering. Only `Gravity.Navigable`, the sidebar's link test, is kept.
- The SDK calls, `JSON.parse` and the prompt texts are left out. A model reply is an input string or
  result, and parsing is a function parameter.
- `setTimeout` delays, the `Promise.race` timeout and `await` are left out. Each Gemini attempt's outcome
  is given as an input, and the waits are returned as the delays asked for, not slept.
- The prose is left out: channel `reasoning`, milestone and alert descriptions, and phase `desc`.
  Names, titles, labels, kinds and relevances are kept.
- The other pages and their routes are left out. The strategy, ROI and rival-intel pages choose among
  fixed prose tables or do floating-point arithmetic. The timeline, channels, competitor,
  deep-dive and gap-detection routes only check presence and forward.
- `src/lib/gemini.ts` is a pure re-export and is not part of this model.
- The empty-seed guard of `src/app/page.tsx` is left out. `SetSeed` accepts any seed.
- Report export (`handleExport`) and the explanation text generators are left out.
- Request ids, debug logging and `getGeminiClient` are left out.
- Timeline.AddMonths: `new Date(startDate)` parsing, time zones, the day overflow of `setMonth` and
  `toLocaleDateString` are not modelled. The start is an already-parsed (year, month index), and a
  phase date is a (year, month) pair rather than a localised text.
- Auth.CurrentPassword: the clock is an integer of local wall-clock milliseconds, and the expiry
  `2026-01-27T23:59:59` is that clock's value 1769558399000.
- Strings.ToLower: lowers the ASCII and Latin-1 capitals only, while `toLowerCase` lowers every
  Unicode letter. The channel and region keywords are ASCII, apart from "estética" and "probiótico".
- GoogleGemini.CallWithRetries: `maxRetries` is a natural number. A negative `maxRetries` makes the
  source run no attempt and report "Unknown error", and that case is not modelled. A thrown value that
  is not an `Error` is modelled by its message, code and status only.
- GoogleGemini.Backoff: the waits are defined by doubling. Their equality with
  `retryDelay * Math.pow(2, attempt - 1)` is proved in `DelayIsProduct` and `BackoffAt`, and the
  loop appends that product form.
- RoiRoute.Post and StrategyRoute.Post: JavaScript truthiness and `parseFloat` are function
  parameters (NaN is `None`). A body that `request.json()` cannot parse lands in the catch block
  like a thrown generator. An `Infinity` result of `parseFloat` is not distinguished.
- Language.Translate: the translation table is a parameter with one map per language. A key that is an
  inherited member of `Object.prototype` is not modelled.
- Groq.GenerateDeepDive: the prompt names the language with the corrected `LangName` (see
  "## Findings"), so for `lang` "constructor" it reads "español" where the code as written puts the
  text of `Object`. The as-written prompt is `Groq.DeepDivePromptAsWritten`, and
  `Groq.PromptsAgreeOnOwnKeys` states where the two differ.
- The gap-detection route itself is not modelled: it never forwards a market, and
  `Groq.GapDetectionAlwaysGlobal` only evaluates both fallbacks at the absent market.

## Findings

| source | as written | input that shows it | evidently intended | confidence | as-written member | corrected member |
|---|---|---|---|---|---|---|
| src/lib/groq.ts:53-68 | `langMap[lang] \|\| "español"` reads `lang` from a plain object literal, so inherited `Object.prototype` members also match | `lang` = "constructor": the prompt names the language "function Object() { [native code] }" | any language other than es, ca and en reads as "español" | not executed | Groq.LangNameAsWritten, Groq.LangMapPrototypeLeak | Groq.LangName, Groq.LangFallback |
