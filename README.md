# PC-build wizard: the wizard state, the compatibility filter and the build serialiser

This project models the core of a single-page PC-build wizard and proves its properties in
Dafny. The user visits nine part categories in a fixed order. At each step a selector offers
the catalogue parts of that category. A part already in the build can narrow that list:
- the processor narrows the motherboards by socket;
- the motherboard narrows the processors by socket and the memory by memory type;
- an ATX motherboard narrows the cases to ATX.

Picking a part stores it under its category. Next and Back move between the steps. After the
last step a summary lists the chosen parts and their total price. On entering the summary, the
page asks an AI advisor once for a compatibility report. The request embeds the build,
serialised line by line, in a fixed instruction text; only the serialisation is modelled.

Modules:

- `Types` (`types.ts`): the categories and their string values, the part record with its
  optional attributes, the build as a map from category to part, and the wizard order.
- `Catalog` (`constants.ts`): the 25-part catalogue as literal constants, and facts about it:
  - the ids are distinct;
  - each category is one contiguous run;
  - which sockets, memory types and form factors occur.
- `Seqs`: order-preserving subsequences. This is what `Array.prototype.filter` returns.
- `PartSelector` (`components/PartSelector.tsx`):
  - the filter chain that computes `availableParts`;
  - the choice between the part grid and the "no compatible parts" notice;
  - the `isSelected` highlight.
- `App` (`App.tsx`):
  - the three state cells as a `Session` value;
  - the handlers as transition functions;
  - the completion effect;
  - the derived values: current category, completion, total price, progress bar and summary;
  - the buttons the page enables;
  - class `Wizard`, which holds the state in fields and whose methods are specified by the
    transition functions.
- `GeminiService` (`services/geminiService.ts`): `buildToPrompt`. It is a method with a loop,
  proved against the function `PromptText`. The line-count lemmas are proved about that function.
- `Scenarios`: concrete outcomes of the filter and the price total on the shipped catalogue.

Two behaviours of the code are worth stating exactly:

- The final check has no separate "already fetched" flag. It is guarded on the analysis text
  alone (`App.tsx:49-54`). A non-empty answer is never requested twice without a reset
  (`App.AtMostOneRequest`). An empty answer stays falsy, so a direct `prevStep` call from the
  summary followed by `nextStep` would ask again (`App.EmptyAnswerIsAskedAgain`). The page never
  makes that call: the summary renders no Back button, and only the header's Reset is offered
  there (`App.CompleteOffersOnlyReset`). So through the page the advisor is asked at most once
  per reset, whatever it answers (`App.PageRunAsksAtMostOnce`).
- `nextStep` checks only the index (`App.tsx:23-27`). The "selection required" gate exists only
  as the Next button's disabled state (`App.tsx:127`). `App.AfterNext` models the handler and
  `App.CanPressNext` models the button.

## Model

| member | source | states |
|---|---|---|
| Types.Label | types.ts:1-11 | The string value of each enum member. `Types.LabelsDistinctSingleLine` proves them distinct and single-line. |
| Types.LabelsDistinctSingleLine | types.ts:1-11 | No two categories share a string value, and no value contains a line break. |
| Types.StepOf | types.ts:43-53 | Every category appears in the wizard order exactly once, at the step returned. |
| Types.CategoryOrderIsPermutation | types.ts:43-53 | The wizard order has nine entries, none repeated, and contains every category. |
| Types.CategoryOrderStartsCpuMoboRam | types.ts:43-51 | The wizard begins with processor, motherboard and memory, in that order, and the case comes after the motherboard. So the motherboard, memory and case rules read a part chosen at an earlier step. The processor rule reads the motherboard, chosen later, and so applies only after going back. |
| Catalog.IdGivesPosition | constants.ts:6-284 | Reading a catalogue id as group prefix plus running number gives back the part's position. |
| Catalog.CatalogueIdsDistinct | constants.ts:6-284 | No two catalogue parts share an id. |
| Catalog.GroupBounds | constants.ts:6-284 | Each category's parts form one non-empty contiguous run of the catalogue. A part lies in the run exactly when it has that category. |
| Catalog.ProcessorRun | constants.ts:7-56 | The processor run is cpu-1 to cpu-4, in that order. |
| Catalog.BoardRun | constants.ts:57-94 | The motherboard run is mobo-1 to mobo-3, in that order. |
| Catalog.MemoryRun | constants.ts:95-126 | The memory run is ram-1 to ram-3, in that order. |
| Catalog.CaseRun | constants.ts:213-244 | The case run is case-1 to case-3, in that order. |
| Catalog.PricesPositive | constants.ts:6-284 | Every catalogue price is positive. |
| Catalog.SocketsKnown | constants.ts:16-90 | Every processor and motherboard names LGA1700, AM5 or AM4. |
| Catalog.ProcessorsHaveSockets | constants.ts:7-56 | No catalogue processor lacks a socket. |
| Catalog.MemoryTypesStated | constants.ts:57-126 | Every motherboard and memory kit states a memory type. |
| Catalog.EveryCategoryStocked | constants.ts:6-284 | Every category has at least one catalogue part. |
| Catalog.FormFactors | constants.ts:57-244 | Every motherboard is ATX. Among the cases, only case-2 is not ATX; it is mATX. |
| Catalog.OnlyAm5Board | constants.ts:26-80 | cpu-2 is AM5, and mobo-2 is the only AM5 motherboard. |
| PartSelector.Filter | components/PartSelector.tsx:19-39 | A part is in the result exactly when it is in the input and satisfies the `===` test. |
| PartSelector.FilterIsSubsequence | components/PartSelector.tsx:19-39 | The filter keeps the matching parts in catalogue order and adds or repeats none. |
| PartSelector.FilterAllOrNone | components/PartSelector.tsx:19-39 | A list whose parts all match is kept whole. A list where none matches is emptied. |
| PartSelector.FilterIf | components/PartSelector.tsx:22-39 | A guarded re-filter keeps a part exactly when it was there and, if the guard holds, matches. |
| PartSelector.FilterIfIsSubsequence | components/PartSelector.tsx:22-39 | A guarded re-filter never reorders or adds parts. |
| PartSelector.AvailableParts | components/PartSelector.tsx:19-39 | Every offered part is a catalogue part of the requested category. With no applicable rule, the offer is the whole category in catalogue order. |
| PartSelector.AvailablePartsIsSubsequence | components/PartSelector.tsx:19-39 | The offer is an order-preserving subsequence of the catalogue. |
| PartSelector.Rule | components/PartSelector.tsx:22-39 | A narrowing rule exists exactly when the category is constrained by the build. |
| PartSelector.AtMostOneRule | components/PartSelector.tsx:22-39 | The four guards name distinct categories. So the chain equals the category filter, narrowed by at most one rule. |
| PartSelector.AvailablePartsMembership | components/PartSelector.tsx:19-39 | A part is offered if and only if it is a catalogue part of the category that passes every compatibility rule. The case rule reacts only to an ATX board. |
| PartSelector.Compatible | components/PartSelector.tsx:22-39 | The four rules as one predicate on a candidate part. `PartSelector.AvailablePartsMembership` proves that the filter chain offers exactly the compatible parts of the category. |
| PartSelector.IsSelected | components/PartSelector.tsx:85 | The id comparison behind the highlight. `PartSelector.SelectedCardIsStoredPart` and `App.PageHighlightsStoredPart` prove that it singles out the stored part. |
| PartSelector.View | components/PartSelector.tsx:76-85 | The notice shows exactly when nothing is offered, and asks to change the processor for a motherboard request and the motherboard otherwise. Otherwise there is one card per offered part, in order, highlighted exactly when its id equals the stored part's id. |
| PartSelector.SelectedCardIsStoredPart | components/PartSelector.tsx:85 | With distinct ids, a card is highlighted exactly when it is the stored part. |
| App.IsComplete | App.tsx:17 | The wizard is complete exactly at index nine. `App.CurrentCategory` proves that the current category is undefined exactly then. |
| App.CurrentCategory | App.tsx:14-17 | In a valid state the current category is defined exactly when the wizard is not complete. When defined, it sits at the current step. |
| App.TotalPrice | App.tsx:16 | The sum of the prices of the present parts. `App.TotalPriceBounds`, `App.TotalPriceAfterSelect` and `App.TotalPriceIsSummarySum` state its properties. |
| App.TotalPriceBounds | App.tsx:16 | The empty build costs 0. With non-negative prices, no build costs less than 0. |
| App.SumPricesUpdate | App.tsx:16 | Storing a part under a listed category changes the sum by the new price minus the old one. |
| App.TotalPriceAfterSelect | App.tsx:16-21 | After a selection, the total is the old total minus the replaced part's price plus the new price. |
| App.PresentCategories | App.tsx:156-158 | The summary's categories are, in wizard order, exactly those holding a part. |
| App.SummaryRows | App.tsx:156-171 | There is one summary row per present category, in order, each showing the part stored there. |
| App.Summary | App.tsx:156-171 | The summary rows in wizard order. `App.SummaryRows`, `App.SummaryAtMostNine`, `App.FullBuildSummary` and `App.TotalPriceIsSummarySum` state its properties. |
| App.SummaryAtMostNine | App.tsx:156-171 | The summary never lists more rows than there are steps. |
| App.SumPricesIsPriceSumOfRows | App.tsx:156-176 | The category-wise price sum equals the sum over the summary rows. |
| App.TotalPriceIsSummarySum | App.tsx:156-176 | The total under the summary is the sum of the prices on its rows. |
| App.FullBuildSummary | App.tsx:156-171 | With every category filled, the summary lists all nine categories in wizard order. |
| App.ProgressBar | App.tsx:84-93 | There are nine segments. A segment is chosen exactly when it is reached and its category holds a part. It is ahead exactly when it is past the current step. |
| App.AfterSelect | App.tsx:19-21 | The part is stored under its own category, replacing any earlier one. Every other category, the step and the analysis are unchanged. Validity is kept. |
| App.AfterNext | App.tsx:23-27 | Below the end, the step advances by one. At the end nothing changes. The build and the analysis are untouched. Validity is kept. |
| App.AfterPrev | App.tsx:29-33 | Above 0, the step goes back by one. At 0 nothing changes. The build and the analysis are untouched. Validity is kept. |
| App.AfterReset | App.tsx:35-39 | From any state: step 0 (the processor), empty build, total 0, no analysis. |
| App.AfterFinalCheck | App.tsx:41-46 | The advisor's answer becomes the analysis. The analysis is truthy exactly when the answer is non-empty. Step and build are unchanged. |
| App.NextPrevInverse | App.tsx:23-33 | Inside the range, Next then Back, or Back then Next, restores the state. |
| App.SelectIdempotentAndOverwrites | App.tsx:19-21 | Selecting a part twice equals selecting it once. A later selection in the same category overwrites an earlier one. |
| App.Step | App.tsx:19-54 | An action followed by the completion effect keeps the state valid. |
| App.FinalCheckDue | App.tsx:49-54 | The effect's condition: completion has just become true and the analysis is falsy. `App.FinalCheckOnlyOnEntry` proves that this happens exactly on Next from the last step. |
| App.FinalCheckOnlyOnEntry | App.tsx:49-54 | The advisor is asked exactly on Next from the last step while the analysis is falsy. |
| App.NoRequestOnceAnalysed | App.tsx:49-54 | Once a truthy analysis is held, no run without a reset asks again or changes the analysis. |
| App.AtMostOneRequest | App.tsx:49-54 | Without a reset, and with a non-empty answer, a run asks the advisor at most once. |
| App.EmptyAnswerIsAskedAgain | App.tsx:49-54 | An empty answer leaves the analysis falsy, so Next, Back, Next from the last step asks twice when the handlers are called directly. That run is not one the page offers. |
| App.CanPressNext | App.tsx:117-131 | Next is rendered before completion and enabled only when the current category holds a part. `App.PageRunKeepsStepsChosen` and `App.PageCompletionIsFullBuild` follow from this gate. |
| App.CanPressBack | App.tsx:108-114 | Back is rendered before completion and disabled on step 0. `App.CompleteOffersOnlyReset` shows that it is absent on the summary. |
| App.Enabled | App.tsx:71-131 | The actions the page offers: a card of the current selector, Next or Back when enabled, and Reset always. `App.CompleteOffersOnlyReset` and `App.PageRunAsksAtMostOnce` state what this allows. |
| App.CompleteOffersOnlyReset | App.tsx:71-135 | On the summary the only action the page offers is Reset. |
| App.PageRunFromSummaryIsEmpty | App.tsx:71-135 | A reset-free run through the page cannot continue from the summary. |
| App.PageRunAsksAtMostOnce | App.tsx:49-135 | Through the page and without a reset, the advisor is asked at most once, even when it answers with empty text. |
| App.EnabledStepKeepsStepsChosen | App.tsx:95-127 | An action the page enables keeps every earlier step filled with a catalogue part. |
| App.PageRunKeepsStepsChosen | App.tsx:95-127 | Any run of page-enabled actions keeps every earlier step filled. |
| App.PageCompletionIsFullBuild | App.tsx:84-171 | A summary reached through the page holds a part in every category. It shows nine rows and an all-chosen progress bar. |
| App.PageHighlightsStoredPart | App.tsx:95-103 | On every step reached through the page, the highlighted catalogue card is the stored part and no other. |
| App.Wizard.constructor | App.tsx:9-11 | The cells start at step 0, with an empty build and no analysis. |
| App.Wizard.HandleSelectPart | App.tsx:19-21 | The fields become the state `AfterSelect` describes. |
| App.Wizard.NextStep | App.tsx:23-27 | The fields become the state `AfterNext` describes. |
| App.Wizard.PrevStep | App.tsx:29-33 | The fields become the state `AfterPrev` describes. |
| App.Wizard.ResetBuild | App.tsx:35-39 | The fields become the initial state. |
| App.Wizard.RunFinalCheck | App.tsx:41-46 | The analysis field becomes the advisor's answer. |
| App.Wizard.Dispatch | App.tsx:19-54 | After a user action and the effect keyed on completion, the fields and the "asked" flag are those of `Step`. |
| GeminiService.EntryLine | services/geminiService.ts:10 | The template line of a present part. `GeminiService.EntryTextLineBreaks` proves that it ends in exactly one line break. |
| GeminiService.PromptText | services/geminiService.ts:6-14 | The prompt as a value: the header followed by the entry lines. `GeminiService.BuildToPrompt` is proved equal to it, and `GeminiService.PromptOfEmptyBuild`, `GeminiService.PromptStartsWithHeader` and `GeminiService.PromptLineCount` state its shape. |
| GeminiService.BuildToPrompt | services/geminiService.ts:6-14 | The loop's result is the header followed by one line per present entry, in enumeration order. |
| GeminiService.PromptStep | services/geminiService.ts:8-11 | One more entry appends exactly its own text to the prompt. |
| GeminiService.LinesSnoc | services/geminiService.ts:8-11 | Enumerating one more entry appends its text and nothing else. |
| GeminiService.PromptOfEmptyBuild | services/geminiService.ts:6-14 | A build without parts serialises to the header alone. |
| GeminiService.PromptStartsWithHeader | services/geminiService.ts:7 | Every prompt begins with the header. |
| GeminiService.EntryBodySingleLine | services/geminiService.ts:10 | With a single-line name and brand, a part's line text has no line break. |
| GeminiService.EntryTextLineBreaks | services/geminiService.ts:9-10 | A present part adds exactly one line break. An absent one adds none. |
| GeminiService.HeaderIsOneLine | services/geminiService.ts:7 | The header holds exactly one line break. |
| GeminiService.LinesLineCount | services/geminiService.ts:8-12 | The entry lines hold one line break per present part. |
| GeminiService.PromptLineCount | services/geminiService.ts:6-14 | With single-line names and brands, the prompt has one line for the header and one per present part. |
| Scenarios.FilterSkipsRun | components/PartSelector.tsx:19 | A run of non-matching parts contributes nothing to the filter. |
| Scenarios.FilterKeepsRun | components/PartSelector.tsx:19 | A run of matching parts is kept whole and in order. |
| Scenarios.CategoryRun | components/PartSelector.tsx:19 | When a category occupies one contiguous run, the category filter returns exactly that run. |
| Scenarios.CategorySubset | components/PartSelector.tsx:19 | On the catalogue, the category filter returns the category's run in literal order. |
| Scenarios.Am5ProcessorOffersOnlyMobo2 | components/PartSelector.tsx:22-25 | With the AM5 processor cpu-2 chosen, exactly [mobo-2] is offered. |
| Scenarios.Mobo2OffersDdr5Memory | components/PartSelector.tsx:30-33 | With mobo-2 chosen, exactly [ram-1, ram-3] (DDR5) is offered. |
| Scenarios.AtxCases | components/PartSelector.tsx:36-37 | The ATX cases of the catalogue are exactly [case-1, case-3]. |
| Scenarios.CatalogueBoardDropsCase2 | components/PartSelector.tsx:34-39 | With any catalogue board chosen, the case step offers exactly [case-1, case-3]. |
| Scenarios.NonAtxBoardKeepsAllCases | components/PartSelector.tsx:34-39 | With no board, or a non-ATX board, all three cases are offered. |
| Scenarios.UnruledCategoriesListEverything | components/PartSelector.tsx:19-39 | Graphics cards, storage, power supplies, coolers and monitors are always offered in full. |
| Scenarios.SocketlessBoardRulesOut | components/PartSelector.tsx:26-29 | A socketless board empties the processor step, when every processor has a socket. The selector then shows the notice naming the motherboard. |
| Scenarios.SocketlessBoardOffersNoProcessor | components/PartSelector.tsx:26-29 | On the catalogue, a stored socketless board leaves no processor on offer, and the notice asks to change the motherboard. |
| Scenarios.Cpu1WithMobo1Price | App.tsx:16 | cpu-1 with mobo-1 totals 51000. |

## Left out

- The 3D build visualiser component is not part of this model. It only renders the build.
- The AI calls (`getCompatibilityAdvice`, `getPartRecommendation`, and the per-step "AI
  Suggestions" button with its `recommendation` and `loadingAi` state) are left out. They are
  network requests. The final check's answer enters the model as a parameter, `advice`. A run
  uses one fixed answer for every request it makes.
- The `analyzing` flag and the asynchrony of `runFinalCheck` are left out. The request and its
  answer are taken as one step, so a response that arrives after the user has left the summary
  is not modelled.
- Rendering, CSS classes, the Amazon search link, `window.print`, the "Step n of 9" header and
  price formatting with `toLocaleString` are left out. They are presentation only.
- The part fields `image` and `rating` are left out. The image URL helper `getImg` and the
  floating-point rating play no part in any rule.
- Prices are whole numbers (`int`), not JavaScript floating-point numbers. Every catalogue price
  is an integer.
- App.TotalPrice sums over the wizard order rather than over `Object.values(build)`. Addition is
  commutative and the wizard order lists every category once, so the total is the same.
- GeminiService.BuildToPrompt takes the build's entries as an explicit sequence. The property
  order that `Object.entries` yields in JavaScript is not modelled.
- GeminiService.PromptLineCount assumes that part names and brands contain no line break. The
  catalogue's do not, but a general build could break the one-line-per-part shape.
- The PartSelector `onNext` prop is passed but never used by the component, so it is not modelled.
- PartSelector.Filter models only the four `===` predicates the selector uses, as a datatype of
  criteria, instead of arbitrary JavaScript callbacks.
