/** The build wizard: three pieces of state (the step index, the build and the AI
    analysis text), the handlers that change them, the completion effect that asks
    for the final analysis, and the values the page derives from them (total price,
    completion, progress bar, summary). The transitions are pure functions on a
    `Session` value; class `Wizard` holds the state in fields and its methods are
    specified by those functions. */
module App {
  import opened Types
  import opened Seqs
  import Catalog
  import PartSelector

  datatype Session = Session(currentStepIndex: int, build: BuildState, aiAnalysis: Option<string>)

  /** The state on first render: step 0, empty build, no analysis. */
  const Initial: Session := Session(0, map[], None)

  /** The invariant the handlers keep: the index lies in [0, 9] and every part is
      stored under its own category. */
  predicate Valid(s: Session)
  {
    0 <= s.currentStepIndex <= |CategoryOrder| && KeysMatch(s.build)
  }

  /** The summary view is shown exactly when the index has run past the last step. */
  predicate IsComplete(s: Session)
  {
    s.currentStepIndex == |CategoryOrder|
  }

  /** `CATEGORY_ORDER[currentStepIndex]`, which is undefined once the wizard is complete. */
  function CurrentCategory(s: Session): (c: Option<Category>)
    ensures Valid(s) ==> (c.Some? <==> !IsComplete(s))
    ensures c.Some? ==> StepOf(c.value) == s.currentStepIndex
  {
    if 0 <= s.currentStepIndex < |CategoryOrder| then Some(CategoryOrder[s.currentStepIndex]) else None
  }

  /** JavaScript truthiness of the analysis: null, undefined and "" are all falsy. */
  predicate HasAnalysis(a: Option<string>)
  {
    a.Some? && a.value != ""
  }

  // ---------------------------------------------------------------------------
  // Total price

  function PriceOf(b: BuildState, c: Category): int
  {
    if c in b then b[c].price else 0
  }

  function SumPrices(cats: seq<Category>, b: BuildState): int
  {
    if cats == [] then 0 else PriceOf(b, cats[0]) + SumPrices(cats[1..], b)
  }

  /** The sum of the prices of the parts present in the build (absent categories add 0).
      The values are enumerated through the wizard order, which lists every category once. */
  function TotalPrice(b: BuildState): (total: int)
  {
    SumPrices(CategoryOrder, b)
  }

  lemma {:induction false} SumPricesNonNegative(cats: seq<Category>, b: BuildState)
    requires forall c :: c in b ==> b[c].price >= 0
    ensures SumPrices(cats, b) >= 0
    ensures b == map[] ==> SumPrices(cats, b) == 0
  {
    if cats != [] {
      SumPricesNonNegative(cats[1..], b);
    }
  }

  /** The empty build costs 0 and no build costs less than 0 when no price is negative. */
  lemma TotalPriceBounds(b: BuildState)
    requires forall c :: c in b ==> b[c].price >= 0
    ensures TotalPrice(b) >= 0
    ensures b == map[] ==> TotalPrice(b) == 0
  {
    SumPricesNonNegative(CategoryOrder, b);
  }

  predicate NoDuplicates(cats: seq<Category>)
  {
    forall i, j :: 0 <= i < j < |cats| ==> cats[i] != cats[j]
  }

  lemma {:induction false} SumPricesUpdate(cats: seq<Category>, b: BuildState, p: Part)
    requires NoDuplicates(cats)
    ensures SumPrices(cats, b[p.category := p]) ==
            SumPrices(cats, b) + (if p.category in cats then p.price - PriceOf(b, p.category) else 0)
  {
    if cats != [] {
      assert NoDuplicates(cats[1..]);
      SumPricesUpdate(cats[1..], b, p);
      if cats[0] == p.category {
        assert p.category !in cats[1..];
      }
    }
  }

  /** Selecting a part replaces the price of whatever stood under its category. */
  lemma TotalPriceAfterSelect(b: BuildState, p: Part)
    ensures TotalPrice(b[p.category := p]) == TotalPrice(b) - PriceOf(b, p.category) + p.price
  {
    CategoryOrderIsPermutation();
    SumPricesUpdate(CategoryOrder, b, p);
  }

  // ---------------------------------------------------------------------------
  // Summary and progress bar

  /** The categories, in the given order, that hold a part. */
  function PresentCategories(cats: seq<Category>, b: BuildState): (r: seq<Category>)
    ensures SubsequenceOf(r, cats)
    ensures forall c :: c in r <==> c in cats && c in b
  {
    if cats == [] then []
    else if cats[0] in b then [cats[0]] + PresentCategories(cats[1..], b)
    else PresentCategories(cats[1..], b)
  }

  /** The rows for the given categories: the part of each present one, in order. */
  function SummaryRows(cats: seq<Category>, b: BuildState): (rows: seq<Part>)
    ensures |rows| == |PresentCategories(cats, b)|
    ensures forall i :: 0 <= i < |rows| ==>
              PresentCategories(cats, b)[i] in b && rows[i] == b[PresentCategories(cats, b)[i]]
  {
    if cats == [] then []
    else if cats[0] in b then [b[cats[0]]] + SummaryRows(cats[1..], b)
    else SummaryRows(cats[1..], b)
  }

  /** The summary view: the present parts in wizard order, absent categories skipped. */
  function Summary(b: BuildState): seq<Part>
  {
    SummaryRows(CategoryOrder, b)
  }

  function PriceSum(parts: seq<Part>): int
  {
    if parts == [] then 0 else parts[0].price + PriceSum(parts[1..])
  }

  lemma {:induction false} SumPricesIsPriceSumOfRows(cats: seq<Category>, b: BuildState)
    ensures SumPrices(cats, b) == PriceSum(SummaryRows(cats, b))
  {
    if cats != [] {
      SumPricesIsPriceSumOfRows(cats[1..], b);
      var rest := SummaryRows(cats[1..], b);
      if cats[0] in b {
        assert ([b[cats[0]]] + rest)[0] == b[cats[0]];
        assert ([b[cats[0]]] + rest)[1..] == rest;
      }
    }
  }

  /** The total shown under the summary is the sum of the prices on the summary rows. */
  lemma TotalPriceIsSummarySum(b: BuildState)
    ensures TotalPrice(b) == PriceSum(Summary(b))
  {
    SumPricesIsPriceSumOfRows(CategoryOrder, b);
  }

  /** The summary never lists more rows than there are steps. */
  lemma SummaryAtMostNine(b: BuildState)
    ensures |Summary(b)| <= |CategoryOrder|
  {
    SubsequenceBounded(PresentCategories(CategoryOrder, b), CategoryOrder);
  }

  /** With every category filled the summary lists nine rows, one per step, in order. */
  lemma {:induction false} FullBuildSummary(b: BuildState)
    requires forall c :: c in b
    ensures PresentCategories(CategoryOrder, b) == CategoryOrder
    ensures |Summary(b)| == |CategoryOrder|
  {
    AllPresent(CategoryOrder, b);
  }

  lemma {:induction false} AllPresent(cats: seq<Category>, b: BuildState)
    requires forall c :: c in cats ==> c in b
    ensures PresentCategories(cats, b) == cats
  {
    if cats != [] {
      AllPresent(cats[1..], b);
    }
  }

  /** The three looks of a progress segment: chosen, reached but empty, not reached yet. */
  datatype Segment = Chosen | Missing | Ahead

  function ProgressBar(s: Session): (bar: seq<Segment>)
    ensures |bar| == |CategoryOrder|
    ensures forall i :: 0 <= i < |bar| ==>
              (bar[i] == Chosen <==> i <= s.currentStepIndex && CategoryOrder[i] in s.build)
    ensures forall i :: 0 <= i < |bar| ==> (bar[i] == Ahead <==> s.currentStepIndex < i)
  {
    seq(|CategoryOrder|, i requires 0 <= i < |CategoryOrder| =>
      if i <= s.currentStepIndex then (if CategoryOrder[i] in s.build then Chosen else Missing)
      else Ahead)
  }

  // ---------------------------------------------------------------------------
  // Handlers

  /** `handleSelectPart`: store the part under its own category, replacing any part
      stored there. No compatibility check is made here. */
  function AfterSelect(s: Session, p: Part): (r: Session)
    ensures r.currentStepIndex == s.currentStepIndex && r.aiAnalysis == s.aiAnalysis
    ensures p.category in r.build && r.build[p.category] == p
    ensures forall c :: c != p.category ==>
              (c in r.build <==> c in s.build) && (c in s.build ==> r.build[c] == s.build[c])
    ensures Valid(s) ==> Valid(r)
  {
    s.(build := s.build[p.category := p])
  }

  /** `nextStep`: advance while the index is below the number of steps. It does not
      look at the build; the "selection required" gate lives only on the button. */
  function AfterNext(s: Session): (r: Session)
    ensures r.build == s.build && r.aiAnalysis == s.aiAnalysis
    ensures s.currentStepIndex < |CategoryOrder| ==> r.currentStepIndex == s.currentStepIndex + 1
    ensures s.currentStepIndex >= |CategoryOrder| ==> r == s
    ensures Valid(s) ==> Valid(r)
  {
    if s.currentStepIndex < |CategoryOrder| then s.(currentStepIndex := s.currentStepIndex + 1) else s
  }

  /** `prevStep`: step back while the index is above 0. */
  function AfterPrev(s: Session): (r: Session)
    ensures r.build == s.build && r.aiAnalysis == s.aiAnalysis
    ensures s.currentStepIndex > 0 ==> r.currentStepIndex == s.currentStepIndex - 1
    ensures s.currentStepIndex <= 0 ==> r == s
    ensures Valid(s) ==> Valid(r)
  {
    if s.currentStepIndex > 0 then s.(currentStepIndex := s.currentStepIndex - 1) else s
  }

  /** `resetBuild`: empty build, first step, no analysis, whatever the state was. */
  function AfterReset(s: Session): (r: Session)
    ensures Valid(r) && !IsComplete(r) && CurrentCategory(r) == Some(CPU)
    ensures r.build == map[] && TotalPrice(r.build) == 0 && !HasAnalysis(r.aiAnalysis)
  {
    Initial
  }

  /** `runFinalCheck`, taken as one step: the advisor's answer becomes the analysis. */
  function AfterFinalCheck(s: Session, advice: string): (r: Session)
    ensures r.currentStepIndex == s.currentStepIndex && r.build == s.build
    ensures r.aiAnalysis == Some(advice) && (HasAnalysis(r.aiAnalysis) <==> advice != "")
  {
    s.(aiAnalysis := Some(advice))
  }

  /** Stepping forward and back undo each other inside the range. */
  lemma NextPrevInverse(s: Session)
    ensures 0 <= s.currentStepIndex < |CategoryOrder| ==> AfterPrev(AfterNext(s)) == s
    ensures 0 < s.currentStepIndex <= |CategoryOrder| ==> AfterNext(AfterPrev(s)) == s
  {
  }

  /** Selecting the same part twice stores it once; a later selection for the same
      category overwrites an earlier one. */
  lemma SelectIdempotentAndOverwrites(s: Session, a: Part, b: Part)
    requires a.category == b.category
    ensures AfterSelect(AfterSelect(s, a), a) == AfterSelect(s, a)
    ensures AfterSelect(AfterSelect(s, a), b) == AfterSelect(s, b)
  {
  }

  // ---------------------------------------------------------------------------
  // User actions and the completion effect

  datatype Action = ClickPart(part: Part) | ClickNext | ClickBack | ClickReset

  function Handle(s: Session, a: Action): Session
  {
    match a
    case ClickPart(p) => AfterSelect(s, p)
    case ClickNext => AfterNext(s)
    case ClickBack => AfterPrev(s)
    case ClickReset => AfterReset(s)
  }

  /** The effect keyed on `isComplete` runs the final check when completion has just
      become true and the analysis is still falsy. */
  predicate FinalCheckDue(before: Session, after: Session)
  {
    !IsComplete(before) && IsComplete(after) && !HasAnalysis(after.aiAnalysis)
  }

  /** One action followed by the effect; the flag says whether the advisor was asked. */
  function Step(s: Session, a: Action, advice: string): (r: (Session, bool))
    ensures Valid(s) ==> Valid(r.0)
  {
    var t := Handle(s, a);
    if FinalCheckDue(s, t) then (AfterFinalCheck(t, advice), true) else (t, false)
  }

  /** The advisor is asked exactly on a Next from the last step while no analysis is held. */
  lemma FinalCheckOnlyOnEntry(s: Session, a: Action, advice: string)
    requires Valid(s)
    ensures Step(s, a, advice).1 <==>
              a == ClickNext && s.currentStepIndex == |CategoryOrder| - 1 && !HasAnalysis(s.aiAnalysis)
  {
  }

  /** A sequence of actions; the count is the number of requests to the advisor. */
  function Run(s: Session, actions: seq<Action>, advice: string): (Session, nat)
    decreases |actions|
  {
    if actions == [] then (s, 0)
    else
      var (t, asked) := Step(s, actions[0], advice);
      var (u, n) := Run(t, actions[1..], advice);
      (u, n + if asked then 1 else 0)
  }

  predicate NoReset(actions: seq<Action>)
  {
    forall i :: 0 <= i < |actions| ==> actions[i] != ClickReset
  }

  /** Once an analysis is held, no run without a reset asks again or loses it. */
  lemma {:induction false} NoRequestOnceAnalysed(s: Session, actions: seq<Action>, advice: string)
    requires Valid(s) && HasAnalysis(s.aiAnalysis) && NoReset(actions)
    ensures Run(s, actions, advice).1 == 0
    ensures Run(s, actions, advice).0.aiAnalysis == s.aiAnalysis
    decreases |actions|
  {
    if actions != [] {
      FinalCheckOnlyOnEntry(s, actions[0], advice);
      assert NoReset(actions[1..]);
      NoRequestOnceAnalysed(Step(s, actions[0], advice).0, actions[1..], advice);
    }
  }

  /** Without a reset, reaching the summary again issues no new request, provided the
      advisor answered with non-empty text. */
  lemma {:induction false} AtMostOneRequest(s: Session, actions: seq<Action>, advice: string)
    requires Valid(s) && NoReset(actions) && advice != ""
    ensures Run(s, actions, advice).1 <= 1
    decreases |actions|
  {
    if actions != [] {
      FinalCheckOnlyOnEntry(s, actions[0], advice);
      assert NoReset(actions[1..]);
      var t := Step(s, actions[0], advice).0;
      if Step(s, actions[0], advice).1 {
        NoRequestOnceAnalysed(t, actions[1..], advice);
      } else {
        AtMostOneRequest(t, actions[1..], advice);
      }
    }
  }

  /** The guard is the analysis text, not a separate "fetched" flag: an empty answer
      leaves it falsy, so a direct `prevStep` from the summary followed by `nextStep`
      asks a second time. The page never makes that call: it renders no Back button on
      the summary, so this run is not one the page offers. */
  lemma EmptyAnswerIsAskedAgain(s: Session)
    requires Valid(s) && s.currentStepIndex == |CategoryOrder| - 1 && !HasAnalysis(s.aiAnalysis)
    ensures Run(s, [ClickNext, ClickBack, ClickNext], "").1 == 2
    ensures !ThroughPage(s, [ClickNext, ClickBack, ClickNext], "")
  {
    var s1 := Step(s, ClickNext, "").0;
    var s2 := Step(s1, ClickBack, "").0;
    assert [ClickNext, ClickBack, ClickNext][1..] == [ClickBack, ClickNext];
    assert [ClickBack, ClickNext][1..] == [ClickNext];
    assert Run(s2, [ClickNext], "").1 == 1;
  }

  // ---------------------------------------------------------------------------
  // What the page lets the user do

  /** The Next button is rendered only before completion and is disabled until the
      current category holds a part. */
  predicate CanPressNext(s: Session)
  {
    match CurrentCategory(s)
    case Some(c) => c in s.build
    case None => false
  }

  /** The Back button is rendered only before completion and is disabled on step 0. */
  predicate CanPressBack(s: Session)
  {
    !IsComplete(s) && s.currentStepIndex != 0
  }

  /** The actions the rendered page offers: a card of the current selector, an enabled
      Next or Back button, and the Reset button in the header, which is always there. */
  predicate Enabled(s: Session, a: Action)
  {
    match a
    case ClickPart(p) =>
      CurrentCategory(s).Some? &&
      p in PartSelector.AvailableParts(Catalog.PartsDatabase, CurrentCategory(s).value, s.build)
    case ClickNext => CanPressNext(s)
    case ClickBack => CanPressBack(s)
    case ClickReset => true
  }

  /** Every step before the current one holds a part, and every part is from the catalogue. */
  predicate StepsBehindChosen(s: Session)
  {
    && Valid(s)
    && (forall i :: 0 <= i < s.currentStepIndex && i < |CategoryOrder| ==> CategoryOrder[i] in s.build)
    && (forall c :: c in s.build ==> s.build[c] in Catalog.PartsDatabase)
  }

  lemma EnabledStepKeepsStepsChosen(s: Session, a: Action, advice: string)
    requires StepsBehindChosen(s) && Enabled(s, a)
    ensures StepsBehindChosen(Step(s, a, advice).0)
  {
    if a.ClickPart? {
      PartSelector.AvailablePartsMembership(Catalog.PartsDatabase, CurrentCategory(s).value, s.build, a.part);
    }
  }

  /** Actions taken only through the page. */
  predicate ThroughPage(s: Session, actions: seq<Action>, advice: string)
    decreases |actions|
  {
    actions == [] ||
    (Enabled(s, actions[0]) && ThroughPage(Step(s, actions[0], advice).0, actions[1..], advice))
  }

  /** On the summary the page offers the header's Reset button and nothing else. */
  lemma CompleteOffersOnlyReset(s: Session, a: Action)
    requires Valid(s) && IsComplete(s)
    ensures Enabled(s, a) <==> a == ClickReset
  {
  }

  /** A run through the page that starts on the summary and never resets is empty. */
  lemma PageRunFromSummaryIsEmpty(s: Session, actions: seq<Action>, advice: string)
    requires Valid(s) && IsComplete(s) && NoReset(actions) && ThroughPage(s, actions, advice)
    ensures actions == []
  {
    if actions != [] {
      CompleteOffersOnlyReset(s, actions[0]);
    }
  }

  /** Through the page, and without a reset, the advisor is asked at most once, whatever
      it answers: once the summary is reached, only Reset is offered. */
  lemma {:induction false} PageRunAsksAtMostOnce(s: Session, actions: seq<Action>, advice: string)
    requires Valid(s) && NoReset(actions) && ThroughPage(s, actions, advice)
    ensures Run(s, actions, advice).1 <= 1
    decreases |actions|
  {
    if actions != [] {
      FinalCheckOnlyOnEntry(s, actions[0], advice);
      assert NoReset(actions[1..]);
      var t := Step(s, actions[0], advice).0;
      if Step(s, actions[0], advice).1 {
        PageRunFromSummaryIsEmpty(t, actions[1..], advice);
      } else {
        PageRunAsksAtMostOnce(t, actions[1..], advice);
      }
    }
  }

  /** Driving the wizard through the page only ever leaves chosen steps behind. */
  lemma {:induction false} PageRunKeepsStepsChosen(s: Session, actions: seq<Action>, advice: string)
    requires StepsBehindChosen(s) && ThroughPage(s, actions, advice)
    ensures StepsBehindChosen(Run(s, actions, advice).0)
    decreases |actions|
  {
    if actions != [] {
      EnabledStepKeepsStepsChosen(s, actions[0], advice);
      PageRunKeepsStepsChosen(Step(s, actions[0], advice).0, actions[1..], advice);
    }
  }

  /** So a summary reached through the page shows a full build: all nine rows and a
      fully chosen progress bar. */
  lemma PageCompletionIsFullBuild(s: Session, actions: seq<Action>, advice: string)
    requires StepsBehindChosen(s) && ThroughPage(s, actions, advice)
    requires IsComplete(Run(s, actions, advice).0)
    ensures forall c :: c in Run(s, actions, advice).0.build
    ensures |Summary(Run(s, actions, advice).0.build)| == |CategoryOrder|
    ensures forall i :: 0 <= i < |CategoryOrder| ==> ProgressBar(Run(s, actions, advice).0)[i] == Chosen
  {
    PageRunKeepsStepsChosen(s, actions, advice);
    var u := Run(s, actions, advice).0;
    forall c: Category ensures c in u.build {
      var i := StepOf(c);
    }
    FullBuildSummary(u.build);
  }

  /** On every step reached through the page, the highlighted card of the selector is
      the stored part and no other. */
  lemma PageHighlightsStoredPart(s: Session, c: Category, p: Part)
    requires StepsBehindChosen(s) && c in s.build && p in Catalog.PartsDatabase
    ensures PartSelector.IsSelected(s.build, c, p) <==> p == s.build[c]
  {
    Catalog.CatalogueIdsDistinct();
    PartSelector.SelectedCardIsStoredPart(Catalog.PartsDatabase, s.build, c, p);
  }

  // ---------------------------------------------------------------------------
  // The component's state cells

  class Wizard {
    var currentStepIndex: int
    var build: BuildState
    var aiAnalysis: Option<string>

    function State(): Session
      reads this
    {
      Session(currentStepIndex, build, aiAnalysis)
    }

    constructor ()
      ensures State() == Initial
    {
      currentStepIndex := 0;
      build := map[];
      aiAnalysis := None;
    }

    method HandleSelectPart(part: Part)
      modifies this
      ensures State() == AfterSelect(old(State()), part)
    {
      build := build[part.category := part];
    }

    method NextStep()
      modifies this
      ensures State() == AfterNext(old(State()))
    {
      if currentStepIndex < |CategoryOrder| {
        currentStepIndex := currentStepIndex + 1;
      }
    }

    method PrevStep()
      modifies this
      ensures State() == AfterPrev(old(State()))
    {
      if currentStepIndex > 0 {
        currentStepIndex := currentStepIndex - 1;
      }
    }

    method ResetBuild()
      modifies this
      ensures State() == AfterReset(old(State()))
    {
      build := map[];
      currentStepIndex := 0;
      aiAnalysis := None;
    }

    method RunFinalCheck(advice: string)
      modifies this
      ensures State() == AfterFinalCheck(old(State()), advice)
    {
      aiAnalysis := Some(advice);
    }

    /** A user action, then the effect that watches `isComplete`. */
    method Dispatch(a: Action, advice: string) returns (asked: bool)
      modifies this
      ensures (State(), asked) == Step(old(State()), a, advice)
    {
      var wasComplete := currentStepIndex == |CategoryOrder|;
      match a {
        case ClickPart(p) => HandleSelectPart(p);
        case ClickNext => NextStep();
        case ClickBack => PrevStep();
        case ClickReset => ResetBuild();
      }
      var isComplete := currentStepIndex == |CategoryOrder|;
      asked := false;
      if isComplete != wasComplete && isComplete && !HasAnalysis(aiAnalysis) {
        RunFinalCheck(advice);
        asked := true;
      }
    }
  }
}
