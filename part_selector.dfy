/** The part selector's compatibility filter: the catalogue restricted to the
    requested category, then narrowed by at most one attribute-equality rule that
    depends on the CPU or motherboard already in the build. Also the "is this card
    selected" check and the choice between the part grid and the empty notice. */
module PartSelector {
  import opened Types
  import opened Seqs
  import Catalog

  /** One `.filter` predicate of the selector: a strict (`===`) equality on one field.
      The expected values are optional, so an absent attribute matches an absent one. */
  datatype Criterion =
    | InCategory(category: Category)
    | SocketIs(socket: Option<string>)
    | MemoryTypeIs(memoryType: Option<MemoryType>)
    | FormFactorIs(formFactor: Option<FormFactor>)

  predicate Matches(p: Part, k: Criterion)
  {
    match k
    case InCategory(c) => p.category == c
    case SocketIs(s) => p.socket == s
    case MemoryTypeIs(m) => p.memoryType == m
    case FormFactorIs(f) => p.formFactor == f
  }

  /** `s.filter(p => Matches(p, k))`: exactly the matching elements. */
  function Filter(s: seq<Part>, k: Criterion): (r: seq<Part>)
    ensures forall p :: p in r <==> p in s && Matches(p, k)
  {
    if s == [] then []
    else if Matches(s[0], k) then [s[0]] + Filter(s[1..], k)
    else Filter(s[1..], k)
  }

  /** The filter keeps the matching elements in their order, adding and repeating none. */
  lemma {:induction false} FilterIsSubsequence(s: seq<Part>, k: Criterion)
    ensures SubsequenceOf(Filter(s, k), s)
  {
    if s != [] {
      FilterIsSubsequence(s[1..], k);
      if Matches(s[0], k) {
        assert Filter(s, k)[1..] == Filter(s[1..], k);
      }
    }
  }

  /** Filtering keeps a sequence whose elements all match, and empties one where none does. */
  lemma {:induction false} FilterAllOrNone(s: seq<Part>, k: Criterion)
    ensures (forall i :: 0 <= i < |s| ==> Matches(s[i], k)) ==> Filter(s, k) == s
    ensures (forall i :: 0 <= i < |s| ==> !Matches(s[i], k)) ==> Filter(s, k) == []
  {
    if s != [] {
      FilterAllOrNone(s[1..], k);
    }
  }

  /** True when the requested category is narrowed by a rule beyond its category. */
  predicate Constrained(category: Category, build: BuildState)
  {
    || (category == MOBO && CPU in build)
    || (category == CPU && MOBO in build)
    || (category == RAM && MOBO in build)
    || (category == CASE && MOBO in build && build[MOBO].formFactor == Some(ATX))
  }

  /** The compatibility rules as one predicate on a candidate part. The case rule is
      one-sided: it only reacts to an ATX motherboard. */
  predicate Compatible(category: Category, build: BuildState, p: Part)
  {
    && (category == MOBO && CPU in build ==> p.socket == build[CPU].socket)
    && (category == CPU && MOBO in build ==> p.socket == build[MOBO].socket)
    && (category == RAM && MOBO in build ==> p.memoryType == build[MOBO].memoryType)
    && (category == CASE && MOBO in build && build[MOBO].formFactor == Some(ATX) ==>
          p.formFactor == Some(ATX))
  }

  /** One guarded rebinding `if (guard) { parts = parts.filter(...) }` of the selector. */
  function FilterIf(guard: bool, s: seq<Part>, k: Criterion): (r: seq<Part>)
    ensures forall p :: p in r <==> p in s && (guard ==> Matches(p, k))
  {
    if guard then Filter(s, k) else s
  }

  lemma FilterIfIsSubsequence(guard: bool, s: seq<Part>, k: Criterion)
    ensures SubsequenceOf(FilterIf(guard, s, k), s)
  {
    if guard {
      FilterIsSubsequence(s, k);
    } else {
      SubsequenceReflexive(s);
    }
  }

  /** The filter chain, over a given catalogue, as the selector computes `availableParts`. */
  function AvailableParts(db: seq<Part>, category: Category, build: BuildState): (r: seq<Part>)
    ensures forall p :: p in r ==> p in db && p.category == category
    ensures !Constrained(category, build) ==> r == Filter(db, InCategory(category))
  {
    var ofCategory := Filter(db, InCategory(category));
    var afterCpu := FilterIf(category == MOBO && CPU in build,
      ofCategory, SocketIs(if CPU in build then build[CPU].socket else None));
    var afterMobo := FilterIf(category == CPU && MOBO in build,
      afterCpu, SocketIs(if MOBO in build then build[MOBO].socket else None));
    var afterRam := FilterIf(category == RAM && MOBO in build,
      afterMobo, MemoryTypeIs(if MOBO in build then build[MOBO].memoryType else None));
    FilterIf(category == CASE && MOBO in build && build[MOBO].formFactor == Some(ATX),
      afterRam, FormFactorIs(Some(ATX)))
  }

  /** The offered parts are an order-preserving subsequence of the catalogue: no part is
      reordered or repeated. */
  lemma AvailablePartsIsSubsequence(db: seq<Part>, category: Category, build: BuildState)
    ensures SubsequenceOf(AvailableParts(db, category, build), db)
  {
    var ofCategory := Filter(db, InCategory(category));
    var afterCpu := FilterIf(category == MOBO && CPU in build,
      ofCategory, SocketIs(if CPU in build then build[CPU].socket else None));
    var afterMobo := FilterIf(category == CPU && MOBO in build,
      afterCpu, SocketIs(if MOBO in build then build[MOBO].socket else None));
    var afterRam := FilterIf(category == RAM && MOBO in build,
      afterMobo, MemoryTypeIs(if MOBO in build then build[MOBO].memoryType else None));
    var afterCase := FilterIf(category == CASE && MOBO in build && build[MOBO].formFactor == Some(ATX),
      afterRam, FormFactorIs(Some(ATX)));
    FilterIsSubsequence(db, InCategory(category));
    FilterIfIsSubsequence(category == MOBO && CPU in build,
      ofCategory, SocketIs(if CPU in build then build[CPU].socket else None));
    FilterIfIsSubsequence(category == CPU && MOBO in build,
      afterCpu, SocketIs(if MOBO in build then build[MOBO].socket else None));
    FilterIfIsSubsequence(category == RAM && MOBO in build,
      afterMobo, MemoryTypeIs(if MOBO in build then build[MOBO].memoryType else None));
    FilterIfIsSubsequence(category == CASE && MOBO in build && build[MOBO].formFactor == Some(ATX),
      afterRam, FormFactorIs(Some(ATX)));
    SubsequenceTransitive(afterCase, afterRam, afterMobo);
    SubsequenceTransitive(afterCase, afterMobo, afterCpu);
    SubsequenceTransitive(afterCase, afterCpu, ofCategory);
    SubsequenceTransitive(afterCase, ofCategory, db);
  }

  /** The rule that narrows the requested category under the build, if one does. */
  function Rule(category: Category, build: BuildState): (k: Option<Criterion>)
    ensures k.Some? <==> Constrained(category, build)
  {
    if category == MOBO && CPU in build then Some(SocketIs(build[CPU].socket))
    else if category == CPU && MOBO in build then Some(SocketIs(build[MOBO].socket))
    else if category == RAM && MOBO in build then Some(MemoryTypeIs(build[MOBO].memoryType))
    else if category == CASE && MOBO in build && build[MOBO].formFactor == Some(ATX) then
      Some(FormFactorIs(Some(ATX)))
    else None
  }

  /** The guards name distinct categories, so at most one rule narrows the category subset. */
  lemma AtMostOneRule(db: seq<Part>, category: Category, build: BuildState)
    ensures AvailableParts(db, category, build) ==
      match Rule(category, build)
      case None => Filter(db, InCategory(category))
      case Some(k) => Filter(Filter(db, InCategory(category)), k)
  {
  }

  /** A part is offered exactly when it is a catalogue part of the requested category
      that satisfies every rule: nothing incompatible is offered, nothing compatible
      is dropped. */
  lemma AvailablePartsMembership(db: seq<Part>, category: Category, build: BuildState, p: Part)
    ensures p in AvailableParts(db, category, build) <==>
              p in db && p.category == category && Compatible(category, build, p)
  {
  }

  /** The selector as seen by the user: the parts on offer, or when there is none the
      "no compatible parts" notice (a valid outcome, not an error) naming the part to
      change, the CPU for a motherboard and the motherboard otherwise. */
  datatype Card = Card(part: Part, selected: bool)
  datatype SelectorView = NoCompatibleParts(tryChanging: Category) | PartGrid(cards: seq<Card>)

  /** A card is highlighted when its id equals the id of the part stored under the category. */
  predicate IsSelected(build: BuildState, category: Category, p: Part)
  {
    category in build && build[category].id == p.id
  }

  function View(db: seq<Part>, category: Category, build: BuildState): (v: SelectorView)
    ensures v.NoCompatibleParts? <==> AvailableParts(db, category, build) == []
    ensures v.NoCompatibleParts? ==> v.tryChanging == (if category == MOBO then CPU else MOBO)
    ensures v.PartGrid? ==>
      && |v.cards| == |AvailableParts(db, category, build)|
      && forall i :: 0 <= i < |v.cards| ==>
           v.cards[i].part == AvailableParts(db, category, build)[i] &&
           (v.cards[i].selected <==> IsSelected(build, category, v.cards[i].part))
  {
    var parts := AvailableParts(db, category, build);
    if parts == [] then NoCompatibleParts(if category == MOBO then CPU else MOBO)
    else PartGrid(seq(|parts|, i requires 0 <= i < |parts| => Card(parts[i], IsSelected(build, category, parts[i]))))
  }

  /** When the stored part comes from a catalogue whose ids are distinct, the highlighted
      catalogue card is that part and no other. */
  lemma SelectedCardIsStoredPart(db: seq<Part>, build: BuildState, category: Category, p: Part)
    requires Catalog.IdsDistinct(db)
    requires category in build && build[category] in db
    requires p in db
    ensures IsSelected(build, category, p) <==> p == build[category]
  {
    var i :| 0 <= i < |db| && db[i] == p;
    var j :| 0 <= j < |db| && db[j] == build[category];
  }
}
