/** Concrete outcomes of the compatibility filter and of the price total on the shipped
    catalogue. The filter is walked along the catalogue one run of parts at a time. */
module Scenarios {
  import opened Types
  import opened Catalog
  import opened PartSelector
  import App

  /** One step of the filter along a sequence: the part at i is kept or dropped, and the
      filter goes on with the rest. */
  lemma FilterStep(s: seq<Part>, i: int, k: Criterion)
    requires 0 <= i < |s|
    ensures Filter(s[i..], k) == (if Matches(s[i], k) then [s[i]] else []) + Filter(s[i + 1..], k)
  {
    assert s[i..][0] == s[i];
    assert s[i..][1..] == s[i + 1..];
  }

  /** A run of parts none of which matches contributes nothing. */
  lemma {:induction false} FilterSkipsRun(s: seq<Part>, lo: int, hi: int, k: Criterion)
    requires 0 <= lo <= hi <= |s|
    requires forall i :: lo <= i < hi ==> !Matches(s[i], k)
    ensures Filter(s[lo..], k) == Filter(s[hi..], k)
    decreases hi - lo
  {
    if lo < hi {
      FilterStep(s, lo, k);
      FilterSkipsRun(s, lo + 1, hi, k);
    }
  }

  /** A run of parts all of which match is kept whole, in order. */
  lemma {:induction false} FilterKeepsRun(s: seq<Part>, lo: int, hi: int, k: Criterion)
    requires 0 <= lo <= hi <= |s|
    requires forall i :: lo <= i < hi ==> Matches(s[i], k)
    ensures Filter(s[lo..], k) == s[lo..hi] + Filter(s[hi..], k)
    decreases hi - lo
  {
    if lo < hi {
      var rest := Filter(s[hi..], k);
      assert Matches(s[lo], k);
      calc {
        Filter(s[lo..], k);
      == { FilterStep(s, lo, k); }
        [s[lo]] + Filter(s[lo + 1..], k);
      == { FilterKeepsRun(s, lo + 1, hi, k); }
        [s[lo]] + (s[lo + 1..hi] + rest);
      ==
        ([s[lo]] + s[lo + 1..hi]) + rest;
      == { assert [s[lo]] + s[lo + 1..hi] == s[lo..hi]; }
        s[lo..hi] + rest;
      }
    }
  }

  /** When the parts of a category form one contiguous run, restricting to the category
      yields exactly that run. */
  lemma CategoryRun(db: seq<Part>, c: Category, lo: int, hi: int)
    requires 0 <= lo <= hi <= |db|
    requires forall i :: 0 <= i < |db| ==> (db[i].category == c <==> lo <= i < hi)
    ensures Filter(db, InCategory(c)) == db[lo..hi]
  {
    var k := InCategory(c);
    FilterSkipsRun(db, 0, lo, k);
    FilterKeepsRun(db, lo, hi, k);
    FilterSkipsRun(db, hi, |db|, k);
    assert db[0..] == db;
    assert db[|db|..] == [];
  }

  /** Restricting the catalogue to a category yields that category's run, in literal order. */
  lemma CategorySubset(c: Category)
    ensures Filter(PartsDatabase, InCategory(c)) == Group(c)
  {
    GroupBounds(c);
    CategoryRun(PartsDatabase, c, GroupStart(c), GroupEnd(c));
  }

  /** Filtering a run of three parts of which only the middle one matches. */
  lemma FilterKeepsMiddle(a: Part, b: Part, c: Part, k: Criterion)
    requires !Matches(a, k) && Matches(b, k) && !Matches(c, k)
    ensures Filter([a, b, c], k) == [b]
  {
    assert [a, b, c][1..] == [b, c] && [b, c][1..] == [c] && [c][1..] == [];
    assert Filter([c], k) == [];
    assert Filter([b, c], k) == [b] + [];
  }

  /** Filtering a run of three parts of which only the middle one fails to match. */
  lemma FilterDropsMiddle(a: Part, b: Part, c: Part, k: Criterion)
    requires Matches(a, k) && !Matches(b, k) && Matches(c, k)
    ensures Filter([a, b, c], k) == [a, c]
  {
    assert [a, b, c][1..] == [b, c] && [b, c][1..] == [c] && [c][1..] == [];
    assert Filter([c], k) == [c];
  }

  /** With the AM5 processor cpu-2 chosen, mobo-2 is the only motherboard offered. */
  lemma Am5ProcessorOffersOnlyMobo2()
    ensures AvailableParts(PartsDatabase, MOBO, map[CPU := Cpu2]) == [Mobo2]
  {
    var k := SocketIs(Cpu2.socket);
    AtMostOneRule(PartsDatabase, MOBO, map[CPU := Cpu2]);
    CategorySubset(MOBO);
    BoardRun();
    FilterKeepsMiddle(Mobo1, Mobo2, Mobo3, k);
  }

  /** With mobo-2 chosen, the DDR5 kits ram-1 and ram-3 are offered and the DDR4 kit is not. */
  lemma Mobo2OffersDdr5Memory()
    ensures AvailableParts(PartsDatabase, RAM, map[MOBO := Mobo2]) == [Ram1, Ram3]
  {
    var k := MemoryTypeIs(Mobo2.memoryType);
    AtMostOneRule(PartsDatabase, RAM, map[MOBO := Mobo2]);
    CategorySubset(RAM);
    MemoryRun();
    FilterDropsMiddle(Ram1, Ram2, Ram3, k);
  }

  /** The ATX cases of the catalogue are case-1 and case-3. */
  lemma AtxCases()
    ensures Filter(Group(CASE), FormFactorIs(Some(ATX))) == [Case1, Case3]
  {
    CaseRun();
    FilterDropsMiddle(Case1, Case2, Case3, FormFactorIs(Some(ATX)));
  }

  /** Whichever catalogue motherboard is chosen, the case step drops exactly case-2. */
  lemma CatalogueBoardDropsCase2(build: BuildState)
    requires MOBO in build && build[MOBO] in PartsDatabase && build[MOBO].category == MOBO
    ensures AvailableParts(PartsDatabase, CASE, build) == [Case1, Case3]
  {
    AtMostOneRule(PartsDatabase, CASE, build);
    FormFactors();
    CategorySubset(CASE);
    AtxCases();
  }

  /** A board that is not ATX, or no board at all, leaves every case on offer. */
  lemma NonAtxBoardKeepsAllCases(build: BuildState)
    requires MOBO in build ==> build[MOBO].formFactor != Some(ATX)
    ensures AvailableParts(PartsDatabase, CASE, build) == [Case1, Case2, Case3]
  {
    CategorySubset(CASE);
    CaseRun();
  }

  /** Categories without a rule list their whole run whatever is in the build. */
  lemma UnruledCategoriesListEverything(c: Category, build: BuildState)
    requires c == GPU || c == STORAGE || c == PSU || c == COOLER || c == MONITOR
    ensures AvailableParts(PartsDatabase, c, build) == Group(c)
  {
    CategorySubset(c);
  }

  /** A board whose socket is absent rules out every processor that has one. */
  lemma SocketlessBoardRulesOut(db: seq<Part>, cpus: seq<Part>, build: BuildState)
    requires MOBO in build && build[MOBO].socket == None
    requires Filter(db, InCategory(CPU)) == cpus
    requires forall i :: 0 <= i < |cpus| ==> cpus[i].socket.Some?
    ensures AvailableParts(db, CPU, build) == []
    ensures View(db, CPU, build) == NoCompatibleParts(MOBO)
  {
    AtMostOneRule(db, CPU, build);
    FilterAllOrNone(cpus, SocketIs(None));
  }

  /** Every catalogue processor has a socket, so a stored board without one leaves the
      processor step empty and the selector shows the notice naming the motherboard,
      which is a valid outcome. */
  lemma SocketlessBoardOffersNoProcessor(build: BuildState)
    requires MOBO in build && build[MOBO].socket == None
    ensures AvailableParts(PartsDatabase, CPU, build) == []
    ensures View(PartsDatabase, CPU, build) == NoCompatibleParts(MOBO)
  {
    CategorySubset(CPU);
    ProcessorsHaveSockets();
    SocketlessBoardRulesOut(PartsDatabase, Group(CPU), build);
  }

  /** cpu-1 and mobo-1 together cost 51000. */
  lemma Cpu1WithMobo1Price()
    ensures App.TotalPrice(map[CPU := Cpu1, MOBO := Mobo1]) == 51000
  {
    App.TotalPriceBounds(map[]);
    App.TotalPriceAfterSelect(map[], Cpu1);
    App.TotalPriceAfterSelect(map[CPU := Cpu1], Mobo1);
  }
}
