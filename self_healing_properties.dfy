/** Properties of the self-healing finder that relate several lookups, the stages of one lookup,
    or the finder to the locator generator. */
module SelfHealingProperties {
  import opened Wrappers
  import opened Seqs
  import opened Strings
  import opened AILocator
  import opened SelfHealing

  // ---------------------------------------------------------------------------------------------
  // Locator dispatch
  // ---------------------------------------------------------------------------------------------

  /** Lower-casing keeps the absence of `=` and does nothing to a lower-cased string. */
  lemma LowerFacts(s: string)
    ensures '=' !in s ==> '=' !in Lower(s)
    ensures Lower(Lower(s)) == Lower(s)
  {
    if '=' !in s {
      forall i | 0 <= i < |s| ensures Lower(s)[i] != '=' {
        assert s[i] != '=';
      }
    }
  }

  /** The strategy prefix of a locator is case-insensitive: `ID=x`, `Id=x` and `id=x` find the
      same element. */
  lemma {:induction false} StrategyPrefixIsCaseInsensitive(strategy: string, value: string)
    requires '=' !in strategy
    ensures ParseLocator(strategy + "=" + value) == ParseLocator(Lower(strategy) + "=" + value)
  {
    LowerFacts(strategy);
    ParsePrefixedLocator(strategy, value);
    ParsePrefixedLocator(Lower(strategy), value);
  }

  /** The driver strategy each rung of the generator's ladder names in its prefix. */
  function RungStrategy(r: Rung): By {
    match r
    case IdRung => Id
    case TestIdRung => CssSelector
    case NameRung => Name
    case CompositeRung => CssSelector
    case TextRung => XPath
    case AriaLabelRung => CssSelector
  }

  /** Every locator the generator produces is understood by the finder: it dispatches to the
      strategy its rung names, with everything after the prefix as the value. */
  lemma {:induction false} GeneratedLocatorsDispatch(info: ElementInfo, r: Rung)
    requires Fires(info, r)
    ensures ParseLocator(Render(info, r)).0 == RungStrategy(r)
    ensures StrategyName(RungStrategy(r)) + "=" + ParseLocator(Render(info, r)).1 == Render(info, r)
  {
    var name := StrategyName(RungStrategy(r));
    var rest := Render(info, r)[|name| + 1..];
    assert Render(info, r) == name + "=" + rest;
    SerializedLocatorRoundTrip(RungStrategy(r), rest);
  }

  // ---------------------------------------------------------------------------------------------
  // The fallback chain
  // ---------------------------------------------------------------------------------------------

  /** Of the five strategies only text content and attributes can heal, in that order, and the
      original locator plays no part in the result. */
  lemma {:induction false} ChainIsTextThenAttributes(driver: Driver, locator: string)
    ensures HealingChain(driver, locator) ==
      if TextContentHealing(driver).Some? then TextContentHealing(driver) else AttributeHealing(driver)
  {
    var rs := Map(s => Accepted(StrategyResult(s, driver, locator)), Strategies);
    assert rs[0] == TextContentHealing(driver);
    assert rs[1] == None;
    assert rs[2] == AttributeHealing(driver);
    assert rs[3] == None;
    assert rs[4] == None;
    if rs[0].None? {
      FirstSomeSkip(rs, 0);
      FirstSomeSkip(rs, 1);
      if rs[2].None? {
        assert forall i | 0 <= i < |rs| :: rs[i].None?;
      }
    }
  }

  /** The text strategy misses exactly when every text probe misses. */
  lemma TextHealingMissesIff(driver: Driver)
    ensures TextContentHealing(driver).None? <==>
      forall i | 0 <= i < |TextHints| :: TextProbe(driver, TextHints[i]).None?
  {
    var probes := Map(t => TextProbe(driver, t), TextHints);
    assert forall i | 0 <= i < |TextHints| :: probes[i] == TextProbe(driver, TextHints[i]);
  }

  /** The attribute strategy misses exactly when no probed attribute matches any element. */
  lemma AttributeHealingMissesIff(driver: Driver)
    ensures AttributeHealing(driver).None? <==>
      forall i | 0 <= i < |HealingAttributes| :: AttributeProbe(driver, HealingAttributes[i]).None?
  {
    var probes := Map(a => AttributeProbe(driver, a), HealingAttributes);
    assert forall i | 0 <= i < |HealingAttributes| :: probes[i] == AttributeProbe(driver, HealingAttributes[i]);
  }

  // ---------------------------------------------------------------------------------------------
  // One lookup
  // ---------------------------------------------------------------------------------------------

  /** Healing is attempted only after the cache missed and the original locator raised "no such
      element"; any other driver error of the original locator reaches the caller. */
  lemma HealingOnlyAfterNotFound(cache: map<string, string>, driver: Driver, locator: string)
    ensures var res := Resolve(cache, driver, locator);
      (res.Healed? || res.Exhausted?) <==>
        !CachedHit(cache, driver, locator) && FindElement(driver, locator) == NoSuchElement
    ensures var res := Resolve(cache, driver, locator);
      res.Propagated? <==>
        !CachedHit(cache, driver, locator) && FindElement(driver, locator).DriverError?
  {
  }

  /** The lookup fails with "not found" exactly when the cache missed, the original locator was
      not found, and every text probe and every attribute probe missed. */
  lemma {:induction false} ExhaustedIff(cache: map<string, string>, driver: Driver, locator: string)
    ensures Resolve(cache, driver, locator) == Exhausted <==>
      && !CachedHit(cache, driver, locator)
      && FindElement(driver, locator) == NoSuchElement
      && (forall i | 0 <= i < |TextHints| :: TextProbe(driver, TextHints[i]).None?)
      && (forall i | 0 <= i < |HealingAttributes| :: AttributeProbe(driver, HealingAttributes[i]).None?)
  {
    ChainIsTextThenAttributes(driver, locator);
    TextHealingMissesIff(driver);
    AttributeHealingMissesIff(driver);
  }

  /** What one lookup does to the state: the history grows by one event exactly when it heals;
      a heal overwrites the original locator's cache entry with the derived locator and touches
      no other entry; anything else leaves the cache as it was. */
  lemma LookupStateChange(cache: map<string, string>, history: seq<HealingEvent>, driver: Driver,
                          locator: string, timestamp: string, healingTime: real)
    ensures var res := Resolve(cache, driver, locator);
      var cache' := CacheAfter(cache, locator, res);
      var history' := HistoryAfter(history, locator, res, timestamp, healingTime);
      && (history' != history <==> res.Healed?)
      && |history'| <= |history| + 1
      && history'[..|history|] == history
      && (forall k | k != locator :: (k in cache' <==> k in cache) && (k in cache ==> cache'[k] == cache[k]))
      && (!res.Healed? ==> cache' == cache)
      && (res.Healed? ==>
            && cache'[locator] == GetElementLocator(res.element)
            && history'[|history|] == HealingEvent(locator, GetElementLocator(res.element), timestamp, healingTime))
  {
    var res := Resolve(cache, driver, locator);
    if res.Healed? {
      assert |HistoryAfter(history, locator, res, timestamp, healingTime)| == |history| + 1;
    }
  }

  /** Once a lookup has healed, the next lookup of the same locator on the same page is answered
      from the cache whenever the derived locator finds an element. */
  lemma HealedThenCacheHit(cache: map<string, string>, driver: Driver, locator: string)
    requires Resolve(cache, driver, locator).Healed?
    requires FindElement(driver, Resolve(cache, driver, locator).healedLocator).Found?
    ensures var res := Resolve(cache, driver, locator);
      Resolve(CacheAfter(cache, locator, res), driver, locator) ==
        CacheHit(FindElement(driver, res.healedLocator).element)
  {
  }

  /** A healed element with an `id` that the page finds again by that `id` is returned from the
      cache, the same element, on the next lookup. */
  lemma HealedByIdIsFoundAgain(cache: map<string, string>, driver: Driver, locator: string)
    requires Resolve(cache, driver, locator).Healed?
    requires var e := Resolve(cache, driver, locator).element;
      Truthy(e.id) && driver.findElement(Id, e.id.value) == Found(e)
    ensures var res := Resolve(cache, driver, locator);
      Resolve(CacheAfter(cache, locator, res), driver, locator) == CacheHit(res.element)
  {
  }

  // ---------------------------------------------------------------------------------------------
  // Statistics
  // ---------------------------------------------------------------------------------------------

  /** After one more healing, the recent list ends with it and keeps the newest earlier events,
      at most ten in all. */
  lemma {:induction false} RecentHealingsAfterAppend(history: seq<HealingEvent>, e: HealingEvent)
    ensures RecentHealings(history + [e]) ==
      if |history| < 10 then history + [e] else history[|history| - 9..] + [e]
  {
    var h := history + [e];
    if |history| >= 10 {
      assert h[|h| - 10..] == history[|history| - 9..] + [e];
    }
  }

  /** A healing lookup raises the total by one and shows the new event last among the recent ones;
      any other lookup leaves the statistics as they were. */
  lemma StatisticsAfterLookup(cache: map<string, string>, history: seq<HealingEvent>, driver: Driver,
                              locator: string, timestamp: string, healingTime: real)
    ensures var res := Resolve(cache, driver, locator);
      var stats := Statistics(CacheAfter(cache, locator, res),
                              HistoryAfter(history, locator, res, timestamp, healingTime));
      && (!res.Healed? ==> stats == Statistics(cache, history))
      && (res.Healed? ==>
            && stats.totalHealings == |history| + 1
            && stats.recentHealings[|stats.recentHealings| - 1] ==
                 HealingEvent(locator, res.healedLocator, timestamp, healingTime))
  {
    var res := Resolve(cache, driver, locator);
    if res.Healed? {
      RecentHealingsAfterAppend(history, HealingEvent(locator, res.healedLocator, timestamp, healingTime));
    }
  }

  // ---------------------------------------------------------------------------------------------
  // The cache file across library instances
  // ---------------------------------------------------------------------------------------------

  /** A library created over a store that another instance has just saved to starts with that
      instance's cache when the write succeeded, with what the store held before when the write
      failed before opening the file, and empty when the write emptied the file and failed. */
  method SavedCacheIsReloaded(lib: SelfHealingLibrary) returns (reopened: SelfHealingLibrary)
    modifies lib.cacheFile
    ensures fresh(reopened) && reopened.healingHistory == []
    ensures lib.cacheFile.writes == WriteSucceeds ==> reopened.healingCache == lib.healingCache
    ensures lib.cacheFile.writes == FailsBeforeOpen ==>
      reopened.healingCache ==
        if old(lib.cacheFile.contents).Some? then old(lib.cacheFile.contents).value else map[]
    ensures lib.cacheFile.writes == FailsAfterTruncate ==> reopened.healingCache == map[]
  {
    lib.SaveCache();
    reopened := new SelfHealingLibrary(lib.cacheFile);
  }

  /** Two lookups of the same locator on the same page: when the first heals and its derived
      locator finds an element, the second returns that element from the cache and records
      nothing. */
  method HealThenLookUpAgain(lib: SelfHealingLibrary, driver: Driver, locator: string,
                             timestamp: string, healingTime: real)
    returns (first: Result<Element, FindError>, second: Result<Element, FindError>)
    requires Resolve(lib.healingCache, driver, locator).Healed?
    requires FindElement(driver, Resolve(lib.healingCache, driver, locator).healedLocator).Found?
    modifies lib, lib.cacheFile
    ensures first == Ok(old(Resolve(lib.healingCache, driver, locator)).element)
    ensures second == Ok(FindElement(driver, old(Resolve(lib.healingCache, driver, locator)).healedLocator).element)
    ensures |lib.healingHistory| == |old(lib.healingHistory)| + 1
  {
    HealedThenCacheHit(lib.healingCache, driver, locator);
    first := lib.FindElementWithHealing(driver, locator, 10, timestamp, healingTime);
    second := lib.FindElementWithHealing(driver, locator, 10, timestamp, healingTime);
  }
}
