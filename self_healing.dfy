/** The self-healing element finder: a cache of healed locators, a fallback chain of healing
    strategies, and an append-only history of healing events. The browser is an oracle
    (`Driver`); the model follows what the library does with its answers. */
module SelfHealing {
  import opened Wrappers
  import opened Seqs
  import opened Strings

  // ---------------------------------------------------------------------------------------------
  // The browser, as an oracle
  // ---------------------------------------------------------------------------------------------

  /** The element-location strategies of the browser driver. */
  datatype By = Id | Name | XPath | CssSelector | ClassName | TagName | LinkText | PartialLinkText

  /** A page element as the library inspects it: an identity, its `id` and `name` attributes
      (`None` when the element has none) and its tag name. */
  datatype Element = Element(handle: nat, id: Option<string>, name: Option<string>, tagName: string)

  /** What a single-element lookup does: return an element, raise "no such element", or raise
      any other driver error. */
  datatype FindOutcome = Found(element: Element) | NoSuchElement | DriverError(reason: string)

  /** What a many-element lookup does: return the (possibly empty) matches, or raise. */
  datatype FindAllOutcome = Matches(elements: seq<Element>) | ListError(reason: string)

  /** The page as seen through the driver: `find_element` and `find_elements`. */
  datatype Driver = Driver(
    findElement: (By, string) -> FindOutcome,
    findElements: (By, string) -> FindAllOutcome)

  // ---------------------------------------------------------------------------------------------
  // Locator strings: dispatch and derivation
  // ---------------------------------------------------------------------------------------------

  /** The dispatch table from a locator's (lower-cased) strategy prefix to a driver strategy. */
  const ByMapping: map<string, By> := map[
    "id" := Id,
    "name" := Name,
    "xpath" := XPath,
    "css" := CssSelector,
    "class" := ClassName,
    "tag" := TagName,
    "link" := LinkText,
    "partial_link" := PartialLinkText]

  /** Split `<strategy>=<value>` at the first `=`, look the lower-cased strategy up in the table
      (XPath when unknown); a string without `=` is an XPath expression as a whole. The value is
      what follows an `=`-free prefix and one `=`, so the locator is that prefix, `=` and the value. */
  function ParseLocator(locator: string): (r: (By, string))
    ensures '=' !in locator ==> r == (XPath, locator)
    ensures '=' in locator ==>
      && |r.1| < |locator|
      && var k := |locator| - |r.1| - 1;
         && locator == locator[..k] + "=" + r.1
         && '=' !in locator[..k]
         && r.0 == (if Lower(locator[..k]) in ByMapping then ByMapping[Lower(locator[..k])] else XPath)
  {
    if '=' in locator then
      var i := IndexOf(locator, '=');
      var strategy := Lower(locator[..i]);
      assert locator == locator[..i] + "=" + locator[i + 1..];
      (if strategy in ByMapping then ByMapping[strategy] else XPath, locator[i + 1..])
    else
      (XPath, locator)
  }

  /** `_find_element`: dispatch the parsed locator to the driver. */
  function FindElement(driver: Driver, locator: string): FindOutcome {
    var (strategy, value) := ParseLocator(locator);
    driver.findElement(strategy, value)
  }

  /** The prefix that names a driver strategy in a locator string. */
  function StrategyName(b: By): string {
    match b
    case Id => "id"
    case Name => "name"
    case XPath => "xpath"
    case CssSelector => "css"
    case ClassName => "class"
    case TagName => "tag"
    case LinkText => "link"
    case PartialLinkText => "partial_link"
  }

  /** A prefixed locator parses to its strategy, looked up case-insensitively (XPath when not in
      the table), and to everything after the first `=` as its value, `=` signs included. */
  lemma {:induction false} ParsePrefixedLocator(strategy: string, value: string)
    requires '=' !in strategy
    ensures ParseLocator(strategy + "=" + value) ==
      (if Lower(strategy) in ByMapping then ByMapping[Lower(strategy)] else XPath, value)
  {
    var l := strategy + "=" + value;
    assert l[|strategy|] == '=';
    var i := IndexOf(l, '=');
    assert l[..i] == strategy;
    assert l[i + 1..] == value;
  }

  /** A string without `=` is looked up as an XPath expression, unchanged. */
  lemma ParseUnprefixedLocator(locator: string)
    requires '=' !in locator
    ensures ParseLocator(locator) == (XPath, locator)
  {
  }

  /** An XPath written without a prefix but holding an `=` is still split at that `=`: the text
      before it is an unknown strategy, so the finder gets XPath with only the text after it. */
  lemma UnprefixedXPathWithEqualsIsSplit()
    ensures ParseLocator("//input[@name='q']") == (XPath, "'q']")
  {
    var strategy, value := "//input[@name", "'q']";
    assert "//input[@name='q']" == strategy + "=" + value;
    ParsePrefixedLocator(strategy, value);
    assert |Lower(strategy)| == 13;
    assert forall key | key in ByMapping :: |key| <= 12;
  }

  /** Writing a strategy's name, `=` and a value gives a locator that dispatches back to that
      strategy and value: the table covers every strategy, and nothing else maps to it. */
  lemma SerializedLocatorRoundTrip(b: By, value: string)
    ensures ParseLocator(StrategyName(b) + "=" + value) == (b, value)
    ensures forall key | key in ByMapping :: ByMapping[key] == b <==> key == StrategyName(b)
  {
    var name := StrategyName(b);
    assert Lower(name) == name;
    ParsePrefixedLocator(name, value);
  }

  /** The attribute test `if element.get_attribute(...)`: present and non-empty. */
  predicate Truthy(attribute: Option<string>) {
    attribute.Some? && attribute.value != ""
  }

  /** `_get_element_locator`: the `id`, else the `name`, else the first element with the tag. The
      derived locator dispatches to the attribute it was derived from: by id when the element has
      one, else by name, else by the positional XPath `(<tag>)[1]`. */
  function GetElementLocator(e: Element): (r: string)
    ensures ParseLocator(r) ==
      if Truthy(e.id) then (Id, e.id.value)
      else if Truthy(e.name) then (Name, e.name.value)
      else (XPath, "(" + e.tagName + ")[1]")
  {
    if Truthy(e.id) then
      assert "id=" + e.id.value == StrategyName(Id) + "=" + e.id.value;
      SerializedLocatorRoundTrip(Id, e.id.value);
      "id=" + e.id.value
    else if Truthy(e.name) then
      assert "name=" + e.name.value == StrategyName(Name) + "=" + e.name.value;
      SerializedLocatorRoundTrip(Name, e.name.value);
      "name=" + e.name.value
    else
      var path := "(" + e.tagName + ")[1]";
      assert "xpath=" + path == StrategyName(XPath) + "=" + path;
      SerializedLocatorRoundTrip(XPath, path);
      "xpath=" + path
  }

  // ---------------------------------------------------------------------------------------------
  // Healing strategies
  // ---------------------------------------------------------------------------------------------

  /** The texts the text-content strategy looks for, in order. */
  const TextHints: seq<string> := ["Login", "Submit", "Search", "Save", "Cancel"]

  /** The attributes the attribute strategy probes for, in order. */
  const HealingAttributes: seq<string> := ["data-testid", "data-test", "name", "type", "role", "aria-label"]

  /** One text probe: the element an XPath text search returns; every error counts as a miss. */
  function TextProbe(driver: Driver, text: string): Option<Element> {
    match driver.findElement(XPath, "//*[contains(text(), '" + text + "')]")
    case Found(e) => Some(e)
    case _ => None
  }

  /** One attribute probe: the first element carrying the attribute; no match or an error is a miss. */
  function AttributeProbe(driver: Driver, attribute: string): Option<Element> {
    match driver.findElements(CssSelector, "[" + attribute + "]")
    case Matches(es) => if es != [] then Some(es[0]) else None
    case ListError(_) => None
  }

  /** What the text-content strategy returns: the first text probe that hits. */
  function TextContentHealing(driver: Driver): Option<Element> {
    FirstSome(Map(t => TextProbe(driver, t), TextHints))
  }

  /** What the attribute strategy returns: the first attribute probe that hits. */
  function AttributeHealing(driver: Driver): Option<Element> {
    FirstSome(Map(a => AttributeProbe(driver, a), HealingAttributes))
  }

  /** `_heal_by_text_content`: try each text hint in turn and return the first element found. */
  method HealByTextContent(driver: Driver, locator: string) returns (r: Option<Element>)
    ensures r == TextContentHealing(driver)
  {
    ghost var probes := Map(t => TextProbe(driver, t), TextHints);
    for i := 0 to |TextHints|
      invariant FirstSome(probes[i..]) == FirstSome(probes)
    {
      var outcome := driver.findElement(XPath, "//*[contains(text(), '" + TextHints[i] + "')]");
      if outcome.Found? {
        return Some(outcome.element);
      }
      FirstSomeSkip(probes, i);
    }
    return None;
  }

  /** `_heal_by_attributes`: probe each attribute in turn and return the first element of the
      first non-empty match list. */
  method HealByAttributes(driver: Driver, locator: string) returns (r: Option<Element>)
    ensures r == AttributeHealing(driver)
  {
    ghost var probes := Map(a => AttributeProbe(driver, a), HealingAttributes);
    for i := 0 to |HealingAttributes|
      invariant FirstSome(probes[i..]) == FirstSome(probes)
    {
      var outcome := driver.findElements(CssSelector, "[" + HealingAttributes[i] + "]");
      if outcome.Matches? && outcome.elements != [] {
        return Some(outcome.elements[0]);
      }
      FirstSomeSkip(probes, i);
    }
    return None;
  }

  /** The fallback chain, in the order it is tried. */
  datatype Strategy = TextContent | NearbyElements | Attributes | Position | VisualSimilarity

  const Strategies: seq<Strategy> := [TextContent, NearbyElements, Attributes, Position, VisualSimilarity]

  /** What running a strategy does: return an element or nothing, or raise. */
  datatype StrategyOutcome = Returned(result: Option<Element>) | Raised

  /** The outcome of each strategy; the nearby-element, position and visual strategies are stubs
      that return nothing. None of the five raises: the two probing strategies catch every error. */
  function StrategyResult(s: Strategy, driver: Driver, locator: string): StrategyOutcome {
    match s
    case TextContent => Returned(TextContentHealing(driver))
    case NearbyElements => Returned(None)
    case Attributes => Returned(AttributeHealing(driver))
    case Position => Returned(None)
    case VisualSimilarity => Returned(None)
  }

  /** The chain's view of an outcome: a raise is a miss, like a strategy that returns nothing. */
  function Accepted(o: StrategyOutcome): Option<Element> {
    if o.Returned? then o.result else None
  }

  /** What the fallback chain returns: the first strategy result that is an element. */
  function HealingChain(driver: Driver, locator: string): Option<Element> {
    FirstSome(Map(s => Accepted(StrategyResult(s, driver, locator)), Strategies))
  }

  /** Run one strategy of the chain. */
  method RunStrategy(s: Strategy, driver: Driver, locator: string) returns (o: StrategyOutcome)
    ensures o == StrategyResult(s, driver, locator)
  {
    match s {
      case TextContent =>
        var r := HealByTextContent(driver, locator);
        o := Returned(r);
      case Attributes =>
        var r := HealByAttributes(driver, locator);
        o := Returned(r);
      case NearbyElements => o := Returned(None);
      case Position => o := Returned(None);
      case VisualSimilarity => o := Returned(None);
    }
  }

  /** `_try_healing_strategies`: run the strategies in order, skip one that raises or returns
      nothing, and return the first element. */
  method TryHealingStrategies(driver: Driver, locator: string) returns (r: Option<Element>)
    ensures r == HealingChain(driver, locator)
  {
    ghost var results := Map(s => Accepted(StrategyResult(s, driver, locator)), Strategies);
    for i := 0 to |Strategies|
      invariant FirstSome(results[i..]) == FirstSome(results)
    {
      var outcome := RunStrategy(Strategies[i], driver, locator);
      if outcome.Returned? && outcome.result.Some? {
        return outcome.result;
      }
      FirstSomeSkip(results, i);
    }
    return None;
  }

  // ---------------------------------------------------------------------------------------------
  // Resolution: cache, original locator, fallback chain
  // ---------------------------------------------------------------------------------------------

  /** Which way a lookup ends. */
  datatype Resolution =
    | CacheHit(element: Element)
    | OriginalHit(element: Element)
    | Healed(element: Element, healedLocator: string)
    | Propagated(reason: string)
    | Exhausted

  /** The errors a lookup raises. */
  datatype FindError = ElementNotFound(message: string) | WebDriverError(reason: string)

  /** A cached locator that finds an element. */
  predicate CachedHit(cache: map<string, string>, driver: Driver, locator: string) {
    locator in cache && FindElement(driver, cache[locator]).Found?
  }

  /** The stages of a lookup: a cached locator that finds the element wins (any failure of it
      falls through); then the original locator, whose "no such element" alone leads on to the
      fallback chain; a healed element is recorded under its derived locator. */
  function Resolve(cache: map<string, string>, driver: Driver, locator: string): Resolution {
    if CachedHit(cache, driver, locator) then
      CacheHit(FindElement(driver, cache[locator]).element)
    else
      match FindElement(driver, locator)
      case Found(e) => OriginalHit(e)
      case DriverError(reason) => Propagated(reason)
      case NoSuchElement =>
        match HealingChain(driver, locator)
        case Some(e) => Healed(e, GetElementLocator(e))
        case None => Exhausted
  }

  /** The message of the error raised when every stage failed. */
  function NotFoundMessage(locator: string): string {
    "Could not find element even with self-healing: " + locator
  }

  /** What the caller receives: the element, or the error raised. */
  function Outcome(res: Resolution, locator: string): (r: Result<Element, FindError>)
    ensures r.Ok? <==> res.CacheHit? || res.OriginalHit? || res.Healed?
    ensures r.Ok? ==> r.value == res.element
    ensures res.Exhausted? ==> r == Err(ElementNotFound(NotFoundMessage(locator)))
    ensures res.Propagated? ==> r == Err(WebDriverError(res.reason))
  {
    match res
    case CacheHit(e) => Ok(e)
    case OriginalHit(e) => Ok(e)
    case Healed(e, _) => Ok(e)
    case Propagated(reason) => Err(WebDriverError(reason))
    case Exhausted => Err(ElementNotFound(NotFoundMessage(locator)))
  }

  /** A recorded healing. */
  datatype HealingEvent = HealingEvent(
    originalLocator: string,
    healedLocator: string,
    timestamp: string,
    healingTime: real)

  /** The cache after a lookup: only a heal writes, and it overwrites the original's entry. */
  function CacheAfter(cache: map<string, string>, locator: string, res: Resolution): map<string, string> {
    if res.Healed? then cache[locator := res.healedLocator] else cache
  }

  /** The history after a lookup: only a heal appends, one event. */
  function HistoryAfter(history: seq<HealingEvent>, locator: string, res: Resolution,
                        timestamp: string, healingTime: real): seq<HealingEvent> {
    if res.Healed? then history + [HealingEvent(locator, res.healedLocator, timestamp, healingTime)]
    else history
  }

  /** The summary `get_healing_statistics` reports. */
  datatype HealingStatistics = HealingStatistics(
    totalHealings: nat,
    cachedLocators: nat,
    recentHealings: seq<HealingEvent>)

  /** The last ten events (all of them when there are fewer), oldest first. */
  function RecentHealings(history: seq<HealingEvent>): (recent: seq<HealingEvent>)
    ensures |recent| == if |history| < 10 then |history| else 10
    ensures history == history[..|history| - |recent|] + recent
  {
    if history == [] then []
    else if |history| <= 10 then history
    else history[|history| - 10..]
  }

  function Statistics(cache: map<string, string>, history: seq<HealingEvent>): HealingStatistics {
    HealingStatistics(|history|, |cache|, RecentHealings(history))
  }

  // ---------------------------------------------------------------------------------------------
  // The library object
  // ---------------------------------------------------------------------------------------------

  /** How a write of the store goes: it succeeds; it fails before the file is opened (the
      directory cannot be made, the file cannot be opened), leaving the store as it was; or it
      fails after opening for writing has emptied the file, leaving it unreadable. */
  datatype WriteBehaviour = WriteSucceeds | FailsBeforeOpen | FailsAfterTruncate

  /** The store's contents after a write of `cache`. */
  function StoreAfterWrite(w: WriteBehaviour, stored: Option<map<string, string>>,
                           cache: map<string, string>): Option<map<string, string>> {
    match w
    case WriteSucceeds => Some(cache)
    case FailsBeforeOpen => stored
    case FailsAfterTruncate => None
  }

  /** The persistent store of the cache, shared with other processes. `contents` is `None` when
      the store is missing or does not hold a readable mapping; `writes` says how a write goes. */
  class CacheStore {
    var contents: Option<map<string, string>>
    var writes: WriteBehaviour

    constructor(contents: Option<map<string, string>>, writes: WriteBehaviour)
      ensures this.contents == contents && this.writes == writes
    {
      this.contents := contents;
      this.writes := writes;
    }
  }

  class SelfHealingLibrary {
    /** Original locator to healed locator. */
    var healingCache: map<string, string>
    /** Every healing so far, oldest first. */
    var healingHistory: seq<HealingEvent>
    /** Where the cache is persisted. */
    const cacheFile: CacheStore

    /** Start with an empty cache and history, then load the cache from the store. */
    constructor(store: CacheStore)
      ensures cacheFile == store
      ensures healingCache == if store.contents.Some? then store.contents.value else map[]
      ensures healingHistory == []
    {
      healingCache := map[];
      healingHistory := [];
      cacheFile := store;
      new;
      LoadCache();
    }

    /** `load_cache`: replace the map with the stored one when the store can be read; otherwise
        keep the map as it was. */
    method LoadCache()
      modifies this
      ensures healingCache == if cacheFile.contents.Some? then cacheFile.contents.value else old(healingCache)
      ensures healingHistory == old(healingHistory)
    {
      if cacheFile.contents.Some? {
        healingCache := cacheFile.contents.value;
      }
    }

    /** `save_cache`: overwrite the store with the map; a failed write is swallowed, and leaves
        the store as it was or, once the file has been emptied, unreadable. */
    method SaveCache()
      modifies cacheFile
      ensures cacheFile.writes == WriteSucceeds ==> cacheFile.contents == Some(healingCache)
      ensures cacheFile.writes == FailsBeforeOpen ==> cacheFile.contents == old(cacheFile.contents)
      ensures cacheFile.writes == FailsAfterTruncate ==> cacheFile.contents == None
      ensures cacheFile.writes == old(cacheFile.writes)
    {
      match cacheFile.writes {
        case WriteSucceeds => cacheFile.contents := Some(healingCache);
        case FailsBeforeOpen =>
        case FailsAfterTruncate => cacheFile.contents := None;
      }
    }

    /** `find_element_with_healing`. The timeout is accepted and not used; the clock readings of
        the healing event are parameters. */
    method FindElementWithHealing(driver: Driver, locator: string, timeout: int,
                                  timestamp: string, healingTime: real)
      returns (r: Result<Element, FindError>)
      modifies this, cacheFile
      ensures var res := Resolve(old(healingCache), driver, locator);
        && r == Outcome(res, locator)
        && healingCache == CacheAfter(old(healingCache), locator, res)
        && healingHistory == HistoryAfter(old(healingHistory), locator, res, timestamp, healingTime)
        && cacheFile.writes == old(cacheFile.writes)
        && cacheFile.contents ==
             if res.Healed? then StoreAfterWrite(cacheFile.writes, old(cacheFile.contents), healingCache)
             else old(cacheFile.contents)
    {
      if locator in healingCache {
        var cachedLocator := healingCache[locator];
        var cached := FindElement(driver, cachedLocator);
        if cached.Found? {
          return Ok(cached.element);
        }
      }

      var original := FindElement(driver, locator);
      match original {
        case Found(e) =>
          return Ok(e);
        case DriverError(reason) =>
          return Err(WebDriverError(reason));
        case NoSuchElement =>
      }

      var healed := TryHealingStrategies(driver, locator);
      if healed.Some? {
        var healedLocator := GetElementLocator(healed.value);
        healingCache := healingCache[locator := healedLocator];
        SaveCache();
        healingHistory := healingHistory + [HealingEvent(locator, healedLocator, timestamp, healingTime)];
        return Ok(healed.value);
      }

      return Err(ElementNotFound(NotFoundMessage(locator)));
    }

    /** `get_healing_statistics`: a read-only summary of the history and the cache. */
    function GetHealingStatistics(): (stats: HealingStatistics)
      reads this
      ensures stats.totalHealings == |healingHistory| && stats.cachedLocators == |healingCache|
      ensures |stats.recentHealings| == if |healingHistory| < 10 then |healingHistory| else 10
      ensures healingHistory == healingHistory[..|healingHistory| - |stats.recentHealings|] + stats.recentHealings
    {
      Statistics(healingCache, healingHistory)
    }
  }
}
