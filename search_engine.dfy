/**
 * The search-engine setup (`SearchEngineWrapper`): the per-region engine
 * overrides, the choice of localization provider and engine filter, the
 * fallback to the default engine manager, the process-wide instance and the
 * search URL's query encoding.
 *
 * The search-component library (its engine lists, the default engine it
 * picks, URL building) and the URL encoder are outside the model: the
 * number of engines the configured manager finds and the encoder are
 * parameters.
 */
module SearchEngine {
  import opened Wrappers
  import opened JavaLang

  /** The engines the browser forces for some regions; other regions keep the library's choice. */
  const RegionEngineOverride: map<string, string> :=
    map["CN" := "baidu", "RU" := "yandex-ru", "BY" := "yandex.by", "TR" := "yandex-tr", "KZ" := "yandex-kz"]

  /** `getEngine`: the override for a country code (case-sensitive), null for others and for a null code. */
  function GetEngine(countryCode: Option<string>): (r: Option<string>)
    ensures r.Some? <==> countryCode.Some? && countryCode.value in RegionEngineOverride
    ensures r.Some? ==> r.value == RegionEngineOverride[countryCode.value]
  {
    if countryCode.Some? && countryCode.value in RegionEngineOverride then Some(RegionEngineOverride[countryCode.value])
    else None
  }

  /** The override table, entry by entry; lower-case codes have no override. */
  lemma OverrideTable()
    ensures GetEngine(Some("CN")) == Some("baidu")
    ensures GetEngine(Some("RU")) == Some("yandex-ru")
    ensures GetEngine(Some("BY")) == Some("yandex.by")
    ensures GetEngine(Some("TR")) == Some("yandex-tr")
    ensures GetEngine(Some("KZ")) == Some("yandex-kz")
    ensures GetEngine(Some("cn")) == None && GetEngine(Some("US")) == None && GetEngine(None) == None
    ensures RegionEngineOverride.Keys == {"CN", "RU", "BY", "TR", "KZ"}
  {
    assert "cn" != "CN" && "cn" != "RU" && "cn" != "BY" && "cn" != "TR" && "cn" != "KZ";
    assert "US" != "CN" && "US" != "RU" && "US" != "BY" && "US" != "TR" && "US" != "KZ";
  }

  /** The parsed geolocation settings; only the country code matters here. */
  datatype GeolocationData = GeolocationData(countryCode: Option<string>)

  datatype LocalizationProvider = LocaleProvider | GeolocationProvider(data: GeolocationData)

  /** A filter that keeps the engines whose identifier is `engine`, ignoring case. */
  datatype EngineFilter = IdentifierIs(engine: string)

  predicate Accepts(f: EngineFilter, identifier: string)
  {
    EqualsIgnoreCase(identifier, f.engine)
  }

  datatype EngineManager = ConfiguredManager(provider: LocalizationProvider, filters: seq<EngineFilter>) | DefaultManager

  /** The outcome of `setupSearchEngine`: the provider, the filters, the manager and the user preference handed to it. */
  datatype Setup = Setup(provider: LocalizationProvider, filters: seq<EngineFilter>, manager: EngineManager, userPref: string)

  /** The provider and the filter list for the geolocation data, if any. */
  function ProviderAndFilters(data: Option<GeolocationData>): (LocalizationProvider, seq<EngineFilter>)
  {
    match data
    case None => (LocaleProvider, [])
    case Some(d) =>
      (GeolocationProvider(d), if GetEngine(d.countryCode).Some? then [IdentifierIs(GetEngine(d.countryCode).value)] else [])
  }

  /**
   * `setupSearchEngine`. `configuredEngines` is the number of engines the
   * manager built on the provider and filters finds; none means the default
   * manager is used instead.
   */
  function SetupSearchEngine(data: Option<GeolocationData>, configuredEngines: nat, userPref: string): Setup
  {
    var (provider, filters) := ProviderAndFilters(data);
    var manager := if configuredEngines == 0 then DefaultManager else ConfiguredManager(provider, filters);
    Setup(provider, filters, manager, userPref)
  }

  /** Without geolocation data the locale provider is used with no filter. */
  lemma SetupWithoutLocation(configuredEngines: nat, userPref: string)
    ensures SetupSearchEngine(None, configuredEngines, userPref).provider == LocaleProvider
    ensures SetupSearchEngine(None, configuredEngines, userPref).filters == []
  {
  }

  /**
   * With geolocation data there is one filter exactly when the country has
   * an override, and it accepts exactly the identifiers equal to the
   * override up to case.
   */
  lemma SetupWithLocation(d: GeolocationData, configuredEngines: nat, userPref: string, identifier: string)
    ensures var s := SetupSearchEngine(Some(d), configuredEngines, userPref);
      && s.provider == GeolocationProvider(d)
      && (|s.filters| == 1 <==> GetEngine(d.countryCode).Some?)
      && (|s.filters| == 0 <==> GetEngine(d.countryCode).None?)
      && (|s.filters| == 1 ==> (Accepts(s.filters[0], identifier) <==> EqualsIgnoreCase(identifier, GetEngine(d.countryCode).value)))
  {
  }

  /** The configured manager is kept exactly when it finds some engine. */
  lemma SetupFallback(data: Option<GeolocationData>, configuredEngines: nat, userPref: string)
    ensures SetupSearchEngine(data, configuredEngines, userPref).manager == DefaultManager <==> configuredEngines == 0
    ensures configuredEngines > 0 ==>
      SetupSearchEngine(data, configuredEngines, userPref).manager ==
        ConfiguredManager(ProviderAndFilters(data).0, ProviderAndFilters(data).1)
  {
  }

  /** The query as the engine receives it: URL-encoded, or unchanged when encoding fails. */
  function EncodedQuery(query: string, encode: string -> Option<string>): (r: string)
    ensures encode(query).Some? ==> r == encode(query).value
    ensures encode(query).None? ==> r == query
  {
    match encode(query)
    case Some(e) => e
    case None => query
  }

  /** The wrapper's state: the setup is always run with an empty user preference. */
  class SearchEngineWrapper {
    var setup: Setup

    predicate Valid()
      reads this
    {
      setup.userPref == ""
    }

    constructor (data: Option<GeolocationData>, configuredEngines: nat)
      ensures Valid() && setup == SetupSearchEngine(data, configuredEngines, "")
    {
      setup := SetupSearchEngine(data, configuredEngines, "");
    }

    method Reconfigure(data: Option<GeolocationData>, configuredEngines: nat)
      modifies this
      ensures Valid() && setup == SetupSearchEngine(data, configuredEngines, "")
    {
      setup := SetupSearchEngine(data, configuredEngines, "");
    }

    /** The locale-change receiver: a new setup for the locale-changed action, nothing otherwise. */
    method OnLocaleChanged(isLocaleChangedAction: bool, data: Option<GeolocationData>, configuredEngines: nat)
      requires Valid()
      modifies this
      ensures Valid()
      ensures setup == if isLocaleChangedAction then SetupSearchEngine(data, configuredEngines, "") else old(setup)
    {
      if isLocaleChangedAction {
        Reconfigure(data, configuredEngines);
      }
    }

    /**
     * The preference listener: a new setup when the changed key is the
     * geolocation setting (compared by reference), nothing otherwise.
     */
    method OnSharedPreferenceChanged(isGeolocationKey: bool, data: Option<GeolocationData>, configuredEngines: nat)
      requires Valid()
      modifies this
      ensures Valid()
      ensures setup == if isGeolocationKey then SetupSearchEngine(data, configuredEngines, "") else old(setup)
    {
      if isGeolocationKey {
        Reconfigure(data, configuredEngines);
      }
    }

    /** `getSearchURL`: the query handed to the engine's URL builder. */
    method SearchQuery(query: string, encode: string -> Option<string>) returns (q: string)
      ensures q == EncodedQuery(query, encode)
    {
      q := query;
      var e := encode(query);
      if e.Some? {
        q := e.value;
      }
    }
  }

  /** The process-wide holder behind `SearchEngineWrapper.get`. */
  class Singleton {
    var instance: SearchEngineWrapper?

    constructor ()
      ensures instance == null
    {
      instance := null;
    }

    /** Creates the wrapper on the first call and returns that same wrapper on every later one. */
    method Get(data: Option<GeolocationData>, configuredEngines: nat) returns (w: SearchEngineWrapper)
      modifies this
      ensures instance == w
      ensures old(instance) != null ==> w == old(instance)
      ensures old(instance) == null ==> fresh(w) && w.Valid() && w.setup == SetupSearchEngine(data, configuredEngines, "")
    {
      if instance == null {
        instance := new SearchEngineWrapper(data, configuredEngines);
      }
      w := instance;
    }
  }

  /** Two calls to `get` return the same wrapper, whatever the arguments of the second. */
  method GetTwice(s: Singleton, d1: Option<GeolocationData>, n1: nat, d2: Option<GeolocationData>, n2: nat)
    returns (a: SearchEngineWrapper, b: SearchEngineWrapper)
    modifies s
    ensures a == b && s.instance == a
  {
    a := s.Get(d1, n1);
    b := s.Get(d2, n2);
  }
}
