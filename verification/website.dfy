/** Start-up decisions of the web site: which connection string the Entity
    Framework context is built with, and which recommendation engine the
    service container hands out. The service container is modelled as the
    ordered list of registrations made so far. */
module Website {
  import opened Wrappers
  import opened Strings
  import opened Configuration

  /** `ConfigurationPath.Combine("ConnectionStrings", "DefaultConnectionString")` */
  const DefaultConnectionKey: string := Combine(["ConnectionStrings", "DefaultConnectionString"])

  /** `ConfigurationPath.Combine("Keys", "AzureMLFrequentlyBoughtTogether")` */
  const AzureMLSectionPath: string := Combine(["Keys", "AzureMLFrequentlyBoughtTogether"])

  /** The flat keys behind the two AzureML settings */
  const AccountKeyPath: string := Combine(["Keys", "AzureMLFrequentlyBoughtTogether", "AccountKey"])
  const ModelNamePath: string := Combine(["Keys", "AzureMLFrequentlyBoughtTogether", "ModelName"])

  /** The storage key is the two-segment hierarchical path joined by `:` */
  lemma DefaultConnectionKeyPath()
    ensures DefaultConnectionKey == "ConnectionStrings:DefaultConnectionString"
  {
    CombinePair("ConnectionStrings", "DefaultConnectionString");
  }

  /** ... and it splits back into exactly those two segments. */
  lemma DefaultConnectionKeySegments()
    ensures Split(DefaultConnectionKey) == ["ConnectionStrings", "DefaultConnectionString"]
  {
    var segments := ["ConnectionStrings", "DefaultConnectionString"];
    assert IsSegment(segments[0]) && IsSegment(segments[1]);
    SplitCombine(segments);
  }

  /** The AzureML settings live under the two-segment section path ... */
  lemma AzureMLSectionPathLiteral()
    ensures AzureMLSectionPath == "Keys:AzureMLFrequentlyBoughtTogether"
  {
    CombinePair("Keys", "AzureMLFrequentlyBoughtTogether");
    assert AzureMLSectionPath == "Keys" + [KeyDelimiter] + "AzureMLFrequentlyBoughtTogether";
  }

  /** ... and each setting is one more segment down. */
  lemma AzureMLKeyPaths()
    ensures AccountKeyPath == "Keys:AzureMLFrequentlyBoughtTogether:AccountKey"
    ensures ModelNamePath == "Keys:AzureMLFrequentlyBoughtTogether:ModelName"
  {
    AzureMLSectionPathLiteral();
    AzureMLSettingPath("AccountKey");
    AzureMLSettingPath("ModelName");
  }

  /** One setting under the AzureML section, as a flat key */
  lemma AzureMLSettingPath(key: string)
    ensures Combine(["Keys", "AzureMLFrequentlyBoughtTogether", key])
            == AzureMLSectionPath + [KeyDelimiter] + key
  {
    CombineSnoc(["Keys", "AzureMLFrequentlyBoughtTogether"], key);
    assert ["Keys", "AzureMLFrequentlyBoughtTogether"] + [key]
           == ["Keys", "AzureMLFrequentlyBoughtTogether", key];
  }

  // ---------------------------------------------------------------------------
  // Storage

  /** The storage backend: the in-memory database or SQL Server with a
      connection string */
  datatype StorageChoice = InMemory | SqlServer(connectionString: string) {

    /** The string handed to the `PartsUnlimitedContext` constructor; the
        empty string selects the in-memory database. */
    function ContextConnectionString(): (s: string)
    {
      match this
      case InMemory => ""
      case SqlServer(cs) => cs
    }
  }

  /** The storage policy: SQL Server with the configured string verbatim when
      that string is not blank and the process does not run on Mono; the
      in-memory database otherwise. */
  function SelectStorage(c: Config, runningOnMono: bool): (r: StorageChoice)
    ensures r.SqlServer? <==> !runningOnMono && !IsNullOrWhiteSpace(Lookup(c, DefaultConnectionKey))
    ensures r.SqlServer? ==> Lookup(c, DefaultConnectionKey) == Some(r.connectionString)
  {
    match Lookup(c, DefaultConnectionKey)
    case None => InMemory
    case Some(s) =>
      if runningOnMono || IsNullOrWhiteSpace(Some(s)) then InMemory else SqlServer(s)
  }

  /** A SQL Server choice always carries a non-blank string, so the empty
      context string is reserved for the in-memory database. */
  lemma SqlServerStringIsNeverBlank(c: Config, runningOnMono: bool)
    ensures var choice := SelectStorage(c, runningOnMono);
      choice.SqlServer? ==> !IsNullOrWhiteSpace(Some(choice.connectionString))
    ensures var choice := SelectStorage(c, runningOnMono);
      choice.InMemory? <==> choice.ContextConnectionString() == ""
  {
    var choice := SelectStorage(c, runningOnMono);
    if choice.SqlServer? {
      NullOrEmptyRefinesNullOrWhiteSpace(Some(choice.connectionString));
    }
  }

  /** The connection string the web site computes before registering its
      `PartsUnlimitedContext`: the configured string is replaced by `""`
      when it is null, empty or white space, or when running on Mono. */
  method ResolveSqlConnectionString(c: Config, runningOnMono: bool) returns (sqlConnectionString: string)
    ensures sqlConnectionString == SelectStorage(c, runningOnMono).ContextConnectionString()
    ensures IsNullOrWhiteSpace(Lookup(c, DefaultConnectionKey)) ==> sqlConnectionString == ""
    ensures runningOnMono ==> sqlConnectionString == ""
    ensures !runningOnMono && !IsNullOrWhiteSpace(Lookup(c, DefaultConnectionKey))
      ==> Lookup(c, DefaultConnectionKey) == Some(sqlConnectionString) && sqlConnectionString != ""
  {
    var configured := Lookup(c, DefaultConnectionKey);
    var useInMemoryDatabase := ScanNullOrWhiteSpace(configured);
    if useInMemoryDatabase || runningOnMono {
      configured := Some("");
    }
    NullOrEmptyRefinesNullOrWhiteSpace(configured);
    sqlConnectionString := configured.value;
  }

  // ---------------------------------------------------------------------------
  // Service registrations

  /** The services whose registrations this model tracks */
  datatype Service =
    | ContextService                 // PartsUnlimitedContext
    | ContextInterfaceService        // IPartsUnlimitedContext
    | RecommendationEngineService    // IRecommendationEngine
    | HttpClientService              // IAzureMLAuthenticatedHttpClient
    | AzureMLConfigService           // IAzureMLFrequentlyBoughtTogetherConfig

  datatype Lifetime = Singleton | Scoped

  /** The settings object read from the `Keys:AzureMLFrequentlyBoughtTogether`
      section; either value may be null. */
  datatype AzureMLConfig = AzureMLConfig(accountKey: Option<string>, modelName: Option<string>)

  datatype Implementation =
    | PartsUnlimitedContext(connectionString: string)
    | ForwardToContext
    | EmptyRecommendationsEngine
    | AzureMLFrequentlyBoughtTogetherRecommendationEngine
    | AzureMLAuthenticatedHttpClient
    | AzureMLConfigInstance(config: AzureMLConfig)

  datatype Registration = Registration(service: Service, lifetime: Lifetime, impl: Implementation)

  /** Number of registrations of service `s` */
  function Count(services: seq<Registration>, s: Service): (n: nat)
  {
    if |services| == 0 then 0
    else Count(services[..|services| - 1], s) + (if services[|services| - 1].service == s then 1 else 0)
  }

  /** The registration the container uses for `s`: the last one made */
  function Resolve(services: seq<Registration>, s: Service): (r: Option<Registration>)
    ensures r.None? <==> forall k | 0 <= k < |services| :: services[k].service != s
    ensures r.Some? ==> r.value.service == s && exists k | 0 <= k < |services| ::
      services[k] == r.value && forall m | k < m < |services| :: services[m].service != s
  {
    if |services| == 0 then None
    else if services[|services| - 1].service == s then Some(services[|services| - 1])
    else
      Resolve(services[..|services| - 1], s)
  }

  /** Registrations added later take precedence; earlier ones are used only
      for services the later ones do not mention. */
  lemma {:induction false} ResolveAppend(a: seq<Registration>, b: seq<Registration>, s: Service)
    ensures Resolve(a + b, s) == if Resolve(b, s).Some? then Resolve(b, s) else Resolve(a, s)
    decreases |b|
  {
    if |b| > 0 {
      var whole := a + b;
      assert whole[..|whole| - 1] == a + b[..|b| - 1];
      assert whole[|whole| - 1] == b[|b| - 1];
      ResolveAppend(a, b[..|b| - 1], s);
    } else {
      assert a + b == a;
    }
  }

  /** Registration counts add up over concatenation. */
  lemma {:induction false} CountAppend(a: seq<Registration>, b: seq<Registration>, s: Service)
    ensures Count(a + b, s) == Count(a, s) + Count(b, s)
    decreases |b|
  {
    if |b| > 0 {
      var whole := a + b;
      assert whole[..|whole| - 1] == a + b[..|b| - 1];
      CountAppend(a, b[..|b| - 1], s);
    } else {
      assert a + b == a;
    }
  }

  /** The services `SetupRecommendationService` may register */
  predicate IsRecommendationService(s: Service)
  {
    s == RecommendationEngineService || s == HttpClientService || s == AzureMLConfigService
  }

  /** `new AzureMLFrequentlyBoughtTogetherConfig(section)` */
  function ReadAzureMLConfig(section: Section): (config: AzureMLConfig)
  {
    AzureMLConfig(section.Get("AccountKey"), section.Get("ModelName"))
  }

  /** The registration of the empty-engine branch */
  const EmptyEngineRegistration: Registration :=
    Registration(RecommendationEngineService, Singleton, EmptyRecommendationsEngine)

  /** Whether the AzureML settings lack the account key or the model name;
      the test is `string.IsNullOrEmpty`, so white space counts as present */
  predicate MissingAzureMLKeys(config: AzureMLConfig)
  {
    IsNullOrEmpty(config.accountKey) || IsNullOrEmpty(config.modelName)
  }

  /** The registrations `SetupRecommendationService` makes for a settings
      object: exactly one recommendation engine, which is the empty engine
      precisely when a key is missing; the AzureML HTTP client and settings
      object are registered only alongside the AzureML engine. */
  function RecommendationRegistrations(config: AzureMLConfig): (added: seq<Registration>)
    ensures Count(added, RecommendationEngineService) == 1
    ensures forall k | 0 <= k < |added| :: IsRecommendationService(added[k].service)
    ensures MissingAzureMLKeys(config) <==> Resolve(added, RecommendationEngineService) == Some(EmptyEngineRegistration)
    ensures MissingAzureMLKeys(config) ==>
      Resolve(added, HttpClientService).None? && Resolve(added, AzureMLConfigService).None?
    ensures !MissingAzureMLKeys(config) ==>
      && Resolve(added, RecommendationEngineService)
         == Some(Registration(RecommendationEngineService, Scoped, AzureMLFrequentlyBoughtTogetherRecommendationEngine))
      && Resolve(added, HttpClientService)
         == Some(Registration(HttpClientService, Singleton, AzureMLAuthenticatedHttpClient))
      && Resolve(added, AzureMLConfigService)
         == Some(Registration(AzureMLConfigService, Singleton, AzureMLConfigInstance(config)))
  {
    if MissingAzureMLKeys(config) then
      assert [EmptyEngineRegistration][..0] == [];
      [EmptyEngineRegistration]
    else
      var added := [
        Registration(HttpClientService, Singleton, AzureMLAuthenticatedHttpClient),
        Registration(AzureMLConfigService, Singleton, AzureMLConfigInstance(config)),
        Registration(RecommendationEngineService, Scoped, AzureMLFrequentlyBoughtTogetherRecommendationEngine)
      ];
      assert added[..|added| - 1] == added[..2];
      assert added[..2][..1] == added[..1];
      assert added[..1][..0] == [];
      assert Count(added[..1], RecommendationEngineService) == 0;
      assert Count(added[..2], RecommendationEngineService) == 0;
      assert Resolve(added[..1], HttpClientService) == Some(added[0]);
      added
  }

  /** `SetupRecommendationService`: reads the settings object from the
      `Keys:AzureMLFrequentlyBoughtTogether` section and appends the
      registrations for it; the section holds the values at the flat keys. */
  function SetupRecommendationService(services: seq<Registration>, c: Config): (r: seq<Registration>)
    ensures r == services + RecommendationRegistrations(AzureMLConfig(Lookup(c, AccountKeyPath), Lookup(c, ModelNamePath)))
  {
    var azureMlConfig := ReadAzureMLConfig(GetSection(c, AzureMLSectionPath));
    ReadsFlatKeys(c);
    services + RecommendationRegistrations(azureMlConfig)
  }

  /** What the container hands out after `SetupRecommendationService`: the
      earlier registrations are kept, one engine is added, the empty engine
      is used exactly when the account key or the model name is null or
      empty (and then nothing AzureML-related is added), and otherwise the
      AzureML engine with its HTTP client and the settings holding the two
      configured values. */
  lemma RecommendationEngineChoice(services: seq<Registration>, c: Config)
    ensures var r := SetupRecommendationService(services, c);
      r[..|services|] == services
      && Count(r, RecommendationEngineService) == Count(services, RecommendationEngineService) + 1
    ensures var r := SetupRecommendationService(services, c);
      var key := Lookup(c, AccountKeyPath); var model := Lookup(c, ModelNamePath);
      (IsNullOrEmpty(key) || IsNullOrEmpty(model))
        <==> Resolve(r, RecommendationEngineService) == Some(EmptyEngineRegistration)
    ensures var r := SetupRecommendationService(services, c);
      var key := Lookup(c, AccountKeyPath); var model := Lookup(c, ModelNamePath);
      (IsNullOrEmpty(key) || IsNullOrEmpty(model)) ==>
        && Resolve(r, HttpClientService) == Resolve(services, HttpClientService)
        && Resolve(r, AzureMLConfigService) == Resolve(services, AzureMLConfigService)
    ensures var r := SetupRecommendationService(services, c);
      var key := Lookup(c, AccountKeyPath); var model := Lookup(c, ModelNamePath);
      !IsNullOrEmpty(key) && !IsNullOrEmpty(model) ==>
        && Resolve(r, RecommendationEngineService)
           == Some(Registration(RecommendationEngineService, Scoped, AzureMLFrequentlyBoughtTogetherRecommendationEngine))
        && Resolve(r, HttpClientService)
           == Some(Registration(HttpClientService, Singleton, AzureMLAuthenticatedHttpClient))
        && Resolve(r, AzureMLConfigService)
           == Some(Registration(AzureMLConfigService, Singleton, AzureMLConfigInstance(AzureMLConfig(key, model))))
  {
    var config := AzureMLConfig(Lookup(c, AccountKeyPath), Lookup(c, ModelNamePath));
    var added := RecommendationRegistrations(config);
    var r := SetupRecommendationService(services, c);
    assert r[..|services|] == services;
    CountAppend(services, added, RecommendationEngineService);
    ResolveAppend(services, added, RecommendationEngineService);
    ResolveAppend(services, added, HttpClientService);
    ResolveAppend(services, added, AzureMLConfigService);
  }

  /** The settings object holds exactly the values at the flat AzureML keys. */
  lemma ReadsFlatKeys(c: Config)
    ensures ReadAzureMLConfig(GetSection(c, AzureMLSectionPath))
            == AzureMLConfig(Lookup(c, AccountKeyPath), Lookup(c, ModelNamePath))
  {
    SectionGetIsFlatLookup(c, ["Keys", "AzureMLFrequentlyBoughtTogether"], "AccountKey");
    SectionGetIsFlatLookup(c, ["Keys", "AzureMLFrequentlyBoughtTogether"], "ModelName");
    assert ["Keys", "AzureMLFrequentlyBoughtTogether"] + ["AccountKey"]
           == ["Keys", "AzureMLFrequentlyBoughtTogether", "AccountKey"];
    assert ["Keys", "AzureMLFrequentlyBoughtTogether"] + ["ModelName"]
           == ["Keys", "AzureMLFrequentlyBoughtTogether", "ModelName"];
  }

  // ---------------------------------------------------------------------------
  // The start-up sequence

  /** The registrations the web site makes for storage and recommendations,
      in order: the context built with the resolved connection string, the
      context interface forwarding to it, then the recommendation services.
      The other registrations of the start-up code concern services that are
      not tracked here. */
  method ConfigureServices(c: Config, runningOnMono: bool) returns (services: seq<Registration>)
    ensures Resolve(services, ContextService)
            == Some(Registration(ContextService, Scoped,
                 PartsUnlimitedContext(SelectStorage(c, runningOnMono).ContextConnectionString())))
    ensures Resolve(services, ContextInterfaceService)
            == Some(Registration(ContextInterfaceService, Scoped, ForwardToContext))
    ensures Count(services, RecommendationEngineService) == 1
    ensures MissingAzureMLKeys(AzureMLConfig(Lookup(c, AccountKeyPath), Lookup(c, ModelNamePath)))
            <==> Resolve(services, RecommendationEngineService) == Some(EmptyEngineRegistration)
  {
    var sqlConnectionString := ResolveSqlConnectionString(c, runningOnMono);
    services := SetupRecommendationService(StorageRegistrations(sqlConnectionString), c);
    StorageKeptAfterRecommendations(sqlConnectionString, c);
    OneEngineAfterStorage(sqlConnectionString, c);
  }

  /** After the recommendation registrations the context and its interface
      still resolve to the storage registrations ... */
  lemma StorageKeptAfterRecommendations(sqlConnectionString: string, c: Config)
    ensures var services := SetupRecommendationService(StorageRegistrations(sqlConnectionString), c);
      && Resolve(services, ContextService)
         == Some(Registration(ContextService, Scoped, PartsUnlimitedContext(sqlConnectionString)))
      && Resolve(services, ContextInterfaceService)
         == Some(Registration(ContextInterfaceService, Scoped, ForwardToContext))
  {
    var storage := StorageRegistrations(sqlConnectionString);
    var added := RecommendationRegistrations(AzureMLConfig(Lookup(c, AccountKeyPath), Lookup(c, ModelNamePath)));
    assert Resolve(added, ContextService).None? && Resolve(added, ContextInterfaceService).None? by {
      forall k | 0 <= k < |added|
        ensures added[k].service != ContextService && added[k].service != ContextInterfaceService
      {
        assert IsRecommendationService(added[k].service);
      }
    }
    ResolveAppend(storage, added, ContextService);
    ResolveAppend(storage, added, ContextInterfaceService);
  }

  /** ... and the container holds one engine, the empty one exactly when a
      key is missing. */
  lemma OneEngineAfterStorage(sqlConnectionString: string, c: Config)
    ensures var services := SetupRecommendationService(StorageRegistrations(sqlConnectionString), c);
      && Count(services, RecommendationEngineService) == 1
      && (MissingAzureMLKeys(AzureMLConfig(Lookup(c, AccountKeyPath), Lookup(c, ModelNamePath)))
          <==> Resolve(services, RecommendationEngineService) == Some(EmptyEngineRegistration))
  {
    var storage := StorageRegistrations(sqlConnectionString);
    var added := RecommendationRegistrations(AzureMLConfig(Lookup(c, AccountKeyPath), Lookup(c, ModelNamePath)));
    CountAppend(storage, added, RecommendationEngineService);
    ResolveAppend(storage, added, RecommendationEngineService);
  }

  /** The two registrations of the context, built with the given string */
  function StorageRegistrations(sqlConnectionString: string): (storage: seq<Registration>)
    ensures Count(storage, RecommendationEngineService) == 0
    ensures Resolve(storage, ContextService)
            == Some(Registration(ContextService, Scoped, PartsUnlimitedContext(sqlConnectionString)))
    ensures Resolve(storage, ContextInterfaceService)
            == Some(Registration(ContextInterfaceService, Scoped, ForwardToContext))
  {
    var storage := [
      Registration(ContextService, Scoped, PartsUnlimitedContext(sqlConnectionString)),
      Registration(ContextInterfaceService, Scoped, ForwardToContext)
    ];
    assert storage[..|storage| - 1] == [storage[0]];
    assert [storage[0]][..0] == [];
    assert Count([storage[0]], RecommendationEngineService) == 0;
    storage
  }

  /** The recommendation registrations leave the resolution of every other
      service as it was. */
  lemma StorageSurvivesRecommendations(services: seq<Registration>, c: Config)
    ensures forall s | !IsRecommendationService(s) ::
      Resolve(SetupRecommendationService(services, c), s) == Resolve(services, s)
  {
    var added := RecommendationRegistrations(AzureMLConfig(Lookup(c, AccountKeyPath), Lookup(c, ModelNamePath)));
    forall s | !IsRecommendationService(s)
      ensures Resolve(services + added, s) == Resolve(services, s)
    {
      ResolveAppend(services, added, s);
    }
  }

  /** The storage choice reads nothing but the connection-string key. */
  lemma StorageReadsOnlyItsKey(c1: Config, c2: Config, runningOnMono: bool)
    requires Lookup(c1, DefaultConnectionKey) == Lookup(c2, DefaultConnectionKey)
    ensures SelectStorage(c1, runningOnMono) == SelectStorage(c2, runningOnMono)
  {
  }

  /** The recommendation registrations read nothing but the account key and
      the model name. */
  lemma RecommendationsReadOnlyTheirKeys(c1: Config, c2: Config, services: seq<Registration>)
    requires Lookup(c1, AccountKeyPath) == Lookup(c2, AccountKeyPath)
    requires Lookup(c1, ModelNamePath) == Lookup(c2, ModelNamePath)
    ensures SetupRecommendationService(services, c1) == SetupRecommendationService(services, c2)
  {
  }

  /** The two decisions test blankness differently: a non-empty value made
      only of white space is a missing connection string but a present
      AzureML key and model name, so it selects the in-memory database and
      the AzureML engine at the same time. */
  lemma WhiteSpaceAsymmetry(c: Config, runningOnMono: bool, s: string)
    requires s != "" && forall i | 0 <= i < |s| :: IsWhiteSpace(s[i])
    requires Lookup(c, DefaultConnectionKey) == Some(s)
    requires Lookup(c, AccountKeyPath) == Some(s) && Lookup(c, ModelNamePath) == Some(s)
    ensures SelectStorage(c, runningOnMono) == InMemory
    ensures Resolve(SetupRecommendationService([], c), RecommendationEngineService)
            == Some(Registration(RecommendationEngineService, Scoped, AzureMLFrequentlyBoughtTogetherRecommendationEngine))
  {
    RecommendationEngineChoice([], c);
  }
}
