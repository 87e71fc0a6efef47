/** The entity registry and the parameter-based API policy: two static tables,
    one keyed by entity alias (exact match) and one keyed by service name. */
module EntityRegistry {
  import opened Wrappers

  /** A registry target. The object literals leave `requiresParams` and
      `mandatoryFilters` out for ordinary entities; that is `None` here. */
  datatype ServiceEntityRef = ServiceEntityRef(
    service: string,
    entity: string,
    requiresParams: Option<bool>,
    mandatoryFilters: Option<seq<string>>)

  /** A parameter-based service: the entity to address, its mandatory
      parameters in canonical order, and how the request is shaped. */
  datatype ParameterPolicy = ParameterPolicy(
    service: string,
    entity: string,
    mandatoryFilters: seq<string>,
    urlPattern: string)

  const BusinessPartnerService: string := "API_BUSINESS_PARTNER"
  const SalesAnalyticsService: string := "C_SALESANALYTICSQRY_1_CDS"
  const FunctionImport: string := "function_import"
  const SalesAnalyticsFilters: seq<string> := ["P_ExchangeRateType", "P_DisplayCurrency"]

  const CustomerTarget: ServiceEntityRef :=
    ServiceEntityRef(BusinessPartnerService, "A_Customer", None, None)
  const BusinessPartnerTarget: ServiceEntityRef :=
    ServiceEntityRef(BusinessPartnerService, "A_BusinessPartner", None, None)
  const SalesAnalyticsTarget: ServiceEntityRef :=
    ServiceEntityRef(SalesAnalyticsService, "C_SALESANALYTICSQRY_1Results", Some(true), Some(SalesAnalyticsFilters))

  /** Alias -> target. Aliases of one business object share one target value. */
  const KnownEntities: map<string, ServiceEntityRef> := map[
    "Customer" := CustomerTarget,
    "BusinessPartner" := BusinessPartnerTarget,
    "A_Customer" := CustomerTarget,
    "A_BusinessPartner" := BusinessPartnerTarget,
    "C_SALESANALYTICSQRY_1Results" := SalesAnalyticsTarget,
    "SalesAnalytics" := SalesAnalyticsTarget
  ]

  const SalesAnalyticsPolicy: ParameterPolicy :=
    ParameterPolicy(SalesAnalyticsService, "C_SALESANALYTICSQRY_1", SalesAnalyticsFilters, FunctionImport)

  /** Service name -> parameter policy. */
  const ParameterBasedApis: map<string, ParameterPolicy> := map[SalesAnalyticsService := SalesAnalyticsPolicy]

  /** Exact-key lookup of an alias among the registry's own keys. */
  function FindServiceForKnownEntity(entityName: string): (r: Option<ServiceEntityRef>)
    ensures r.Some? <==> entityName in KnownEntities
    ensures r.Some? ==> r.value == KnownEntities[entityName]
  {
    if entityName in KnownEntities then Some(KnownEntities[entityName]) else None
  }

  /** `knownEntity.requiresParams || false`: an absent flag reads as false. */
  function RequiresParams(target: ServiceEntityRef): (r: bool)
    ensures r <==> target.requiresParams == Some(true)
  {
    target.requiresParams.GetOr(false)
  }

  /** The property key `hasOwnProperty` looks up: `undefined` is converted to
      the string "undefined". */
  function PropertyKey(name: Option<string>): string {
    name.GetOr("undefined")
  }

  /** `PARAMETER_BASED_APIS.hasOwnProperty(serviceName)`, where the argument may
      be `undefined` (an unknown entity has no service). */
  function IsParameterBasedApi(serviceName: Option<string>): (r: bool)
    ensures r <==> serviceName == Some(SalesAnalyticsService)
  {
    PropertyKey(serviceName) in ParameterBasedApis
  }

  /** The mandatory parameters of a service, in canonical order; empty for a
      service that is not parameter-based. */
  function GetMandatoryFilters(service: string): (r: seq<string>)
    ensures IsParameterBasedApi(Some(service)) ==> r == SalesAnalyticsFilters
    ensures !IsParameterBasedApi(Some(service)) ==> r == []
  {
    if service in ParameterBasedApis then ParameterBasedApis[service].mandatoryFilters else []
  }

  /** The aliases whose target carries `requiresParams`. */
  const ParameterisedAliases: set<string> := {"C_SALESANALYTICSQRY_1Results", "SalesAnalytics"}

  /** Customer, BusinessPartner and SalesAnalytics each resolve alike under
      their current and their legacy names. */
  lemma AliasEquivalence()
    ensures FindServiceForKnownEntity("Customer") == FindServiceForKnownEntity("A_Customer")
              == Some(ServiceEntityRef("API_BUSINESS_PARTNER", "A_Customer", None, None))
    ensures FindServiceForKnownEntity("BusinessPartner") == FindServiceForKnownEntity("A_BusinessPartner")
              == Some(ServiceEntityRef("API_BUSINESS_PARTNER", "A_BusinessPartner", None, None))
    ensures FindServiceForKnownEntity("SalesAnalytics") == FindServiceForKnownEntity("C_SALESANALYTICSQRY_1Results")
    ensures FindServiceForKnownEntity("SalesAnalytics").Some?
    ensures FindServiceForKnownEntity("SalesAnalytics").value.entity == "C_SALESANALYTICSQRY_1Results"
  {
  }

  /** Only the sales-analytics entries require parameters; every other entry has
      no flag, which reads as false. */
  lemma OnlySalesAnalyticsRequiresParams(entityName: string)
    requires entityName in KnownEntities
    ensures RequiresParams(KnownEntities[entityName]) <==> entityName in ParameterisedAliases
    ensures entityName !in ParameterisedAliases ==> KnownEntities[entityName].requiresParams == None
  {
  }

  /** A registry entry that requires parameters names a service that has a
      policy, with the identical ordered list of mandatory filters. */
  ghost predicate RegistryPolicyConsistent(registry: map<string, ServiceEntityRef>, policies: map<string, ParameterPolicy>) {
    forall name | name in registry && RequiresParams(registry[name]) ::
      && registry[name].service in policies
      && registry[name].mandatoryFilters == Some(policies[registry[name].service].mandatoryFilters)
  }

  lemma ConfiguredTablesConsistent()
    ensures RegistryPolicyConsistent(KnownEntities, ParameterBasedApis)
    ensures forall s | s in ParameterBasedApis :: ParameterBasedApis[s].service == s
  {
  }

  /** An alias that is not registered yields no target, and the parameter
      check on its missing service is false. */
  lemma UnknownEntityIsSafe(entityName: string)
    requires entityName !in KnownEntities
    ensures FindServiceForKnownEntity(entityName) == None
    ensures !IsParameterBasedApi(None)
  {
  }

  /** What the lookup flow reports for one alias. */
  datatype LookupReport = LookupReport(
    found: Option<ServiceEntityRef>,
    requiresParams: bool,
    isParameterBased: bool,
    urlPattern: Option<string>)

  /** Look the alias up, then test its service (undefined when not found)
      against the policy, and read the URL pattern when it is parameter-based. */
  function LookupFlow(entityName: string): (r: LookupReport)
    ensures r.found == FindServiceForKnownEntity(entityName)
    ensures r.isParameterBased <==> r.found.Some? && r.found.value.service == SalesAnalyticsService
    ensures r.requiresParams <==> r.found.Some? && RequiresParams(r.found.value)
    ensures r.requiresParams ==> r.isParameterBased
    ensures r.urlPattern == (if r.isParameterBased then Some(FunctionImport) else None)
  {
    var known := FindServiceForKnownEntity(entityName);
    var service := if known.Some? then Some(known.value.service) else None;
    var isParam := IsParameterBasedApi(service);
    LookupReport(
      known,
      known.Some? && RequiresParams(known.value),
      isParam,
      if isParam then Some(ParameterBasedApis[PropertyKey(service)].urlPattern) else None)
  }

  /** The customer alias resolves to a service that needs no parameters. */
  lemma CustomerIsNotParameterBased()
    ensures LookupFlow("Customer") == LookupReport(Some(CustomerTarget), false, false, None)
  {
  }

  // ---- The lookup as the object-literal table actually behaves ----

  /** What `KNOWN_ENTITIES[name] || null` yields: an own entry, a member
      inherited from `Object.prototype` (a truthy function or object), or null. */
  datatype LookupValue = Registered(target: ServiceEntityRef) | Inherited(member: string) | Null

  /** The property names every plain JavaScript object inherits. */
  const ObjectPrototypeMembers: set<string> := {
    "constructor", "hasOwnProperty", "isPrototypeOf", "propertyIsEnumerable",
    "toLocaleString", "toString", "valueOf", "__proto__",
    "__defineGetter__", "__defineSetter__", "__lookupGetter__", "__lookupSetter__"
  }

  /** Bracket lookup on a plain object: own keys first, then the prototype chain. */
  function FindServiceAsWritten(entityName: string): (r: LookupValue)
    ensures r.Registered? <==> entityName in KnownEntities
    ensures r.Inherited? <==> entityName !in KnownEntities && entityName in ObjectPrototypeMembers
  {
    if entityName in KnownEntities then Registered(KnownEntities[entityName])
    else if entityName in ObjectPrototypeMembers then Inherited(entityName)
    else Null
  }

  /** An unregistered name such as "toString" is found by the table as written. */
  lemma InheritedMemberIsFound()
    ensures "toString" !in KnownEntities
    ensures FindServiceAsWritten("toString") == Inherited("toString")
    ensures FindServiceForKnownEntity("toString") == None
  {
  }

  /** Off the prototype's member names, the two lookups agree. */
  lemma AsWrittenAgreesOffPrototype(entityName: string)
    requires entityName !in ObjectPrototypeMembers
    ensures FindServiceAsWritten(entityName) ==
              (if entityName in KnownEntities then Registered(FindServiceForKnownEntity(entityName).value) else Null)
  {
  }
}
