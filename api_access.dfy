/** The API access check: for each configured service/entity pair, the
    outcome of a `$metadata` request and of a one-record entity request is
    turned into a result record that says whether the entity is accessible and,
    if not, which authorisation or activation is needed. */
module ApiAccess {
  import opened Wrappers
  import opened ODataPaths

  /** A status as the result records it: the response's number, or the
      string 'ERROR' when there is no response (or its status is 0). */
  datatype Status = Code(code: int) | ErrorText

  /** `innererror.application` of an SAP Gateway error payload. */
  datatype Application = Application(serviceId: Option<string>, serviceVersion: Option<string>)

  /** `error.message`: its `value`, and the text `JSON.stringify` gives for it. */
  datatype SapMessage = SapMessage(value: Option<string>, json: string)

  /** The `error` object of an SAP Gateway error body. */
  datatype SapError = SapError(code: Option<string>, message: Option<SapMessage>, application: Option<Application>)

  /** An error response: its status and, when the body carries one, the SAP error. */
  datatype ErrorResponse = ErrorResponse(status: int, error: Option<SapError>)

  /** How one request ended: with a response, or with an exception that may
      carry an error response and always carries a message. */
  datatype Outcome = Ok(status: int) | Err(response: Option<ErrorResponse>, message: string)

  /** The record the check fills in for one service/entity pair. */
  datatype TestResult = TestResult(
    service: string,
    entity: string,
    metadataStatus: Option<Status>,
    entityStatus: Option<Status>,
    gatewayServiceName: Option<string>,
    errorCode: Option<string>,
    errorMessage: Option<string>,
    accessible: bool,
    accessNeeded: seq<string>)

  datatype ApiConfig = ApiConfig(service: string, entity: string)

  const ConsumerAuthorizationError: string := "/IWFND/CM_CONSUMER/101"
  const DefaultServiceVersion: string := "0001"

  /** A string value is truthy when present and non-empty. */
  predicate TruthyText(s: Option<string>) {
    s.Some? && s.value != ""
  }

  /** `a || b` on optional strings. */
  function OrElse(a: Option<string>, b: Option<string>): Option<string> {
    if TruthyText(a) then a else b
  }

  /** `${x}` of an optional string: absent prints as "undefined". */
  function Interpolate(s: Option<string>): string {
    s.GetOr("undefined")
  }

  /** `error.response?.status || 'ERROR'`. */
  function StatusOf(response: Option<ErrorResponse>): (s: Status)
    ensures s.Code? <==> response.Some? && response.value.status != 0
    ensures s.Code? ==> s.code == response.value.status
  {
    if response.Some? && response.value.status != 0 then Code(response.value.status) else ErrorText
  }

  /** `error.response?.data?.error`. */
  function SapErrorOf(response: Option<ErrorResponse>): Option<SapError> {
    if response.Some? then response.value.error else None
  }

  /** The Gateway service name derived from the error's application info:
      'Z' + service id + '_' + version (default '0001'); none without a
      service id. */
  function GatewayName(app: Application): (r: Option<string>)
    ensures r.Some? <==> TruthyText(app.serviceId)
    ensures r.Some? ==>
              var id := app.serviceId.value;
              var version := if TruthyText(app.serviceVersion) then app.serviceVersion.value else DefaultServiceVersion;
              |r.value| == |id| + |version| + 2 && r.value[0] == 'Z' && r.value[1..|id| + 1] == id
              && r.value[|id| + 1] == '_' && r.value[|id| + 2..] == version
  {
    if TruthyText(app.serviceId) then
      Some("Z" + app.serviceId.value + "_" + OrElse(app.serviceVersion, Some(DefaultServiceVersion)).value)
    else None
  }

  /** The decision table from the entity request's status and SAP error code
      to the authorisations or activations that are needed. */
  function AccessNeeded(status: Status, code: Option<string>, gateway: Option<string>, service: string): (r: seq<string>)
    ensures r != [] <==> status == Code(403) || status == Code(404)
    ensures |r| == (if status == Code(403) && code == Some(ConsumerAuthorizationError) then 3
                    else if r == [] then 0 else 2)
  {
    if status == Code(403) then
      if code == Some(ConsumerAuthorizationError) then
        ["Gateway Service Authorization",
         "Service: " + OrElse(gateway, Some(service)).value,
         "Authorization Object: /IWFND/CM_CONSUMER"]
      else
        ["SAP Authorization", "Error: " + Interpolate(code)]
    else if status == Code(404) then
      ["Service Activation in Gateway", "Check transaction /IWFND/MAINT_SERVICE"]
    else []
  }

  /** The three rows of the decision table. */
  lemma AccessNeededTable(code: Option<string>, gateway: Option<string>, service: string)
    ensures AccessNeeded(Code(403), Some(ConsumerAuthorizationError), gateway, service) ==
              ["Gateway Service Authorization",
               "Service: " + (if TruthyText(gateway) then gateway.value else service),
               "Authorization Object: /IWFND/CM_CONSUMER"]
    ensures code != Some(ConsumerAuthorizationError) ==>
              AccessNeeded(Code(403), code, gateway, service) == ["SAP Authorization", "Error: " + Interpolate(code)]
    ensures AccessNeeded(Code(404), code, gateway, service) ==
              ["Service Activation in Gateway", "Check transaction /IWFND/MAINT_SERVICE"]
  {
  }

  /** The record right after the metadata request. */
  function AfterMetadata(service: string, entity: string, metadata: Outcome): TestResult {
    var initial := TestResult(service, entity, None, None, None, None, None, false, []);
    match metadata
    case Ok(status) => initial.(metadataStatus := Some(Code(status)))
    case Err(response, message) =>
      var sapError := SapErrorOf(response);
      var messageValue := if sapError.Some? && sapError.value.message.Some? then sapError.value.message.value.value else None;
      initial.(metadataStatus := Some(StatusOf(response)),
             errorMessage := OrElse(messageValue, Some(message)),
             errorCode := if sapError.Some? then sapError.value.code else None)
  }

  /** The record after the entity request, given the record before it. */
  function AfterEntity(before: TestResult, entityOutcome: Outcome): TestResult {
    match entityOutcome
    case Ok(status) => before.(entityStatus := Some(Code(status)), accessible := true)
    case Err(response, message) =>
      var status := StatusOf(response);
      var sapError := SapErrorOf(response);
      if sapError.None? then
        before.(entityStatus := Some(status), errorMessage := Some(message))
      else
        var e := sapError.value;
        var errorMessage :=
          if e.message.Some? && TruthyText(e.message.value.value) then e.message.value.value
          else if e.message.Some? then Some(e.message.value.json)
          else None;
        var gateway := if e.application.Some? then GatewayName(e.application.value) else before.gatewayServiceName;
        before.(entityStatus := Some(status), errorCode := e.code, errorMessage := errorMessage,
                gatewayServiceName := gateway,
                accessNeeded := before.accessNeeded + AccessNeeded(status, e.code, gateway, before.service))
  }

  /** The result of checking one pair, given the two requests' outcomes. */
  function TestResultOf(api: ApiConfig, metadata: Outcome, entityOutcome: Outcome): TestResult {
    AfterEntity(AfterMetadata(api.service, api.entity, metadata), entityOutcome)
  }

  /** Fills in the result record step by step, as the check does: first the
      metadata request's fields, then the entity request's. */
  method TestApi(api: ApiConfig, metadata: Outcome, entityOutcome: Outcome) returns (result: TestResult)
    ensures result == TestResultOf(api, metadata, entityOutcome)
  {
    result := TestResult(api.service, api.entity, None, None, None, None, None, false, []);
    result := RecordMetadata(result, metadata);
    result := RecordEntity(result, entityOutcome);
  }

  /** The metadata request's `try`/`catch`. */
  method RecordMetadata(before: TestResult, metadata: Outcome) returns (result: TestResult)
    requires before == TestResult(before.service, before.entity, None, None, None, None, None, false, [])
    ensures result == AfterMetadata(before.service, before.entity, metadata)
  {
    result := before;
    match metadata {
      case Ok(status) =>
        result := result.(metadataStatus := Some(Code(status)));
      case Err(response, message) =>
        result := result.(metadataStatus := Some(StatusOf(response)));
        var sapError := SapErrorOf(response);
        var messageValue := None;
        if sapError.Some? && sapError.value.message.Some? {
          messageValue := sapError.value.message.value.value;
        }
        result := result.(errorMessage := OrElse(messageValue, Some(message)));
        result := result.(errorCode := if sapError.Some? then sapError.value.code else None);
    }
  }

  /** The entity request's `try`/`catch`. */
  method RecordEntity(before: TestResult, entityOutcome: Outcome) returns (result: TestResult)
    ensures result == AfterEntity(before, entityOutcome)
  {
    result := before;
    match entityOutcome {
      case Ok(status) =>
        result := result.(entityStatus := Some(Code(status)));
        result := result.(accessible := true);
      case Err(response, message) =>
        result := result.(entityStatus := Some(StatusOf(response)));
        var sapError := SapErrorOf(response);
        if sapError.Some? {
          var e := sapError.value;
          result := result.(errorCode := e.code);
          if e.message.Some? && TruthyText(e.message.value.value) {
            result := result.(errorMessage := e.message.value.value);
          } else if e.message.Some? {
            result := result.(errorMessage := Some(e.message.value.json));
          } else {
            result := result.(errorMessage := None);
          }
          if e.application.Some? {
            result := result.(gatewayServiceName := GatewayName(e.application.value));
          }
          result := RecordAccessNeeded(result);
        } else {
          result := result.(errorMessage := Some(message));
        }
    }
  }

  /** The status/code classification that appends to `accessNeeded`. */
  method RecordAccessNeeded(before: TestResult) returns (result: TestResult)
    requires before.entityStatus.Some?
    ensures result == before.(accessNeeded := before.accessNeeded
               + AccessNeeded(before.entityStatus.value, before.errorCode, before.gatewayServiceName, before.service))
  {
    result := before;
    if result.entityStatus == Some(Code(403)) {
      if result.errorCode == Some(ConsumerAuthorizationError) {
        result := result.(accessNeeded := result.accessNeeded + ["Gateway Service Authorization"]);
        result := result.(accessNeeded := result.accessNeeded
                            + ["Service: " + OrElse(result.gatewayServiceName, Some(result.service)).value]);
        result := result.(accessNeeded := result.accessNeeded + ["Authorization Object: /IWFND/CM_CONSUMER"]);
      } else {
        result := result.(accessNeeded := result.accessNeeded + ["SAP Authorization"]);
        result := result.(accessNeeded := result.accessNeeded + ["Error: " + Interpolate(result.errorCode)]);
      }
    } else if result.entityStatus == Some(Code(404)) {
      result := result.(accessNeeded := result.accessNeeded + ["Service Activation in Gateway"]);
      result := result.(accessNeeded := result.accessNeeded + ["Check transaction /IWFND/MAINT_SERVICE"]);
    }
  }

  /** Accessible exactly when the entity request succeeded, and then nothing
      is needed; what is needed otherwise is the decision table's row for the
      entity status, or nothing when the error carries no SAP payload. */
  lemma {:induction false} AccessibleIffEntityFetched(api: ApiConfig, metadata: Outcome, entityOutcome: Outcome)
    ensures var r := TestResultOf(api, metadata, entityOutcome);
      && (r.accessible <==> entityOutcome.Ok?)
      && (r.accessible ==> r.accessNeeded == [])
      && (entityOutcome.Err? && SapErrorOf(entityOutcome.response).None? ==> r.accessNeeded == [])
      && (entityOutcome.Err? && SapErrorOf(entityOutcome.response).Some? ==>
            r.accessNeeded == AccessNeeded(StatusOf(entityOutcome.response), r.errorCode, r.gatewayServiceName, api.service))
      && (r.accessNeeded != [] ==> r.entityStatus == Some(Code(403)) || r.entityStatus == Some(Code(404)))
  {
  }

  /** The Gateway name is set only from an entity error whose payload has
      application info. */
  lemma GatewayNameSource(api: ApiConfig, metadata: Outcome, entityOutcome: Outcome)
    ensures var r := TestResultOf(api, metadata, entityOutcome);
      r.gatewayServiceName ==
        (if entityOutcome.Err? && SapErrorOf(entityOutcome.response).Some?
            && SapErrorOf(entityOutcome.response).value.application.Some?
         then GatewayName(SapErrorOf(entityOutcome.response).value.application.value) else None)
  {
  }

  /** Runs the check over every configured pair in order; `outcomes[i]` are the
      two requests' outcomes for `apis[i]`. */
  method RunAllTests(apis: seq<ApiConfig>, outcomes: seq<(Outcome, Outcome)>) returns (results: seq<TestResult>)
    requires |outcomes| == |apis|
    ensures |results| == |apis|
    ensures forall i :: 0 <= i < |apis| ==> results[i] == TestResultOf(apis[i], outcomes[i].0, outcomes[i].1)
  {
    results := [];
    var i := 0;
    while i < |apis|
      invariant 0 <= i <= |apis|
      invariant |results| == i
      invariant forall k :: 0 <= k < i ==> results[k] == TestResultOf(apis[k], outcomes[k].0, outcomes[k].1)
    {
      var result := TestApi(apis[i], outcomes[i].0, outcomes[i].1);
      results := results + [result];
      i := i + 1;
    }
  }

  // ---- Summary counts ----

  function CountAccessible(results: seq<TestResult>): nat {
    if results == [] then 0 else (if results[0].accessible then 1 else 0) + CountAccessible(results[1..])
  }

  function CountNotAccessible(results: seq<TestResult>): nat {
    if results == [] then 0 else (if !results[0].accessible then 1 else 0) + CountNotAccessible(results[1..])
  }

  /** Metadata answered 200 but the entity was not accessible. */
  function CountMetadataOnly(results: seq<TestResult>): nat {
    if results == [] then 0
    else (if results[0].metadataStatus == Some(Code(200)) && !results[0].accessible then 1 else 0)
         + CountMetadataOnly(results[1..])
  }

  /** The inaccessible results with something to request, in result order. */
  function NeedsAccess(results: seq<TestResult>): seq<TestResult> {
    if results == [] then []
    else (if !results[0].accessible && results[0].accessNeeded != [] then [results[0]] else [])
         + NeedsAccess(results[1..])
  }

  /** Every result is accessible or not; metadata-only results are among the
      inaccessible ones; so are the results that need access. */
  lemma {:induction false} SummaryCounts(results: seq<TestResult>)
    ensures CountAccessible(results) + CountNotAccessible(results) == |results|
    ensures CountMetadataOnly(results) <= CountNotAccessible(results)
    ensures |NeedsAccess(results)| <= CountNotAccessible(results)
  {
    if results != [] {
      SummaryCounts(results[1..]);
    }
  }

  /** `needsAccess` holds exactly the inaccessible results with a non-empty
      `accessNeeded`. */
  lemma {:induction false} NeedsAccessMembers(results: seq<TestResult>)
    ensures forall r :: r in NeedsAccess(results) <==> r in results && !r.accessible && r.accessNeeded != []
  {
    if results != [] {
      NeedsAccessMembers(results[1..]);
      assert results == [results[0]] + results[1..];
    }
  }

  /** For results the check produced, every result with something needed is
      inaccessible, so the `!accessible` test of `needsAccess` is implied. */
  lemma NeedsAccessOfProducedResults(apis: seq<ApiConfig>, outcomes: seq<(Outcome, Outcome)>, results: seq<TestResult>)
    requires |outcomes| == |apis| == |results|
    requires forall i :: 0 <= i < |apis| ==> results[i] == TestResultOf(apis[i], outcomes[i].0, outcomes[i].1)
    ensures forall r :: r in NeedsAccess(results) <==> r in results && r.accessNeeded != []
  {
    NeedsAccessMembers(results);
    forall i | 0 <= i < |results| {
      AccessibleIffEntityFetched(apis[i], outcomes[i].0, outcomes[i].1);
    }
  }

  // ---- Request paths ----

  /** The service-level `$metadata` path of the first request. */
  function ServiceMetadataPath(service: string): (p: string)
    ensures |p| == |ODataRoot| + |service| + 10
    ensures p[..|ODataRoot| + |service|] == ODataRoot + service
    ensures p[|ODataRoot| + |service|..] == "/$metadata"
  {
    ODataRoot + service + "/$metadata"
  }
}
