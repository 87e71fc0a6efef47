/** Parameter-based services: mandatory-filter validation, the named-parameter
    ("function import") path, and the standard path with its `$filter` clause. */
module ParamApi {
  import opened Wrappers
  import opened EntityRegistry
  import opened ODataPaths

  /** A filter as the interpreter supplies it. */
  datatype FilterClause = FilterClause(field: string, operator: string, value: string)

  /** The validator's answer. */
  datatype Validation = Validation(isValid: bool, missingFilters: seq<string>)

  /** A named parameter as it appears in the path: field and value. */
  type Param = (string, string)

  predicate Supplied(name: string, filters: seq<FilterClause>) {
    exists i :: 0 <= i < |filters| && filters[i].field == name
  }

  function Fields(filters: seq<FilterClause>): (r: seq<string>)
    ensures |r| == |filters|
    ensures forall i :: 0 <= i < |filters| ==> r[i] == filters[i].field
  {
    if filters == [] then [] else [filters[0].field] + Fields(filters[1..])
  }

  function Params(filters: seq<FilterClause>): (r: seq<Param>)
    ensures |r| == |filters|
    ensures forall i :: 0 <= i < |filters| ==> r[i] == (filters[i].field, filters[i].value)
  {
    if filters == [] then [] else [(filters[0].field, filters[0].value)] + Params(filters[1..])
  }

  predicate NoDuplicates(s: seq<string>) {
    forall i, j :: 0 <= i < j < |s| ==> s[i] != s[j]
  }

  /** `a` is `b` with some elements left out, order kept. */
  predicate IsSubsequence(a: seq<string>, b: seq<string>)
    decreases |b|
  {
    a == [] || (b != [] && ((a[0] == b[0] && IsSubsequence(a[1..], b[1..])) || IsSubsequence(a, b[1..])))
  }

  /** The mandatory names no supplied filter carries, in mandatory order. */
  function MissingFilters(mandatory: seq<string>, filters: seq<FilterClause>): (r: seq<string>)
    ensures forall m :: m in r <==> m in mandatory && !Supplied(m, filters)
    ensures IsSubsequence(r, mandatory)
  {
    if mandatory == [] then []
    else if Supplied(mandatory[0], filters) then MissingFilters(mandatory[1..], filters)
    else
      var rest := MissingFilters(mandatory[1..], filters);
      assert ([mandatory[0]] + rest)[1..] == rest;
      [mandatory[0]] + rest
  }

  /** Checks the supplied filters against the service's mandatory parameters.
      Only `field` is inspected, by exact string equality. */
  function ValidateMandatoryFilters(service: string, filters: seq<FilterClause>): (v: Validation)
    ensures !IsParameterBasedApi(Some(service)) ==> v == Validation(true, [])
    ensures v.isValid <==> v.missingFilters == []
    ensures v.isValid <==> forall m :: m in GetMandatoryFilters(service) ==> Supplied(m, filters)
    ensures forall m :: m in v.missingFilters <==> m in GetMandatoryFilters(service) && !Supplied(m, filters)
    ensures IsSubsequence(v.missingFilters, GetMandatoryFilters(service))
  {
    var missing := MissingFilters(GetMandatoryFilters(service), filters);
    assert missing != [] ==> missing[0] in missing;
    Validation(missing == [], missing)
  }

  const CorrectFilters: seq<FilterClause> :=
    [FilterClause("P_ExchangeRateType", "eq", "M"), FilterClause("P_DisplayCurrency", "eq", "USD")]
  const IncompleteFilters: seq<FilterClause> := [FilterClause("P_ExchangeRateType", "eq", "M")]

  /** Both mandatory filters: valid, nothing missing. Only the exchange-rate
      type: invalid, and exactly the display currency is missing. */
  lemma ValidationScenarios()
    ensures ValidateMandatoryFilters(SalesAnalyticsService, CorrectFilters) == Validation(true, [])
    ensures ValidateMandatoryFilters(SalesAnalyticsService, IncompleteFilters) == Validation(false, ["P_DisplayCurrency"])
    ensures GetMandatoryFilters(SalesAnalyticsService) == ["P_ExchangeRateType", "P_DisplayCurrency"]
  {
    assert CorrectFilters[0].field == "P_ExchangeRateType";
    assert CorrectFilters[1].field == "P_DisplayCurrency";
    assert IncompleteFilters[0].field == "P_ExchangeRateType";
    assert !Supplied("P_DisplayCurrency", IncompleteFilters);
  }

  // ---- The named-parameter path ----

  /** `${field}='${value}'`: the operator is dropped and the value is inserted
      verbatim. */
  function RenderPair(f: FilterClause): string {
    f.field + "='" + f.value + "'"
  }

  /** A pair is the field, `='`, the value and a closing quote, by position. */
  lemma RenderPairShape(f: FilterClause)
    ensures var r := RenderPair(f);
      && |r| == |f.field| + |f.value| + 3
      && r[..|f.field|] == f.field && r[|f.field|..|f.field| + 2] == "='"
      && r[|f.field| + 2..|r| - 1] == f.value && r[|r| - 1] == '\''
  {
  }

  /** The rendered pairs joined by "," with no spaces. */
  function ParamPairs(filters: seq<FilterClause>): string {
    if |filters| == 0 then ""
    else if |filters| == 1 then RenderPair(filters[0])
    else RenderPair(filters[0]) + "," + ParamPairs(filters[1..])
  }

  /** `/sap/opu/odata/sap/<service>/<policy entity>(<pairs>)/Results`, built
      only when the policy's URL pattern is the function-import one. */
  function FunctionImportPath(policy: ParameterPolicy, filters: seq<FilterClause>): (r: Option<string>)
    ensures r.Some? <==> policy.urlPattern == FunctionImport
    ensures r.Some? ==>
              var e := EntityPath(policy.service, policy.entity);
              |r.value| == |e| + |ParamPairs(filters)| + 10 && r.value[..|e|] == e && r.value[|e|] == '('
              && r.value[|e| + 1..|r.value| - 9] == ParamPairs(filters) && r.value[|r.value| - 9..] == ")/Results"
  {
    if policy.urlPattern == FunctionImport then
      Some(EntityPath(policy.service, policy.entity) + "(" + ParamPairs(filters) + ")/Results")
    else None
  }

  /** The URL the script expects, written as its segments: root, service,
      policy entity, the two pairs, and the `/Results` suffix. */
  const ExpectedFunctionUrl: string :=
    "/sap/opu/odata/sap/" + "C_SALESANALYTICSQRY_1_CDS" + "/" + "C_SALESANALYTICSQRY_1"
    + "(" + "P_ExchangeRateType='M'" + "," + "P_DisplayCurrency='USD'" + ")/Results"

  /** The two filters in policy order give the expected URL. */
  lemma FunctionUrlMatchesExpected()
    ensures FunctionImportPath(SalesAnalyticsPolicy, CorrectFilters) == Some(ExpectedFunctionUrl)
  {
    assert CorrectFilters[1..] == [FilterClause("P_DisplayCurrency", "eq", "USD")];
    assert RenderPair(CorrectFilters[0]) == "P_ExchangeRateType='M'";
    assert RenderPair(CorrectFilters[1]) == "P_DisplayCurrency='USD'";
    assert ParamPairs(CorrectFilters) == "P_ExchangeRateType='M'" + "," + "P_DisplayCurrency='USD'";
    var entityPath := EntityPath(SalesAnalyticsPolicy.service, SalesAnalyticsPolicy.entity);
    assert entityPath == "/sap/opu/odata/sap/" + "C_SALESANALYTICSQRY_1_CDS" + "/" + "C_SALESANALYTICSQRY_1";
    var path := entityPath + "(" + ParamPairs(CorrectFilters) + ")/Results";
    assert FunctionImportPath(SalesAnalyticsPolicy, CorrectFilters) == Some(path);
    assert path == ExpectedFunctionUrl;
  }

  /** The operator never reaches the path: filters with equal fields and
      values render equal pairs. */
  lemma {:induction false} OperatorIgnored(f1: seq<FilterClause>, f2: seq<FilterClause>)
    requires Params(f1) == Params(f2)
    ensures ParamPairs(f1) == ParamPairs(f2)
  {
    if |f1| > 1 {
      assert Params(f1)[0] == Params(f2)[0];
      assert Params(f1[1..]) == Params(f1)[1..] == Params(f2)[1..] == Params(f2[1..]);
      OperatorIgnored(f1[1..], f2[1..]);
    } else if |f1| == 1 {
      assert Params(f1)[0] == Params(f2)[0];
    }
  }

  /** No quote escaping: a value holding `','` renders exactly like two
      separate parameters. */
  lemma UnescapedQuoteCollides()
    ensures ParamPairs([FilterClause("A", "eq", "x',B='y")]) ==
            ParamPairs([FilterClause("A", "eq", "x"), FilterClause("B", "eq", "y")])
    ensures Params([FilterClause("A", "eq", "x',B='y")]) !=
            Params([FilterClause("A", "eq", "x"), FilterClause("B", "eq", "y")])
  {
    assert [FilterClause("A", "eq", "x"), FilterClause("B", "eq", "y")][1..] == [FilterClause("B", "eq", "y")];
  }

  // ---- Reading the pairs back ----

  /** Filters the pair syntax can carry unambiguously: no '=' in a field and
      no quote in a value. */
  predicate Encodable(filters: seq<FilterClause>) {
    forall i :: 0 <= i < |filters| ==> '=' !in filters[i].field && '\'' !in filters[i].value
  }

  function IndexOf(s: string, c: char): (r: Option<nat>)
    ensures r.Some? ==> r.value < |s| && s[r.value] == c && c !in s[..r.value]
    ensures r.None? ==> c !in s
  {
    if s == [] then None
    else if s[0] == c then Some(0)
    else match IndexOf(s[1..], c)
      case None => None
      case Some(k) =>
        assert s[..k + 1] == [s[0]] + s[1..][..k];
        Some(k + 1)
  }

  lemma IndexOfFirst(a: string, c: char, b: string)
    requires c !in a
    ensures IndexOf(a + [c] + b, c) == Some(|a|)
  {
    var s := a + [c] + b;
    assert s[|a|] == c;
    assert s[..|a|] == a;
  }

  /** Prepends one parsed pair to the parse of the remainder. */
  function Cons(p: Param, rest: Option<seq<Param>>): Option<seq<Param>> {
    match rest
    case None => None
    case Some(ps) => Some([p] + ps)
  }

  /** Parses `f1='v1',f2='v2',...` (at least one pair). */
  function DecodeList(s: string): Option<seq<Param>>
    decreases |s|
  {
    match IndexOf(s, '=')
    case None => None
    case Some(eq) =>
      if eq + 1 >= |s| || s[eq + 1] != '\'' then None
      else
        var tail := s[eq + 2..];
        match IndexOf(tail, '\'')
        case None => None
        case Some(q) =>
          var rest := tail[q + 1..];
          if rest == "" then Some([(s[..eq], tail[..q])])
          else if rest[0] != ',' then None
          else Cons((s[..eq], tail[..q]), DecodeList(rest[1..]))
  }

  /** Where the parts of one rendered pair sit in the text. */
  lemma PairLayout(field: string, value: string, rest: string)
    ensures var s := field + "='" + value + "'" + rest;
      && s == field + ['='] + (['\''] + (value + ['\''] + rest))
      && s[..|field|] == field && |s| > |field| + 1 && s[|field| + 1] == '\''
      && s[|field| + 2..] == value + ['\''] + rest
  {
    var tail := value + ['\''] + rest;
    var s := field + "='" + value + "'" + rest;
    assert s == field + ['='] + (['\''] + tail);
    assert s[|field| + 2..] == tail;
  }

  /** Where the value and the remainder sit after the opening quote. */
  lemma TailLayout(value: string, rest: string)
    ensures var tail := value + ['\''] + rest;
      tail[..|value|] == value && tail[|value| + 1..] == rest
  {
  }

  /** One pair followed by the end or by a comma and more. */
  lemma DecodeListHead(field: string, value: string, rest: string)
    requires '=' !in field && '\'' !in value
    requires rest == "" || rest[0] == ','
    ensures DecodeList(field + "='" + value + "'" + rest) ==
              if rest == "" then Some([(field, value)]) else Cons((field, value), DecodeList(rest[1..]))
  {
    var tail := value + ['\''] + rest;
    var s := field + "='" + value + "'" + rest;
    PairLayout(field, value, rest);
    IndexOfFirst(field, '=', ['\''] + tail);
    assert IndexOf(s, '=') == Some(|field|);
    IndexOfFirst(value, '\'', rest);
    TailLayout(value, rest);
    assert IndexOf(s[|field| + 2..], '\'') == Some(|value|);
  }

  /** Parses the pair list of a function-import path; "" is no pairs. */
  function DecodePairs(s: string): Option<seq<Param>> {
    if s == "" then Some([]) else DecodeList(s)
  }

  lemma {:induction false} DecodeListRendered(filters: seq<FilterClause>)
    requires filters != [] && Encodable(filters)
    ensures DecodeList(ParamPairs(filters)) == Some(Params(filters))
  {
    var f := filters[0];
    if |filters| == 1 {
      DecodeListHead(f.field, f.value, "");
      assert ParamPairs(filters) == RenderPair(f) == f.field + "='" + f.value + "'" + "";
      assert Params(filters) == [(f.field, f.value)];
    } else {
      var rest := "," + ParamPairs(filters[1..]);
      DecodeListHead(f.field, f.value, rest);
      assert ParamPairs(filters) == f.field + "='" + f.value + "'" + rest;
      assert Encodable(filters[1..]) by {
        forall i | 0 <= i < |filters[1..]|
          ensures '=' !in filters[1..][i].field && '\'' !in filters[1..][i].value
        {
          assert filters[1..][i] == filters[i + 1];
        }
      }
      DecodeListRendered(filters[1..]);
      assert rest[1..] == ParamPairs(filters[1..]);
      assert Params(filters) == [(f.field, f.value)] + Params(filters[1..]);
    }
  }

  /** Round trip: for encodable filters the rendered pairs read back as the
      filters' fields and values, in the same order. */
  lemma DecodeParamPairs(filters: seq<FilterClause>)
    requires Encodable(filters)
    ensures DecodePairs(ParamPairs(filters)) == Some(Params(filters))
  {
    if filters != [] {
      assert |RenderPair(filters[0])| >= 3;
      assert ParamPairs(filters) != "";
      DecodeListRendered(filters);
    }
  }

  /** For encodable filters the function-import path determines the
      parameters: equal paths carry equal fields and values. */
  lemma FunctionImportPathDeterminesParams(policy: ParameterPolicy, f1: seq<FilterClause>, f2: seq<FilterClause>)
    requires Encodable(f1) && Encodable(f2)
    requires policy.urlPattern == FunctionImport
    requires FunctionImportPath(policy, f1) == FunctionImportPath(policy, f2)
    ensures Params(f1) == Params(f2)
  {
    var pre := EntityPath(policy.service, policy.entity) + "(";
    var p1, p2 := ParamPairs(f1), ParamPairs(f2);
    var whole := pre + p1 + ")/Results";
    assert whole == pre + p2 + ")/Results";
    assert p1 == whole[|pre|..|pre| + |p1|];
    assert p2 == whole[|pre|..|pre| + |p2|];
    DecodeParamPairs(f1);
    DecodeParamPairs(f2);
  }

  // ---- Canonical order ----

  function FirstWithField(filters: seq<FilterClause>, name: string): (r: Option<FilterClause>)
    ensures r.Some? <==> Supplied(name, filters)
    ensures r.Some? ==> r.value.field == name && r.value in filters
    ensures r.Some? ==> exists i | 0 <= i < |filters| :: filters[i] == r.value && forall j | 0 <= j < i :: filters[j].field != name
  {
    if filters == [] then None
    else if filters[0].field == name then Some(filters[0])
    else
      var r := FirstWithField(filters[1..], name);
      assert r.Some? ==> exists i | 0 <= i < |filters| :: filters[i] == r.value && forall j | 0 <= j < i :: filters[j].field != name by {
        if r.Some? {
          var k :| 0 <= k < |filters[1..]| && filters[1..][k] == r.value && forall j | 0 <= j < k :: filters[1..][j].field != name;
          assert filters[k + 1] == r.value;
          assert forall j | 0 <= j < k + 1 :: filters[j].field != name by {
            forall j | 0 <= j < k + 1 ensures filters[j].field != name {
              if j > 0 { assert filters[j] == filters[1..][j - 1]; }
            }
          }
        }
      }
      assert Supplied(name, filters[1..]) ==> Supplied(name, filters);
      assert Supplied(name, filters) ==> Supplied(name, filters[1..]) by {
        if Supplied(name, filters) {
          var i :| 0 <= i < |filters| && filters[i].field == name;
          assert filters[1..][i - 1] == filters[i];
        }
      }
      r
  }

  /** For each mandatory name in policy order, the first filter carrying it. */
  function CanonicalOrder(mandatory: seq<string>, filters: seq<FilterClause>): (r: seq<FilterClause>)
    ensures forall f | f in r :: f in filters && f.field in mandatory
    ensures (forall m | m in mandatory :: Supplied(m, filters)) ==> Fields(r) == mandatory
  {
    if mandatory == [] then []
    else match FirstWithField(filters, mandatory[0])
      case None => CanonicalOrder(mandatory[1..], filters)
      case Some(f) =>
        var rest := CanonicalOrder(mandatory[1..], filters);
        assert ([f] + rest)[1..] == rest;
        [f] + rest
  }

  lemma {:induction false} CanonicalOrderSkipsHead(mandatory: seq<string>, f0: FilterClause, fs: seq<FilterClause>)
    requires f0.field !in mandatory
    ensures CanonicalOrder(mandatory, [f0] + fs) == CanonicalOrder(mandatory, fs)
  {
    if mandatory != [] {
      assert ([f0] + fs)[1..] == fs;
      assert FirstWithField([f0] + fs, mandatory[0]) == FirstWithField(fs, mandatory[0]);
      CanonicalOrderSkipsHead(mandatory[1..], f0, fs);
    }
  }

  /** Filters that already arrive in policy order, one per mandatory name, are
      left exactly as they are by the canonical ordering. */
  lemma {:induction false} CanonicalOrderOfPolicyOrderInput(filters: seq<FilterClause>, mandatory: seq<string>)
    requires Fields(filters) == mandatory
    requires NoDuplicates(mandatory)
    ensures CanonicalOrder(mandatory, filters) == filters
  {
    if filters != [] {
      var f0, fs := filters[0], filters[1..];
      assert filters == [f0] + fs;
      assert mandatory[0] == f0.field;
      assert mandatory[1..] == Fields(fs);
      assert f0.field !in Fields(fs);
      assert NoDuplicates(Fields(fs)) by {
        forall i, j | 0 <= i < j < |Fields(fs)| ensures Fields(fs)[i] != Fields(fs)[j] {
          assert mandatory[i + 1] != mandatory[j + 1];
        }
      }
      CanonicalOrderSkipsHead(Fields(fs), f0, fs);
      CanonicalOrderOfPolicyOrderInput(fs, Fields(fs));
    }
  }

  // ---- The standard request style ----

  /** `Field op 'value'`, one clause of a `$filter` expression. */
  function RenderClause(f: FilterClause): string {
    f.field + " " + f.operator + " '" + f.value + "'"
  }

  /** A clause is the field, a space, the operator, ` '`, the value and a
      closing quote, by position. */
  lemma RenderClauseShape(f: FilterClause)
    ensures var r := RenderClause(f);
      && |r| == |f.field| + |f.operator| + |f.value| + 4
      && r[..|f.field|] == f.field && r[|f.field|] == ' '
      && r[|f.field| + 1..|f.field| + 1 + |f.operator|] == f.operator
      && r[|f.field| + 1 + |f.operator|..|f.field| + 3 + |f.operator|] == " '"
      && r[|f.field| + 3 + |f.operator|..|r| - 1] == f.value && r[|r| - 1] == '\''
  {
  }

  /** The clauses joined by " and " (a conjunction). */
  function FilterExpression(filters: seq<FilterClause>): (r: string)
    ensures r == "" <==> filters == []
  {
    if |filters| == 0 then ""
    else if |filters| == 1 then RenderClause(filters[0])
    else RenderClause(filters[0]) + " and " + FilterExpression(filters[1..])
  }

  /** Adding a filter appends its clause after " and ": the expression is the
      conjunction of the clauses in input order. */
  lemma {:induction false} FilterExpressionAppend(fs: seq<FilterClause>, f: FilterClause)
    requires fs != []
    ensures FilterExpression(fs + [f]) == FilterExpression(fs) + " and " + RenderClause(f)
    decreases |fs|
  {
    if |fs| == 1 {
      assert (fs + [f])[1..] == [f];
    } else {
      assert (fs + [f])[1..] == fs[1..] + [f];
      FilterExpressionAppend(fs[1..], f);
    }
  }

  const GeneralLedgerFilters: seq<FilterClause> := [
    FilterClause("GLAccount", "eq", "41000000"), FilterClause("FiscalYear", "eq", "2026"),
    FilterClause("CompanyCode", "eq", "1710"), FilterClause("Ledger", "eq", "0L")]

  /** The general-ledger line-item query's `$filter`, written as its clauses. */
  const GeneralLedgerFilterText: string :=
    "GLAccount eq '41000000'" + " and " + "FiscalYear eq '2026'" + " and "
    + "CompanyCode eq '1710'" + " and " + "Ledger eq '0L'"

  /** The four filters render as that conjunction. */
  lemma GeneralLedgerFilter()
    ensures FilterExpression(GeneralLedgerFilters) == GeneralLedgerFilterText
  {
    var fs := GeneralLedgerFilters;
    assert fs[1..][1..][1..] == [FilterClause("Ledger", "eq", "0L")];
    assert RenderClause(fs[0]) == "GLAccount eq '41000000'";
    assert RenderClause(fs[1]) == "FiscalYear eq '2026'";
    assert RenderClause(fs[2]) == "CompanyCode eq '1710'";
    assert RenderClause(fs[3]) == "Ledger eq '0L'";
  }

  // ---- Building a request for a resolved target ----

  datatype BuildError = MissingParameters(missing: seq<string>) | UrlPatternNotConfigured

  /** The outbound request: a path and, in the standard style, a `$filter`. */
  datatype RequestDescriptor = RequestDescriptor(path: string, filter: Option<string>)

  /** Standard targets get their entity path and the conjunction of the
      filters; parameter-based targets are validated first and then get the
      function-import path, with pairs in the policy's order. */
  function BuildRequest(target: ServiceEntityRef, filters: seq<FilterClause>): (r: Result<RequestDescriptor, BuildError>)
    ensures !IsParameterBasedApi(Some(target.service)) ==>
              r == Success(RequestDescriptor(EntityPath(target.service, target.entity),
                                             if filters == [] then None else Some(FilterExpression(filters))))
    ensures IsParameterBasedApi(Some(target.service)) ==>
              (r.Failure? <==> !ValidateMandatoryFilters(target.service, filters).isValid)
    ensures r.Failure? ==>
              r.error == MissingParameters(ValidateMandatoryFilters(target.service, filters).missingFilters)
              && r.error.missing != []
    ensures IsParameterBasedApi(Some(target.service)) && r.Success? ==> r.value.filter == None
    ensures target.service in ParameterBasedApis && r.Success? ==>
              var policy := ParameterBasedApis[target.service];
              var ordered := CanonicalOrder(policy.mandatoryFilters, filters);
              Fields(ordered) == policy.mandatoryFilters && r.value.path == FunctionImportPath(policy, ordered).value
  {
    if target.service !in ParameterBasedApis then
      Success(RequestDescriptor(EntityPath(target.service, target.entity),
                                if filters == [] then None else Some(FilterExpression(filters))))
    else
      var policy := ParameterBasedApis[target.service];
      var v := ValidateMandatoryFilters(target.service, filters);
      if !v.isValid then Failure(MissingParameters(v.missingFilters))
      else match FunctionImportPath(policy, CanonicalOrder(policy.mandatoryFilters, filters))
        case None => Failure(UrlPatternNotConfigured)
        case Some(path) => Success(RequestDescriptor(path, None))
  }

  /** With the filters in policy order, the builder's path is the one the
      script builds from the filters in input order. */
  lemma BuildAgreesWithInputOrder(filters: seq<FilterClause>)
    requires Fields(filters) == SalesAnalyticsFilters
    ensures BuildRequest(SalesAnalyticsTarget, filters) ==
              Success(RequestDescriptor(FunctionImportPath(SalesAnalyticsPolicy, filters).value, None))
  {
    assert Supplied("P_ExchangeRateType", filters) by { assert filters[0].field == "P_ExchangeRateType"; }
    assert Supplied("P_DisplayCurrency", filters) by { assert filters[1].field == "P_DisplayCurrency"; }
    CanonicalOrderOfPolicyOrderInput(filters, SalesAnalyticsFilters);
  }

  /** The customer alias gives its plain entity path and no filter. */
  lemma CustomerRequest()
    ensures BuildRequest(FindServiceForKnownEntity("Customer").value, []) ==
              Success(RequestDescriptor("/sap/opu/odata/sap/" + "API_BUSINESS_PARTNER" + "/" + "A_Customer", None))
  {
  }

  /** Sales analytics without filters needs both parameters, named in policy order. */
  lemma SalesAnalyticsWithoutFilters()
    ensures BuildRequest(FindServiceForKnownEntity("SalesAnalytics").value, []) ==
              Failure(MissingParameters(["P_ExchangeRateType", "P_DisplayCurrency"]))
  {
    assert !Supplied("P_ExchangeRateType", []);
    assert !Supplied("P_DisplayCurrency", []);
    assert SalesAnalyticsFilters[1..][1..] == [];
    assert MissingFilters(SalesAnalyticsFilters[1..], []) == ["P_DisplayCurrency"];
    assert MissingFilters(SalesAnalyticsFilters, []) == SalesAnalyticsFilters;
  }

  /** Sales analytics with both parameters gives the expected function-import URL. */
  lemma SalesAnalyticsWithFilters()
    ensures BuildRequest(FindServiceForKnownEntity("SalesAnalytics").value, CorrectFilters) ==
              Success(RequestDescriptor(ExpectedFunctionUrl, None))
  {
    assert Fields(CorrectFilters) == SalesAnalyticsFilters by {
      assert CorrectFilters[1..][1..] == [];
    }
    BuildAgreesWithInputOrder(CorrectFilters);
    FunctionUrlMatchesExpected();
  }
}
