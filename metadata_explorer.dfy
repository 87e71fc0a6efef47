/** The metadata explorer: request paths for one entity set, the normalisation
    of the two response envelopes, and the field listing and mapping template
    derived from the first record. */
module MetadataExplorer {
  import opened Wrappers
  import opened ODataPaths

  /** A JavaScript value as a parsed JSON response body holds it. Object
      properties keep their insertion order. */
  datatype JsValue =
    | Undefined
    | Null
    | Bool(b: bool)
    | Num(n: int)
    | Str(s: string)
    | Arr(items: seq<JsValue>)
    | Obj(props: seq<(string, JsValue)>)

  /** Reading a property of `null` or `undefined`. */
  datatype TypeError = PropertyOfNullish(key: string)

  predicate Nullish(v: JsValue) {
    v.Undefined? || v.Null?
  }

  /** JavaScript truthiness: `undefined`, `null`, `false`, `0` and `""` are falsy;
      every array and object, empty or not, is truthy. */
  predicate Truthy(v: JsValue) {
    match v
    case Undefined => false
    case Null => false
    case Bool(b) => b
    case Num(n) => n != 0
    case Str(s) => s != ""
    case Arr(_) => true
    case Obj(_) => true
  }

  /** The value of the first property named `key`, or `undefined`. */
  function Lookup(props: seq<(string, JsValue)>, key: string): (r: JsValue)
    ensures r != Undefined ==> exists i :: 0 <= i < |props| && props[i] == (key, r)
    ensures (forall i | 0 <= i < |props| :: props[i].0 != key) ==> r == Undefined
  {
    if props == [] then Undefined
    else if props[0].0 == key then props[0].1
    else
      var r := Lookup(props[1..], key);
      assert r != Undefined ==> exists i :: 0 <= i < |props[1..]| && props[1..][i] == (key, r);
      assert forall i :: 0 <= i < |props[1..]| ==> props[1..][i] == props[i + 1];
      r
  }

  /** The first property with a given name supplies the value. */
  lemma {:induction false} LookupFirst(props: seq<(string, JsValue)>, k: nat)
    requires k < |props|
    requires forall j | 0 <= j < k :: props[j].0 != props[k].0
    ensures Lookup(props, props[k].0) == props[k].1
    decreases k
  {
    if k > 0 {
      assert props[1..][k - 1] == props[k];
      assert forall j | 0 <= j < k - 1 :: props[1..][j] == props[j + 1];
      LookupFirst(props[1..], k - 1);
    }
  }

  /** `v.key` for the envelope keys `value`, `d` and `results`: a TypeError on
      null or undefined, the own property of an object, and `undefined` on a
      string, number, boolean or array, none of which has such a property. */
  function Member(v: JsValue, key: string): (r: Result<JsValue, TypeError>)
    ensures r.Failure? <==> Nullish(v)
    ensures v.Obj? ==> r == Success(Lookup(v.props, key))
    ensures !v.Obj? && !Nullish(v) ==> r == Success(Undefined)
  {
    match v
    case Undefined => Failure(PropertyOfNullish(key))
    case Null => Failure(PropertyOfNullish(key))
    case Obj(props) => Success(Lookup(props, key))
    case _ => Success(Undefined)
  }

  /** `v?.key` for the same keys: `undefined` on null or undefined. */
  function OptionalMember(v: JsValue, key: string): (r: JsValue)
    ensures !v.Obj? ==> r == Undefined
    ensures v.Obj? ==> r == Lookup(v.props, key)
  {
    match Member(v, key)
    case Success(m) => m
    case Failure(_) => Undefined
  }

  /** `data.value || data.d?.results || []`. */
  function Normalize(data: JsValue): (r: Result<JsValue, TypeError>)
    ensures r.Failure? <==> Nullish(data)
    ensures r.Success? ==> Truthy(r.value)
    ensures r.Success? && Truthy(OptionalMember(data, "value")) ==> r.value == OptionalMember(data, "value")
    ensures r.Success? && !Truthy(OptionalMember(data, "value")) ==>
              r.value == (if Truthy(OptionalMember(OptionalMember(data, "d"), "results"))
                          then OptionalMember(OptionalMember(data, "d"), "results") else Arr([]))
  {
    match Member(data, "value")
    case Failure(e) => Failure(e)
    case Success(value) =>
      if Truthy(value) then Success(value)
      else
        var results := OptionalMember(OptionalMember(data, "d"), "results");
        if Truthy(results) then Success(results) else Success(Arr([]))
  }

  /** The OData 4 `value` envelope and the OData 2 `d.results` envelope carrying
      the same record normalise alike; an unknown shape gives no records. */
  lemma EnvelopeEquivalence(record: JsValue)
    ensures Normalize(Obj([("value", Arr([record]))])) == Success(Arr([record]))
    ensures Normalize(Obj([("d", Obj([("results", Arr([record]))]))])) == Success(Arr([record]))
    ensures Normalize(Obj([("unexpected", Bool(true))])) == Success(Arr([]))
  {
  }

  /** A present `value` wins over `d.results`, even an empty array, which is
      truthy; a falsy `value` such as `null` falls through to `d.results`. */
  lemma ValueTakesPrecedence(fromValue: seq<JsValue>, fromResults: seq<JsValue>)
    ensures Normalize(Obj([("value", Arr(fromValue)), ("d", Obj([("results", Arr(fromResults))]))]))
              == Success(Arr(fromValue))
    ensures Normalize(Obj([("value", Null), ("d", Obj([("results", Arr(fromResults))]))]))
              == Success(Arr(fromResults))
  {
    var props := [("value", Null), ("d", Obj([("results", Arr(fromResults))]))];
    assert props[1..] == [("d", Obj([("results", Arr(fromResults))]))];
    assert Lookup(props, "d") == Obj([("results", Arr(fromResults))]);
  }

  // ---- String(value) and the preview ----

  function DigitChar(d: int): char
    requires 0 <= d < 10
  {
    "0123456789"[d]
  }

  function NatToString(n: nat): (r: string)
    ensures |r| >= 1
  {
    if n < 10 then [DigitChar(n)] else NatToString(n / 10) + [DigitChar(n % 10)]
  }

  /** `String(v)` for the JSON values: arrays join their elements with ",",
      where null and undefined elements print as nothing. */
  function ToJsString(v: JsValue): string
    decreases v, 1
  {
    match v
    case Undefined => "undefined"
    case Null => "null"
    case Bool(b) => if b then "true" else "false"
    case Num(n) => if n < 0 then "-" + NatToString(-n) else NatToString(n)
    case Str(s) => s
    case Arr(items) => JoinElements(v, items)
    case Obj(_) => "[object Object]"
  }

  function JoinElements(ghost parent: JsValue, items: seq<JsValue>): string
    requires forall i :: 0 <= i < |items| ==> items[i] < parent
    decreases parent, 0, |items|
  {
    if items == [] then ""
    else
      var head := if Nullish(items[0]) then "" else ToJsString(items[0]);
      if |items| == 1 then head else head + "," + JoinElements(parent, items[1..])
  }

  const PreviewLength: nat := 30

  /** `'null'` for null and undefined; otherwise the first 30 characters of
      `String(value)`. */
  function Preview(v: JsValue): (r: string)
    ensures Nullish(v) ==> r == "null"
    ensures !Nullish(v) ==> |r| == Min(PreviewLength, |ToJsString(v)|) && r <= ToJsString(v)
  {
    if Nullish(v) then "null"
    else
      var s := ToJsString(v);
      s[..Min(PreviewLength, |s|)]
  }

  /** A short string previews as itself. */
  lemma ShortStringPreview(s: string)
    requires |s| <= PreviewLength
    ensures Preview(Str(s)) == s
  {
  }

  function Min(a: nat, b: nat): nat {
    if a < b then a else b
  }

  /** `typeof value`; null is an "object". */
  function TypeOf(v: JsValue): (r: string)
    ensures r == "object" <==> v.Null? || v.Arr? || v.Obj?
    ensures r == "undefined" <==> v.Undefined?
  {
    match v
    case Undefined => "undefined"
    case Bool(_) => "boolean"
    case Num(_) => "number"
    case Str(_) => "string"
    case _ => "object"
  }

  // ---- The field listing and the mapping template ----

  /** One listed field: its 1-based position, name, type and preview. */
  datatype FieldLine = FieldLine(position: nat, name: string, typeName: string, preview: string)

  /** One entry of the mapping template. */
  datatype FieldMapping = FieldMapping(userFriendly: seq<string>, apiFieldName: string, description: string)

  function Names(props: seq<(string, JsValue)>): (r: seq<string>)
    ensures |r| == |props|
    ensures forall i :: 0 <= i < |props| ==> r[i] == props[i].0
  {
    if props == [] then [] else [props[0].0] + Names(props[1..])
  }

  /** The listing line for the field at `index` of the sample. */
  function LineFor(sample: seq<(string, JsValue)>, index: nat): FieldLine
    requires index < |sample|
  {
    var value := Lookup(sample, sample[index].0);
    FieldLine(index + 1, sample[index].0, TypeOf(value), Preview(value))
  }

  /** Lists every field of the sample record in key order, each with the type
      and preview of `sample[field]`. */
  method DescribeFields(sample: seq<(string, JsValue)>) returns (lines: seq<FieldLine>)
    ensures |lines| == |sample|
    ensures forall i :: 0 <= i < |sample| ==>
              lines[i].position == i + 1 && lines[i].name == sample[i].0
              && lines[i].preview == Preview(Lookup(sample, sample[i].0))
              && lines[i].typeName == TypeOf(Lookup(sample, sample[i].0))
  {
    lines := [];
    var i := 0;
    while i < |sample|
      invariant 0 <= i <= |sample|
      invariant |lines| == i
      invariant forall k :: 0 <= k < i ==> lines[k] == LineFor(sample, k)
    {
      lines := lines + [LineFor(sample, i)];
      i := i + 1;
    }
  }

  const SampleFieldCount: nat := 5
  const TemplateFieldCount: nat := 10

  /** The fields shown in the sample record: the first five, in order. */
  function SampleFields(fields: seq<string>): (r: seq<string>)
    ensures |r| == Min(SampleFieldCount, |fields|)
    ensures r <= fields
  {
    fields[..Min(SampleFieldCount, |fields|)]
  }

  /** The mapping template covers at most the first ten fields, each mapped to
      itself. */
  function MappingTemplate(fields: seq<string>): (r: seq<FieldMapping>)
    ensures |r| == Min(TemplateFieldCount, |fields|)
    ensures forall i :: 0 <= i < |r| ==>
              r[i].apiFieldName == fields[i] && r[i].userFriendly == [fields[i]] && r[i].description == fields[i]
  {
    var n := Min(TemplateFieldCount, |fields|);
    seq(n, i requires 0 <= i < n => FieldMapping([fields[i]], fields[i], fields[i]))
  }

  /** What the sample step reports for one response body. */
  datatype SampleReport =
    | NoRecords
    | Described(lines: seq<FieldLine>, sampleFields: seq<string>, template: seq<FieldMapping>)

  /** The properties of a record; a record that is not an object has none. */
  function PropsOf(record: JsValue): seq<(string, JsValue)> {
    if record.Obj? then record.props else []
  }

  /** `records[0]`, when the normalised record list is a non-empty array. */
  function FirstRecord(body: JsValue): Option<JsValue> {
    match Normalize(body)
    case Failure(_) => None
    case Success(records) => if records.Arr? && |records.items| > 0 then Some(records.items[0]) else None
  }

  /** Normalise the body, take the first record and describe it. A non-array
      record list, or a first record that is not an object, counts as having
      no fields. */
  method ReportSample(body: JsValue) returns (r: Result<SampleReport, TypeError>)
    ensures r.Failure? <==> (Nullish(body) || (Normalize(body).Success? && Normalize(body).value.Arr?
              && |Normalize(body).value.items| > 0 && Nullish(Normalize(body).value.items[0])))
    ensures (r.Success? && r.value.NoRecords?) <==>
              (Normalize(body).Success? && !(Normalize(body).value.Arr? && |Normalize(body).value.items| > 0))
    ensures r.Success? && r.value.Described? ==>
              |r.value.sampleFields| <= SampleFieldCount && |r.value.template| <= TemplateFieldCount
              && |r.value.template| <= |r.value.lines|
    ensures r.Success? && r.value.Described? ==>
              FirstRecord(body).Some? && !Nullish(FirstRecord(body).value)
              && var props := PropsOf(FirstRecord(body).value);
              |r.value.lines| == |props| && (forall i | 0 <= i < |props| :: r.value.lines[i] == LineFor(props, i))
              && r.value.sampleFields == SampleFields(Names(props))
              && r.value.template == MappingTemplate(Names(props))
  {
    var records := Normalize(body);
    if records.Failure? {
      return Failure(records.error);
    }
    if !(records.value.Arr? && |records.value.items| > 0) {
      return Success(NoRecords);
    }
    var sample := records.value.items[0];
    if Nullish(sample) {
      return Failure(PropertyOfNullish("keys"));
    }
    var props := if sample.Obj? then sample.props else [];
    var lines := DescribeFields(props);
    var fields := Names(props);
    r := Success(Described(lines, SampleFields(fields), MappingTemplate(fields)));
  }

  /** A single object record in either envelope is the first record, so the
      report describes each of its fields. */
  lemma SingleRecordIsFirstRecord(props: seq<(string, JsValue)>)
    ensures FirstRecord(Obj([("d", Obj([("results", Arr([Obj(props)]))]))])) == Some(Obj(props))
    ensures FirstRecord(Obj([("value", Arr([Obj(props)]))])) == Some(Obj(props))
    ensures PropsOf(Obj(props)) == props
  {
  }

  // ---- Paths and arguments ----

  const MetadataQuery: string := "$metadata"
  const SampleQuery: string := "$top=1"

  /** A request on the entity path with a system query option:
      `${baseUrl}?${query}`. */
  function EntityRequest(service: string, entity: string, query: string): (u: string)
    ensures |u| == |EntityPath(service, entity)| + 1 + |query|
    ensures u[..|EntityPath(service, entity)|] == EntityPath(service, entity)
    ensures u[|EntityPath(service, entity)|] == '?'
    ensures u[|EntityPath(service, entity)| + 1..] == query
  {
    EntityPath(service, entity) + "?" + query
  }

  /** A request determines its entity set and its query, when service names
      contain no '/' and entity names no '?'. */
  lemma EntityRequestInjective(s1: string, e1: string, q1: string, s2: string, e2: string, q2: string)
    requires '/' !in s1 && '/' !in s2 && '?' !in e1 && '?' !in e2
    requires EntityRequest(s1, e1, q1) == EntityRequest(s2, e2, q2)
    ensures s1 == s2 && e1 == e2 && q1 == q2
  {
    var u := EntityRequest(s1, e1, q1);
    var p1 := EntityPath(s1, e1);
    var p2 := EntityPath(s2, e2);
    var n := |ODataRoot| + |s1| + 1;
    var m := |ODataRoot| + |s2| + 1;
    assert e1 == u[n..|p1|] && e2 == u[m..|p2|];
    assert |p1| == |p2|;
    assert p1 == u[..|p1|] == p2;
    EntityPathInjective(s1, e1, s2, e2);
  }

  /** The metadata and the sample request address the same entity path and
      differ only in the query. */
  lemma RequestsShareEntityPath(service: string, entity: string)
    ensures EntityRequest(service, entity, MetadataQuery)[..|EntityPath(service, entity)|] ==
            EntityRequest(service, entity, SampleQuery)[..|EntityPath(service, entity)|]
    ensures EntityRequest(service, entity, MetadataQuery) != EntityRequest(service, entity, SampleQuery)
  {
    var n := |EntityPath(service, entity)|;
    assert EntityRequest(service, entity, MetadataQuery)[n + 2] == 'm';
    assert EntityRequest(service, entity, SampleQuery)[n + 2] == 't';
  }

  /** What the command line leads to: the usage message with exit code 1, or
      the exploration of one service and entity. */
  datatype Invocation = Usage(exitCode: int) | Explore(service: string, entity: string)

  /** `process.argv[2]` and `[3]` must both be present and non-empty. */
  function CheckArguments(args: seq<string>): (r: Invocation)
    ensures r.Usage? <==> |args| < 2 || args[0] == "" || args[1] == ""
    ensures r.Usage? ==> r.exitCode == 1
    ensures r.Explore? ==> r.service == args[0] && r.entity == args[1]
  {
    var service := if |args| > 0 then Str(args[0]) else Undefined;
    var entity := if |args| > 1 then Str(args[1]) else Undefined;
    if !Truthy(service) || !Truthy(entity) then Usage(1) else Explore(args[0], args[1])
  }
}
