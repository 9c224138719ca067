/**
 * The Swagger 2.0 parameter classifier (`ParametersParser`): it walks an
 * operation's parameter list in order, drops the parameters excluded from
 * bindings, and files every other one under its location bucket, the flat
 * list and, when it declares an `enum`, the enum list.
 */
module Parameters {
  import opened Js
  import opened Text

  /** The five values of a Parameter Object's `in` field. */
  datatype Location = Path | Query | Header | FormData | Body

  /** The `in` value of each location. */
  function InValue(l: Location): string {
    match l
    case Path => "path"
    case Query => "query"
    case Header => "header"
    case FormData => "formData"
    case Body => "body"
  }

  /** The name of the parser field a parameter at `l` is pushed into. */
  function BucketName(l: Location): string {
    match l
    case Path => "paths"
    case Query => "querys"
    case Header => "headers"
    case FormData => "formDatas"
    case Body => "bodys"
  }

  /** The location whose bucket `_self[at + 's']` names, if any. */
  function LocationOf(at: string): (r: Option<Location>)
    ensures r.Some? ==> at == InValue(r.value)
  {
    if at == "path" then Some(Path)
    else if at == "query" then Some(Query)
    else if at == "header" then Some(Header)
    else if at == "formData" then Some(FormData)
    else if at == "body" then Some(Body)
    else None
  }

  /** The five bucket names, and only they, are reached by `in + 's'`. */
  lemma LocationOfBucketName(at: string, l: Location)
    ensures LocationOf(at) == Some(l) <==> at + "s" == BucketName(l)
  {
    assert BucketName(l) == InValue(l) + "s";
    if at + "s" == BucketName(l) {
      assert at == (at + "s")[..|at|] == BucketName(l)[..|BucketName(l)| - 1] == InValue(l);
    }
  }

  /** A raw Parameter Object, with the properties the classifier reads. */
  datatype RawParameter = RawParameter(
    name: string,
    location: Option<string>,           // `in`
    required: Option<Json>,             // read by truthiness
    description: Option<string>,
    refValue: Option<Json>,             // `$ref`
    enumValues: Option<seq<Json>>,      // `enum`
    ownLength: Option<Json>,            // the parameter object's own `length` property
    excludeFromBindings: Option<Json>,  // `x-exclude-from-bindings`
    proxyHeader: Option<Json>,          // `x-proxy-header`
    namePattern: Option<Json>,          // `x-name-pattern`
    other: seq<(string, Json)>)         // every other property, passed through

  /** A classified parameter: the raw object plus the properties the classifier writes on it. */
  datatype ParamRecord = ParamRecord(
    source: RawParameter,
    ref: Option<string>,
    isSingleton: bool,
    singleton: Option<Json>,
    typeFlag: Option<string>,           // the `is<In>Parameter` property set to true
    isPatternType: bool,
    pattern: Option<Json>,
    cardinality: string,
    camelCaseName: string)

  /** A synthesised enum definition. */
  datatype EnumRecord = EnumRecord(
    name: string,
    camelCaseName: string,
    values: seq<Json>,
    description: Option<string>)

  datatype ClassifierOptions = ClassifierOptions(addEnumDescription: Option<bool>)

  /** `_checkProxyHeader`: `x-exclude-from-bindings === true`, or any `x-proxy-header`. */
  predicate IsExcluded(p: RawParameter)
    ensures p.proxyHeader.Some? ==> IsExcluded(p)
    ensures p.proxyHeader.None? && p.excludeFromBindings != Some(JBool(true)) ==> !IsExcluded(p)
  {
    p.excludeFromBindings == Some(JBool(true)) || p.proxyHeader.Some?
  }

  /** `_loadReference`: the text after the last `/` of a string `$ref`. */
  function LoadReference(p: RawParameter): (r: Option<string>)
    ensures r.Some? <==> p.refValue.Some? && p.refValue.value.JStr?
    ensures r.Some? ==>
      var s := p.refValue.value.s;
      && '/' !in r.value
      && |r.value| <= |s|
      && s[|s| - |r.value|..] == r.value
      && (|r.value| == |s| || s[|s| - |r.value| - 1] == '/')
  {
    if p.refValue.Some? && p.refValue.value.JStr? then
      LastSegmentIsSuffix(p.refValue.value.s, '/');
      Some(LastSegment(p.refValue.value.s, '/'))
    else None
  }

  /** The singleton test of `_parseEnum`: it reads the parameter's own `length`, not the enum's. */
  predicate IsSingletonParam(p: RawParameter) {
    p.enumValues.Some? && p.ownLength == Some(JNum(1))
  }

  /** Which values the `enum` holds, and how many, does not decide the singleton test. */
  lemma SingletonIgnoresEnum(p: RawParameter, values: seq<Json>)
    requires p.enumValues.Some?
    ensures IsSingletonParam(p.(enumValues := Some(values))) == IsSingletonParam(p)
  {
  }

  /** `enum[0]`, which is `undefined` for an empty enum. */
  function FirstEnumValue(p: RawParameter): Option<Json> {
    if p.enumValues.Some? && |p.enumValues.value| > 0 then Some(p.enumValues.value[0]) else None
  }

  /** The enum record `_parseEnum` pushes for `p`, if any. */
  function EnumRecordOf(p: RawParameter, addDescription: bool, camelCase: string -> string): (r: Option<EnumRecord>)
    ensures r.Some? <==> p.enumValues.Some? && !IsSingletonParam(p)
    ensures r.Some? ==>
      && r.value.name == UpperFirst(camelCase(p.name)) + " Enum"
      && r.value.camelCaseName == camelCase(p.name)
      && r.value.values == p.enumValues.value
      && (addDescription ==> r.value.description == p.description)
      && (!addDescription ==> r.value.description == None)
  {
    if p.enumValues.Some? && p.ownLength != Some(JNum(1)) then
      var cc := camelCase(p.name);
      Some(EnumRecord(UpperFirst(cc) + " Enum", cc, p.enumValues.value,
                      if addDescription then p.description else None))
    else None
  }

  function EnumList(p: RawParameter, addDescription: bool, camelCase: string -> string): seq<EnumRecord> {
    var e := EnumRecordOf(p, addDescription, camelCase);
    if e.Some? then [e.value] else []
  }

  /** The property name `'is' + _.upperFirst(at) + 'Parameter'`. */
  function FlagName(at: string): string {
    "is" + UpperFirst(at) + "Parameter"
  }

  /** The `is<In>Parameter` key `_parseParameterType` sets, for a truthy `in`. */
  function TypeFlag(p: RawParameter): (r: Option<string>)
    ensures r.Some? <==> NonEmpty(p.location)
  {
    if NonEmpty(p.location) then Some(FlagName(p.location.value)) else None
  }

  /** The flag is the `isQueryParameter` key. */
  predicate MarksQuery(flag: Option<string>) {
    flag == Some("isQueryParameter")
  }

  /** Pattern marking: only a parameter marked `isQueryParameter` with a truthy `x-name-pattern`. */
  predicate HasPattern(p: RawParameter) {
    MarksQuery(TypeFlag(p)) && Present(p.namePattern)
  }

  /** The record every kept parameter becomes. */
  function RecordOf(p: RawParameter, camelCase: string -> string): (r: ParamRecord)
    ensures r.source == p
  {
    var single := IsSingletonParam(p);
    var isPattern := HasPattern(p);
    ParamRecord(
      p, LoadReference(p),
      single, if single then FirstEnumValue(p) else None,
      TypeFlag(p),
      isPattern, if isPattern then p.namePattern else None,
      if Present(p.required) then "" else "?",
      camelCase(p.name))
  }

  /** What the classifier writes on a kept parameter, as the source promises it. */
  lemma RecordFacts(p: RawParameter, camelCase: string -> string)
    ensures var r := RecordOf(p, camelCase);
      && r.ref == LoadReference(p)
      && (r.cardinality == "" <==> Present(p.required))
      && (r.cardinality == "?" <==> !Present(p.required))
      && r.camelCaseName == camelCase(p.name)
      && (r.isSingleton <==> IsSingletonParam(p))
      && r.singleton == (if r.isSingleton then FirstEnumValue(p) else None)
      && (r.isPatternType <==> HasPattern(p))
      && r.pattern == (if r.isPatternType then p.namePattern else None)
      && r.typeFlag == TypeFlag(p)
  {
  }

  /** The location of a parameter whose truthy `in` names one of the five buckets. */
  predicate At(p: RawParameter, l: Location) {
    NonEmpty(p.location) && LocationOf(p.location.value) == Some(l)
  }

  /** A kept parameter whose truthy `in` names no bucket: pushing it throws. */
  predicate BadLocation(p: RawParameter) {
    !IsExcluded(p) && NonEmpty(p.location) && LocationOf(p.location.value).None?
  }

  /** The collections the classifier fills. */
  datatype Buckets = Buckets(
    parameters: seq<ParamRecord>,
    headers: seq<ParamRecord>,
    paths: seq<ParamRecord>,
    querys: seq<ParamRecord>,
    formDatas: seq<ParamRecord>,
    bodys: seq<ParamRecord>,
    enums: seq<EnumRecord>)
  {
    function Bucket(l: Location): seq<ParamRecord> {
      match l
      case Path => paths
      case Query => querys
      case Header => headers
      case FormData => formDatas
      case Body => bodys
    }
  }

  const NoBuckets := Buckets([], [], [], [], [], [], [])

  function Push(b: Buckets, l: Location, r: ParamRecord): (b': Buckets)
    ensures b'.Bucket(l) == b.Bucket(l) + [r]
    ensures forall m :: m != l ==> b'.Bucket(m) == b.Bucket(m)
    ensures b'.parameters == b.parameters && b'.enums == b.enums
  {
    match l
    case Path => b.(paths := b.paths + [r])
    case Query => b.(querys := b.querys + [r])
    case Header => b.(headers := b.headers + [r])
    case FormData => b.(formDatas := b.formDatas + [r])
    case Body => b.(bodys := b.bodys + [r])
  }

  /** One iteration of `parse`. */
  function Step(b: Buckets, p: RawParameter, addDescription: bool, camelCase: string -> string): Result<Buckets> {
    if IsExcluded(p) then Success(b)
    else
      var r := RecordOf(p, camelCase);
      var b1 := b.(enums := b.enums + EnumList(p, addDescription, camelCase));
      if NonEmpty(p.location) then
        match LocationOf(p.location.value)
        case None => Failure(UnknownLocation(p.location.value))
        case Some(l) => Success(Push(b1, l, r).(parameters := b1.parameters + [r]))
      else Success(b1.(parameters := b1.parameters + [r]))
  }

  /** `parse` over `ps`, starting from the collections `b`. */
  function ClassifyFrom(b: Buckets, ps: seq<RawParameter>, addDescription: bool, camelCase: string -> string): Result<Buckets>
    decreases |ps|
  {
    if ps == [] then Success(b)
    else
      match ClassifyFrom(b, ps[..|ps| - 1], addDescription, camelCase)
      case Failure(e) => Failure(e)
      case Success(b') => Step(b', ps[|ps| - 1], addDescription, camelCase)
  }

  /* ---------- An independent definition by filtering ---------- */

  function Kept(ps: seq<RawParameter>): (r: seq<RawParameter>)
    ensures |r| <= |ps|
  {
    if ps == [] then []
    else Kept(ps[..|ps| - 1]) + (if IsExcluded(ps[|ps| - 1]) then [] else [ps[|ps| - 1]])
  }

  function KeptAt(ps: seq<RawParameter>, l: Location): seq<RawParameter> {
    if ps == [] then []
    else
      var p := ps[|ps| - 1];
      KeptAt(ps[..|ps| - 1], l) + (if !IsExcluded(p) && At(p, l) then [p] else [])
  }

  function ExcludedCount(ps: seq<RawParameter>): nat {
    if ps == [] then 0
    else ExcludedCount(ps[..|ps| - 1]) + (if IsExcluded(ps[|ps| - 1]) then 1 else 0)
  }

  function Records(ps: seq<RawParameter>, camelCase: string -> string): (r: seq<ParamRecord>)
    ensures |r| == |ps|
  {
    if ps == [] then [] else Records(ps[..|ps| - 1], camelCase) + [RecordOf(ps[|ps| - 1], camelCase)]
  }

  function EnumsOf(ps: seq<RawParameter>, addDescription: bool, camelCase: string -> string): seq<EnumRecord> {
    if ps == [] then []
    else EnumsOf(ps[..|ps| - 1], addDescription, camelCase) + EnumList(ps[|ps| - 1], addDescription, camelCase)
  }

  /** The records of a list whose source lies at `l`, in order. */
  function OfLocation(rs: seq<ParamRecord>, l: Location): seq<ParamRecord> {
    if rs == [] then []
    else OfLocation(rs[..|rs| - 1], l) + (if At(rs[|rs| - 1].source, l) then [rs[|rs| - 1]] else [])
  }

  /** What a successful `parse` adds, written as filters over the input. */
  function Expected(ps: seq<RawParameter>, addDescription: bool, camelCase: string -> string): Buckets {
    Buckets(
      Records(Kept(ps), camelCase),
      Records(KeptAt(ps, Header), camelCase),
      Records(KeptAt(ps, Path), camelCase),
      Records(KeptAt(ps, Query), camelCase),
      Records(KeptAt(ps, FormData), camelCase),
      Records(KeptAt(ps, Body), camelCase),
      EnumsOf(Kept(ps), addDescription, camelCase))
  }

  function Append(b: Buckets, c: Buckets): Buckets {
    Buckets(b.parameters + c.parameters, b.headers + c.headers, b.paths + c.paths,
            b.querys + c.querys, b.formDatas + c.formDatas, b.bodys + c.bodys, b.enums + c.enums)
  }

  predicate NoBadLocation(ps: seq<RawParameter>) {
    forall i :: 0 <= i < |ps| ==> !BadLocation(ps[i])
  }

  lemma KeptSnoc(ps: seq<RawParameter>, p: RawParameter, l: Location)
    ensures Kept(ps + [p]) == Kept(ps) + (if IsExcluded(p) then [] else [p])
    ensures KeptAt(ps + [p], l) == KeptAt(ps, l) + (if !IsExcluded(p) && At(p, l) then [p] else [])
    ensures ExcludedCount(ps + [p]) == ExcludedCount(ps) + (if IsExcluded(p) then 1 else 0)
  {
    SnocInit(ps, p);
  }

  lemma {:induction false} RecordsAppend(xs: seq<RawParameter>, ys: seq<RawParameter>, camelCase: string -> string)
    ensures Records(xs + ys, camelCase) == Records(xs, camelCase) + Records(ys, camelCase)
    decreases |ys|
  {
    if ys == [] {
      AppendEmpty(xs);
    } else {
      var init, y := ys[..|ys| - 1], ys[|ys| - 1];
      RecordsAppend(xs, init, camelCase);
      SnocSplit(xs, ys);
      RecordsSnoc(xs + init, y, camelCase);
      RecordsSnoc(init, y, camelCase);
      AppendAssoc3(Records(xs, camelCase), Records(init, camelCase), [RecordOf(y, camelCase)]);
    }
  }

  lemma RecordsSnoc(ps: seq<RawParameter>, p: RawParameter, camelCase: string -> string)
    ensures Records(ps + [p], camelCase) == Records(ps, camelCase) + [RecordOf(p, camelCase)]
  {
    SnocInit(ps, p);
  }

  lemma EnumsOfSnoc(ps: seq<RawParameter>, p: RawParameter, addDescription: bool, camelCase: string -> string)
    ensures EnumsOf(ps + [p], addDescription, camelCase) == EnumsOf(ps, addDescription, camelCase) + EnumList(p, addDescription, camelCase)
  {
    SnocInit(ps, p);
  }

  /** What one parameter adds to the bucket of `l`. */
  function Here(p: RawParameter, l: Location, camelCase: string -> string): seq<ParamRecord> {
    if !IsExcluded(p) && At(p, l) then [RecordOf(p, camelCase)] else []
  }

  /** What one parameter adds to the collections. */
  function Contribution(p: RawParameter, addDescription: bool, camelCase: string -> string): Buckets {
    Buckets(if IsExcluded(p) then [] else [RecordOf(p, camelCase)],
            Here(p, Header, camelCase), Here(p, Path, camelCase), Here(p, Query, camelCase),
            Here(p, FormData, camelCase), Here(p, Body, camelCase),
            if IsExcluded(p) then [] else EnumList(p, addDescription, camelCase))
  }

  lemma AppendAssoc(a: Buckets, b: Buckets, c: Buckets)
    ensures Append(Append(a, b), c) == Append(a, Append(b, c))
  {
  }

  /** The contribution of a kept parameter at `l`. */
  function Single(l: Location, r: ParamRecord, e: seq<EnumRecord>): Buckets {
    Buckets([r],
            if l == Header then [r] else [],
            if l == Path then [r] else [],
            if l == Query then [r] else [],
            if l == FormData then [r] else [],
            if l == Body then [r] else [],
            e)
  }

  lemma AppendSingle(b: Buckets, l: Location, r: ParamRecord, e: seq<EnumRecord>)
    ensures Append(b, Single(l, r, e)) == Push(b.(enums := b.enums + e), l, r).(parameters := b.parameters + [r])
  {
    assert b.headers + [] == b.headers && b.paths + [] == b.paths && b.querys + [] == b.querys;
    assert b.formDatas + [] == b.formDatas && b.bodys + [] == b.bodys;
  }

  lemma {:induction false} StepAppends(b: Buckets, p: RawParameter, addDescription: bool, camelCase: string -> string)
    requires !BadLocation(p)
    ensures Step(b, p, addDescription, camelCase) == Success(Append(b, Contribution(p, addDescription, camelCase)))
  {
    if !IsExcluded(p) && NonEmpty(p.location) {
      var l := LocationOf(p.location.value).value;
      var r := RecordOf(p, camelCase);
      var e := EnumList(p, addDescription, camelCase);
      assert At(p, l);
      assert forall m :: m != l ==> !At(p, m);
      assert Contribution(p, addDescription, camelCase) == Single(l, r, e);
      AppendSingle(b, l, r, e);
    } else if !IsExcluded(p) {
      assert !At(p, Path) && !At(p, Query) && !At(p, Header) && !At(p, FormData) && !At(p, Body);
      var r := RecordOf(p, camelCase);
      var c := Contribution(p, addDescription, camelCase);
      assert c == Buckets([r], [], [], [], [], [], EnumList(p, addDescription, camelCase));
      assert b.headers + [] == b.headers && b.paths + [] == b.paths && b.querys + [] == b.querys;
      assert b.formDatas + [] == b.formDatas && b.bodys + [] == b.bodys;
      assert Step(b, p, addDescription, camelCase) == Success(Buckets(
        b.parameters + [r], b.headers, b.paths, b.querys, b.formDatas, b.bodys,
        b.enums + EnumList(p, addDescription, camelCase)));
    } else {
      assert Contribution(p, addDescription, camelCase) == NoBuckets;
      assert Append(b, NoBuckets) == b;
    }
  }

  lemma ExpectedSnocParameters(ps: seq<RawParameter>, p: RawParameter, addDescription: bool, camelCase: string -> string)
    ensures Records(Kept(ps + [p]), camelCase) == Records(Kept(ps), camelCase) + Contribution(p, addDescription, camelCase).parameters
  {
    KeptSnoc(ps, p, Path);
    RecordsAppend(Kept(ps), if IsExcluded(p) then [] else [p], camelCase);
  }

  lemma ExpectedSnocBucket(ps: seq<RawParameter>, p: RawParameter, l: Location, camelCase: string -> string)
    ensures Records(KeptAt(ps + [p], l), camelCase) == Records(KeptAt(ps, l), camelCase) + Here(p, l, camelCase)
  {
    KeptSnoc(ps, p, l);
    RecordsAppend(KeptAt(ps, l), if !IsExcluded(p) && At(p, l) then [p] else [], camelCase);
  }

  lemma ExpectedSnocEnums(ps: seq<RawParameter>, p: RawParameter, addDescription: bool, camelCase: string -> string)
    ensures EnumsOf(Kept(ps + [p]), addDescription, camelCase) == EnumsOf(Kept(ps), addDescription, camelCase) + Contribution(p, addDescription, camelCase).enums
  {
    KeptSnoc(ps, p, Path);
    var e := EnumsOf(Kept(ps), addDescription, camelCase);
    if !IsExcluded(p) {
      assert Kept(ps + [p]) == Kept(ps) + [p];
      EnumsOfSnoc(Kept(ps), p, addDescription, camelCase);
      assert Contribution(p, addDescription, camelCase).enums == EnumList(p, addDescription, camelCase);
    } else {
      assert Kept(ps + [p]) == Kept(ps);
      assert Contribution(p, addDescription, camelCase).enums == [];
      assert e + [] == e;
    }
  }

  /** One more parameter adds exactly its contribution to what the filters give. */
  lemma ExpectedSnoc(ps: seq<RawParameter>, p: RawParameter, addDescription: bool, camelCase: string -> string)
    ensures Expected(ps + [p], addDescription, camelCase)
            == Append(Expected(ps, addDescription, camelCase), Contribution(p, addDescription, camelCase))
  {
    var e0, e1 := Expected(ps, addDescription, camelCase), Expected(ps + [p], addDescription, camelCase);
    var c := Contribution(p, addDescription, camelCase);
    ExpectedSnocParameters(ps, p, addDescription, camelCase);
    assert e1.parameters == e0.parameters + c.parameters;
    ExpectedSnocBucket(ps, p, Header, camelCase);
    assert e1.headers == e0.headers + c.headers;
    ExpectedSnocBucket(ps, p, Path, camelCase);
    assert e1.paths == e0.paths + c.paths;
    ExpectedSnocBucket(ps, p, Query, camelCase);
    assert e1.querys == e0.querys + c.querys;
    ExpectedSnocBucket(ps, p, FormData, camelCase);
    assert e1.formDatas == e0.formDatas + c.formDatas;
    ExpectedSnocBucket(ps, p, Body, camelCase);
    assert e1.bodys == e0.bodys + c.bodys;
    ExpectedSnocEnums(ps, p, addDescription, camelCase);
  }

  lemma NoBadLocationSnoc(ps: seq<RawParameter>)
    requires ps != []
    ensures NoBadLocation(ps) <==> NoBadLocation(ps[..|ps| - 1]) && !BadLocation(ps[|ps| - 1])
  {
    var init := ps[..|ps| - 1];
    if NoBadLocation(init) && !BadLocation(ps[|ps| - 1]) {
      forall i | 0 <= i < |ps| ensures !BadLocation(ps[i]) {
        if i < |init| {
          assert ps[i] == init[i];
        }
      }
    }
  }

  lemma {:induction false} ClassifySucceeds(b: Buckets, ps: seq<RawParameter>, addDescription: bool, camelCase: string -> string)
    requires NoBadLocation(ps)
    ensures ClassifyFrom(b, ps, addDescription, camelCase) == Success(Append(b, Expected(ps, addDescription, camelCase)))
    decreases |ps|
  {
    if ps == [] {
      assert Append(b, Expected(ps, addDescription, camelCase)) == b;
    } else {
      var init, p := ps[..|ps| - 1], ps[|ps| - 1];
      NoBadLocationSnoc(ps);
      ClassifySucceeds(b, init, addDescription, camelCase);
      var e := Expected(init, addDescription, camelCase);
      StepAppends(Append(b, e), p, addDescription, camelCase);
      InitLast(ps);
      ExpectedSnoc(init, p, addDescription, camelCase);
      AppendAssoc(b, e, Contribution(p, addDescription, camelCase));
    }
  }

  lemma {:induction false} ClassifyFails(b: Buckets, ps: seq<RawParameter>, addDescription: bool, camelCase: string -> string)
    requires !NoBadLocation(ps)
    ensures ClassifyFrom(b, ps, addDescription, camelCase).Failure?
    decreases |ps|
  {
    var init, p := ps[..|ps| - 1], ps[|ps| - 1];
    NoBadLocationSnoc(ps);
    if !NoBadLocation(init) {
      ClassifyFails(b, init, addDescription, camelCase);
    } else {
      ClassifySucceeds(b, init, addDescription, camelCase);
    }
  }

  /**
   * `parse` succeeds exactly when no kept parameter has an unknown truthy `in`,
   * and then adds the filtered collections of `Expected`.
   */
  lemma ClassifyMatchesFilters(b: Buckets, ps: seq<RawParameter>, addDescription: bool, camelCase: string -> string)
    ensures ClassifyFrom(b, ps, addDescription, camelCase).Success? <==> NoBadLocation(ps)
    ensures NoBadLocation(ps) ==> ClassifyFrom(b, ps, addDescription, camelCase) == Success(Append(b, Expected(ps, addDescription, camelCase)))
  {
    if NoBadLocation(ps) {
      ClassifySucceeds(b, ps, addDescription, camelCase);
    } else {
      ClassifyFails(b, ps, addDescription, camelCase);
    }
  }

  /** The flat list has one entry per kept parameter, in input order. */
  lemma {:induction false} KeptCount(ps: seq<RawParameter>)
    ensures |Kept(ps)| == |ps| - ExcludedCount(ps)
    decreases |ps|
  {
    if ps != [] {
      KeptCount(ps[..|ps| - 1]);
    }
  }

  /** Removing the excluded parameters changes no collection. */
  lemma {:induction false} ExcludedChangeNothing(ps: seq<RawParameter>, addDescription: bool, camelCase: string -> string)
    ensures Expected(Kept(ps), addDescription, camelCase) == Expected(ps, addDescription, camelCase)
    decreases |ps|
  {
    if ps != [] {
      var init, p := ps[..|ps| - 1], ps[|ps| - 1];
      ExcludedChangeNothing(init, addDescription, camelCase);
      forall l: Location ensures KeptAt(Kept(ps), l) == KeptAt(ps, l) {
        KeptAtKept(ps, l);
      }
      KeptKept(ps);
    }
  }

  lemma {:induction false} KeptKept(ps: seq<RawParameter>)
    ensures Kept(Kept(ps)) == Kept(ps)
    decreases |ps|
  {
    if ps != [] {
      var init, p := ps[..|ps| - 1], ps[|ps| - 1];
      assert ps == init + [p];
      KeptSnoc(init, p, Path);
      KeptKept(init);
      if IsExcluded(p) {
        assert Kept(ps) == Kept(init);
      } else {
        assert Kept(ps) == Kept(init) + [p];
        KeptSnoc(Kept(init), p, Path);
      }
    }
  }

  lemma {:induction false} KeptAtKept(ps: seq<RawParameter>, l: Location)
    ensures KeptAt(Kept(ps), l) == KeptAt(ps, l)
    decreases |ps|
  {
    if ps != [] {
      var init, p := ps[..|ps| - 1], ps[|ps| - 1];
      assert ps == init + [p];
      KeptSnoc(init, p, l);
      KeptAtKept(init, l);
      if IsExcluded(p) {
        assert Kept(ps) == Kept(init);
      } else {
        assert Kept(ps) == Kept(init) + [p];
        KeptSnoc(Kept(init), p, l);
      }
    }
  }

  /** An excluded parameter contributes to no collection, wherever it stands in the list. */
  lemma ExcludedAppearNowhere(ps: seq<RawParameter>, p: RawParameter, qs: seq<RawParameter>, addDescription: bool, camelCase: string -> string)
    requires IsExcluded(p)
    ensures Expected(ps + [p] + qs, addDescription, camelCase) == Expected(ps + qs, addDescription, camelCase)
  {
    KeptSkip(ps, p, qs);
    ExcludedChangeNothing(ps + [p] + qs, addDescription, camelCase);
    ExcludedChangeNothing(ps + qs, addDescription, camelCase);
  }

  lemma {:induction false} KeptSkip(ps: seq<RawParameter>, p: RawParameter, qs: seq<RawParameter>)
    requires IsExcluded(p)
    ensures Kept(ps + [p] + qs) == Kept(ps + qs)
    decreases |qs|
  {
    if qs == [] {
      KeptSnoc(ps, p, Path);
      assert ps + [p] + qs == ps + [p];
      assert ps + qs == ps;
    } else {
      var init, q := qs[..|qs| - 1], qs[|qs| - 1];
      KeptSkip(ps, p, init);
      assert ps + [p] + qs == (ps + [p] + init) + [q];
      assert ps + qs == (ps + init) + [q];
      KeptSnoc(ps + [p] + init, q, Path);
      KeptSnoc(ps + init, q, Path);
    }
  }

  /** Each bucket is the sub-list of the flat list whose location is that bucket's, in the same order. */
  lemma {:induction false} BucketIsSublist(ps: seq<RawParameter>, l: Location, camelCase: string -> string)
    ensures Records(KeptAt(ps, l), camelCase) == OfLocation(Records(Kept(ps), camelCase), l)
    decreases |ps|
  {
    if ps != [] {
      var init, p := ps[..|ps| - 1], ps[|ps| - 1];
      BucketIsSublist(init, l, camelCase);
      KeptSnoc(init, p, l);
      RecordsAppend(Kept(init), if IsExcluded(p) then [] else [p], camelCase);
      RecordsAppend(KeptAt(init, l), if !IsExcluded(p) && At(p, l) then [p] else [], camelCase);
      var rs := Records(Kept(ps), camelCase);
      if !IsExcluded(p) {
        assert rs[..|rs| - 1] == Records(Kept(init), camelCase);
      } else {
        assert rs == Records(Kept(init), camelCase);
      }
    }
  }

  /** One enum record per kept parameter with an `enum` that is not a singleton, in input order. */
  lemma {:induction false} EnumsOfQualifying(ps: seq<RawParameter>, addDescription: bool, camelCase: string -> string)
    ensures |EnumsOf(ps, addDescription, camelCase)| == |EnumSources(ps)|
    ensures forall j :: 0 <= j < |EnumSources(ps)| ==>
      EnumRecordOf(EnumSources(ps)[j], addDescription, camelCase) == Some(EnumsOf(ps, addDescription, camelCase)[j])
    decreases |ps|
  {
    if ps != [] {
      EnumsOfQualifying(ps[..|ps| - 1], addDescription, camelCase);
    }
  }

  /** The parameters that produce an enum record. */
  function EnumSources(ps: seq<RawParameter>): seq<RawParameter> {
    if ps == [] then []
    else
      var p := ps[|ps| - 1];
      EnumSources(ps[..|ps| - 1]) + (if p.enumValues.Some? && !IsSingletonParam(p) then [p] else [])
  }

  lemma FlagNameQuery(at: string)
    requires FlagName(at) == "isQueryParameter"
    ensures at == "query" || at == "Query"
  {
    FlagNameMiddle(at);
    UpperFirstQuery(at);
  }

  /** The text between `is` and `Parameter` is the upper-first location. */
  lemma FlagNameMiddle(at: string)
    ensures var f := FlagName(at); |f| == |at| + 11 && f[2..|at| + 2] == UpperFirst(at)
  {
    var u := UpperFirst(at);
    assert FlagName(at) == "is" + u + "Parameter";
  }

  /** Only `query` and `Query` upper-first to `Query`. */
  lemma UpperFirstQuery(at: string)
    requires var f := FlagName(at); |f| == |at| + 11 && f[2..|at| + 2] == UpperFirst(at)
    requires FlagName(at) == "isQueryParameter"
    ensures at == "query" || at == "Query"
  {
    var u := UpperFirst(at);
    assert |at| == 5;
    assert u == "isQueryParameter"[2..7] == "Query";
    assert at[1..] == u[1..] == "uery";
    assert UpperChar(at[0]) == 'Q';
    assert at == [at[0]] + at[1..];
  }

  /** Pattern marking happens only on parameters whose `in` is `"query"`, once classification succeeds. */
  lemma PatternOnlyOnQuery(p: RawParameter)
    requires !BadLocation(p)
    ensures HasPattern(p) && !IsExcluded(p) ==> p.location == Some("query")
    ensures p.location == Some("query") && Present(p.namePattern) ==> HasPattern(p)
  {
    if HasPattern(p) && !IsExcluded(p) {
      FlagNameQuery(p.location.value);
    }
    if p.location == Some("query") {
      FlagNameOfLocation(Query);
    }
  }

  /** The `is<In>Parameter` key of each location. */
  function FlagOf(l: Location): string {
    match l
    case Path => "isPathParameter"
    case Query => "isQueryParameter"
    case Header => "isHeaderParameter"
    case FormData => "isFormDataParameter"
    case Body => "isBodyParameter"
  }

  /** `'is' + _.upperFirst(in) + 'Parameter'` gives the five location flags. */
  lemma FlagNameOfLocation(l: Location)
    ensures FlagName(InValue(l)) == FlagOf(l)
  {
    match l
    case Path => FlagNamePath();
    case Query => FlagNameQueryValue();
    case Header => FlagNameHeader();
    case FormData => FlagNameFormData();
    case Body => FlagNameBody();
  }

  lemma FlagNamePath() ensures FlagName("path") == "isPathParameter" {
    assert UpperFirst("path") == "Path";
  }

  lemma FlagNameQueryValue() ensures FlagName("query") == "isQueryParameter" {
    assert UpperFirst("query") == "Query";
  }

  lemma FlagNameHeader() ensures FlagName("header") == "isHeaderParameter" {
    assert UpperFirst("header") == "Header";
  }

  lemma FlagNameFormData() ensures FlagName("formData") == "isFormDataParameter" {
    assert UpperFirst("formData") == "FormData";
  }

  lemma FlagNameBody() ensures FlagName("body") == "isBodyParameter" {
    assert UpperFirst("body") == "Body";
  }

  /**
   * The classifier: `parse` fills the location buckets, the flat list and the
   * enum list, as a side effect, from the parameters given at construction.
   */
  class ParametersParser {
    const camelCase: string -> string
    const addEnumDescription: bool
    const originParameter: seq<RawParameter>
    var parameters: seq<ParamRecord>
    var headers: seq<ParamRecord>
    var paths: seq<ParamRecord>
    var querys: seq<ParamRecord>
    var formDatas: seq<ParamRecord>
    var bodys: seq<ParamRecord>
    var enums: seq<EnumRecord>

    function Contents(): Buckets
      reads this
    {
      Buckets(parameters, headers, paths, querys, formDatas, bodys, enums)
    }

    /** `addEnumDescription` is `options.addEnumDescription || true`, so it is always true. */
    constructor (params: seq<RawParameter>, options: Option<ClassifierOptions>, camelCase: string -> string)
      ensures this.camelCase == camelCase && originParameter == params
      ensures addEnumDescription
      ensures Contents() == NoBuckets
    {
      this.camelCase := camelCase;
      addEnumDescription := (options.Some? && options.value.addEnumDescription == Some(true)) || true;
      originParameter := params;
      parameters, headers, paths, querys, formDatas, bodys, enums := [], [], [], [], [], [], [];
    }

    /** `_parseEnum`: marks a singleton, or pushes one enum record. */
    method ParseEnum(p: RawParameter) returns (isSingleton: bool, singleton: Option<Json>)
      modifies this`enums
      ensures isSingleton == IsSingletonParam(p)
      ensures singleton == if isSingleton then FirstEnumValue(p) else None
      ensures enums == old(enums) + EnumList(p, addEnumDescription, camelCase)
    {
      isSingleton, singleton := false, None;
      if p.enumValues.Some? {
        if p.ownLength == Some(JNum(1)) {
          isSingleton := true;
          singleton := FirstEnumValue(p);
        } else {
          var cc := camelCase(p.name);
          var e := EnumRecord(UpperFirst(cc) + " Enum", cc, p.enumValues.value, None);
          if addEnumDescription {
            e := e.(description := p.description);
          }
          enums := enums + [e];
        }
      }
    }

    /** `_self[in + 's'].push(param)` for a known location. */
    method PushTo(l: Location, rec: ParamRecord)
      modifies this`paths, this`querys, this`headers, this`formDatas, this`bodys
      ensures Contents() == Push(old(Contents()), l, rec)
    {
      match l {
        case Path => paths := paths + [rec];
        case Query => querys := querys + [rec];
        case Header => headers := headers + [rec];
        case FormData => formDatas := formDatas + [rec];
        case Body => bodys := bodys + [rec];
      }
    }

    /** The body of `parse` for one parameter; `false` when pushing into `_self[in + 's']` throws. */
    method ParseParameter(p: RawParameter) returns (ok: bool)
      modifies this
      ensures ok <==> Step(old(Contents()), p, addEnumDescription, camelCase).Success?
      ensures ok ==> Contents() == Step(old(Contents()), p, addEnumDescription, camelCase).value
      ensures !ok ==> p.location.Some? && Step(old(Contents()), p, addEnumDescription, camelCase) == Failure(UnknownLocation(p.location.value))
    {
      if IsExcluded(p) {
        return true;
      }
      ghost var before := Contents();
      var ref := LoadReference(p);
      var isSingleton, singleton := ParseEnum(p);
      var flag := TypeFlag(p);
      var isPattern := MarksQuery(flag) && Present(p.namePattern);
      var rec := ParamRecord(p, ref, isSingleton, singleton, flag,
                             isPattern, if isPattern then p.namePattern else None,
                             if Present(p.required) then "" else "?", camelCase(p.name));
      assert rec == RecordOf(p, camelCase);
      ghost var kept := before.(enums := enums, parameters := before.parameters + [rec]);
      if NonEmpty(p.location) {
        var loc := LocationOf(p.location.value);
        if loc.None? {
          return false;
        }
        StepAt(before, p, loc.value, addEnumDescription, camelCase);
        PushTo(loc.value, rec);
        parameters := parameters + [rec];
        assert Contents() == Push(kept, loc.value, rec);
      } else {
        StepNoLocation(before, p, addEnumDescription, camelCase);
        parameters := parameters + [rec];
        assert Contents() == kept;
      }
      ok := true;
    }

    /** `parse`: classifies every parameter in order; an unknown truthy `in` throws. */
    method Parse() returns (r: Result<seq<ParamRecord>>)
      modifies this
      ensures r.Success? <==> ClassifyFrom(old(Contents()), originParameter, addEnumDescription, camelCase).Success?
      ensures r.Failure? ==> r.error == ClassifyFrom(old(Contents()), originParameter, addEnumDescription, camelCase).error
      ensures r.Success? ==>
        && Contents() == ClassifyFrom(old(Contents()), originParameter, addEnumDescription, camelCase).value
        && r.value == parameters
    {
      var i := 0;
      while i < |originParameter|
        invariant 0 <= i <= |originParameter|
        invariant ClassifyFrom(old(Contents()), originParameter[..i], addEnumDescription, camelCase) == Success(Contents())
      {
        var p := originParameter[i];
        ClassifyNext(old(Contents()), originParameter, i, Contents(), addEnumDescription, camelCase);
        var ok := ParseParameter(p);
        if !ok {
          ClassifyPrefixFails(old(Contents()), originParameter, i + 1, addEnumDescription, camelCase);
          return Failure(UnknownLocation(p.location.value));
        }
        i := i + 1;
      }
      PrefixWhole(originParameter);
      r := Success(parameters);
    }
  }

  lemma ClassifyNext(b: Buckets, ps: seq<RawParameter>, i: nat, c: Buckets, addDescription: bool, camelCase: string -> string)
    requires i < |ps|
    requires ClassifyFrom(b, ps[..i], addDescription, camelCase) == Success(c)
    ensures ClassifyFrom(b, ps[..i + 1], addDescription, camelCase) == Step(c, ps[i], addDescription, camelCase)
  {
    PrefixStep(ps, i);
  }

  lemma StepAt(b: Buckets, p: RawParameter, l: Location, addDescription: bool, camelCase: string -> string)
    requires !IsExcluded(p) && At(p, l)
    ensures Step(b, p, addDescription, camelCase) == Success(Push(
      b.(enums := b.enums + EnumList(p, addDescription, camelCase), parameters := b.parameters + [RecordOf(p, camelCase)]),
      l, RecordOf(p, camelCase)))
  {
  }

  lemma StepNoLocation(b: Buckets, p: RawParameter, addDescription: bool, camelCase: string -> string)
    requires !IsExcluded(p) && !NonEmpty(p.location)
    ensures Step(b, p, addDescription, camelCase) == Success(
      b.(enums := b.enums + EnumList(p, addDescription, camelCase), parameters := b.parameters + [RecordOf(p, camelCase)]))
  {
  }

  /** Once a prefix fails, the whole list fails. */
  lemma {:induction false} ClassifyPrefixFails(b: Buckets, ps: seq<RawParameter>, k: nat, addDescription: bool, camelCase: string -> string)
    requires k <= |ps|
    requires ClassifyFrom(b, ps[..k], addDescription, camelCase).Failure?
    ensures ClassifyFrom(b, ps, addDescription, camelCase) == ClassifyFrom(b, ps[..k], addDescription, camelCase)
    decreases |ps| - k
  {
    if k < |ps| {
      PrefixStep(ps, k);
      ClassifyPrefixFails(b, ps, k + 1, addDescription, camelCase);
    } else {
      PrefixWhole(ps);
    }
  }

  /** A failing `parse` reports the `in` of the first kept parameter whose location is unknown. */
  lemma ClassifyFirstBad(b: Buckets, ps: seq<RawParameter>, k: nat, addDescription: bool, camelCase: string -> string)
    requires k < |ps| && BadLocation(ps[k]) && NoBadLocation(ps[..k])
    ensures ClassifyFrom(b, ps, addDescription, camelCase) == Failure(UnknownLocation(ps[k].location.value))
  {
    ClassifySucceeds(b, ps[..k], addDescription, camelCase);
    var c := ClassifyFrom(b, ps[..k], addDescription, camelCase).value;
    ClassifyNext(b, ps, k, c, addDescription, camelCase);
    ClassifyPrefixFails(b, ps, k + 1, addDescription, camelCase);
  }
  /* ---------- The cases of the parameter tests ---------- */

  /** The `access_token` query parameter of the tests, with the given `enum` and `$ref`. */
  function AccessToken(enumValues: Option<seq<Json>>, refValue: Option<Json>): RawParameter {
    RawParameter("access_token", Some("query"), None, Some("Access token from fb"), refValue, enumValues,
                 None, None, None, None,
                 [("type", JStr("string")), ("camelCaseName", JStr("accessToken")),
                  ("isQueryParameter", JBool(true)), ("cardinality", JStr("?"))])
  }

  const UserRef := "#/definitions/User"

  /** The reference `#/definitions/User` loads as `User`. */
  lemma UserReference()
    ensures LastSegment(UserRef, '/') == "User"
  {
    assert UserRef == "#/definitions" + ['/'] + "User";
    LastSegmentAfterSep("#/definitions", '/', "User");
  }

  /** The query parameter of the first test is filed in `querys` and in the flat list, marked `isQueryParameter`. */
  lemma QueryTestExample(camelCase: string -> string)
    ensures var r := ClassifyFrom(NoBuckets, [AccessToken(None, None)], true, camelCase);
      && r.Success? && |r.value.parameters| == 1 && |r.value.querys| == 1
      && r.value.parameters[0].typeFlag == Some("isQueryParameter")
      && r.value.parameters[0].camelCaseName == camelCase("access_token")
      && r.value.enums == []
  {
    QueryClassifiedAlone(AccessToken(None, None), true, camelCase);
  }

  /**
   * The enum test: the reference is `User`, the parameter is filed in `querys`,
   * and one enum record `AccessToken Enum` carries the three values, given that
   * `_.camelCase` turns `access_token` into `accessToken`.
   */
  lemma EnumTestExample(camelCase: string -> string)
    requires camelCase("access_token") == "accessToken"
    ensures var r := ClassifyFrom(NoBuckets, [AccessToken(Some([JNum(1), JNum(2), JNum(3)]), Some(JStr(UserRef)))], true, camelCase);
      && r.Success? && |r.value.parameters| == 1 && |r.value.querys| == 1
      && r.value.parameters[0].ref == Some("User")
      && r.value.parameters[0].typeFlag == Some("isQueryParameter")
      && |r.value.enums| == 1 && r.value.enums[0].name == "AccessToken Enum"
      && r.value.enums[0].values == [JNum(1), JNum(2), JNum(3)]
  {
    var p := AccessToken(Some([JNum(1), JNum(2), JNum(3)]), Some(JStr(UserRef)));
    QueryClassifiedAlone(p, true, camelCase);
    EnumTestRecord(camelCase);
  }

  /** A kept parameter whose `in` is "query", classified alone: one flat entry, one `querys` entry, its enum records. */
  lemma QueryClassifiedAlone(p: RawParameter, addDescription: bool, camelCase: string -> string)
    requires !IsExcluded(p) && p.location == Some("query")
    ensures var r := ClassifyFrom(NoBuckets, [p], addDescription, camelCase);
      && r.Success?
      && r.value.parameters == [RecordOf(p, camelCase)] && r.value.querys == [RecordOf(p, camelCase)]
      && r.value.enums == EnumList(p, addDescription, camelCase)
      && RecordOf(p, camelCase).typeFlag == Some("isQueryParameter")
  {
    assert LocationOf("query") == Some(Query) by {
      assert "query"[0] != "path"[0];
    }
    FlagNameQueryValue();
    assert [p][..0] == [];
    StepAt(NoBuckets, p, Query, addDescription, camelCase);
  }

  /** The reference and the enum record of the enum test's parameter. */
  lemma EnumTestRecord(camelCase: string -> string)
    requires camelCase("access_token") == "accessToken"
    ensures var p := AccessToken(Some([JNum(1), JNum(2), JNum(3)]), Some(JStr(UserRef)));
      && LoadReference(p) == Some("User")
      && EnumList(p, true, camelCase) == [EnumRecord("AccessToken Enum", "accessToken", [JNum(1), JNum(2), JNum(3)], Some("Access token from fb"))]
  {
    var p := AccessToken(Some([JNum(1), JNum(2), JNum(3)]), Some(JStr(UserRef)));
    UserReference();
    UpperFirstAccessToken();
    var e := EnumRecordOf(p, true, camelCase);
    assert e.Some? && e.value.name == "AccessToken" + " Enum";
    AccessTokenEnumName();
  }

  /** Proof helper: a literal concatenation, proved apart so that the example above stays cheap. */
  lemma AccessTokenEnumName()
    ensures "AccessToken" + " Enum" == "AccessToken Enum"
  {
  }

  lemma UpperFirstAccessToken()
    ensures UpperFirst("accessToken") == "AccessToken"
  {
    var u := UpperFirst("accessToken");
    assert u[0] == 'A';
    assert u == [u[0]] + u[1..];
  }

  /** The skipped-parameter test: with `x-exclude-from-bindings: true`, or with an `x-proxy-header`, nothing is filed. */
  lemma SkippedTestExample(camelCase: string -> string)
    ensures ClassifyFrom(NoBuckets, [AccessToken(None, None).(excludeFromBindings := Some(JBool(true)))], true, camelCase) == Success(NoBuckets)
    ensures ClassifyFrom(NoBuckets, [AccessToken(None, None).(proxyHeader := Some(JStr("test")))], true, camelCase) == Success(NoBuckets)
  {
    assert [AccessToken(None, None).(excludeFromBindings := Some(JBool(true)))][..0] == [];
    assert [AccessToken(None, None).(proxyHeader := Some(JStr("test")))][..0] == [];
  }
}
