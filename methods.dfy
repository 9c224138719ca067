/**
 * The operation normaliser (`MethodsParser`): for each path and each key of
 * its path item, in order, it builds one operation record, merges the
 * security headers and parameters answered by the scheme tables, and files
 * the record under each of its tags.
 */
module Methods {
  import opened Js
  import opened Text
  import opened Parameters
  import opened SecuritySchemes
  import opened MethodNames

  /** The properties of an Operation Object the normaliser reads. */
  datatype RawOperation = RawOperation(
    tags: Option<seq<string>>,
    summary: Option<string>,
    description: Option<string>,
    externalDocs: Option<Json>,
    operationId: Option<string>,
    produces: Option<Json>,
    consumes: Option<Json>,
    schemes: Option<Json>,
    parameters: seq<RawParameter>,
    responses: Option<Json>,
    deprecated: Option<Json>,
    security: Option<Json>)

  /** An entry of an operation's `headers` or `parameters` list. */
  datatype Entry = Declared(param: ParamRecord) | Injected(security: SecurityRecord)

  /** `packageName`, `className`, `moduleName`, `docsPath` and `modelPath`, copied onto every operation. */
  datatype Settings = Settings(
    packageName: Option<string>,
    className: Option<string>,
    moduleName: Option<string>,
    docsPath: Option<string>,
    modelPath: Option<string>)

  /** The constructor's `options` object. */
  datatype MethodsOptions = MethodsOptions(parameterParserConfig: Option<ClassifierOptions>, settings: Settings)

  const NoSettings := Settings(None, None, None, None, None)

  /** The properties of the record copied or derived from the Operation Object. */
  datatype Details = Details(
    tags: Option<seq<string>>,
    summary: Option<string>,
    description: Option<string>,
    externalDocs: Option<Json>,
    operationId: Option<string>,
    produces: Option<Json>,
    consumes: Option<Json>,
    schemes: Option<Json>,
    isDeprecated: Json,
    security: Option<Json>,
    isSecure: bool)

  /** The nine `is<VERB>` properties of the record. */
  datatype VerbFlags = VerbFlags(
    isGET: bool, isPUT: bool, isOPTIONS: bool, isDELETE: bool, isHEAD: bool,
    isPOST: bool, isTRACE: bool, isCONNECT: bool, isPATCH: bool)

  /** The list properties of the record. */
  datatype Lists = Lists(
    headers: seq<Entry>,
    parameters: seq<Entry>,
    bodyParams: seq<ParamRecord>,
    queryParams: seq<ParamRecord>,
    formDataParams: seq<ParamRecord>,
    enums: seq<EnumRecord>,
    pathParams: seq<ParamRecord>)

  const NoLists := Lists([], [], [], [], [], [], [])

  /**
   * The operation record `_iterateMethod` builds (`verb` is the source's
   * `method`); its flat properties are grouped into details, flags and lists.
   */
  datatype Operation = Operation(
    path: string,
    verb: string,
    methodName: string,
    details: Details,
    flags: VerbFlags,
    lists: Lists,
    settings: Settings,
    definitions: Option<Json>)

  /** lodash `_.size`: the length of an array or string, the number of keys of an object, 0 otherwise. */
  function Size(v: Option<Json>): (r: nat)
    ensures r > 0 ==> Present(v)
    ensures v.Some? && (v.value.JNull? || v.value.JBool? || v.value.JNum?) ==> r == 0
  {
    if v.None? then 0
    else match v.value
      case JArr(items) => |items|
      case JObj(members) => |members|
      case JStr(s) => |s|
      case _ => 0
  }

  /** `methodName`: the normalised `operationId` when it is truthy, else the path rule. */
  function MethodName(raw: RawOperation, verb: string, path: string, camelCase: string -> string): (r: Result<string>)
    ensures NonEmpty(raw.operationId) ==> r == Success(NormalizeMethodName(raw.operationId.value))
    ensures !NonEmpty(raw.operationId) ==> r == PathToMethodName(verb, path, camelCase)
  {
    if NonEmpty(raw.operationId) then Success(NormalizeMethodName(raw.operationId.value))
    else PathToMethodName(verb, path, camelCase)
  }

  function AsDeclared(rs: seq<ParamRecord>): (r: seq<Entry>)
    ensures |r| == |rs|
    ensures forall i :: 0 <= i < |rs| ==> r[i] == Declared(rs[i])
  {
    if rs == [] then [] else AsDeclared(rs[..|rs| - 1]) + [Declared(rs[|rs| - 1])]
  }

  function AsInjected(rs: seq<SecurityRecord>): (r: seq<Entry>)
    ensures |r| == |rs|
    ensures forall i :: 0 <= i < |rs| ==> r[i] == Injected(rs[i])
  {
    if rs == [] then [] else AsInjected(rs[..|rs| - 1]) + [Injected(rs[|rs| - 1])]
  }

  /** The copied properties; `isDeprecated` is `deprecated || false`, `isSecure` says whether `security` is defined. */
  function DetailsOf(raw: RawOperation): (d: Details)
    ensures d.tags == raw.tags && d.operationId == raw.operationId && d.security == raw.security
    ensures Truthy(d.isDeprecated) <==> Present(raw.deprecated)
    ensures !Present(raw.deprecated) ==> d.isDeprecated == JBool(false)
    ensures d.isSecure <==> raw.security.Some?
  {
    Details(raw.tags, raw.summary, raw.description, raw.externalDocs, raw.operationId,
            raw.produces, raw.consumes, raw.schemes,
            if Present(raw.deprecated) then raw.deprecated.value else JBool(false),
            raw.security, raw.security.Some?)
  }

  /** Each flag compares the upper-cased verb with its own name. */
  function FlagsOf(verb: string): VerbFlags {
    VerbFlags(verb == "GET", verb == "PUT", verb == "OPTIONS", verb == "DELETE", verb == "HEAD",
              verb == "POST", verb == "TRACE", verb == "CONNECT", verb == "PATCH")
  }

  /** The record before any parameter is classified: every list empty. */
  function NewOperation(path: string, verb: string, name: string, raw: RawOperation): Operation {
    Operation(path, verb, name, DetailsOf(raw), FlagsOf(verb), NoLists, NoSettings, None)
  }

  /** The classifier's lists copied onto the record. */
  function WithBuckets(op: Operation, b: Buckets): Operation {
    op.(lists := Lists(AsDeclared(b.headers), AsDeclared(b.parameters), b.bodys, b.querys, b.formDatas, b.enums, b.paths))
  }

  /** `_addSecurityParameters`: the looked-up headers and parameters after the declared ones. */
  function Secured(op: Operation, t: Tables): Operation {
    op.(lists := op.lists.(
      headers := op.lists.headers + AsInjected(Requested(t.headers, op.details.security)),
      parameters := op.lists.parameters + AsInjected(Requested(t.parameters, op.details.security))))
  }

  /** The parser-wide values copied onto every record. */
  function Finished(op: Operation, settings: Settings, definitions: Option<Json>): Operation {
    op.(settings := settings, definitions := definitions)
  }

  /** What `_iterateMethod` needs besides the path item: the tables and the constructor's values. */
  datatype Env = Env(
    tables: Tables,
    settings: Settings,
    definitions: Option<Json>,
    camelCase: string -> string)

  /** The classification of the declared parameters, run only when there are some. */
  function Classified(op: Operation, raw: RawOperation, env: Env): Result<Operation> {
    if |raw.parameters| == 0 then Success(op)
    else
      match ClassifyFrom(NoBuckets, raw.parameters, true, env.camelCase)
      case Failure(e) => Failure(e)
      case Success(b) => Success(WithBuckets(op, b))
  }

  /** One iteration of `_iterateMethod`: the record for `key` of the path item at `path`, or the exception it raises. */
  function BuildOperation(path: string, key: string, raw: RawOperation, env: Env): (r: Result<Operation>)
    ensures r.Success? ==>
      && r.value.path == path && r.value.verb == Upper(key)
      && MethodName(raw, Upper(key), path, env.camelCase) == Success(r.value.methodName)
      && r.value.details == DetailsOf(raw) && r.value.flags == FlagsOf(Upper(key))
      && r.value.settings == env.settings && r.value.definitions == env.definitions
  {
    var verb := Upper(key);
    match MethodName(raw, verb, path, env.camelCase)
    case Failure(e) => Failure(e)
    case Success(name) =>
      match Classified(NewOperation(path, verb, name, raw), raw, env)
      case Failure(e) => Failure(e)
      case Success(op) =>
        if Size(raw.responses) > 0 then Failure(ResponseParserWithoutParse)
        else Success(Finished(Secured(op, env.tables), env.settings, env.definitions))
  }

  /** One operation of a path item, flattened: path, key and operation object. */
  datatype Item = Item(path: string, key: string, raw: RawOperation)

  /** `BuildOperation` on one flattened item. */
  function BuildItem(it: Item, env: Env): Result<Operation> {
    BuildOperation(it.path, it.key, it.raw, env)
  }

  /* ---------- Tag groups, an insertion-ordered map ---------- */

  type Groups = seq<(string, seq<Operation>)>

  /** The position of `tag` among the group keys, if present. */
  function IndexOf(g: Groups, tag: string): (r: Option<nat>)
    ensures r.Some? ==> r.value < |g| && g[r.value].0 == tag
    ensures r.None? ==> forall i :: 0 <= i < |g| ==> g[i].0 != tag
  {
    if g == [] then None
    else if g[|g| - 1].0 == tag then Some(|g| - 1)
    else IndexOf(g[..|g| - 1], tag)
  }

  /** The group under `tag`, or none. */
  function Group(g: Groups, tag: string): seq<Operation> {
    var i := IndexOf(g, tag);
    if i.Some? then g[i.value].1 else []
  }

  /** Create `methodsGroup[tag]` when absent, then push `op` onto it. */
  function AddToGroup(g: Groups, tag: string, op: Operation): Groups {
    var i := IndexOf(g, tag);
    if i.Some? then g[i.value := (tag, g[i.value].1 + [op])] else g + [(tag, [op])]
  }

  /** The tag loop of `_iterateMethod`. */
  function AddToGroups(g: Groups, tags: seq<string>, op: Operation): Groups
    decreases |tags|
  {
    if tags == [] then g else AddToGroup(AddToGroups(g, tags[..|tags| - 1], op), tags[|tags| - 1], op)
  }

  /** Group keys are distinct, as the keys of an object are. */
  predicate DistinctGroupKeys(g: Groups) {
    forall i, j :: 0 <= i < j < |g| ==> g[i].0 != g[j].0
  }

  /** Every group holds at least one operation. */
  predicate NonEmptyGroups(g: Groups) {
    forall i :: 0 <= i < |g| ==> g[i].1 != []
  }

  /** How many times `tag` occurs in `tags`. */
  function Count(tags: seq<string>, tag: string): nat {
    if tags == [] then 0 else Count(tags[..|tags| - 1], tag) + (if tags[|tags| - 1] == tag then 1 else 0)
  }

  function Repeat(op: Operation, n: nat): (r: seq<Operation>)
    ensures |r| == n
  {
    if n == 0 then [] else Repeat(op, n - 1) + [op]
  }

  /** The tags an operation is filed under. */
  function TagsOf(op: Operation): seq<string> {
    if op.details.tags.Some? then op.details.tags.value else []
  }

  /** The reference definition of a group: each operation, once per occurrence of the tag among its tags, in order. */
  function TaggedWith(ops: seq<Operation>, tag: string): seq<Operation> {
    if ops == [] then []
    else TaggedWith(ops[..|ops| - 1], tag) + Repeat(ops[|ops| - 1], Count(TagsOf(ops[|ops| - 1]), tag))
  }

  /** The normaliser's state: `parseMethods` and `methodsGroup`. */
  datatype Normalized = Normalized(parseMethods: seq<Operation>, methodsGroup: Groups)

  /** The items of one path item, in key order. */
  function ItemsOf(path: string, config: seq<(string, RawOperation)>): (r: seq<Item>)
    ensures |r| == |config|
    ensures forall i :: 0 <= i < |config| ==> r[i] == Item(path, config[i].0, config[i].1)
  {
    if config == [] then [] else ItemsOf(path, config[..|config| - 1]) + [Item(path, config[|config| - 1].0, config[|config| - 1].1)]
  }

  /** The items of all paths, in path order and then key order. */
  function AllItems(methods: seq<(string, seq<(string, RawOperation)>)>): seq<Item> {
    if methods == [] then []
    else AllItems(methods[..|methods| - 1]) + ItemsOf(methods[|methods| - 1].0, methods[|methods| - 1].1)
  }

  /** One operation added to the state. */
  function Record(s: Normalized, op: Operation): Normalized {
    Normalized(s.parseMethods + [op], if op.details.tags.Some? then AddToGroups(s.methodsGroup, op.details.tags.value, op) else s.methodsGroup)
  }

  /** The build step, for a fixed environment. */
  function Builder(env: Env): Item -> Result<Operation> {
    it => BuildItem(it, env)
  }

  /** `parse` over `items`, from the state `s`; the first exception stops it. */
  function Run(s: Normalized, items: seq<Item>, build: Item -> Result<Operation>): Result<Normalized>
    decreases |items|
  {
    if items == [] then Success(s)
    else
      match Run(s, items[..|items| - 1], build)
      case Failure(e) => Failure(e)
      case Success(s') =>
        match build(items[|items| - 1])
        case Failure(e) => Failure(e)
        case Success(op) => Success(Record(s', op))
  }

  /** The operations of `items`, or the first exception. */
  function Built(items: seq<Item>, build: Item -> Result<Operation>): Result<seq<Operation>>
    decreases |items|
  {
    if items == [] then Success([])
    else
      match Built(items[..|items| - 1], build)
      case Failure(e) => Failure(e)
      case Success(ops) =>
        match build(items[|items| - 1])
        case Failure(e) => Failure(e)
        case Success(op) => Success(ops + [op])
  }

  /* ---------- Properties of one record ---------- */

  /**
   * A record is built exactly when the name rule succeeds, every kept
   * parameter has a known location and there are no responses; otherwise
   * the first of these to fail decides the exception.
   */
  lemma BuildOperationOutcome(path: string, key: string, raw: RawOperation, env: Env)
    ensures var name := MethodName(raw, Upper(key), path, env.camelCase);
      BuildOperation(path, key, raw, env).Success? <==>
        name.Success? && NoBadLocation(raw.parameters) && Size(raw.responses) == 0
    ensures var name := MethodName(raw, Upper(key), path, env.camelCase);
      name.Failure? ==> BuildOperation(path, key, raw, env) == Failure(name.error)
    ensures var name := MethodName(raw, Upper(key), path, env.camelCase);
      name.Success? && !NoBadLocation(raw.parameters) ==>
        && ClassifyFrom(NoBuckets, raw.parameters, true, env.camelCase).Failure?
        && BuildOperation(path, key, raw, env) == Failure(ClassifyFrom(NoBuckets, raw.parameters, true, env.camelCase).error)
    ensures var name := MethodName(raw, Upper(key), path, env.camelCase);
      name.Success? && NoBadLocation(raw.parameters) && Size(raw.responses) > 0 ==>
        BuildOperation(path, key, raw, env) == Failure(ResponseParserWithoutParse)
  {
    ClassifyMatchesFilters(NoBuckets, raw.parameters, true, env.camelCase);
  }

  /**
   * The lists of a built record: each location list holds the kept parameters
   * declared there, `headers` and `parameters` continue with the security
   * records the tables answer for the operation's requirement.
   */
  lemma BuildOperationLists(path: string, key: string, raw: RawOperation, env: Env)
    requires BuildOperation(path, key, raw, env).Success?
    ensures var op := BuildOperation(path, key, raw, env).value;
      var ps := raw.parameters;
      var cc := env.camelCase;
      && op.lists.bodyParams == Records(KeptAt(ps, Body), cc)
      && op.lists.queryParams == Records(KeptAt(ps, Query), cc)
      && op.lists.formDataParams == Records(KeptAt(ps, FormData), cc)
      && op.lists.pathParams == Records(KeptAt(ps, Path), cc)
      && op.lists.enums == EnumsOf(Kept(ps), true, cc)
      && op.lists.headers == AsDeclared(Records(KeptAt(ps, Header), cc)) + AsInjected(Requested(env.tables.headers, raw.security))
      && op.lists.parameters == AsDeclared(Records(Kept(ps), cc)) + AsInjected(Requested(env.tables.parameters, raw.security))
  {
    var ps := raw.parameters;
    ClassifyMatchesFilters(NoBuckets, ps, true, env.camelCase);
    var e := Expected(ps, true, env.camelCase);
    if |ps| == 0 {
      assert e == NoBuckets;
    } else {
      assert Append(NoBuckets, e) == e by {
        AppendEmpty(e.parameters);
        AppendEmpty(e.headers);
        AppendEmpty(e.paths);
        AppendEmpty(e.querys);
        AppendEmpty(e.formDatas);
        AppendEmpty(e.bodys);
        AppendEmpty(e.enums);
      }
    }
  }

  /** The verbs that have a flag. */
  const Verbs: seq<string> := ["GET", "PUT", "OPTIONS", "DELETE", "HEAD", "POST", "TRACE", "CONNECT", "PATCH"]

  /** How many of the nine verb flags are set. */
  function FlagCount(f: VerbFlags): nat {
    (if f.isGET then 1 else 0) + (if f.isPUT then 1 else 0) + (if f.isOPTIONS then 1 else 0)
    + (if f.isDELETE then 1 else 0) + (if f.isHEAD then 1 else 0) + (if f.isPOST then 1 else 0)
    + (if f.isTRACE then 1 else 0) + (if f.isCONNECT then 1 else 0) + (if f.isPATCH then 1 else 0)
  }

  /** Exactly one flag is set when the verb is one of the nine, none otherwise. */
  lemma VerbFlagsExclusive(verb: string)
    ensures FlagCount(FlagsOf(verb)) == if verb in Verbs then 1 else 0
  {
    assert "GET"[0] == 'G' && "PUT"[0] == 'P' && "HEAD"[0] == 'H' && "POST"[0] == 'P';
    assert "TRACE"[0] == 'T' && "PATCH"[0] == 'P' && "OPTIONS"[0] == 'O' && "CONNECT"[0] == 'C';
  }

  /** With empty tables the security merge leaves the record as it is. */
  lemma SecuredWithoutTables(op: Operation)
    ensures Secured(op, NoTables) == op
  {
    if IsObject(op.details.security) {
      GatherUnknown(map[], RequirementKeys(op.details.security.value));
    }
    AppendEmpty(op.lists.headers);
    AppendEmpty(op.lists.parameters);
  }

  /* ---------- Properties of the groups ---------- */

  /** `tag` is a key of the groups. */
  predicate HasKey(g: Groups, tag: string) {
    exists i :: 0 <= i < |g| && g[i].0 == tag
  }

  lemma IndexOfSnoc(g: Groups, x: (string, seq<Operation>), tag: string)
    ensures IndexOf(g + [x], tag) == if x.0 == tag then Some(|g|) else IndexOf(g, tag)
  {
    SnocInit(g, x);
  }

  lemma {:induction false} IndexOfSameKeys(g: Groups, h: Groups, tag: string)
    requires |g| == |h| && forall i :: 0 <= i < |g| ==> g[i].0 == h[i].0
    ensures IndexOf(g, tag) == IndexOf(h, tag)
    decreases |g|
  {
    if g != [] {
      IndexOfSameKeys(g[..|g| - 1], h[..|h| - 1], tag);
    }
  }

  /** One push: the group under `tag` gains `op` at its end, every other group is unchanged. */
  lemma AddToGroupGroup(g: Groups, tag: string, op: Operation, t: string)
    ensures Group(AddToGroup(g, tag, op), t) == Group(g, t) + (if t == tag then [op] else [])
  {
    var i := IndexOf(g, tag);
    var g' := AddToGroup(g, tag, op);
    if i.Some? {
      IndexOfSameKeys(g, g', t);
    } else {
      IndexOfSnoc(g, (tag, [op]), t);
    }
    if t != tag {
      AppendEmpty(Group(g, t));
    }
  }

  /** One push adds the key `tag` if absent and keeps the keys distinct and the groups non-empty. */
  lemma AddToGroupKeys(g: Groups, tag: string, op: Operation, t: string)
    ensures HasKey(AddToGroup(g, tag, op), t) <==> HasKey(g, t) || t == tag
    ensures DistinctGroupKeys(g) ==> DistinctGroupKeys(AddToGroup(g, tag, op))
    ensures NonEmptyGroups(g) ==> NonEmptyGroups(AddToGroup(g, tag, op))
  {
    var i := IndexOf(g, tag);
    var g' := AddToGroup(g, tag, op);
    if i.Some? {
      assert HasKey(g, tag);
      assert forall k :: 0 <= k < |g| ==> g'[k].0 == g[k].0;
    } else {
      assert g'[|g|].0 == tag;
      assert forall k :: 0 <= k < |g| ==> g'[k] == g[k];
    }
  }

  /** The tag loop: each group gains `op` once per occurrence of its key among `tags`. */
  lemma {:induction false} AddToGroupsGroup(g: Groups, tags: seq<string>, op: Operation, t: string)
    ensures Group(AddToGroups(g, tags, op), t) == Group(g, t) + Repeat(op, Count(tags, t))
    decreases |tags|
  {
    if tags == [] {
      AppendEmpty(Group(g, t));
    } else {
      var init, last := tags[..|tags| - 1], tags[|tags| - 1];
      AddToGroupsGroup(g, init, op, t);
      var h := AddToGroups(g, init, op);
      AddToGroupGroup(h, last, op, t);
      if last == t {
        AppendAssoc3(Group(g, t), Repeat(op, Count(init, t)), [op]);
      } else {
        AppendEmpty(Group(h, t));
      }
    }
  }

  /** The tag loop adds exactly the keys among `tags` and keeps the keys distinct and the groups non-empty. */
  lemma {:induction false} AddToGroupsKeys(g: Groups, tags: seq<string>, op: Operation, t: string)
    ensures HasKey(AddToGroups(g, tags, op), t) <==> HasKey(g, t) || Count(tags, t) > 0
    ensures DistinctGroupKeys(g) ==> DistinctGroupKeys(AddToGroups(g, tags, op))
    ensures NonEmptyGroups(g) ==> NonEmptyGroups(AddToGroups(g, tags, op))
    decreases |tags|
  {
    if tags != [] {
      var init, last := tags[..|tags| - 1], tags[|tags| - 1];
      AddToGroupsKeys(g, init, op, t);
      AddToGroupKeys(AddToGroups(g, init, op), last, op, t);
    }
  }

  lemma {:induction false} CountPositive(tags: seq<string>, tag: string)
    ensures Count(tags, tag) > 0 <==> tag in tags
  {
    if tags != [] {
      CountPositive(tags[..|tags| - 1], tag);
      InitLast(tags);
    }
  }

  /** Recording one operation appends it, and files it under each of its tags. */
  lemma RecordGroup(s: Normalized, op: Operation, t: string)
    ensures Record(s, op).parseMethods == s.parseMethods + [op]
    ensures Group(Record(s, op).methodsGroup, t) == Group(s.methodsGroup, t) + Repeat(op, Count(TagsOf(op), t))
  {
    if op.details.tags.Some? {
      AddToGroupsGroup(s.methodsGroup, op.details.tags.value, op, t);
    } else {
      AppendEmpty(Group(s.methodsGroup, t));
    }
  }

  /** Recording one operation adds exactly its tags as keys and keeps the keys distinct and the groups non-empty. */
  lemma RecordKeys(s: Normalized, op: Operation, t: string)
    ensures HasKey(Record(s, op).methodsGroup, t) <==> HasKey(s.methodsGroup, t) || t in TagsOf(op)
    ensures DistinctGroupKeys(s.methodsGroup) ==> DistinctGroupKeys(Record(s, op).methodsGroup)
    ensures NonEmptyGroups(s.methodsGroup) ==> NonEmptyGroups(Record(s, op).methodsGroup)
  {
    CountPositive(TagsOf(op), t);
    if op.details.tags.Some? {
      AddToGroupsKeys(s.methodsGroup, op.details.tags.value, op, t);
    }
  }

  lemma {:induction false} RepeatMembers(op: Operation, n: nat, x: Operation)
    ensures x in Repeat(op, n) <==> n > 0 && x == op
  {
    if n > 0 {
      RepeatMembers(op, n - 1, x);
    }
  }

  /** A group holds exactly the operations that carry its tag. */
  lemma {:induction false} TaggedWithMembers(ops: seq<Operation>, tag: string, x: Operation)
    ensures x in TaggedWith(ops, tag) <==> x in ops && tag in TagsOf(x)
  {
    if ops != [] {
      var init, last := ops[..|ops| - 1], ops[|ops| - 1];
      TaggedWithMembers(init, tag, x);
      RepeatMembers(last, Count(TagsOf(last), tag), x);
      CountPositive(TagsOf(last), tag);
      InitLast(ops);
    }
  }

  /* ---------- Properties of the whole run ---------- */

  /** The run builds every record exactly when each item builds. */
  lemma {:induction false} BuiltSucceeds(items: seq<Item>, build: Item -> Result<Operation>)
    ensures Built(items, build).Success? <==> forall i :: 0 <= i < |items| ==> build(items[i]).Success?
    decreases |items|
  {
    if items != [] {
      var init := items[..|items| - 1];
      BuiltSucceeds(init, build);
      assert forall i :: 0 <= i < |init| ==> init[i] == items[i];
    }
  }

  /** The records of a successful run, one per item, in item order. */
  lemma {:induction false} BuiltAt(items: seq<Item>, build: Item -> Result<Operation>, i: nat)
    requires Built(items, build).Success? && i < |items|
    ensures |Built(items, build).value| == |items|
    ensures build(items[i]).Success? && Built(items, build).value[i] == build(items[i]).value
    decreases |items|
  {
    var init := items[..|items| - 1];
    if i < |init| {
      BuiltAt(init, build, i);
    } else if init != [] {
      BuiltAt(init, build, 0);
    }
  }

  /** A failing run reports the exception of the first item that fails. */
  lemma {:induction false} BuiltFirstFailure(items: seq<Item>, build: Item -> Result<Operation>)
    requires Built(items, build).Failure?
    ensures exists k ::
      && 0 <= k < |items| && build(items[k]).Failure?
      && (forall j :: 0 <= j < k ==> build(items[j]).Success?)
      && Built(items, build).error == build(items[k]).error
    decreases |items|
  {
    var init := items[..|items| - 1];
    assert forall i :: 0 <= i < |init| ==> init[i] == items[i];
    if Built(init, build).Failure? {
      BuiltFirstFailure(init, build);
      var k :|
        && 0 <= k < |init| && build(init[k]).Failure?
        && (forall j :: 0 <= j < k ==> build(init[j]).Success?)
        && Built(init, build).error == build(init[k]).error;
      assert build(items[k]).Failure?;
    } else {
      BuiltSucceeds(init, build);
      assert build(items[|items| - 1]).Failure?;
    }
  }

  /** The run succeeds exactly when every record is built; it then appends the records in item order. */
  lemma {:induction false} RunBuilt(s: Normalized, items: seq<Item>, build: Item -> Result<Operation>)
    ensures Run(s, items, build).Success? <==> Built(items, build).Success?
    ensures Run(s, items, build).Failure? ==> Run(s, items, build).error == Built(items, build).error
    ensures Run(s, items, build).Success? ==> Run(s, items, build).value.parseMethods == s.parseMethods + Built(items, build).value
    decreases |items|
  {
    if items == [] {
      AppendEmpty(s.parseMethods);
    } else {
      var init := items[..|items| - 1];
      RunBuilt(s, init, build);
      if Run(s, init, build).Success? && build(items[|items| - 1]).Success? {
        var op := build(items[|items| - 1]).value;
        AppendAssoc3(s.parseMethods, Built(init, build).value, [op]);
      }
    }
  }

  /** The groups a successful run leaves: each gains the built records carrying its tag. */
  lemma {:induction false} RunGroup(s: Normalized, items: seq<Item>, build: Item -> Result<Operation>, t: string)
    requires Built(items, build).Success?
    ensures Run(s, items, build).Success?
    ensures Group(Run(s, items, build).value.methodsGroup, t) == Group(s.methodsGroup, t) + TaggedWith(Built(items, build).value, t)
    decreases |items|
  {
    RunBuilt(s, items, build);
    if items == [] {
      AppendEmpty(Group(s.methodsGroup, t));
    } else {
      var init := items[..|items| - 1];
      var ops := Built(init, build).value;
      var op := build(items[|items| - 1]).value;
      RunGroup(s, init, build, t);
      RecordGroup(Run(s, init, build).value, op, t);
      SnocInit(ops, op);
      AppendAssoc3(Group(s.methodsGroup, t), TaggedWith(ops, t), Repeat(op, Count(TagsOf(op), t)));
    }
  }

  /** A successful run adds exactly the tags of the built records as keys, keeping the keys distinct and the groups non-empty. */
  lemma {:induction false} RunKeys(s: Normalized, items: seq<Item>, build: Item -> Result<Operation>, t: string)
    requires Built(items, build).Success?
    ensures Run(s, items, build).Success?
    ensures HasKey(Run(s, items, build).value.methodsGroup, t) <==>
      HasKey(s.methodsGroup, t) || exists x :: x in Built(items, build).value && t in TagsOf(x)
    ensures DistinctGroupKeys(s.methodsGroup) ==> DistinctGroupKeys(Run(s, items, build).value.methodsGroup)
    ensures NonEmptyGroups(s.methodsGroup) ==> NonEmptyGroups(Run(s, items, build).value.methodsGroup)
    decreases |items|
  {
    RunBuilt(s, items, build);
    if items != [] {
      var init := items[..|items| - 1];
      var ops := Built(init, build).value;
      var op := build(items[|items| - 1]).value;
      RunKeys(s, init, build, t);
      RecordKeys(Run(s, init, build).value, op, t);
      assert Built(items, build).value == ops + [op];
      assert (exists x :: x in ops + [op] && t in TagsOf(x)) <==> (exists x :: x in ops && t in TagsOf(x)) || t in TagsOf(op);
    }
  }

  lemma RunNext(s: Normalized, items: seq<Item>, i: nat, c: Normalized, build: Item -> Result<Operation>)
    requires i < |items|
    requires Run(s, items[..i], build) == Success(c)
    ensures Run(s, items[..i + 1], build) ==
      match build(items[i]) { case Failure(e) => Failure(e) case Success(op) => Success(Record(c, op)) }
  {
    PrefixStep(items, i);
  }

  /** Once a prefix fails, the whole run fails with the same exception. */
  lemma {:induction false} RunPrefixFails(s: Normalized, items: seq<Item>, k: nat, build: Item -> Result<Operation>)
    requires k <= |items|
    requires Run(s, items[..k], build).Failure?
    ensures Run(s, items, build) == Run(s, items[..k], build)
    decreases |items| - k
  {
    if k < |items| {
      PrefixStep(items, k);
      RunPrefixFails(s, items, k + 1, build);
    } else {
      PrefixWhole(items);
    }
  }

  /** Running two lists of items is running the first, then the second from where it stopped. */
  lemma {:induction false} RunAppend(s: Normalized, xs: seq<Item>, ys: seq<Item>, build: Item -> Result<Operation>)
    ensures Run(s, xs + ys, build) ==
      match Run(s, xs, build) { case Failure(e) => Failure(e) case Success(s') => Run(s', ys, build) }
    decreases |ys|
  {
    if ys == [] {
      AppendEmpty(xs);
    } else {
      var init := ys[..|ys| - 1];
      SnocSplit(xs, ys);
      SnocInit(xs + init, ys[|ys| - 1]);
      RunAppend(s, xs, init, build);
    }
  }

  lemma AllItemsNext(methods: seq<(string, seq<(string, RawOperation)>)>, j: nat)
    requires j < |methods|
    ensures AllItems(methods[..j + 1]) == AllItems(methods[..j]) + ItemsOf(methods[j].0, methods[j].1)
  {
    PrefixStep(methods, j);
  }

  /** Once the items of a prefix of the paths fail, the whole run fails with the same exception. */
  lemma {:induction false} AllItemsPrefixFails(s: Normalized, methods: seq<(string, seq<(string, RawOperation)>)>, k: nat, build: Item -> Result<Operation>)
    requires k <= |methods|
    requires Run(s, AllItems(methods[..k]), build).Failure?
    ensures Run(s, AllItems(methods), build) == Run(s, AllItems(methods[..k]), build)
    decreases |methods| - k
  {
    if k < |methods| {
      AllItemsNext(methods, k);
      RunAppend(s, AllItems(methods[..k]), ItemsOf(methods[k].0, methods[k].1), build);
      AllItemsPrefixFails(s, methods, k + 1, build);
    } else {
      PrefixWhole(methods);
    }
  }

  /* ---------- The whole run from the initial state ---------- */

  /**
   * `parse` from the constructor's state succeeds exactly when every record
   * builds; `parseMethods` is then the records, one per item, in path and key
   * order.
   */
  lemma ParseFromStart(items: seq<Item>, build: Item -> Result<Operation>)
    ensures Run(Normalized([], []), items, build).Success? <==> forall i :: 0 <= i < |items| ==> build(items[i]).Success?
    ensures Run(Normalized([], []), items, build).Success? ==>
      var s := Run(Normalized([], []), items, build).value;
      && |s.parseMethods| == |items|
      && (forall i :: 0 <= i < |items| ==> build(items[i]) == Success(s.parseMethods[i]))
  {
    var s0 := Normalized([], []);
    RunBuilt(s0, items, build);
    BuiltSucceeds(items, build);
    if Built(items, build).Success? {
      var ops := Built(items, build).value;
      AppendEmpty(ops);
      forall i | 0 <= i < |items|
        ensures build(items[i]) == Success(ops[i])
      {
        BuiltAt(items, build, i);
      }
    }
  }

  /**
   * After a successful `parse` from the constructor's state, `methodsGroup`
   * has a key for exactly the tags that occur, each key once, each group
   * holding the records carrying its tag, once per occurrence, in order.
   */
  lemma ParseFromStartGroups(items: seq<Item>, build: Item -> Result<Operation>, t: string)
    requires Run(Normalized([], []), items, build).Success?
    ensures var s := Run(Normalized([], []), items, build).value;
      && Group(s.methodsGroup, t) == TaggedWith(s.parseMethods, t)
      && (HasKey(s.methodsGroup, t) <==> exists x :: x in s.parseMethods && t in TagsOf(x))
      && DistinctGroupKeys(s.methodsGroup) && NonEmptyGroups(s.methodsGroup)
  {
    var s0 := Normalized([], []);
    RunBuilt(s0, items, build);
    AppendEmpty(Built(items, build).value);
    RunGroup(s0, items, build, t);
    RunKeys(s0, items, build, t);
  }

  /* ---------- The two cases of the methods test ---------- */

  const FacebookPath := "/user/auth/facebook"
  const FacebookSummary := "Register & login user from facebook"

  /** The `post` operation of the test data, with the given declared parameters. */
  function FacebookPost(ps: seq<RawParameter>): RawOperation {
    RawOperation(Some(["User auth"]), Some(FacebookSummary), Some(FacebookSummary), None, None,
                 Some(JArr([JStr("application/json")])), None, None, ps, None, None, None)
  }

  /** The query parameter `test` of the second case. */
  const TestQuery := RawParameter("test", Some("query"), None, Some("Test Parameter"), None, None, None, None, None, None,
                                  [("type", JStr("string")), ("default", JStr("test"))])

  /** The text `_.camelCase` receives for the test path. */
  const FacebookCamelText := "user-auth-facebook"

  /** The segments of the test path contain no template, so they reach `_.camelCase` joined with `-` unchanged. */
  lemma FacebookCamelSource()
    ensures CamelSource(FacebookPath) == FacebookCamelText
  {
    var segs := ["user", "auth", "facebook"];
    FacebookJoins();
    FacebookSegments();
    CamelSourceOfSegments(segs);
  }

  /** No segment of the test path holds `/` or is a template. */
  lemma FacebookSegments()
    ensures var segs := ["user", "auth", "facebook"];
      && segs[|segs| - 1] != ""
      && (forall k :: 0 <= k < |segs| ==> '/' !in segs[k])
      && RewriteAll(segs) == segs
  {
    var segs := ["user", "auth", "facebook"];
    assert segs[0][0] == 'u' && segs[1][0] == 'a' && segs[2][0] == 'f';
  }

  /** The test path is its three segments joined with `/` after a leading `/`, and they join with `-` to the camel-case text. */
  lemma FacebookJoins()
    ensures FacebookPath == "/" + Join(["user", "auth", "facebook"], "/")
    ensures Join(["user", "auth", "facebook"], "-") == FacebookCamelText
  {
    JoinCons("user", ["auth", "facebook"], "/");
    JoinCons("auth", ["facebook"], "/");
    JoinCons("user", ["auth", "facebook"], "-");
    JoinCons("auth", ["facebook"], "-");
    assert ["user"] + ["auth", "facebook"] == ["user", "auth", "facebook"];
    assert ["auth"] + ["facebook"] == ["auth", "facebook"];
    FacebookLiterals();
  }

  /** Proof helper: literal concatenations, proved apart so that the example lemmas stay cheap. */
  lemma FacebookLiterals()
    ensures "/" + ("user" + "/" + ("auth" + "/" + "facebook")) == FacebookPath
    ensures "user" + "-" + ("auth" + "-" + "facebook") == FacebookCamelText
  {
  }

  lemma UpperPost()
    ensures Upper("post") == "POST"
  {
    assert Upper("post")[0] == 'P' && Upper("post")[1] == 'O' && Upper("post")[2] == 'S' && Upper("post")[3] == 'T';
  }

  /**
   * Without parameters, responses or schemes (and given that `_.camelCase`
   * does not return "" for the path text), the record is a `POST` with only
   * `isPOST` set, not deprecated, with the summary and no parameters.
   */
  lemma EmptyMethodExample(camelCase: string -> string)
    requires camelCase(FacebookCamelText) != ""
    ensures var r := BuildOperation(FacebookPath, "post", FacebookPost([]), Env(NoTables, NoSettings, None, camelCase));
      && r.Success? && r.value.path == FacebookPath && r.value.verb == "POST"
      && r.value.flags.isPOST && !r.value.flags.isGET
      && r.value.details.isDeprecated == JBool(false) && r.value.details.summary == Some(FacebookSummary)
      && r.value.lists.parameters == []
  {
    FacebookName(FacebookPost([]), camelCase);
    assert "POST"[0] == 'P' && "GET"[0] == 'G';
    var env := Env(NoTables, NoSettings, None, camelCase);
    BuildOperationOutcome(FacebookPath, "post", FacebookPost([]), env);
    BuildOperationLists(FacebookPath, "post", FacebookPost([]), env);
  }

  /** Without an `operationId`, the test operation's name comes from the path rule and does not throw. */
  lemma FacebookName(raw: RawOperation, camelCase: string -> string)
    requires raw.operationId.None? && camelCase(FacebookCamelText) != ""
    ensures Upper("post") == "POST"
    ensures MethodName(raw, "POST", FacebookPath, camelCase).Success?
  {
    UpperPost();
    FacebookCamelSource();
    assert FacebookPath != "/" && FacebookPath != "" by {
      assert |FacebookPath| == 19;
    }
  }

  lemma TestQueryClassified(camelCase: string -> string)
    ensures NoBadLocation([TestQuery])
    ensures |Records(Kept([TestQuery]), camelCase)| == 1 && |Records(KeptAt([TestQuery], Query), camelCase)| == 1
  {
    assert LocationOf("query") == Some(Query) by {
      assert "query"[0] != "path"[0];
    }
    assert !IsExcluded(TestQuery) && At(TestQuery, Query);
    var ps := [TestQuery];
    assert ps[..0] == [];
    assert Kept(ps) == [TestQuery];
    assert KeptAt(ps, Query) == [TestQuery];
  }

  /** With the one query parameter, the record's flat parameter list has one entry. */
  lemma QueryParameterExample(camelCase: string -> string)
    requires camelCase(FacebookCamelText) != ""
    ensures var r := BuildOperation(FacebookPath, "post", FacebookPost([TestQuery]), Env(NoTables, NoSettings, None, camelCase));
      && r.Success? && r.value.verb == "POST" && r.value.flags.isPOST
      && |r.value.lists.parameters| == 1 && |r.value.lists.queryParams| == 1
  {
    var env := Env(NoTables, NoSettings, None, camelCase);
    var raw := FacebookPost([TestQuery]);
    FacebookName(raw, camelCase);
    TestQueryClassified(camelCase);
    BuildOperationOutcome(FacebookPath, "post", raw, env);
    BuildOperationLists(FacebookPath, "post", raw, env);
    GatherUnknown(map[], []);
  }

  /* ---------- The normaliser object ---------- */

  /**
   * `MethodsParser`: the paths object (each path with its path item as
   * key/operation pairs), the scheme parser whose tables answer the
   * security lookups, and the values copied onto every record.
   */
  class MethodsParser {
    const methods: seq<(string, seq<(string, RawOperation)>)>
    const securityParser: SecuritySchemesParser
    const definitions: Option<Json>
    const parameterParserConfig: Option<ClassifierOptions>
    const settings: Settings
    const camelCase: string -> string
    var parseMethods: seq<Operation>
    var methodsGroup: Groups

    function State(): Normalized
      reads this
    {
      Normalized(parseMethods, methodsGroup)
    }

    /** What each record depends on besides its path item, read when it is built. */
    function Environment(): Env
      reads securityParser
    {
      Env(securityParser.Contents(), settings, definitions, camelCase)
    }

    /** `options || {}`: a missing options object leaves every setting undefined. */
    constructor (methods: seq<(string, seq<(string, RawOperation)>)>, securityParser: SecuritySchemesParser,
                 definitions: Option<Json>, options: Option<MethodsOptions>, camelCase: string -> string)
      ensures this.methods == methods && this.securityParser == securityParser && this.definitions == definitions
      ensures this.camelCase == camelCase
      ensures parameterParserConfig == if options.Some? then options.value.parameterParserConfig else None
      ensures settings == if options.Some? then options.value.settings else NoSettings
      ensures State() == Normalized([], [])
    {
      this.methods := methods;
      this.securityParser := securityParser;
      this.definitions := definitions;
      this.camelCase := camelCase;
      parameterParserConfig := if options.Some? then options.value.parameterParserConfig else None;
      settings := if options.Some? then options.value.settings else NoSettings;
      parseMethods := [];
      methodsGroup := [];
    }

    /**
     * `_addSecurityParameters`: push each looked-up header, then each
     * looked-up parameter. The records carry no `in`, so the branch that
     * would file them by location is never taken.
     */
    method AddSecurityParameters(op: Operation) returns (r: Operation)
      ensures r == Secured(op, securityParser.Contents())
    {
      var headers := securityParser.GetHeadersForRequest(op.details.security);
      var parameters := securityParser.GetParametersForRequest(op.details.security);
      var hs, ps := op.lists.headers, op.lists.parameters;
      var i := 0;
      while i < |headers|
        invariant 0 <= i <= |headers|
        invariant hs == op.lists.headers + AsInjected(headers[..i])
      {
        PrefixStep(headers, i);
        AppendAssoc3(op.lists.headers, AsInjected(headers[..i]), [Injected(headers[i])]);
        hs := hs + [Injected(headers[i])];
        i := i + 1;
      }
      PrefixWhole(headers);
      var j := 0;
      while j < |parameters|
        invariant 0 <= j <= |parameters|
        invariant ps == op.lists.parameters + AsInjected(parameters[..j])
      {
        PrefixStep(parameters, j);
        AppendAssoc3(op.lists.parameters, AsInjected(parameters[..j]), [Injected(parameters[j])]);
        ps := ps + [Injected(parameters[j])];
        j := j + 1;
      }
      PrefixWhole(parameters);
      r := op.(lists := op.lists.(headers := hs, parameters := ps));
    }

    /** One iteration of `_iterateMethod`, up to filing: the record for `key` of the path item at `path`, or the exception. */
    method BuildOne(path: string, key: string, raw: RawOperation) returns (r: Result<Operation>)
      ensures r == BuildOperation(path, key, raw, Environment())
    {
      var verb := Upper(key);
      var name := MethodName(raw, verb, path, camelCase);
      if name.Failure? {
        return Failure(name.error);
      }
      var op := NewOperation(path, verb, name.value, raw);
      if |raw.parameters| > 0 {
        var paramParser := new ParametersParser(raw.parameters, parameterParserConfig, camelCase);
        var parsed := paramParser.Parse();
        if parsed.Failure? {
          return Failure(parsed.error);
        }
        op := op.(lists := Lists(AsDeclared(paramParser.headers), AsDeclared(parsed.value), paramParser.bodys,
                                 paramParser.querys, paramParser.formDatas, paramParser.enums, paramParser.paths));
      }
      if Size(raw.responses) > 0 {
        return Failure(ResponseParserWithoutParse);
      }
      op := AddSecurityParameters(op);
      r := Success(op.(settings := settings, definitions := definitions));
    }

    /** The tag loop: create the group when its key is absent, then push the record. */
    method FileUnderTags(tags: seq<string>, op: Operation)
      modifies this`methodsGroup
      ensures methodsGroup == AddToGroups(old(methodsGroup), tags, op)
    {
      var i := 0;
      while i < |tags|
        invariant 0 <= i <= |tags|
        invariant methodsGroup == AddToGroups(old(methodsGroup), tags[..i], op)
      {
        PrefixStep(tags, i);
        var k := IndexOf(methodsGroup, tags[i]);
        if k.None? {
          PushAfterCreate(methodsGroup, tags[i], op);
          methodsGroup := methodsGroup + [(tags[i], [])];
          k := Some(|methodsGroup| - 1);
        }
        methodsGroup := methodsGroup[k.value := (tags[i], methodsGroup[k.value].1 + [op])];
        i := i + 1;
      }
      PrefixWhole(tags);
    }

    /** `_iterateMethod`: build and record each operation of one path item in key order; `Some` carries the exception. */
    method IterateMethod(config: seq<(string, RawOperation)>, uri: string) returns (err: Option<Error>)
      modifies this`parseMethods, this`methodsGroup
      ensures var run := Run(old(State()), ItemsOf(uri, config), Builder(Environment()));
        && (err.None? <==> run.Success?)
        && (err.Some? ==> err.value == run.error)
        && (err.None? ==> State() == run.value)
    {
      var items := ItemsOf(uri, config);
      var build := Builder(Environment());
      var i := 0;
      while i < |config|
        invariant 0 <= i <= |config|
        invariant Run(old(State()), items[..i], build) == Success(State())
      {
        var built := BuildOne(uri, config[i].0, config[i].1);
        assert build(items[i]) == built;
        RunNext(old(State()), items, i, State(), build);
        if built.Failure? {
          RunPrefixFails(old(State()), items, i + 1, build);
          return Some(built.error);
        }
        var op := built.value;
        ghost var before := State();
        if op.details.tags.Some? {
          FileUnderTags(op.details.tags.value, op);
        }
        parseMethods := parseMethods + [op];
        assert State() == Record(before, op);
        i := i + 1;
      }
      PrefixWhole(items);
      err := None;
    }

    /** `parse`: iterate every path in order; the first exception stops the run. */
    method Parse() returns (r: Result<seq<Operation>>)
      modifies this`parseMethods, this`methodsGroup
      ensures var run := Run(old(State()), AllItems(methods), Builder(Environment()));
        && (r.Success? <==> run.Success?)
        && (r.Failure? ==> r.error == run.error)
        && (r.Success? ==> State() == run.value && r.value == parseMethods)
    {
      var build := Builder(Environment());
      var j := 0;
      while j < |methods|
        invariant 0 <= j <= |methods|
        invariant Run(old(State()), AllItems(methods[..j]), build) == Success(State())
      {
        AllItemsNext(methods, j);
        RunAppend(old(State()), AllItems(methods[..j]), ItemsOf(methods[j].0, methods[j].1), build);
        var err := IterateMethod(methods[j].1, methods[j].0);
        if err.Some? {
          AllItemsPrefixFails(old(State()), methods, j + 1, build);
          return Failure(err.value);
        }
        j := j + 1;
      }
      PrefixWhole(methods);
      r := Success(parseMethods);
    }
  }

  /** Creating an empty group and pushing onto it is adding a one-element group. */
  lemma PushAfterCreate(g: Groups, tag: string, op: Operation)
    requires IndexOf(g, tag).None?
    ensures (g + [(tag, [])])[|g| := (tag, (g + [(tag, [])])[|g|].1 + [op])] == AddToGroup(g, tag, op)
  {
    assert (g + [(tag, [])])[|g|].1 + [op] == [op];
  }
}
