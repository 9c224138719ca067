/**
 * The security-scheme tables (`SecuritySchemesParser`): named Security Scheme
 * Objects (section "Security Scheme Object" of the OpenAPI Specification 2.0)
 * become header or parameter records filed under the scheme's key, and a
 * Security Requirement value is answered by gathering the records filed under
 * each of its keys.
 */
module SecuritySchemes {
  import opened Js
  import opened Text
  import Parameters

  /** The properties of a Security Scheme Object the parser reads. */
  datatype SchemeConfig = SchemeConfig(
    location: Option<string>,        // `in`
    name: Option<string>,
    required: Option<Json>,
    defaultValue: Option<Json>,      // `default`
    other: seq<(string, Json)>)      // `type`, `description`, ...: not read

  /** A value of the scheme map: an object, or a string, number or boolean (`typeof` is not 'object'); `null` is not represented. */
  datatype SchemeValue = SchemeObject(config: SchemeConfig) | NotObject

  /** The record `_parseParameters` files for one scheme; it has no `in` property. */
  datatype SecurityRecord = SecurityRecord(
    title: string,
    description: string,
    name: Option<string>,
    camelCaseName: string,
    schemaName: string,
    required: Json,
    value: seq<Json>,
    flag: string)                    // the `is<In>Parameter` property set to true

  /** Schemes that are skipped: not an object, or an object without `in`. */
  predicate Filed(v: SchemeValue) {
    v.SchemeObject? && v.config.location.Some?
  }

  predicate IsHeaderScheme(c: SchemeConfig) {
    c.location == Some("header")
  }

  /** `config.name`, read as a string by `_.camelCase` (`undefined` reads as ""). */
  function NameText(c: SchemeConfig): string {
    if c.name.Some? then c.name.value else ""
  }

  const HeaderTitlePrefix := "Header  for authorization by "
  const ParameterTitlePrefix := "Parameter  for authorization by "

  /** The record of the scheme `c` filed under `key`. */
  function SchemeRecord(key: string, c: SchemeConfig, camelCase: string -> string): (r: SecurityRecord)
    requires c.location.Some?
    ensures r.title == r.description
    ensures r.schemaName == key && r.name == c.name && r.camelCaseName == camelCase(NameText(c))
    ensures r.flag == Parameters.FlagName(c.location.value)
  {
    var title := (if IsHeaderScheme(c) then "Header " else "Parameter ") + " for authorization by " + key;
    SecurityRecord(title, title, c.name, camelCase(NameText(c)), key,
                   if Present(c.required) then c.required.value else JBool(false),
                   [if Present(c.defaultValue) then c.defaultValue.value else JStr("")],
                   Parameters.FlagName(c.location.value))
  }

  /** The title is "Header " or "Parameter " followed by " for authorization by " and the key. */
  lemma TitleShape(key: string, c: SchemeConfig, camelCase: string -> string)
    requires c.location.Some?
    ensures IsHeaderScheme(c) ==> SchemeRecord(key, c, camelCase).title == HeaderTitlePrefix + key
    ensures !IsHeaderScheme(c) ==> SchemeRecord(key, c, camelCase).title == ParameterTitlePrefix + key
  {
    if IsHeaderScheme(c) {
      HeaderPrefix();
    } else {
      ParameterPrefix();
    }
  }

  /** Proof helpers for TitleShape: literal concatenations, proved apart. */
  lemma HeaderPrefix() ensures "Header " + " for authorization by " == HeaderTitlePrefix {
  }

  lemma ParameterPrefix() ensures "Parameter " + " for authorization by " == ParameterTitlePrefix {
  }

  /** `config.required || false` and `[config.default || '']`. */
  lemma RecordDefaults(key: string, c: SchemeConfig, camelCase: string -> string)
    requires c.location.Some?
    ensures var r := SchemeRecord(key, c, camelCase);
      && (Truthy(r.required) <==> Present(c.required))
      && (!Present(c.required) ==> r.required == JBool(false))
      && |r.value| == 1
      && (Present(c.defaultValue) ==> r.value[0] == c.defaultValue.value)
      && (!Present(c.defaultValue) ==> r.value[0] == JStr(""))
  {
  }

  /** The two tables, keyed by scheme key. */
  datatype Tables = Tables(headers: map<string, seq<SecurityRecord>>, parameters: map<string, seq<SecurityRecord>>)

  const NoTables := Tables(map[], map[])

  /** The entries filed under `key`, or none. */
  function Get(m: map<string, seq<SecurityRecord>>, key: string): seq<SecurityRecord> {
    if key in m then m[key] else []
  }

  /** Create the list under `key` if it is absent, then push `r` onto it. */
  function AddTo(m: map<string, seq<SecurityRecord>>, key: string, r: SecurityRecord): (m': map<string, seq<SecurityRecord>>)
    ensures key in m' && m'[key] == Get(m, key) + [r]
    ensures forall k :: k != key ==> (k in m' <==> k in m) && Get(m', k) == Get(m, k)
  {
    m[key := Get(m, key) + [r]]
  }

  /** One iteration of `_parseParameters`. */
  function FileScheme(t: Tables, key: string, v: SchemeValue, camelCase: string -> string): Tables {
    if !Filed(v) then t
    else
      var r := SchemeRecord(key, v.config, camelCase);
      if IsHeaderScheme(v.config) then t.(headers := AddTo(t.headers, key, r))
      else t.(parameters := AddTo(t.parameters, key, r))
  }

  /** `_parseParameters` over `schemes`, starting from the tables `t`. */
  function FileAll(t: Tables, schemes: seq<(string, SchemeValue)>, camelCase: string -> string): Tables
    decreases |schemes|
  {
    if schemes == [] then t
    else
      var (key, v) := schemes[|schemes| - 1];
      FileScheme(FileAll(t, schemes[..|schemes| - 1], camelCase), key, v, camelCase)
  }

  /* ---------- An independent definition: the records for one key ---------- */

  /** The records of the filed schemes under `key` that go to the header table (or not), in order. */
  function Matching(schemes: seq<(string, SchemeValue)>, key: string, header: bool, camelCase: string -> string): seq<SecurityRecord>
    decreases |schemes|
  {
    if schemes == [] then []
    else
      var (k, v) := schemes[|schemes| - 1];
      Matching(schemes[..|schemes| - 1], key, header, camelCase)
        + (if k == key && Filed(v) && IsHeaderScheme(v.config) == header then [SchemeRecord(k, v.config, camelCase)] else [])
  }

  /** Each table holds, under each key, what it held before followed by the matching records. */
  lemma {:induction false} FileAllMatches(t: Tables, schemes: seq<(string, SchemeValue)>, key: string, camelCase: string -> string)
    ensures Get(FileAll(t, schemes, camelCase).headers, key) == Get(t.headers, key) + Matching(schemes, key, true, camelCase)
    ensures Get(FileAll(t, schemes, camelCase).parameters, key) == Get(t.parameters, key) + Matching(schemes, key, false, camelCase)
    ensures key in FileAll(t, schemes, camelCase).headers <==> key in t.headers || Matching(schemes, key, true, camelCase) != []
    ensures key in FileAll(t, schemes, camelCase).parameters <==> key in t.parameters || Matching(schemes, key, false, camelCase) != []
    decreases |schemes|
  {
    if schemes == [] {
      AppendEmpty(Get(t.headers, key));
      AppendEmpty(Get(t.parameters, key));
    } else {
      var init := schemes[..|schemes| - 1];
      var (k, v) := schemes[|schemes| - 1];
      FileAllMatches(t, init, key, camelCase);
      var before := FileAll(t, init, camelCase);
      var mh, mp := Matching(init, key, true, camelCase), Matching(init, key, false, camelCase);
      if Filed(v) && k == key {
        var r := SchemeRecord(k, v.config, camelCase);
        if IsHeaderScheme(v.config) {
          AppendAssoc3(Get(t.headers, key), mh, [r]);
          AppendEmpty(mp);
        } else {
          AppendAssoc3(Get(t.parameters, key), mp, [r]);
          AppendEmpty(mh);
        }
      } else {
        AppendEmpty(mh);
        AppendEmpty(mp);
      }
    }
  }

  /** Scheme keys are distinct, as the keys of an object are. */
  predicate DistinctKeys(schemes: seq<(string, SchemeValue)>) {
    forall i, j :: 0 <= i < j < |schemes| ==> schemes[i].0 != schemes[j].0
  }

  /** With distinct keys, the only record matching the key of entry `i` is that entry's own. */
  lemma {:induction false} MatchingOwnKey(schemes: seq<(string, SchemeValue)>, i: nat, header: bool, camelCase: string -> string)
    requires DistinctKeys(schemes) && i < |schemes|
    ensures var (k, v) := schemes[i];
      Matching(schemes, k, header, camelCase)
        == if Filed(v) && IsHeaderScheme(v.config) == header then [SchemeRecord(k, v.config, camelCase)] else []
    decreases |schemes|
  {
    var init := schemes[..|schemes| - 1];
    var key := schemes[i].0;
    if i == |schemes| - 1 {
      MatchingAbsent(init, key, header, camelCase);
    } else {
      assert init[i] == schemes[i];
      assert DistinctKeys(init) by {
        forall a, b | 0 <= a < b < |init| ensures init[a].0 != init[b].0 {
          assert init[a] == schemes[a] && init[b] == schemes[b];
        }
      }
      MatchingOwnKey(init, i, header, camelCase);
      assert schemes[|schemes| - 1].0 != key;
      AppendEmpty(Matching(init, key, header, camelCase));
    }
  }

  /** A key that no entry has matches nothing. */
  lemma {:induction false} MatchingAbsent(schemes: seq<(string, SchemeValue)>, key: string, header: bool, camelCase: string -> string)
    requires forall i :: 0 <= i < |schemes| ==> schemes[i].0 != key
    ensures Matching(schemes, key, header, camelCase) == []
    decreases |schemes|
  {
    if schemes != [] {
      var init := schemes[..|schemes| - 1];
      assert forall i :: 0 <= i < |init| ==> init[i] == schemes[i];
      MatchingAbsent(init, key, header, camelCase);
    }
  }

  /**
   * After filling empty tables: a scheme with `in` "header" has exactly its own
   * record under `headers[key]` and nothing under `parameters[key]`; any other
   * `in` the reverse; a non-object scheme, or one without `in`, neither.
   */
  lemma SchemeFiledOnce(schemes: seq<(string, SchemeValue)>, i: nat, camelCase: string -> string)
    requires DistinctKeys(schemes) && i < |schemes|
    ensures var (k, v) := schemes[i];
      var t := FileAll(NoTables, schemes, camelCase);
      && (Filed(v) && IsHeaderScheme(v.config) ==>
            k in t.headers && t.headers[k] == [SchemeRecord(k, v.config, camelCase)] && k !in t.parameters)
      && (Filed(v) && !IsHeaderScheme(v.config) ==>
            k in t.parameters && t.parameters[k] == [SchemeRecord(k, v.config, camelCase)] && k !in t.headers)
      && (!Filed(v) ==> k !in t.headers && k !in t.parameters)
  {
    var k := schemes[i].0;
    FileAllMatches(NoTables, schemes, k, camelCase);
    MatchingOwnKey(schemes, i, true, camelCase);
    MatchingOwnKey(schemes, i, false, camelCase);
  }

  /* ---------- Requirement lookups ---------- */

  /** The keys `_.each` visits on a requirement value that is an object or an array. */
  function RequirementKeys(v: Json): (r: seq<string>)
    requires v.JArr? || v.JObj?
    ensures v.JArr? ==> r == IndexKeys(|v.items|)
    ensures v.JObj? ==> r == Keys(v.members)
  {
    if v.JArr? then IndexKeys(|v.items|) else Keys(v.members)
  }

  /** The entries of `table` under each of `keys` in turn; unknown keys add nothing. */
  function Gather(table: map<string, seq<SecurityRecord>>, keys: seq<string>): seq<SecurityRecord>
    decreases |keys|
  {
    if keys == [] then [] else Gather(table, keys[..|keys| - 1]) + Get(table, keys[|keys| - 1])
  }

  /** What a lookup answers: nothing for a value that is not an object. */
  function Requested(table: map<string, seq<SecurityRecord>>, security: Option<Json>): seq<SecurityRecord> {
    if IsObject(security) then Gather(table, RequirementKeys(security.value)) else []
  }

  /** The nested `_.each` loops of `_getHeadersOrParams`: every entry under each key in turn. */
  method GatherEntries(table: map<string, seq<SecurityRecord>>, keys: seq<string>) returns (options: seq<SecurityRecord>)
    ensures options == Gather(table, keys)
  {
    options := [];
    var i := 0;
    while i < |keys|
      invariant 0 <= i <= |keys|
      invariant options == Gather(table, keys[..i])
    {
      PrefixStep(keys, i);
      ghost var done := options;
      assert Gather(table, keys[..i + 1]) == done + Get(table, keys[i]);
      if keys[i] in table {
        var entries := table[keys[i]];
        var j := 0;
        while j < |entries|
          invariant 0 <= j <= |entries|
          invariant options == done + entries[..j]
        {
          options := options + [entries[j]];
          PrefixStep(entries, j);
          AppendAssoc3(done, entries[..j], [entries[j]]);
          j := j + 1;
        }
        PrefixWhole(entries);
      } else {
        AppendEmpty(options);
      }
      i := i + 1;
    }
    PrefixWhole(keys);
  }

  lemma {:induction false} GatherAppend(table: map<string, seq<SecurityRecord>>, ks: seq<string>, ls: seq<string>)
    ensures Gather(table, ks + ls) == Gather(table, ks) + Gather(table, ls)
    decreases |ls|
  {
    if ls == [] {
      AppendEmpty(ks);
      AppendEmpty(Gather(table, ks));
    } else {
      var init, l := ls[..|ls| - 1], ls[|ls| - 1];
      GatherAppend(table, ks, init);
      SnocSplit(ks, ls);
      AppendAssoc3(Gather(table, ks), Gather(table, init), Get(table, l));
    }
  }

  /** Keys absent from the table contribute nothing. */
  lemma {:induction false} GatherUnknown(table: map<string, seq<SecurityRecord>>, keys: seq<string>)
    requires forall i :: 0 <= i < |keys| ==> keys[i] !in table
    ensures Gather(table, keys) == []
    decreases |keys|
  {
    if keys != [] {
      var init := keys[..|keys| - 1];
      assert forall i :: 0 <= i < |init| ==> init[i] == keys[i];
      GatherUnknown(table, init);
    }
  }

  /** A record is gathered exactly when it is filed under one of the keys. */
  lemma {:induction false} GatherMembership(table: map<string, seq<SecurityRecord>>, keys: seq<string>, x: SecurityRecord)
    ensures x in Gather(table, keys) <==> exists i :: 0 <= i < |keys| && keys[i] in table && x in table[keys[i]]
    decreases |keys|
  {
    if keys != [] {
      var init, last := keys[..|keys| - 1], keys[|keys| - 1];
      GatherMembership(table, init, x);
      if x in Gather(table, keys) {
        if x in Gather(table, init) {
          var i :| 0 <= i < |init| && init[i] in table && x in table[init[i]];
          assert keys[i] == init[i];
        } else {
          assert keys[|keys| - 1] in table && x in table[keys[|keys| - 1]];
        }
      }
      if exists i :: 0 <= i < |keys| && keys[i] in table && x in table[keys[i]] {
        var i :| 0 <= i < |keys| && keys[i] in table && x in table[keys[i]];
        if i < |init| {
          assert init[i] == keys[i];
        }
      }
    }
  }

  /** A single key gathers exactly its own entries. */
  lemma GatherSingleKey(table: map<string, seq<SecurityRecord>>, key: string)
    ensures Gather(table, [key]) == Get(table, key)
  {
    SnocInit([], key);
  }

  /** A requirement array's keys are "0", "1", ...: when no scheme key is decimal, an array requirement finds nothing. */
  lemma ArrayRequirementFindsNothing(table: map<string, seq<SecurityRecord>>, items: seq<Json>)
    requires forall k :: k in table ==> !AllDigits(k) || k == ""
    ensures Requested(table, Some(JArr(items))) == []
  {
    var keys := IndexKeys(|items|);
    forall i | 0 <= i < |keys| ensures keys[i] !in table {
      assert keys[i] == DecimalString(i);
    }
    GatherUnknown(table, keys);
  }

  /** A requirement object with one key answers exactly the entries under that key. */
  lemma OneKeyRequirement(table: map<string, seq<SecurityRecord>>, key: string, scopes: Json)
    ensures Requested(table, Some(JObj([(key, scopes)]))) == Get(table, key)
  {
    assert Keys([(key, scopes)]) == [key];
    GatherSingleKey(table, key);
  }

  /** The two API-key schemes of the scheme parser's tests, filled and looked up. */
  lemma ApiKeyExample(camelCase: string -> string)
    ensures var header := SchemeConfig(Some("header"), Some("Authorization"), None, None, [("type", JStr("apiKey"))]);
      var query := SchemeConfig(Some("query"), Some("access_token"), None, None, [("type", JStr("apiKey"))]);
      var t := FileAll(NoTables, [("APIKeyHeader", SchemeObject(header)), ("APIKeyQueryParam", SchemeObject(query))], camelCase);
      && "APIKeyHeader" in t.headers && |t.headers["APIKeyHeader"]| == 1
      && t.headers["APIKeyHeader"][0].name == Some("Authorization")
      && t.headers["APIKeyHeader"][0].camelCaseName == camelCase("Authorization")
      && t.headers["APIKeyHeader"][0].flag == "isHeaderParameter"
      && "APIKeyQueryParam" in t.parameters && |t.parameters["APIKeyQueryParam"]| == 1
      && t.parameters["APIKeyQueryParam"][0].camelCaseName == camelCase("access_token")
      && t.parameters["APIKeyQueryParam"][0].flag == "isQueryParameter"
      && Requested(t.headers, Some(JObj([("test", JArr([]))]))) == []
      && Requested(t.headers, Some(JObj([("APIKeyHeader", JArr([]))]))) == t.headers["APIKeyHeader"]
      && Requested(t.parameters, Some(JObj([("test", JArr([]))]))) == []
      && Requested(t.parameters, Some(JObj([("APIKeyQueryParam", JArr([]))]))) == t.parameters["APIKeyQueryParam"]
  {
    var header := SchemeConfig(Some("header"), Some("Authorization"), None, None, [("type", JStr("apiKey"))]);
    var query := SchemeConfig(Some("query"), Some("access_token"), None, None, [("type", JStr("apiKey"))]);
    var schemes := [("APIKeyHeader", SchemeObject(header)), ("APIKeyQueryParam", SchemeObject(query))];
    assert DistinctKeys(schemes);
    SchemeFiledOnce(schemes, 0, camelCase);
    SchemeFiledOnce(schemes, 1, camelCase);
    Parameters.FlagNameHeader();
    Parameters.FlagNameQueryValue();
    var t := FileAll(NoTables, schemes, camelCase);
    FileAllMatches(NoTables, schemes, "test", camelCase);
    MatchingAbsent(schemes, "test", true, camelCase);
    MatchingAbsent(schemes, "test", false, camelCase);
    OneKeyRequirement(t.headers, "test", JArr([]));
    OneKeyRequirement(t.headers, "APIKeyHeader", JArr([]));
    OneKeyRequirement(t.parameters, "test", JArr([]));
    OneKeyRequirement(t.parameters, "APIKeyQueryParam", JArr([]));
  }

  /**
   * `SecuritySchemesParser`: the scheme map and the two tables. Nothing in the
   * constructor or in `parse` fills the tables; `ParseParameters` does.
   */
  class SecuritySchemesParser {
    const camelCase: string -> string
    const schemes: seq<(string, SchemeValue)>
    var headers: map<string, seq<SecurityRecord>>
    var parameters: map<string, seq<SecurityRecord>>

    function Contents(): Tables
      reads this
    {
      Tables(headers, parameters)
    }

    constructor (schemes: seq<(string, SchemeValue)>, camelCase: string -> string)
      ensures this.schemes == schemes && this.camelCase == camelCase
      ensures Contents() == NoTables
    {
      this.schemes := schemes;
      this.camelCase := camelCase;
      headers, parameters := map[], map[];
    }

    /** One iteration of `_parseParameters`. */
    method FileOne(key: string, v: SchemeValue)
      modifies this`headers, this`parameters
      ensures Contents() == FileScheme(old(Contents()), key, v, camelCase)
    {
      if !Filed(v) {
        return;
      }
      var r := SchemeRecord(key, v.config, camelCase);
      if v.config.location == Some("header") {
        if key !in headers {
          headers := headers[key := []];
        }
        headers := headers[key := headers[key] + [r]];
      } else {
        if key !in parameters {
          parameters := parameters[key := []];
        }
        parameters := parameters[key := parameters[key] + [r]];
      }
    }

    /** `_parseParameters`: files every scheme, in order. */
    method ParseParameters()
      modifies this`headers, this`parameters
      ensures Contents() == FileAll(old(Contents()), schemes, camelCase)
    {
      var i := 0;
      while i < |schemes|
        invariant 0 <= i <= |schemes|
        invariant Contents() == FileAll(old(Contents()), schemes[..i], camelCase)
      {
        PrefixStep(schemes, i);
        FileOne(schemes[i].0, schemes[i].1);
        i := i + 1;
      }
      PrefixWhole(schemes);
    }

    /** `parse` hands the scheme map back and leaves the tables alone. */
    method Parse() returns (r: seq<(string, SchemeValue)>)
      ensures r == schemes
    {
      r := schemes;
    }

    /**
     * `_getHeadersOrParams`: `isHeader` is true when truthy or `undefined`;
     * the entries under each key of the requirement value, in key order.
     */
    method GetHeadersOrParams(security: Option<Json>, isHeader: Option<bool>) returns (options: seq<SecurityRecord>)
      ensures options == Requested(if isHeader == Some(false) then parameters else headers, security)
    {
      var table := if isHeader == Some(false) then parameters else headers;
      options := [];
      if !IsObject(security) {
        return;
      }
      options := GatherEntries(table, RequirementKeys(security.value));
    }

    /** `getHeadersForRequest`: the header table. */
    method GetHeadersForRequest(security: Option<Json>) returns (r: seq<SecurityRecord>)
      ensures r == Requested(headers, security)
    {
      r := GetHeadersOrParams(security, None);
    }

    /** `getParametersForRequest`: the parameter table. */
    method GetParametersForRequest(security: Option<Json>) returns (r: seq<SecurityRecord>)
      ensures r == Requested(parameters, security)
    {
      r := GetHeadersOrParams(security, Some(false));
    }
  }
}
