/**
 * The Legal service client: the service base path put in front of every request
 * path, the partition prefix of legal tag names, the delete-mode gate, the batch
 * cap and the shape of the request bodies.
 *
 * The HTTP layer underneath (OsduClient) is a transport oracle: the n-th request
 * the client issues is answered by `transport(n, request)`, and every request is
 * appended to `trace`, so "no request" and "exactly one request" can be stated.
 */
module Legal {
  import opened Wrappers
  import opened Text
  import opened Environ
  import opened Errors
  import opened Json
  import Auth

  /** The most names batch_retrieve_legal_tags accepts. */
  const MaxBatchSize := 25
  const DeleteModeVar := "OSDU_MCP_ENABLE_DELETE_MODE"
  const DeleteDisabledMessage :=
    "Delete operations are disabled. Set OSDU_MCP_ENABLE_DELETE_MODE=true to enable legal tag deletion"
  const TooManyTagsMessage := "Too many legal tags requested. Maximum 25 legal tags can be retrieved at once"

  datatype Verb = Get | Post | Put | Delete

  /** One HTTP request: the verb, the full path, the query parameters and the JSON body, when given. */
  datatype Request = Request(verb: Verb, path: string, params: Option<map<string, string>>, json: Option<Value>)

  /** The reply of the HTTP layer to the n-th request of a client. */
  type Transport = (nat, Request) -> Result<Value, Failure>

  /** The partition prefix of full tag names. */
  function Prefix(partition: string): string {
    partition + "-"
  }

  /** ensure_full_tag_name */
  function EnsureFullTagName(partition: string, name: string): (r: string)
    ensures StartsWith(r, Prefix(partition))
    ensures StartsWith(name, Prefix(partition)) ==> r == name
    ensures !StartsWith(name, Prefix(partition)) ==> r == Prefix(partition) + name
  {
    if StartsWith(name, Prefix(partition)) then name else Prefix(partition) + name
  }

  /** simplify_tag_name: re.sub of the anchored pattern "^<partition>-", for a partition without regex metacharacters. */
  function SimplifyTagName(partition: string, name: string): (r: string)
    ensures StartsWith(name, Prefix(partition)) ==> Prefix(partition) + r == name
    ensures !StartsWith(name, Prefix(partition)) ==> r == name
  {
    if StartsWith(name, Prefix(partition)) then name[|Prefix(partition)|..] else name
  }

  /** Adding the prefix twice is adding it once. */
  lemma EnsureFullIdempotent(partition: string, name: string)
    ensures EnsureFullTagName(partition, EnsureFullTagName(partition, name)) == EnsureFullTagName(partition, name)
  {
  }

  /** Simplifying a full name gives what simplifying the name itself gives. */
  lemma SimplifyAfterEnsureFull(partition: string, name: string)
    ensures SimplifyTagName(partition, EnsureFullTagName(partition, name)) == SimplifyTagName(partition, name)
  {
    var p := Prefix(partition);
    if !StartsWith(name, p) {
      assert StartsWith(p + name, p) by { assert (p + name)[..|p|] == p; }
      assert (p + name)[|p|..] == name;
    }
  }

  /** A name without the prefix is restored by simplifying its full name. */
  lemma SimplifyInvertsEnsureFull(partition: string, name: string)
    requires !StartsWith(name, Prefix(partition))
    ensures SimplifyTagName(partition, EnsureFullTagName(partition, name)) == name
  {
    SimplifyAfterEnsureFull(partition, name);
  }

  /** Only one leading prefix is removed. */
  lemma SimplifyRemovesOnePrefix(partition: string, name: string)
    ensures SimplifyTagName(partition, Prefix(partition) + Prefix(partition) + name) == Prefix(partition) + name
  {
    var p := Prefix(partition);
    assert (p + p + name)[..|p|] == p;
    assert (p + p + name)[|p|..] == p + name;
  }

  /** A full name is the full name of its simplification exactly when it does not carry the prefix twice. */
  lemma EnsureFullAfterSimplify(partition: string, name: string)
    requires StartsWith(name, Prefix(partition))
    ensures EnsureFullTagName(partition, SimplifyTagName(partition, name)) == name
            <==> !StartsWith(SimplifyTagName(partition, name), Prefix(partition))
  {
    var p := Prefix(partition);
    assert p + name[|p|..] == name;
  }

  /** In partition "opendes", "foo" and "opendes-foo" both name "opendes-foo", simplified to "foo". */
  lemma PrefixExample()
    ensures EnsureFullTagName("opendes", "foo") == "opendes-foo"
    ensures EnsureFullTagName("opendes", "opendes-foo") == "opendes-foo"
    ensures SimplifyTagName("opendes", "opendes-foo") == "foo"
    ensures SimplifyTagName("opendes", "foo") == "foo"
  {
    assert Prefix("opendes") == "opendes-";
    assert "opendes-foo"[..8] == "opendes-";
    assert "opendes-foo"[8..] == "foo";
    assert "opendes-" + "foo" == "opendes-foo";
  }

  /** check_delete_permission: nothing, or the 403 error, decided by OSDU_MCP_ENABLE_DELETE_MODE. */
  function CheckDeletePermission(env: Env): (r: Option<Failure>)
    ensures r.None? <==> FlagEnabled(env, DeleteModeVar)
    ensures r.Some? ==> r.value == ApiError(DeleteDisabledMessage, 403)
  {
    if FlagEnabled(env, DeleteModeVar) then None else Some(ApiError(DeleteDisabledMessage, 403))
  }

  /** Deletion is refused unless the variable is set, and allowed for "true" in any capitalisation. */
  lemma DeleteModeDefaultsOff(env: Env)
    ensures DeleteModeVar !in env ==> CheckDeletePermission(env).Some?
    ensures DeleteModeVar in env && Lower(env[DeleteModeVar]) == "true" ==> CheckDeletePermission(env).None?
  {
    FlagDefaults(env, DeleteModeVar);
  }

  /** str(b) for a Python bool. */
  function PyBoolText(b: bool): string {
    if b then "True" else "False"
  }

  /** The query parameters of list_legal_tags: "valid" only when a filter is given, as "true" or "false". */
  function ListParams(valid: Option<bool>): (p: map<string, string>)
    ensures "valid" in p <==> valid.Some?
    ensures p.Keys <= {"valid"}
    ensures "valid" in p ==> (p["valid"] == "true" <==> valid.value) && p["valid"] in {"true", "false"}
  {
    assert Lower("True") == "true" && Lower("False") == "false";
    if valid.Some? then map["valid" := Lower(PyBoolText(valid.value))] else map[]
  }

  /** The dictionary with `key` set to the value when one is given, and unchanged otherwise. */
  function WithField(body: map<string, Value>, key: string, v: Option<Value>): (r: map<string, Value>)
    ensures r.Keys == if v.Some? then body.Keys + {key} else body.Keys
    ensures key in r <==> key in body || v.Some?
    ensures forall k :: k in r && k != key ==> r[k] == body[k]
    ensures v.Some? ==> r[key] == v.value
  {
    if v.Some? then body[key := v.value] else body
  }

  /** The value of a string argument, given unless it is None. */
  function StrArg(o: Option<string>): Option<Value> {
    if o.Some? then Some(Str(o.value)) else None
  }

  // Python truthiness of the optional search arguments.
  predicate NonEmptyList(o: Option<seq<string>>) { o.Some? && o.value != [] }
  predicate NonEmptyText(o: Option<string>) { o.Some? && o.value != "" }
  predicate NonZero(o: Option<int>) { o.Some? && o.value != 0 }

  /** The body of search_legal_tags: each argument is included under its key only when it is truthy. */
  function SearchBody(query: Option<seq<string>>, sortBy: Option<string>, sortOrder: Option<string>,
                      limit: Option<int>): (b: map<string, Value>)
    ensures b.Keys <= {"queryList", "sortBy", "sortOrder", "limit"}
    ensures "queryList" in b <==> NonEmptyList(query)
    ensures "sortBy" in b <==> NonEmptyText(sortBy)
    ensures "sortOrder" in b <==> NonEmptyText(sortOrder)
    ensures "limit" in b <==> NonZero(limit)
    ensures "queryList" in b ==> b["queryList"] == StrList(query.value)
    ensures "sortBy" in b ==> b["sortBy"] == Str(sortBy.value)
    ensures "sortOrder" in b ==> b["sortOrder"] == Str(sortOrder.value)
    ensures "limit" in b ==> b["limit"] == Int(limit.value)
  {
    var keys := (if NonEmptyList(query) then {"queryList"} else {})
              + (if NonEmptyText(sortBy) then {"sortBy"} else {})
              + (if NonEmptyText(sortOrder) then {"sortOrder"} else {})
              + (if NonZero(limit) then {"limit"} else {});
    map k | k in keys
      :: if k == "queryList" then StrList(query.value)
         else if k == "sortBy" then Str(sortBy.value)
         else if k == "sortOrder" then Str(sortOrder.value)
         else Int(limit.value)
  }

  /** An empty query list and a zero limit are left out of the search body. */
  lemma SearchOmitsFalsyArguments(sortBy: Option<string>, sortOrder: Option<string>)
    ensures "queryList" !in SearchBody(Some([]), sortBy, sortOrder, Some(0))
    ensures "limit" !in SearchBody(Some([]), sortBy, sortOrder, Some(0))
    ensures SearchBody(None, None, None, None) == map[]
  {
  }

  /** The names sent by batch_retrieve_legal_tags: each name made full, in order. */
  function FullTagNames(partition: string, names: seq<string>): (r: seq<string>)
    ensures |r| == |names|
    ensures forall i :: 0 <= i < |names| ==> r[i] == EnsureFullTagName(partition, names[i])
  {
    seq(|names|, i requires 0 <= i < |names| => EnsureFullTagName(partition, names[i]))
  }

  /** Every name sent in a batch carries the prefix. */
  lemma FullTagNamesArePrefixed(partition: string, names: seq<string>)
    ensures forall n :: n in FullTagNames(partition, names) ==> StartsWith(n, Prefix(partition))
  {
  }

  /** The body of update_legal_tag: the full name always, each other field only when it is given. */
  function UpdateBody(partition: string, name: string, description: Option<string>, contractId: Option<string>,
                      expirationDate: Option<string>, extensionProperties: Option<map<string, Value>>)
    : (b: map<string, Value>)
    ensures b.Keys <= {"name", "description", "contractId", "expirationDate", "extensionProperties"}
    ensures "name" in b && b["name"] == Str(EnsureFullTagName(partition, name))
    ensures "description" in b <==> description.Some?
    ensures "contractId" in b <==> contractId.Some?
    ensures "expirationDate" in b <==> expirationDate.Some?
    ensures "extensionProperties" in b <==> extensionProperties.Some?
    ensures "description" in b ==> b["description"] == Str(description.value)
    ensures "contractId" in b ==> b["contractId"] == Str(contractId.value)
    ensures "expirationDate" in b ==> b["expirationDate"] == Str(expirationDate.value)
    ensures "extensionProperties" in b ==> b["extensionProperties"] == Obj(extensionProperties.value)
  {
    var named := map["name" := Str(EnsureFullTagName(partition, name))];
    var extension := if extensionProperties.Some? then Some(Obj(extensionProperties.value)) else None;
    WithField(WithField(WithField(WithField(named, "description", StrArg(description)),
      "contractId", StrArg(contractId)), "expirationDate", StrArg(expirationDate)),
      "extensionProperties", extension)
  }

  /** An empty string is still sent: only an omitted argument is left out of the update body. */
  lemma UpdateKeepsEmptyStrings(partition: string, name: string)
    ensures UpdateBody(partition, name, Some(""), None, None, None)["description"] == Str("")
    ensures UpdateBody(partition, name, None, None, None, None).Keys == {"name"}
  {
  }

  /** The Legal service client over an OsduClient whose requests are recorded. */
  class LegalClient {
    const partition: string
    /** get_service_base_url(OSMCPService.LEGAL) */
    const basePath: string
    const auth: Auth.AuthHandler
    const transport: Transport
    /** The requests issued so far, in order. */
    var trace: seq<Request>
    var closeCalls: nat

    constructor (partition: string, basePath: string, auth: Auth.AuthHandler, transport: Transport)
      ensures this.partition == partition && this.basePath == basePath && this.auth == auth
      ensures this.transport == transport && trace == [] && closeCalls == 0
    {
      this.partition := partition;
      this.basePath := basePath;
      this.auth := auth;
      this.transport := transport;
      trace := [];
      closeCalls := 0;
    }

    /** The reply the next request would get. */
    function NextReply(req: Request): Result<Value, Failure>
      reads this
    {
      transport(|trace|, req)
    }

    /** OsduClient's request: issue `req` as it is. */
    method Issue(req: Request) returns (r: Result<Value, Failure>)
      modifies this
      ensures r == old(NextReply(req))
      ensures trace == old(trace) + [req] && closeCalls == old(closeCalls)
    {
      r := transport(|trace|, req);
      trace := trace + [req];
    }

    /** The verb overrides: the request goes to the base path followed by `path`. */
    method Send(verb: Verb, path: string, params: Option<map<string, string>>, json: Option<Value>)
      returns (r: Result<Value, Failure>)
      modifies this
      ensures r == old(NextReply(Request(verb, basePath + path, params, json)))
      ensures trace == old(trace) + [Request(verb, basePath + path, params, json)]
      ensures closeCalls == old(closeCalls)
    {
      var fullPath := basePath + path;
      r := Issue(Request(verb, fullPath, params, json));
    }

    /** list_legal_tags */
    method ListLegalTags(valid: Option<bool>) returns (r: Result<Value, Failure>)
      modifies this
      ensures var req := Request(Get, basePath + "/legaltags", Some(ListParams(valid)), None);
        r == old(NextReply(req)) && trace == old(trace) + [req] && closeCalls == old(closeCalls)
    {
      var params: map<string, string> := map[];
      if valid.Some? {
        params := params["valid" := Lower(PyBoolText(valid.value))];
      }
      r := Send(Get, "/legaltags", Some(params), None);
    }

    /** get_legal_tag: the full name goes in the path. */
    method GetLegalTag(name: string) returns (r: Result<Value, Failure>)
      modifies this
      ensures var req := Request(Get, basePath + "/legaltags/" + EnsureFullTagName(partition, name), None, None);
        r == old(NextReply(req)) && trace == old(trace) + [req] && closeCalls == old(closeCalls)
    {
      var fullName := EnsureFullTagName(partition, name);
      assert basePath + ("/legaltags/" + fullName) == basePath + "/legaltags/" + fullName;
      r := Send(Get, "/legaltags/" + fullName, None, None);
    }

    /** get_legal_tag_properties */
    method GetLegalTagProperties() returns (r: Result<Value, Failure>)
      modifies this
      ensures var req := Request(Get, basePath + "/legaltags:properties", None, None);
        r == old(NextReply(req)) && trace == old(trace) + [req] && closeCalls == old(closeCalls)
    {
      r := Send(Get, "/legaltags:properties", None, None);
    }

    /** search_legal_tags: the body collects the truthy arguments. */
    method SearchLegalTags(query: Option<seq<string>>, sortBy: Option<string>, sortOrder: Option<string>,
                           limit: Option<int>) returns (r: Result<Value, Failure>)
      modifies this
      ensures var req := Request(Post, basePath + "/legaltags:query", None,
                                 Some(Obj(SearchBody(query, sortBy, sortOrder, limit))));
        r == old(NextReply(req)) && trace == old(trace) + [req] && closeCalls == old(closeCalls)
    {
      var body: map<string, Value> := map[];
      if query.Some? && query.value != [] {
        body := body["queryList" := StrList(query.value)];
      }
      if sortBy.Some? && sortBy.value != "" {
        body := body["sortBy" := Str(sortBy.value)];
      }
      if sortOrder.Some? && sortOrder.value != "" {
        body := body["sortOrder" := Str(sortOrder.value)];
      }
      if limit.Some? && limit.value != 0 {
        body := body["limit" := Int(limit.value)];
      }
      assert body == SearchBody(query, sortBy, sortOrder, limit);
      r := Send(Post, "/legaltags:query", None, Some(Obj(body)));
    }

    /** batch_retrieve_legal_tags: more than 25 names is refused before any request. */
    method BatchRetrieveLegalTags(names: seq<string>) returns (r: Result<Value, Failure>)
      modifies this
      ensures |names| > MaxBatchSize ==>
        r == Failure(ApiError(TooManyTagsMessage, 400)) && trace == old(trace)
      ensures |names| <= MaxBatchSize ==>
        var req := Request(Post, basePath + "/legaltags:batchRetrieve", None,
                           Some(Obj(map["names" := StrList(FullTagNames(partition, names))])));
        r == old(NextReply(req)) && trace == old(trace) + [req]
      ensures closeCalls == old(closeCalls)
    {
      if |names| > MaxBatchSize {
        return Failure(ApiError(TooManyTagsMessage, 400));
      }
      var fullNames := FullTagNames(partition, names);
      r := Send(Post, "/legaltags:batchRetrieve", None, Some(Obj(map["names" := StrList(fullNames)])));
    }

    /** create_legal_tag: the name is sent as given, without the prefix. */
    method CreateLegalTag(name: string, description: string, properties: map<string, Value>)
      returns (r: Result<Value, Failure>)
      modifies this
      ensures var req := Request(Post, basePath + "/legaltags", None,
        Some(Obj(map["name" := Str(name), "description" := Str(description), "properties" := Obj(properties)])));
        r == old(NextReply(req)) && trace == old(trace) + [req] && closeCalls == old(closeCalls)
    {
      var body := map["name" := Str(name), "description" := Str(description), "properties" := Obj(properties)];
      r := Send(Post, "/legaltags", None, Some(Obj(body)));
    }

    /** update_legal_tag: one PUT whose body holds the full name and the given fields; there is no write gate here. */
    method UpdateLegalTag(name: string, description: Option<string>, contractId: Option<string>,
                          expirationDate: Option<string>, extensionProperties: Option<map<string, Value>>)
      returns (r: Result<Value, Failure>)
      modifies this
      ensures var req := Request(Put, basePath + "/legaltags", None, Some(Obj(
        UpdateBody(partition, name, description, contractId, expirationDate, extensionProperties))));
        r == old(NextReply(req)) && trace == old(trace) + [req] && closeCalls == old(closeCalls)
    {
      var fullName := EnsureFullTagName(partition, name);
      var body: map<string, Value> := map["name" := Str(fullName)];
      ghost var spec := body;
      if description.Some? {
        body := body["description" := Str(description.value)];
      }
      spec := WithField(spec, "description", StrArg(description));
      assert body == spec;
      if contractId.Some? {
        body := body["contractId" := Str(contractId.value)];
      }
      spec := WithField(spec, "contractId", StrArg(contractId));
      assert body == spec;
      if expirationDate.Some? {
        body := body["expirationDate" := Str(expirationDate.value)];
      }
      spec := WithField(spec, "expirationDate", StrArg(expirationDate));
      assert body == spec;
      if extensionProperties.Some? {
        body := body["extensionProperties" := Obj(extensionProperties.value)];
      }
      r := Send(Put, "/legaltags", None, Some(Obj(body)));
    }

    /** delete_legal_tag: the permission check first, then one DELETE of the full name. */
    method DeleteLegalTag(env: Env, name: string) returns (r: Result<Value, Failure>)
      modifies this
      ensures CheckDeletePermission(env).Some? ==>
        r == Failure(CheckDeletePermission(env).value) && trace == old(trace)
      ensures CheckDeletePermission(env).None? ==>
        var req := Request(Delete, basePath + "/legaltags/" + EnsureFullTagName(partition, name), None, None);
        r == old(NextReply(req)) && trace == old(trace) + [req]
      ensures closeCalls == old(closeCalls)
    {
      var denied := CheckDeletePermission(env);
      if denied.Some? {
        return Failure(denied.value);
      }
      var fullName := EnsureFullTagName(partition, name);
      assert basePath + ("/legaltags/" + fullName) == basePath + "/legaltags/" + fullName;
      r := Send(Delete, "/legaltags/" + fullName, None, None);
    }

    /** OsduClient.close */
    method Close()
      modifies this
      ensures closeCalls == old(closeCalls) + 1 && trace == old(trace)
    {
      closeCalls := closeCalls + 1;
    }
  }
}
