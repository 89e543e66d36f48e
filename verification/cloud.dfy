/** The inventory of one stage: hosts and containers as attribute bags, the cache file
    that persists them, and the refresh from either that cache or the boxchief provider.
    The file system is a map from path to the parsed YAML document stored there, and the
    provider's answer is passed in already parsed from JSON. */
module Cloud {
  import opened Results
  import opened Values
  import Paths

  // ----- CloudElement, Host, Container -----

  /** A `CloudElement`: a host or a container, holding its attributes with indifferent
      access. Hosts and containers differ only in the accessors defined on hosts. */
  datatype Element = Element(attrs: Fields)

  /** `CloudElement#[]` and the dynamic getters: a missing attribute reads as nil. */
  function Get(e: Element, field: string): Value {
    Lookup(e.attrs, field)
  }

  /** `CloudElement#data`: the attribute map, as written to the cache. */
  function Data(e: Element): Fields {
    e.attrs
  }

  /** `CloudElement.new(data)`: wrapping a loaded attribute map. */
  function FromData(data: Fields): Element {
    Element(data)
  }

  /** An element rebuilt from its own data is the same element. */
  lemma DataRoundTrip(e: Element)
    ensures FromData(Data(e)) == e
    ensures forall f :: Get(FromData(Data(e)), f) == Get(e, f)
  {
  }

  /** `Host#internal_ip`: the host's own internal address, or its external one when
      the internal one is nil or false. */
  function InternalIp(h: Element): (ip: Value)
    ensures ip == Get(h, "internal_ip") || ip == Get(h, "external_ip")
    ensures Truthy(ip) <==> Truthy(Get(h, "internal_ip")) || Truthy(Get(h, "external_ip"))
    ensures Truthy(Get(h, "internal_ip")) ==> ip == Get(h, "internal_ip")
    ensures !Truthy(Get(h, "internal_ip")) ==> ip == Get(h, "external_ip")
  {
    if Truthy(Get(h, "internal_ip")) then Get(h, "internal_ip") else Get(h, "external_ip")
  }

  /** The three values a host can be identified by, in the order `has_id?` lists them. */
  function Identities(h: Element): seq<Value> {
    [InternalIp(h), Get(h, "external_ip"), Get(h, "name")]
  }

  /** A scalar argument of `has_id?` stands for the one-element list holding it. */
  function Candidates(val: Value): seq<Value> {
    if val.List? then val.items else [val]
  }

  /** Ruby's `a & b` as far as `has_id?` uses it: the members of `a` that occur in `b`. */
  function Intersect(a: seq<Value>, b: seq<Value>): (r: seq<Value>)
    ensures forall x :: x in r <==> x in a && x in b
  {
    if |a| == 0 then []
    else (if a[0] in b then [a[0]] else []) + Intersect(a[1..], b)
  }

  /** `Host#has_id?`: true exactly when the internal address (after its fallback), the
      external address or the name occurs among the candidates. */
  function HasId(h: Element, val: Value): (found: bool)
    ensures found <==> InternalIp(h) in Candidates(val) || Get(h, "external_ip") in Candidates(val)
                       || Get(h, "name") in Candidates(val)
  {
    var ids := Identities(h);
    var common := Intersect(ids, Candidates(val));
    assert |common| > 0 ==> common[0] in ids;
    assert ids[0] in common || ids[1] in common || ids[2] in common ==> |common| > 0;
    |common| > 0
  }

  /** A host is identified by its own name, by its external address and by the address
      `internal_ip` answers (each given alone, or as a one-element list). */
  lemma HasOwnIds(h: Element)
    ensures !Get(h, "name").List? ==> HasId(h, Get(h, "name"))
    ensures !Get(h, "external_ip").List? ==> HasId(h, Get(h, "external_ip"))
    ensures !InternalIp(h).List? ==> HasId(h, InternalIp(h))
    ensures HasId(h, List([Get(h, "name")]))
    ensures HasId(h, List([Get(h, "external_ip")]))
    ensures HasId(h, List([InternalIp(h)]))
  {
  }

  /** A list argument matches exactly when one of its (scalar) members matches alone. */
  lemma HasIdList(h: Element, xs: seq<Value>)
    requires forall k | 0 <= k < |xs| :: !xs[k].List?
    ensures HasId(h, List(xs)) <==> exists k | 0 <= k < |xs| :: HasId(h, xs[k])
  {
    forall v
      ensures HasId(h, v) <==> exists x | x in Identities(h) :: x in Candidates(v)
    {
      HasIdAmong(h, v);
    }
    AnyCandidate(Identities(h), xs);
  }

  /** `has_id?` asks whether one of the host's identities is a candidate. */
  lemma HasIdAmong(h: Element, val: Value)
    ensures HasId(h, val) <==> exists x | x in Identities(h) :: x in Candidates(val)
  {
    var ids := Identities(h);
    assert ids[0] == InternalIp(h) && ids[1] == Get(h, "external_ip") && ids[2] == Get(h, "name");
  }

  /** Some id is among the scalars `xs` exactly when it is the lone candidate of one of them. */
  lemma AnyCandidate(ids: seq<Value>, xs: seq<Value>)
    requires forall k | 0 <= k < |xs| :: !xs[k].List?
    ensures (exists x | x in ids :: x in Candidates(List(xs)))
            <==> exists k | 0 <= k < |xs| :: exists x | x in ids :: x in Candidates(xs[k])
  {
    if exists x | x in ids :: x in xs {
      var x :| x in ids && x in xs;
      var k :| 0 <= k < |xs| && xs[k] == x;
      assert x in Candidates(xs[k]);
    }
  }

  /** An empty list identifies no host; `nil` identifies every host that lacks a name
      or one of its addresses, since nil then occurs among its identities. */
  lemma HasIdEdgeCases(h: Element)
    ensures !HasId(h, List([]))
    ensures HasId(h, Nil) <==> Get(h, "name") == Nil || Get(h, "external_ip") == Nil
  {
  }

  /** The result of a call that `CloudElement#method_missing` answers: the element
      afterwards and the value the call returns. */
  datatype Dispatch = Dispatch(element: Element, result: Value)

  predicate IsSetterName(name: string) {
    |name| > 0 && name[|name| - 1] == '='
  }

  /** `CloudElement#method_missing` as written: a name ending in `=` stores its first
      argument (nil when called without one) under the whole name, `=` included; any
      other name reads the attribute. */
  function MethodMissing(e: Element, name: string, args: seq<Value>): (d: Dispatch)
    ensures IsSetterName(name) ==> d.element.attrs == e.attrs[name := d.result]
    ensures !IsSetterName(name) ==> d == Dispatch(e, Get(e, name))
    ensures IsSetterName(name) && |args| > 0 ==> d.result == args[0]
    ensures IsSetterName(name) && |args| == 0 ==> d.result == Nil
  {
    if IsSetterName(name) then
      var v := if |args| > 0 then args[0] else Nil;
      Dispatch(Element(e.attrs[name := v]), v)
    else
      Dispatch(e, Get(e, name))
  }

  /** Setting `field` through the dynamic setter leaves the dynamic getter of `field`
      reading what it read before: the setter wrote to the key `field=`. */
  lemma DynamicSetterIsInvisible(e: Element, field: string, v: Value)
    requires !IsSetterName(field)
    ensures MethodMissing(MethodMissing(e, field + "=", [v]).element, field, []).result
            == Get(e, field)
  {
    var e2 := MethodMissing(e, field + "=", [v]).element;
    assert field + "=" != field by {
      assert |field + "="| != |field|;
    }
    assert Get(e2, field) == Get(e, field);
  }

  /** The setter the dynamic one evidently means: store `v` under `field`. */
  function SetField(e: Element, field: string, v: Value): (e': Element)
    ensures Get(e', field) == v
    ensures forall f | f != field :: Get(e', f) == Get(e, f)
  {
    Element(e.attrs[field := v])
  }

  // ----- Cloud: the inventory and its cache -----

  /** The hosts and containers of one stage, in order. */
  datatype Inventory = Inventory(hosts: seq<Element>, containers: seq<Element>)

  const Empty: Inventory := Inventory([], [])

  /** `cloud_provider`: `:boxchief` fetches from the provider, anything else (also an
      unset provider) reads the cache. */
  datatype Provider = Boxchief | CacheOnly

  /** The parts of the deploy environment the inventory reads: the stage name, the
      provider and the working directory (`Dir.pwd`). */
  datatype CloudEnv = CloudEnv(stage: string, provider: Provider, cwd: string)

  /** Path to parsed YAML document, for the files the model reads and writes. */
  type Store = map<string, Value>

  function CloudDirPath(cwd: string): string {
    Paths.Join(Paths.Join(cwd, "config"), "cloud")
  }

  /** `Cloud#cache_file_path`: the cache of stage `s` sits at `cwd/config/cloud/s.yml`
      when `s` is relative. */
  function CacheFilePath(env: CloudEnv): (p: string)
    ensures !Paths.StartsWithSep(env.stage) ==>
              p == Paths.AsDir(env.cwd) + "config/cloud/" + env.stage + ".yml"
  {
    var dir := CloudDirPath(env.cwd);
    Paths.JoinRelative(env.cwd, "config");
    Paths.JoinRelative(Paths.Join(env.cwd, "config"), "cloud");
    assert dir == Paths.AsDir(env.cwd) + "config/cloud";
    Paths.Join(dir, env.stage + ".yml")
  }

  /** The attribute maps of some elements, as the cache stores them. */
  function DataList(es: seq<Element>): (vs: seq<Value>)
    ensures |vs| == |es|
    ensures forall i | 0 <= i < |es| :: vs[i] == Hash(Data(es[i]))
  {
    seq(|es|, i requires 0 <= i < |es| => Hash(Data(es[i])))
  }

  /** The document `update_cache` writes. */
  function CacheDocument(inv: Inventory): Value {
    Hash(map["hosts" := List(DataList(inv.hosts)), "containers" := List(DataList(inv.containers))])
  }

  /** `Cloud#update_cache`: the stage's cache file is rewritten with the inventory; no
      other file changes. */
  function UpdateCache(store: Store, env: CloudEnv, inv: Inventory): (s: Store)
    ensures s.Keys == store.Keys + {CacheFilePath(env)}
    ensures s[CacheFilePath(env)] == CacheDocument(inv)
    ensures forall p | p in store && p != CacheFilePath(env) :: s[p] == store[p]
  {
    store[CacheFilePath(env) := CacheDocument(inv)]
  }

  /** `collect { |h| Element.new(h) }` over loaded records; a record that is not a hash
      cannot be wrapped. */
  function ElementsOf(records: seq<Value>): (r: Outcome<seq<Element>>)
    ensures r.Success? <==> forall i | 0 <= i < |records| :: records[i].Hash?
    ensures r.Success? ==> |r.value| == |records|
    ensures r.Success? ==> forall i | 0 <= i < |records| :: Hash(Data(r.value[i])) == records[i]
  {
    if |records| == 0 then Success([])
    else if !records[0].Hash? then Failure(TypeMismatch("cache record is not a hash"))
    else
      var rest :- ElementsOf(records[1..]);
      Success([FromData(records[0].fields)] + rest)
  }

  /** One list of the cache document: absent, nil or false reads as no elements, and so
      does an empty hash. */
  function ElementList(v: Value): (r: Outcome<seq<Element>>)
    ensures !Truthy(v) || v == Hash(map[]) ==> r == Success([])
    ensures v.List? ==> r == ElementsOf(v.items)
    ensures r.Success? <==> !Truthy(v) || (Members(v).Some? && ElementsOf(Members(v).value).Success?)
  {
    if !Truthy(v) then Success([])
    else match Members(v)
      case Some(records) => ElementsOf(records)
      case None => Failure(TypeMismatch("cache list is not a list"))
  }

  /** `Cloud#get_cached_cloud`. */
  function GetCachedCloud(store: Store, env: CloudEnv): (r: Outcome<Inventory>)
    ensures CacheFilePath(env) !in store ==> r == Success(Empty)
    ensures CacheFilePath(env) in store ==>
              (r.Success? <==>
                 && store[CacheFilePath(env)].Hash?
                 && ElementList(Lookup(store[CacheFilePath(env)].fields, "hosts")).Success?
                 && ElementList(Lookup(store[CacheFilePath(env)].fields, "containers")).Success?)
    ensures CacheFilePath(env) in store && r.Success? ==>
              var doc := store[CacheFilePath(env)].fields;
              r.value == Inventory(ElementList(Lookup(doc, "hosts")).value,
                                   ElementList(Lookup(doc, "containers")).value)
  {
    var path := CacheFilePath(env);
    if path !in store then Success(Empty)
    else
      var doc := store[path];
      if !doc.Hash? then Failure(TypeMismatch("cache document is not a hash"))
      else
        var hosts :- ElementList(Lookup(doc.fields, "hosts"));
        var containers :- ElementList(Lookup(doc.fields, "containers"));
        Success(Inventory(hosts, containers))
  }

  lemma ElementsOfDataList(es: seq<Element>)
    ensures ElementsOf(DataList(es)) == Success(es)
  {
    var records := DataList(es);
    assert forall i | 0 <= i < |records| :: records[i].Hash?;
    var r := ElementsOf(records);
    assert |r.value| == |es|;
    forall i | 0 <= i < |es|
      ensures r.value[i] == es[i]
    {
      assert Hash(Data(r.value[i])) == records[i] == Hash(Data(es[i]));
    }
    assert r.value == es;
  }

  /** Writing the cache and reading it back reproduces the inventory: the same
      elements, with equal attribute maps, in the same order. */
  lemma {:induction false} CacheRoundTrip(store: Store, env: CloudEnv, inv: Inventory)
    ensures GetCachedCloud(UpdateCache(store, env, inv), env) == Success(inv)
  {
    ElementsOfDataList(inv.hosts);
    ElementsOfDataList(inv.containers);
  }

  /** A server entry the loop can read with `sd[key]`: a hash, or a string, which
      answers each key it contains and nil for the others. */
  predicate Readable(sd: Value) {
    sd.Hash? || sd.Str?
  }

  /** The host `get_boxchief_cloud` builds from one server entry of the response. */
  function ServerHost(sd: Value): (h: Element)
    requires Readable(sd)
    ensures h.attrs.Keys == {"name", "external_ip", "roles", "cloud_provider"}
    ensures Get(h, "name") == Index(sd, "hostname").value
    ensures Get(h, "external_ip") == Index(sd, "ip").value
    ensures Get(h, "roles") == Index(sd, "roles").value
    ensures Get(h, "cloud_provider") == Str("boxchief")
    ensures sd.Hash? ==> Get(h, "name") == Lookup(sd.fields, "hostname")
                         && Get(h, "external_ip") == Lookup(sd.fields, "ip")
                         && Get(h, "roles") == Lookup(sd.fields, "roles")
  {
    Element(map[
      "name" := Index(sd, "hostname").value,
      "external_ip" := Index(sd, "ip").value,
      "roles" := Index(sd, "roles").value,
      "cloud_provider" := Str("boxchief")])
  }

  /** A string entry that contains none of the three keys becomes a host whose name,
      address and roles are all nil. */
  lemma PlainStringServer(s: string)
    requires !Occurs("hostname", s) && !Occurs("ip", s) && !Occurs("roles", s)
    ensures var h := ServerHost(Str(s));
            Get(h, "name") == Nil && Get(h, "external_ip") == Nil && Get(h, "roles") == Nil
  {
  }

  function ServerHosts(servers: seq<Value>): (r: Outcome<seq<Element>>)
    ensures r.Success? <==> forall i | 0 <= i < |servers| :: Readable(servers[i])
    ensures r.Success? ==> |r.value| == |servers|
    ensures r.Success? ==> forall i | 0 <= i < |servers| :: r.value[i] == ServerHost(servers[i])
  {
    if |servers| == 0 then Success([])
    else if !Readable(servers[0]) then Failure(TypeMismatch("server entry cannot be indexed"))
    else
      var h := ServerHost(servers[0]);
      var rest :- ServerHosts(servers[1..]);
      var hs := [h] + rest;
      assert hs[0] == h && hs[1..] == rest;
      Success(hs)
  }

  /** `Cloud#get_boxchief_cloud` on the parsed response: an explicit `success: false`
      fails with the response's `error`; otherwise every server becomes a host, in order. */
  function GetBoxchiefCloud(response: Value): (r: Outcome<seq<Element>>)
    ensures !response.Hash? ==> r.Failure? && !r.error.BoxchiefError?
    ensures response.Hash? && Lookup(response.fields, "success") == Bool(false) ==>
              r == Failure(BoxchiefError(Lookup(response.fields, "error")))
    ensures response.Hash? && Lookup(response.fields, "success") != Bool(false) ==>
              var data := Lookup(response.fields, "data");
              && (Members(data).None? ==> r.Failure? && !r.error.BoxchiefError?)
              && (Members(data).Some? ==> r == ServerHosts(Members(data).value))
  {
    if !response.Hash? then Failure(TypeMismatch("response is not a hash"))
    else if Lookup(response.fields, "success") == Bool(false) then
      Failure(BoxchiefError(Lookup(response.fields, "error")))
    else
      match Members(Lookup(response.fields, "data"))
      case None => Failure(TypeMismatch("response data is not a list"))
      case Some(servers) => ServerHosts(servers)
  }

  /** What a source hands to `update`: hosts, and containers unless the source has none
      (the provider path returns only hosts). */
  datatype Fetched = Fetched(hosts: seq<Element>, containers: Option<seq<Element>>)

  /** The outcome of `Cloud#update`. A failure leaves the inventory emptied (its lists are
      reset before the fetch) and the cache untouched. */
  datatype UpdateResult =
    | Updated(inventory: Inventory, store: Store)
    | UpdateFailed(inventory: Inventory, error: Error)

  /** `Cloud#update`: fetch from the provider or the cache, default missing containers to
      none, keep the result and rewrite the cache with it. */
  function Update(env: CloudEnv, store: Store, response: Value): (u: UpdateResult)
    ensures u.Updated? <==> (if env.provider == Boxchief then GetBoxchiefCloud(response).Success?
                             else GetCachedCloud(store, env).Success?)
    ensures u.UpdateFailed? ==>
              u.error == (if env.provider == Boxchief then GetBoxchiefCloud(response).error
                          else GetCachedCloud(store, env).error)
    ensures u.UpdateFailed? ==> u.inventory == Empty
    ensures u.Updated? ==> u.store == UpdateCache(store, env, u.inventory)
    ensures env.provider == Boxchief && u.Updated? ==>
              u.inventory.containers == [] && Success(u.inventory.hosts) == GetBoxchiefCloud(response)
    ensures env.provider == CacheOnly && u.Updated? ==>
              Success(u.inventory) == GetCachedCloud(store, env)
  {
    var fetched :=
      if env.provider == Boxchief then
        (match GetBoxchiefCloud(response)
         case Success(hosts) => Success(Fetched(hosts, None))
         case Failure(e) => Failure(e))
      else
        (match GetCachedCloud(store, env)
         case Success(inv) => Success(Fetched(inv.hosts, Some(inv.containers)))
         case Failure(e) => Failure(e));
    match fetched
    case Failure(e) => UpdateFailed(Empty, e)
    case Success(data) =>
      var inv := Inventory(data.hosts, data.containers.GetOr([]));
      Updated(inv, UpdateCache(store, env, inv))
  }

  /** Reading a stage whose cache file does not exist gives an empty inventory, not an
      error, and creates the cache holding empty lists. */
  lemma MissingCacheIsEmpty(env: CloudEnv, store: Store, response: Value)
    requires env.provider == CacheOnly
    requires CacheFilePath(env) !in store
    ensures Update(env, store, response) == Updated(Empty, store[CacheFilePath(env) := CacheDocument(Empty)])
  {
  }

  /** After an update the cache holds exactly the inventory that was kept. */
  lemma UpdateRefreshesCache(env: CloudEnv, store: Store, response: Value)
    requires Update(env, store, response).Updated?
    ensures var u := Update(env, store, response);
            GetCachedCloud(u.store, env) == Success(u.inventory)
  {
    var u := Update(env, store, response);
    CacheRoundTrip(store, env, u.inventory);
  }

  /** Updating from the cache a second time changes nothing: same inventory, same files. */
  lemma CachedUpdateIsIdempotent(env: CloudEnv, store: Store, response: Value)
    requires env.provider == CacheOnly
    requires Update(env, store, response).Updated?
    ensures var u := Update(env, store, response);
            Update(env, u.store, response) == u
  {
    var u := Update(env, store, response);
    CacheRoundTrip(store, env, u.inventory);
    assert u.store[CacheFilePath(env) := CacheDocument(u.inventory)] == u.store;
  }

  /** A provider answer with `success: false` aborts the update with the provider's
      error, leaving the inventory empty. */
  lemma BoxchiefFailureAborts(env: CloudEnv, store: Store, fields: Fields)
    requires env.provider == Boxchief
    requires Lookup(fields, "success") == Bool(false)
    ensures Update(env, store, Hash(fields)) == UpdateFailed(Empty, BoxchiefError(Lookup(fields, "error")))
    ensures var detail := Render(Lookup(fields, "error"));
            detail.Some? ==> Message(BoxchiefError(Lookup(fields, "error"))) == Some("Boxchief Error: " + detail.value)
  {
  }
}
