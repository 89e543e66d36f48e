/** Kubernetes specs (`KubeSpec`, and its `Component` and `Job` kinds): option
    defaulting and template resolution, the images and groups a spec references, its
    merged environment, its per-container options, the tag check before a spec is built,
    the replica default, and the verdict on each poll of a running job. The template
    files that exist are passed in as a set of paths, the context's image and group
    tables as maps from id to options. */
module Kube {
  import opened Results
  import opened Values
  import Paths
  import Words

  /** The option hash of a spec. */
  type Options = Fields

  /** What a spec reads from the deploy context. */
  datatype KubeContext = KubeContext(
    kubePath: string,
    buildKubePath: string,
    images: map<Value, Value>,
    groups: map<Value, Value>)

  // ----- prepare_options -----

  /** The options `prepare_options` fills in when they are nil or false, in the order it
      fills them. */
  const DefaultedOrder: seq<string> := ["groups", "images", "containers", "file_name", "file_subdir", "env"]

  const DefaultedKeys: set<string> := set k | k in DefaultedOrder

  /** The default of an option of `DefaultedKeys`: the spec's own group, no images, no
      containers, a template named after the spec in no subdirectory, an empty env. */
  function DefaultFor(id: string, key: string): (v: Value)
    ensures Truthy(v)
  {
    if key == "groups" then List([Str(id)])
    else if key == "images" || key == "containers" then List([])
    else if key == "file_name" then Str(id)
    else if key == "file_subdir" then Str("")
    else Hash(map[])
  }

  /** `opts[key] ||= default`. */
  function FillIn(opts: Options, key: string, default: Value): Options {
    if Truthy(Lookup(opts, key)) then opts else opts[key := default]
  }

  /** `opts[k] ||= default` for each option `k` of `keys` in turn. */
  function FillAll(id: string, opts: Options, keys: seq<string>): Options
    decreases |keys|
  {
    if |keys| == 0 then opts else FillAll(id, FillIn(opts, keys[0], DefaultFor(id, keys[0])), keys[1..])
  }

  /** Defaulting in one step: each option of `keys` keeps a truthy value and otherwise
      takes its default; every other option is kept. */
  function Defaulted(id: string, opts: Options, keys: set<string>): Options {
    map k | k in opts.Keys + keys :: if k in keys && !Truthy(Lookup(opts, k)) then DefaultFor(id, k) else opts[k]
  }

  /** Filling the options in one at a time gives the one-step defaulting, because no
      default is falsy and so no later `||=` undoes an earlier one. */
  lemma {:induction false} FillAllDefaulted(id: string, opts: Options, keys: seq<string>)
    ensures FillAll(id, opts, keys) == Defaulted(id, opts, set k | k in keys)
    decreases |keys|
  {
    if |keys| == 0 {
      assert Defaulted(id, opts, {}) == opts;
    } else {
      var k0, rest := keys[0], keys[1..];
      var o := FillIn(opts, k0, DefaultFor(id, k0));
      FillAllDefaulted(id, o, rest);
      var later := set k | k in rest;
      assert (set k | k in keys) == {k0} + later by {
        assert forall k | k in keys :: k == k0 || k in rest;
      }
      DefaultedStep(id, opts, k0, later);
    }
  }

  /** Filling in one option, then the rest in one step, is filling in all in one step. */
  lemma DefaultedStep(id: string, opts: Options, k0: string, later: set<string>)
    ensures Defaulted(id, FillIn(opts, k0, DefaultFor(id, k0)), later) == Defaulted(id, opts, {k0} + later)
  {
    var o := FillIn(opts, k0, DefaultFor(id, k0));
    var lhs, rhs := Defaulted(id, o, later), Defaulted(id, opts, {k0} + later);
    assert o.Keys == opts.Keys + {k0};
    assert lhs.Keys == rhs.Keys;
    forall k | k in lhs
      ensures lhs[k] == rhs[k]
    {
      if k != k0 {
        assert Lookup(o, k) == Lookup(opts, k);
      }
    }
  }

  /** The first half of `prepare_options`, in one step: `name` is set to the spec's id
      and the options of `DefaultedKeys` are defaulted. */
  function WithDefaults(id: string, opts: Options): Options {
    Defaulted(id, opts["name" := Str(id)], DefaultedKeys)
  }

  /** The source's statement order, `name` first and then `||=` on each option of
      `DefaultedOrder`, gives the same options. */
  lemma WithDefaultsInOrder(id: string, opts: Options)
    ensures FillAll(id, opts["name" := Str(id)], DefaultedOrder) == WithDefaults(id, opts)
  {
    FillAllDefaulted(id, opts["name" := Str(id)], DefaultedOrder);
  }

  /** After defaulting, `name` is the spec's id, each defaulted option keeps a truthy value
      and otherwise has its default, and every other option is kept. */
  lemma WithDefaultsSpec(id: string, opts: Options)
    ensures WithDefaults(id, opts).Keys == opts.Keys + {"name"} + DefaultedKeys
    ensures WithDefaults(id, opts)["name"] == Str(id)
    ensures forall k | k in DefaultedKeys ::
              WithDefaults(id, opts)[k] == (if Truthy(Lookup(opts, k)) then opts[k] else DefaultFor(id, k))
    ensures forall k | k in opts && k != "name" && k !in DefaultedKeys :: WithDefaults(id, opts)[k] == opts[k]
  {
    var r := WithDefaults(id, opts);
    var named := opts["name" := Str(id)];
    assert "name" !in DefaultedKeys;
    assert r.Keys == named.Keys + DefaultedKeys;
    forall k | k in DefaultedKeys
      ensures r[k] == (if Truthy(Lookup(opts, k)) then opts[k] else DefaultFor(id, k))
    {
      assert Lookup(named, k) == Lookup(opts, k);
    }
  }


  /** Defaulting leaves every option other than `name` and the defaulted ones alone. */
  lemma WithDefaultsKeeps(id: string, opts: Options, k: string)
    requires k != "name" && k !in DefaultedKeys
    ensures Lookup(WithDefaults(id, opts), k) == Lookup(opts, k)
  {
    WithDefaultsSpec(id, opts);
  }

  /** The extensions a template is looked for with, in order of preference. */
  const TemplateExtensions: seq<string> := [".yml", ".yml.rb"]

  /** The first of `base + ext` over `exts` that exists. */
  function FirstExisting(base: string, exts: seq<string>, exists_: set<string>): (file: Option<string>)
    ensures file.None? <==> forall i | 0 <= i < |exts| :: base + exts[i] !in exists_
    ensures file.Some? ==>
              exists i | 0 <= i < |exts| ::
                && file.value == base + exts[i] && file.value in exists_
                && forall j | 0 <= j < i :: base + exts[j] !in exists_
  {
    if |exts| == 0 then None
    else if base + exts[0] in exists_ then Some(base + exts[0])
    else
      var rest := FirstExisting(base, exts[1..], exists_);
      assert forall i | 1 <= i < |exts| :: exts[1..][i - 1] == exts[i];
      rest
  }

  /** Template resolution: `.yml` is preferred over `.yml.rb`; none when neither exists. */
  function ResolveTemplate(base: string, exists_: set<string>): (file: Option<string>)
    ensures file.None? <==> base + ".yml" !in exists_ && base + ".yml.rb" !in exists_
    ensures base + ".yml" in exists_ ==> file == Some(base + ".yml")
    ensures base + ".yml" !in exists_ && base + ".yml.rb" in exists_ ==> file == Some(base + ".yml.rb")
    ensures file.Some? ==> file.value in exists_ && (file.value == base + ".yml" || file.value == base + ".yml.rb")
    ensures file.Some? ==> !Blank(Str(file.value))
  {
    var exts := TemplateExtensions;
    assert |exts| == 2 && exts[0] == ".yml" && exts[1] == ".yml.rb";
    var file := FirstExisting(base, exts, exists_);
    assert (base + ".yml")[|base| + 3] == 'l' && (base + ".yml.rb")[|base| + 6] == 'b';
    assert file.Some? ==> !IsBlankChar(file.value[|file.value| - 1]);
    file
  }

  /** An argument of `File.join` as the path text it stands for: a string as it is, and
      an array joined on its own, element by element. Ruby raises a TypeError for any
      other value (nil, booleans, numbers, hashes), here `None`. */
  function PathPart(v: Value): (p: Option<string>)
    ensures v.Str? ==> p == Some(v.text)
    ensures !v.Str? && !v.List? ==> p.None?
    ensures v.List? ==> (p.Some? <==> forall i | 0 <= i < |v.items| :: PathPart(v.items[i]).Some?)
  {
    match v
    case Str(s) => Some(s)
    case List(items) =>
      if forall i | 0 <= i < |items| :: PathPart(items[i]).Some? then
        Some(Paths.JoinAll(seq(|items|, i requires 0 <= i < |items| && PathPart(items[i]).Some? => PathPart(items[i]).value)))
      else None
    case _ => None
  }

  /** An array of strings passed to `File.join` is joined like the strings themselves. */
  lemma StringListPart(ss: seq<string>)
    ensures PathPart(List(StrList(ss))) == Some(Paths.JoinAll(ss))
  {
    var items := StrList(ss);
    var texts := seq(|items|, i requires 0 <= i < |items| && PathPart(items[i]).Some? => PathPart(items[i]).value);
    assert texts == ss;
  }

  /** `File.join(kube_path, file_subdir, file_name)`, when both options are strings or
      arrays of them (Ruby raises a TypeError otherwise). */
  function TemplateBase(ctx: KubeContext, o: Options): (base: Option<string>)
    ensures base.Some? <==> PathPart(Lookup(o, "file_subdir")).Some? && PathPart(Lookup(o, "file_name")).Some?
    ensures base.Some? ==>
              var sub, name := PathPart(Lookup(o, "file_subdir")).value, PathPart(Lookup(o, "file_name")).value;
              !Paths.StartsWithSep(sub) && !Paths.StartsWithSep(name) ==>
                base.value == Paths.AsDir(Paths.AsDir(ctx.kubePath) + sub) + name
  {
    match (PathPart(Lookup(o, "file_subdir")), PathPart(Lookup(o, "file_name")))
    case (Some(sub), Some(name)) =>
      if !Paths.StartsWithSep(sub) && !Paths.StartsWithSep(name) then
        Paths.JoinRelative(ctx.kubePath, sub);
        Paths.JoinRelative(Paths.Join(ctx.kubePath, sub), name);
        Some(Paths.Join(Paths.Join(ctx.kubePath, sub), name))
      else Some(Paths.Join(Paths.Join(ctx.kubePath, sub), name))
    case _ => None
  }

  /** A subdirectory given as an array of plain names, such as `["jobs", "batch"]`, puts
      the template at `kube_path/jobs/batch/<file_name>`. */
  lemma NestedSubdirTemplate(ctx: KubeContext, o: Options, dirs: seq<string>, name: string)
    requires |dirs| > 0 && forall i | 0 <= i < |dirs| :: Paths.Plain(dirs[i])
    requires Lookup(o, "file_subdir") == List(StrList(dirs))
    requires Lookup(o, "file_name") == Str(name) && !Paths.StartsWithSep(name)
    ensures TemplateBase(ctx, o) == Some(Paths.AsDir(ctx.kubePath) + Paths.Slashed(dirs) + [Paths.Sep] + name)
  {
    StringListPart(dirs);
    Paths.JoinAllPlain(dirs);
    var sub := Paths.JoinAll(dirs);
    assert PathPart(Lookup(o, "file_subdir")) == Some(sub);
    assert PathPart(Lookup(o, "file_name")) == Some(name);
    Paths.PlainDirBelow(ctx.kubePath, sub);
  }

  /** `KubeSpec#prepare_options`: defaulting, then locating the template and build files.
      It fails for want of a template exactly when the template path is well formed,
      neither template file exists and the configured `file` is blank, and otherwise
      succeeds whenever the `id` option renders. On success `name` is the id, each
      defaulted option keeps a truthy value or takes its default, `file` is the template
      found (`.yml` before `.yml.rb`) or else the configured one, `build_file` is
      `build_kube_path/file_subdir/<id>.yml`, and every other option is kept. */
  function PrepareOptions(id: string, opts: Options, ctx: KubeContext, exists_: set<string>): (r: Outcome<Options>)
    ensures var base := TemplateBase(ctx, WithDefaults(id, opts));
            (r == Failure(KubeFileNotFound) <==>
               base.Some? && ResolveTemplate(base.value, exists_).None? && Blank(Lookup(opts, "file")))
    ensures r.Success? ==>
              && r.value.Keys == opts.Keys + {"name", "file", "build_file"} + DefaultedKeys
              && r.value["name"] == Str(id)
              && (forall k | k in DefaultedKeys ::
                    r.value[k] == (if Truthy(Lookup(opts, k)) then opts[k] else DefaultFor(id, k)))
              && (forall k | k in opts && k != "name" && k != "file" && k != "build_file" && k !in DefaultedKeys ::
                    r.value[k] == opts[k])
              && !Blank(r.value["file"])
              && r.value["build_file"].Str?
    ensures TemplateBase(ctx, WithDefaults(id, opts)).None? ==> r.Failure? && r.error.TypeMismatch?
    ensures var base := TemplateBase(ctx, WithDefaults(id, opts));
            base.Some? ==>
              var found := ResolveTemplate(base.value, exists_);
              && (r.Success? <==> (found.Some? || !Blank(Lookup(opts, "file"))) && Render(Lookup(opts, "id")).Some?)
              && (r.Success? && found.Some? ==> r.value["file"] == Str(found.value))
              && (r.Success? && found.None? ==> r.value["file"] == opts["file"])
              && (r.Success? ==>
                    r.value["build_file"]
                    == Str(Paths.Join(Paths.Join(ctx.buildKubePath, PathPart(Lookup(WithDefaults(id, opts), "file_subdir")).value),
                                      Render(Lookup(opts, "id")).value + ".yml")))
  {
    var r := LocateFiles(WithDefaults(id, opts), ctx, exists_);
    WithDefaultsKeeps(id, opts, "file");
    LocateDefaulted(id, opts, ctx, exists_);
    if r.Success? then
      DefaultsSurviveLocate(id, opts, r.value["file"], r.value["build_file"]);
      r
    else r
  }

  /** Locating the files of the defaulted options, restated in terms of the options as
      given: defaulting touches neither `file` nor `id`. */
  lemma LocateDefaulted(id: string, opts: Options, ctx: KubeContext, exists_: set<string>)
    ensures var r := LocateFiles(WithDefaults(id, opts), ctx, exists_);
            TemplateBase(ctx, WithDefaults(id, opts)).None? ==> r.Failure? && r.error.TypeMismatch?
    ensures var r := LocateFiles(WithDefaults(id, opts), ctx, exists_);
            var base := TemplateBase(ctx, WithDefaults(id, opts));
            base.Some? ==>
              var found := ResolveTemplate(base.value, exists_);
              && (r.Success? <==> (found.Some? || !Blank(Lookup(opts, "file"))) && Render(Lookup(opts, "id")).Some?)
              && (r.Success? && found.Some? ==> r.value["file"] == Str(found.value))
              && (r.Success? && found.None? ==> r.value["file"] == opts["file"])
              && (r.Success? ==>
                    r.value["build_file"]
                    == Str(Paths.Join(Paths.Join(ctx.buildKubePath, PathPart(Lookup(WithDefaults(id, opts), "file_subdir")).value),
                                      Render(Lookup(opts, "id")).value + ".yml")))
  {
    WithDefaultsKeeps(id, opts, "file");
    WithDefaultsKeeps(id, opts, "id");
  }

  /** Setting `file` and `build_file` after defaulting keeps what defaulting did. */
  lemma DefaultsSurviveLocate(id: string, opts: Options, file: Value, buildFile: Value)
    ensures var r := WithDefaults(id, opts)["file" := file]["build_file" := buildFile];
            && r.Keys == opts.Keys + {"name", "file", "build_file"} + DefaultedKeys
            && r["name"] == Str(id)
            && (forall k | k in DefaultedKeys ::
                  r[k] == (if Truthy(Lookup(opts, k)) then opts[k] else DefaultFor(id, k)))
            && (forall k | k in opts && k != "name" && k != "file" && k != "build_file" && k !in DefaultedKeys ::
                  r[k] == opts[k])
  {
    WithDefaultsSpec(id, opts);
    LocatedKeysNotDefaulted();
    DefaultedThenSet(id, opts, WithDefaults(id, opts), file, buildFile);
  }

  /** `file` and `build_file` are never defaulted. */
  lemma LocatedKeysNotDefaulted()
    ensures "file" !in DefaultedKeys && "build_file" !in DefaultedKeys
  {
    assert "file" !in DefaultedOrder && "build_file" !in DefaultedOrder;
  }

  /** The step of `DefaultsSurviveLocate` for any options `o` that `opts` defaults to. */
  lemma DefaultedThenSet(id: string, opts: Options, o: Options, file: Value, buildFile: Value)
    requires "file" !in DefaultedKeys && "build_file" !in DefaultedKeys
    requires o.Keys == opts.Keys + {"name"} + DefaultedKeys
    requires o["name"] == Str(id)
    requires forall k | k in DefaultedKeys :: o[k] == (if Truthy(Lookup(opts, k)) then opts[k] else DefaultFor(id, k))
    requires forall k | k in opts && k != "name" && k !in DefaultedKeys :: o[k] == opts[k]
    ensures var r := o["file" := file]["build_file" := buildFile];
            && r.Keys == opts.Keys + {"name", "file", "build_file"} + DefaultedKeys
            && r["name"] == Str(id)
            && (forall k | k in DefaultedKeys ::
                  r[k] == (if Truthy(Lookup(opts, k)) then opts[k] else DefaultFor(id, k)))
            && (forall k | k in opts && k != "name" && k != "file" && k != "build_file" && k !in DefaultedKeys ::
                  r[k] == opts[k])
  {
  }

  /** The second half of `prepare_options`, on defaulted options `o`. The result is `o`
      with `file` and `build_file` set: a template found on disk becomes `file`, and the
      spec fails when no template is found and no non-blank `file` was configured. */
  function LocateFiles(o: Options, ctx: KubeContext, exists_: set<string>): (r: Outcome<Options>)
    ensures r.Success? ==>
              && "file" in r.value && "build_file" in r.value
              && r.value == o["file" := r.value["file"]]["build_file" := r.value["build_file"]]
              && !Blank(r.value["file"])
              && r.value["build_file"].Str?
    ensures TemplateBase(ctx, o).None? ==> r.Failure? && r.error.TypeMismatch?
    ensures TemplateBase(ctx, o).Some? ==>
              var found := ResolveTemplate(TemplateBase(ctx, o).value, exists_);
              && (r == Failure(KubeFileNotFound) <==> found.None? && Blank(Lookup(o, "file")))
              && (r.Success? <==> (found.Some? || !Blank(Lookup(o, "file"))) && Render(Lookup(o, "id")).Some?)
              && (r.Success? && found.Some? ==> r.value["file"] == Str(found.value))
              && (r.Success? && found.None? ==> r.value["file"] == o["file"])
              && (r.Success? ==>
                    r.value["build_file"]
                    == Str(Paths.Join(Paths.Join(ctx.buildKubePath, PathPart(o["file_subdir"]).value),
                                      Render(Lookup(o, "id")).value + ".yml")))
  {
    match TemplateBase(ctx, o)
    case None => Failure(TypeMismatch("template path part is not a string or array"))
    case Some(base) =>
      var found := ResolveTemplate(base, exists_);
      var o2 := if found.Some? then o["file" := Str(found.value)] else o;
      Finish(o2, PathPart(Lookup(o, "file_subdir")).value, ctx)
  }

  /** The end of `prepare_options`, once the template search is done: fail without a
      non-blank `file`, else add `build_file`. */
  function Finish(o: Options, subdir: string, ctx: KubeContext): (r: Outcome<Options>)
    ensures r == Failure(KubeFileNotFound) <==> Blank(Lookup(o, "file"))
    ensures !Blank(Lookup(o, "file")) && Render(Lookup(o, "id")).Some? ==> r.Success?
    ensures r.Success? ==>
              && "file" in o && !Blank(o["file"])
              && Render(Lookup(o, "id")).Some?
              && var buildFile := Paths.Join(Paths.Join(ctx.buildKubePath, subdir), Render(Lookup(o, "id")).value + ".yml");
                 r.value == o["build_file" := Str(buildFile)]
  {
    if Blank(Lookup(o, "file")) then Failure(KubeFileNotFound)
    else
      match Render(Lookup(o, "id"))
      case None => Failure(TypeMismatch("spec id is a list or hash"))
      case Some(idText) =>
        var buildFile := Paths.Join(Paths.Join(ctx.buildKubePath, subdir), idText + ".yml");
        Success(o["build_file" := Str(buildFile)])
  }

  /** With neither template present and no `file` configured, preparing a spec fails with
      "Kube config file could not be found." */
  lemma MissingTemplateFails(id: string, opts: Options, ctx: KubeContext, exists_: set<string>)
    requires "file" !in opts && "file_subdir" !in opts && "file_name" !in opts
    requires Paths.Join(Paths.AsDir(ctx.kubePath), id) + ".yml" !in exists_
    requires Paths.Join(Paths.AsDir(ctx.kubePath), id) + ".yml.rb" !in exists_
    ensures PrepareOptions(id, opts, ctx, exists_) == Failure(KubeFileNotFound)
    ensures Message(PrepareOptions(id, opts, ctx, exists_).error) == Some("Kube config file could not be found.")
  {
    var o := WithDefaults(id, opts);
    var base := Paths.Join(Paths.AsDir(ctx.kubePath), id);
    assert TemplateBase(ctx, o) == Some(base) by {
      DefaultTemplateParts(id, opts);
      Paths.JoinEmpty(ctx.kubePath);
    }
    assert ResolveTemplate(base, exists_).None?;
  }

  /** With no subdirectory or file name configured, the template is looked for as
      `kube_path/id.yml`, then `kube_path/id.yml.rb`. */
  lemma DefaultTemplateLocation(id: string, opts: Options, ctx: KubeContext)
    requires "file_subdir" !in opts && "file_name" !in opts
    requires !Paths.StartsWithSep(id)
    ensures TemplateBase(ctx, WithDefaults(id, opts)) == Some(Paths.AsDir(ctx.kubePath) + id)
  {
    DefaultTemplateParts(id, opts);
    Paths.JoinEmpty(ctx.kubePath);
    Paths.JoinRelative(Paths.AsDir(ctx.kubePath), id);
  }

  /** Unconfigured, the template's subdirectory is empty and its name is the id. */
  lemma DefaultTemplateParts(id: string, opts: Options)
    requires "file_subdir" !in opts && "file_name" !in opts
    ensures Lookup(WithDefaults(id, opts), "file_subdir") == Str("")
    ensures Lookup(WithDefaults(id, opts), "file_name") == Str(id)
  {
    assert DefaultedOrder[3] == "file_name" && DefaultedOrder[4] == "file_subdir";
    var named := opts["name" := Str(id)];
    assert Lookup(named, "file_subdir") == Nil && Lookup(named, "file_name") == Nil;
  }

  // ----- images, groups, full_env -----

  /** `(self[key] || [])`: a list of ids, where nil, false or an empty hash means none. */
  function IdList(v: Value): (r: Outcome<seq<Value>>)
    ensures !Truthy(v) || v == Hash(map[]) ==> r == Success([])
    ensures v.List? ==> r == Success(v.items)
    ensures r.Success? <==> !Truthy(v) || Members(v).Some?
  {
    if !Truthy(v) then Success([])
    else match Members(v)
      case Some(ids) => Success(ids)
      case None => Failure(TypeMismatch("id list cannot be iterated"))
  }

  /** `ids.collect { |id| table[id] }.compact`: the entries of the known ids, in order;
      unknown ids (and ids mapped to nil) are dropped silently. */
  function ResolveIds(ids: seq<Value>, table: map<Value, Value>): (found: seq<Value>)
    ensures |found| <= |ids|
    ensures forall x | x in found :: x != Nil && x in table.Values
    ensures (forall i | 0 <= i < |ids| :: ids[i] in table && table[ids[i]] != Nil) ==>
              |found| == |ids| && forall i | 0 <= i < |ids| :: found[i] == table[ids[i]]
  {
    if |ids| == 0 then []
    else
      var rest := ResolveIds(ids[1..], table);
      if ids[0] in table && table[ids[0]] != Nil then [table[ids[0]]] + rest else rest
  }

  /** Resolving a concatenation resolves each part. */
  lemma {:induction false} ResolveIdsAppend(a: seq<Value>, b: seq<Value>, table: map<Value, Value>)
    ensures ResolveIds(a + b, table) == ResolveIds(a, table) + ResolveIds(b, table)
  {
    if |a| == 0 {
      assert a + b == b;
    } else {
      assert (a + b)[1..] == a[1..] + b;
      ResolveIdsAppend(a[1..], b, table);
    }
  }

  /** An id that is unknown, or mapped to nil, contributes nothing, wherever it occurs. */
  lemma UnknownIdIsDropped(a: seq<Value>, id: Value, b: seq<Value>, table: map<Value, Value>)
    requires id !in table || table[id] == Nil
    ensures ResolveIds(a + [id] + b, table) == ResolveIds(a + b, table)
  {
    ResolveIdsAppend(a + [id], b, table);
    ResolveIdsAppend(a, [id], table);
    ResolveIdsAppend(a, b, table);
    assert ResolveIds([id], table) == [] by {
      assert [id][1..] == [];
    }
    assert ResolveIds(a, table) + [] == ResolveIds(a, table);
  }

  /** `KubeSpec#images`. */
  function Images(opts: Options, ctx: KubeContext): (r: Outcome<seq<Value>>)
    ensures IdList(Lookup(opts, "images")).Success? <==> r.Success?
    ensures r.Success? ==> r.value == ResolveIds(IdList(Lookup(opts, "images")).value, ctx.images)
  {
    var ids :- IdList(Lookup(opts, "images"));
    Success(ResolveIds(ids, ctx.images))
  }

  /** `KubeSpec#groups`. */
  function Groups(opts: Options, ctx: KubeContext): (r: Outcome<seq<Value>>)
    ensures IdList(Lookup(opts, "groups")).Success? <==> r.Success?
    ensures r.Success? ==> r.value == ResolveIds(IdList(Lookup(opts, "groups")).value, ctx.groups)
  {
    var ids :- IdList(Lookup(opts, "groups"));
    Success(ResolveIds(ids, ctx.groups))
  }

  /** `g[:env] || {}` for one group: a group that is not a hash, or whose env is neither
      falsy nor a hash, is a type error. */
  function GroupEnv(g: Value): (r: Outcome<Fields>)
    ensures r.Success? <==> g.Hash? && (!Truthy(Lookup(g.fields, "env")) || Lookup(g.fields, "env").Hash?)
    ensures r.Success? && !Truthy(Lookup(g.fields, "env")) ==> r.value == map[]
    ensures r.Success? && Truthy(Lookup(g.fields, "env")) ==> r.value == Lookup(g.fields, "env").fields
  {
    if !g.Hash? then Failure(TypeMismatch("group is not a hash"))
    else
      var e := Lookup(g.fields, "env");
      if !Truthy(e) then Success(map[])
      else if e.Hash? then Success(e.fields)
      else Failure(TypeMismatch("group env is not a hash"))
  }

  function GroupEnvs(gs: seq<Value>): (r: Outcome<seq<Fields>>)
    ensures r.Success? <==> forall i | 0 <= i < |gs| :: GroupEnv(gs[i]).Success?
    ensures r.Success? ==> |r.value| == |gs| && forall i | 0 <= i < |gs| :: r.value[i] == GroupEnv(gs[i]).value
  {
    if |gs| == 0 then Success([])
    else
      var first :- GroupEnv(gs[0]);
      var rest :- GroupEnvs(gs[1..]);
      Success([first] + rest)
  }

  /** Env `i` is the last of `envs` to bind `k`. */
  predicate LastBinder(envs: seq<Fields>, k: string, i: int) {
    0 <= i < |envs| && k in envs[i] && forall j | i < j < |envs| :: k !in envs[j]
  }

  /** Some env of `envs` binds `k`. */
  predicate BoundIn(envs: seq<Fields>, k: string) {
    exists i | 0 <= i < |envs| :: k in envs[i]
  }

  /** What merging `envs` left to right yields: the keys some env binds, each to the
      value of the last env binding it. */
  ghost predicate MergedFrom(env: Fields, envs: seq<Fields>) {
    && (forall k :: k in env <==> BoundIn(envs, k))
    && (forall k | k in env :: exists i :: LastBinder(envs, k, i) && env[k] == envs[i][k])
  }

  lemma BoundInSnoc(envs: seq<Fields>, k: string)
    requires |envs| > 0
    ensures BoundIn(envs, k) <==> BoundIn(envs[..|envs| - 1], k) || k in envs[|envs| - 1]
  {
    var n := |envs| - 1;
    if BoundIn(envs[..n], k) {
      var i :| 0 <= i < n && k in envs[..n][i];
      assert k in envs[i];
    }
    if BoundIn(envs, k) {
      var i :| 0 <= i < |envs| && k in envs[i];
      if i < n {
        assert k in envs[..n][i];
      }
    }
  }

  lemma LastBinderSnoc(envs: seq<Fields>, k: string, i: int)
    requires |envs| > 0 && k !in envs[|envs| - 1]
    requires LastBinder(envs[..|envs| - 1], k, i)
    ensures LastBinder(envs, k, i) && envs[..|envs| - 1][i] == envs[i]
  {
  }

  lemma MergeOneMore(earlier: Fields, envs: seq<Fields>)
    requires |envs| > 0 && MergedFrom(earlier, envs[..|envs| - 1])
    ensures MergedFrom(earlier + envs[|envs| - 1], envs)
  {
    var n := |envs| - 1;
    var last := envs[n];
    var env := earlier + last;
    forall k
      ensures k in env <==> BoundIn(envs, k)
    {
      BoundInSnoc(envs, k);
    }
    forall k | k in env
      ensures exists i :: LastBinder(envs, k, i) && env[k] == envs[i][k]
    {
      if k in last {
        assert LastBinder(envs, k, n);
      } else {
        var i :| LastBinder(envs[..n], k, i) && earlier[k] == envs[..n][i][k];
        LastBinderSnoc(envs, k, i);
      }
    }
  }

  /** `envs.reduce({}) { |res, e| res.merge(e) }`. */
  function MergeEnvs(envs: seq<Fields>): (env: Fields)
    ensures MergedFrom(env, envs)
  {
    if |envs| == 0 then map[]
    else
      var earlier := MergeEnvs(envs[..|envs| - 1]);
      MergeOneMore(earlier, envs);
      earlier + envs[|envs| - 1]
  }

  /** The group envs a spec's environment is built from. */
  function GroupEnvsOf(opts: Options, ctx: KubeContext): Outcome<seq<Fields>> {
    var gs :- Groups(opts, ctx);
    GroupEnvs(gs)
  }

  /** `KubeSpec#full_env`: the spec's own env wins; any other key comes from the last
      group (in the spec's order) whose env binds it. */
  function FullEnv(opts: Options, ctx: KubeContext): (r: Outcome<Fields>)
    ensures r.Success? <==> GroupEnvsOf(opts, ctx).Success? && Lookup(opts, "env").Hash?
    ensures r.Success? ==>
              var envs, own := GroupEnvsOf(opts, ctx).value, Lookup(opts, "env").fields;
              && (forall k :: k in r.value <==> k in own || BoundIn(envs, k))
              && (forall k | k in own :: r.value[k] == own[k])
              && (forall k | k in r.value && k !in own ::
                    exists i :: LastBinder(envs, k, i) && r.value[k] == envs[i][k])
  {
    var envs :- GroupEnvsOf(opts, ctx);
    var own := Lookup(opts, "env");
    if !own.Hash? then Failure(TypeMismatch("spec env is not a hash"))
    else Success(MergeEnvs(envs) + own.fields)
  }

  // ----- containers -----

  /** The strings `ws` as a Ruby array of strings. */
  function StrList(ws: seq<string>): (vs: seq<Value>)
    ensures |vs| == |ws| && forall i | 0 <= i < |ws| :: vs[i] == Str(ws[i])
  {
    seq(|ws|, i requires 0 <= i < |ws| => Str(ws[i]))
  }

  /** The `full_command` expansion of one container's options: a string command line
      becomes `command` (a list holding its first word) and `args` (the other words);
      an empty line gives `[nil]` and nil, as `cps[0]` and `cps[1..-1]` do on `[]`. */
  function SplitCommand(c: Options): (r: Options)
    ensures !Lookup(c, "full_command").Str? ==> r == c
    ensures Lookup(c, "full_command").Str? ==>
              var words := Words.Split(Lookup(c, "full_command").text);
              && r.Keys == c.Keys + {"command", "args"}
              && (forall k | k in c && k != "command" && k != "args" :: r[k] == c[k])
              && r["command"].List? && |r["command"].items| == 1
              && (|words| == 0 <==> r["args"] == Nil)
              && (|words| == 0 ==> r["command"] == List([Nil]))
              && (|words| > 0 ==> r["args"].List? && [r["command"].items[0]] + r["args"].items == StrList(words))
  {
    var line := Lookup(c, "full_command");
    if !line.Str? then c
    else
      var words := Words.Split(line.text);
      if |words| == 0 then c["command" := List([Nil])]["args" := Nil]
      else
        var rest := StrList(words[1..]);
        assert [Str(words[0])] + rest == StrList(words);
        c["command" := List([Str(words[0])])]["args" := List(rest)]
  }

  /** A command line of words separated by spaces expands to its first word as the
      command and the remaining words, in order, as the arguments. */
  lemma FullCommandRoundTrip(c: Options, ws: seq<string>)
    requires |ws| > 0 && forall i | 0 <= i < |ws| :: Words.IsWord(ws[i])
    ensures var r := SplitCommand(c["full_command" := Str(Words.Unwords(ws))]);
            r["command"] == List([Str(ws[0])]) && r["args"] == List(StrList(ws[1..]))
  {
    Words.SplitUnwords(ws);
  }

  /** Whatever whitespace surrounds it, the first token of a command line becomes the
      command and the tokens of the remainder become the arguments. */
  lemma CommandIsFirstToken(c: Options, lead: string, w: string, sp: char, rest: string)
    requires forall i | 0 <= i < |lead| :: Words.IsSpace(lead[i])
    requires Words.IsWord(w) && Words.IsSpace(sp)
    ensures var r := SplitCommand(c["full_command" := Str(lead + w + [sp] + rest)]);
            r["command"] == List([Str(w)]) && r["args"] == List(StrList(Words.Split(rest)))
  {
    Words.SplitFirstWord(lead, w, sp, rest);
    assert ([w] + Words.Split(rest))[1..] == Words.Split(rest);
  }

  /** The expanded containers of a spec and the spec's options afterwards. When the spec
      lists no containers its own option hash is the single entry, so the expansion is
      written into the spec's options too. */
  datatype Expansion = Expansion(entries: seq<Options>, spec: Options)

  /** `KubeSpec#containers`. */
  function Containers(opts: Options): (r: Outcome<Expansion>)
    ensures r.Success? <==>
              && Members(Lookup(opts, "containers")).Some?
              && var items := Members(Lookup(opts, "containers")).value;
                 forall i | 0 <= i < |items| :: items[i].Hash?
    ensures r.Success? && |Members(Lookup(opts, "containers")).value| == 0 ==>
              r.value.entries == [SplitCommand(opts)] && r.value.spec == SplitCommand(opts)
    ensures r.Success? && |Members(Lookup(opts, "containers")).value| > 0 ==>
              var items := Members(Lookup(opts, "containers")).value;
              && r.value.spec == opts
              && |r.value.entries| == |items|
              && forall i | 0 <= i < |items| ::
                   r.value.entries[i] == SplitCommand(Overlay(opts, items[i].fields))
  {
    match Members(Lookup(opts, "containers"))
    case None => Failure(TypeMismatch("containers cannot be iterated"))
    case Some(items) =>
      if exists i | 0 <= i < |items| :: !items[i].Hash? then
        Failure(TypeMismatch("container entry is not a hash"))
      else if |items| == 0 then
        var e := SplitCommand(opts);
        Success(Expansion([e], e))
      else
        Success(Expansion(seq(|items|, i requires 0 <= i < |items| => SplitCommand(opts + items[i].fields)), opts))
  }

  /** `Hash#merge`: every key of `over` takes its value there, every other key keeps its
      value in `base`. */
  function Overlay(base: Options, over: Options): (r: Options)
    ensures r.Keys == base.Keys + over.Keys
    ensures forall k | k in over :: r[k] == over[k]
    ensures forall k | k in base && k !in over :: r[k] == base[k]
  {
    base + over
  }

  // ----- build_spec! -----

  /** An image whose tag is known: a hash with a non-blank `tag`. */
  predicate Tagged(img: Value) {
    img.Hash? && !Blank(Lookup(img.fields, "tag"))
  }

  /** The error the tag check raises on an image that is not `Tagged`. */
  function TagError(img: Value): (e: Error)
    ensures img.Hash? && Render(Lookup(img.fields, "id")).Some? ==>
              Message(e) == Some("Image " + Render(Lookup(img.fields, "id")).value + " does not have a known tag set.")
    ensures !img.Hash? ==> e.TypeMismatch?
  {
    if img.Hash? then MissingImageTag(Lookup(img.fields, "id")) else TypeMismatch("image is not a hash")
  }

  /** The tag check of `build_spec!`: passes when every image is tagged, and otherwise
      fails on the first image that is not. */
  function CheckTags(imgs: seq<Value>): (r: Result<(), Error>)
    ensures r.Success? <==> forall i | 0 <= i < |imgs| :: Tagged(imgs[i])
    ensures r.Failure? ==>
              exists i | 0 <= i < |imgs| ::
                && !Tagged(imgs[i]) && r.error == TagError(imgs[i])
                && forall j | 0 <= j < i :: Tagged(imgs[j])
  {
    if |imgs| == 0 then Success(())
    else if !Tagged(imgs[0]) then Failure(TagError(imgs[0]))
    else
      var rest := CheckTags(imgs[1..]);
      assert forall i | 1 <= i < |imgs| :: imgs[1..][i - 1] == imgs[i];
      rest
  }

  /** The write `build_spec!` asks for: render template `file` into `build_file`. */
  datatype TemplateWrite = TemplateWrite(template: Value, target: Value)

  /** `KubeSpec#build_spec!`: nothing is written unless every referenced image has a
      known tag. */
  function BuildSpec(opts: Options, ctx: KubeContext): (r: Outcome<TemplateWrite>)
    ensures r.Success? <==>
              && Images(opts, ctx).Success?
              && forall i | 0 <= i < |Images(opts, ctx).value| :: Tagged(Images(opts, ctx).value[i])
    ensures r.Success? ==> r.value == TemplateWrite(Lookup(opts, "file"), Lookup(opts, "build_file"))
    ensures Images(opts, ctx).Success? && r.Failure? ==>
              var imgs := Images(opts, ctx).value;
              exists i | 0 <= i < |imgs| :: !Tagged(imgs[i]) && r.error == TagError(imgs[i])
  {
    var imgs :- Images(opts, ctx);
    var checked :- CheckTags(imgs);
    Success(TemplateWrite(Lookup(opts, "file"), Lookup(opts, "build_file")))
  }

  // ----- Component, Job -----

  /** `Component#replicas`: 1 when unset or nil, otherwise the stored value (0 and false
      included). */
  function Replicas(opts: Options): (r: Value)
    ensures Lookup(opts, "replicas") == Nil ==> r == Int(1)
    ensures Lookup(opts, "replicas") != Nil ==> r == opts["replicas"]
  {
    var v := Lookup(opts, "replicas");
    if v.Nil? then Int(1) else v
  }

  /** The counts one `kubectl get job` poll reports; an absent count is nil. */
  datatype JobStatus = JobStatus(failed: Option<int>, succeeded: Option<int>, completions: Option<int>)

  datatype Verdict = JobFailed | JobCompleted | KeepWaiting

  /** `to_i` of a count: nil reads as 0. */
  function Count(n: Option<int>): int {
    n.GetOr(0)
  }

  /** The decision `Job#run!` takes on one poll: any failure fails the job, checked
      before completion; otherwise the job is done once `succeeded` reaches
      `completions`. */
  function Classify(st: JobStatus): (v: Verdict)
    ensures v == JobFailed <==> Count(st.failed) > 0
    ensures v == JobCompleted <==> Count(st.failed) <= 0 && Count(st.succeeded) >= Count(st.completions)
    ensures v == KeepWaiting <==> Count(st.failed) <= 0 && Count(st.succeeded) < Count(st.completions)
  {
    if Count(st.failed) > 0 then JobFailed
    else if Count(st.succeeded) >= Count(st.completions) then JobCompleted
    else KeepWaiting
  }

  /** A poll that reports failures fails the job even when enough pods succeeded. */
  lemma FailureTakesPrecedence(st: JobStatus)
    requires Count(st.failed) > 0 && Count(st.succeeded) >= Count(st.completions)
    ensures Classify(st) == JobFailed
  {
  }

  /** The verdict over a sequence of polls: that of the first poll that is not a wait, or
      still waiting when every poll so far was a wait. */
  function WaitForJob(polls: seq<JobStatus>): (v: Verdict)
    ensures v == KeepWaiting <==> forall i | 0 <= i < |polls| :: Classify(polls[i]) == KeepWaiting
    ensures v != KeepWaiting ==>
              exists i | 0 <= i < |polls| ::
                && Classify(polls[i]) == v
                && forall j | 0 <= j < i :: Classify(polls[j]) == KeepWaiting
  {
    if |polls| == 0 then KeepWaiting
    else if Classify(polls[0]) != KeepWaiting then Classify(polls[0])
    else
      var rest := WaitForJob(polls[1..]);
      assert forall i | 1 <= i < |polls| :: polls[1..][i - 1] == polls[i];
      rest
  }
}
