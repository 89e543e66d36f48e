# cloudpad core, modelled in Dafny

cloudpad is a set of deployment tasks for Docker containers and Kubernetes specs. This
project models the parts of it that decide things:

- **`Docker.container_record`** builds the flat record of one container instance. The
  record holds the name `app_key.type.instance`, the image `name:latest`, the host's name
  and address, and one container port and one host port per port interface. The host
  port moves up by the instance number unless the interface is marked `no_range`.
- **`Cloud`, `CloudElement` and `Host`** hold the inventory of a stage. It is refreshed
  either from the boxchief provider or from the stage's YAML cache file. The cache is
  then rewritten. Hosts are identified by address or name.
- **`KubeSpec`, `Component` and `Job`** cover Kubernetes specs:
  - option defaulting and template lookup;
  - the images and groups a spec references;
  - the merged environment;
  - per-container options with `full_command` splitting;
  - the image tag check before a spec is built;
  - the replica default;
  - the verdict on each poll of a running job.

Ruby's dynamic values are the datatype `Values.Value`. Hash keys are strings, because
every hash the code reads is YAML/JSON-loaded or has indifferent access. The file system
is a map from path to the parsed YAML document stored there. The set of existing template
files is a parameter, and so is the provider's parsed JSON answer. Where Ruby would raise
a `NoMethodError` or `TypeError` on a value of the wrong shape, the model returns a
`TypeMismatch` failure. Ruby also accepts some shapes a reader might not expect. An empty
hash iterates as an empty list, and a string answers `s[key]` with the key or nil. The
model follows both. The few accepted shapes the model still refuses, or cannot express,
are listed under "## Left out". The source's own `raise`s are the other `Values.Error` cases, and
`Values.Message` gives their texts.

Modules follow the source:

| Module | Covers |
|---|---|
| `Docker` | `docker.rb` |
| `Cloud` | `cloud.rb` |
| `Kube` | `kube.rb` |
| `Values` | dynamic values and errors |
| `Paths` | `File.join` |
| `Words` | `String#split(" ")` |
| `Decimal` | `Integer#to_s` |
| `Results` | `Option` and `Result` |

`prepare_options` differs from the plain reading "error if neither template exists". It
raises only when neither template exists and the `file` option was not already set to a
non-blank value. `build_file` is named after the `id` option, not after the spec's id.
The model follows the code in both points.

## Model

| member | source | states |
|---|---|---|
| `Docker.ContainerRecord` | lib/cloudpad/docker.rb:5-26 | The record has exactly the six fixed keys plus two `port_` keys per interface. Its values are: <br>• `name` is app key, type and instance joined by dots. <br>• `image` is the image name with `:latest`. <br>• `instance` is the instance number. <br>• `host` is the host's name. <br>• `host_ip` is the host's internal IP. <br>• `ports` lists the interface names in declared order, and is empty when the image has no ports. <br>• The `port_` entries are those of `PortFields`. |
| `Docker.RecordPorts` | lib/cloudpad/docker.rb:15-23 | For every interface, the record holds `port_{name}_c`, the container port in decimal. It also holds `port_{name}_h`, this instance's host port in decimal. |
| `Docker.OffsetLaw` | lib/cloudpad/docker.rb:17-21 | Instance 0 publishes on the base port, which is `hport` or else `cport`. With ranging on, the host port minus the base port is the instance number. With `no_range` exactly `true`, every instance uses the base port. |
| `Docker.RangedPortsDoNotCollide` | lib/cloudpad/docker.rb:17-21 | On a ranged interface, distinct instances get distinct host ports. |
| `Docker.RecordHostPortsDiffer` | lib/cloudpad/docker.rb:17-23 | Two records of different instances carry different `port_{name}_h` strings for a ranged interface, whatever their hosts. |
| `Docker.PortKeyInjective` | lib/cloudpad/docker.rb:22-23 | Different interfaces or sides never produce the same `port_` key. |
| `Docker.PortFields` | lib/cloudpad/docker.rb:15-24 | The `port_` keys written are exactly `_c` and `_h` for each interface. |
| `Docker.PortFieldsAt` | lib/cloudpad/docker.rb:15-23 | Because interface names are unique, no later interface overwrites an earlier one's entries. Each interface's `_c` entry is its container port and its `_h` entry is its host port. |
| `Docker.InstanceNameParses` | lib/cloudpad/docker.rb:8 | When the type contains no dot, splitting the container name at its last two dots gives back the app key, the type and the instance number. |
| `Docker.InterfaceNames` | lib/cloudpad/docker.rb:13-16 | The `ports` list has one entry per interface, the interface name, in declaration order. |
| `Docker.PublishedPortExample` | lib/cloudpad/docker.rb:5-26 | Container port 8080, no host port, ranging on, instance 3: the record has `_h` = "8083", `_c` = "8080" and name "app.web.3". |
| `Decimal.Show` | lib/cloudpad/docker.rb:22-23 | Decimal rendering is non-empty. It starts with '-' exactly for negative numbers, and every other character is a digit. |
| `Decimal.ParseShow` | lib/cloudpad/docker.rb:22-23 | Parsing a rendered number gives the number back. |
| `Decimal.ShowInjective` | lib/cloudpad/docker.rb:22-23 | Different numbers render to different strings. |
| `Values.Index` | lib/cloudpad/cloud.rb:83-85 | `v[key]` answers on a hash or a string and on nothing else. On a hash it is the stored value, or nil for a missing key. On a string it is the key itself exactly when the key occurs in the string, and nil otherwise. |
| `Values.Members` | lib/cloudpad/cloud.rb:62-63 | `collect` iterates a list's items, and an empty hash as no items. Every other value is refused. |
| `Cloud.DataRoundTrip` | lib/cloudpad/cloud.rb:97-109 | An element rebuilt from its `data` is the same element and answers every `[]` alike. |
| `Cloud.InternalIp` | lib/cloudpad/cloud.rb:123-125 | The result is the internal IP whenever that is truthy. Otherwise it is the external IP, whatever that is (nil and false included). It is truthy exactly when one of the two is. |
| `Cloud.Intersect` | lib/cloudpad/cloud.rb:133 | A value is in `a & b` exactly when it is in both `a` and `b`. |
| `Cloud.HasId` | lib/cloudpad/cloud.rb:131-134 | True exactly when one of three values occurs among the candidates: the internal IP after its fallback, the external IP, or the name. The candidates are the list argument, or the one-element list holding a scalar argument. |
| `Cloud.HasIdList` | lib/cloudpad/cloud.rb:131-134 | A list of scalars identifies a host exactly when one of its members does on its own. |
| `Cloud.HasOwnIds` | lib/cloudpad/cloud.rb:123-134 | A host is identified by its own name, by its external IP and by the address `internal_ip` answers. Each works given alone or in a one-element list. |
| `Cloud.HasIdEdgeCases` | lib/cloudpad/cloud.rb:131-134 | An empty list identifies no host. `nil` identifies exactly the hosts whose name or external IP is nil. |
| `Cloud.MethodMissing` | lib/cloudpad/cloud.rb:111-117 | A name ending in `=` stores the first argument under the whole name, `=` included. Called with no argument, it stores and returns nil, as `args[0]` reads. Any other name reads the attribute and changes nothing. |
| `Cloud.DynamicSetterIsInvisible` | lib/cloudpad/cloud.rb:111-117 | Calling `field=` and then `field` returns what `field` returned before the set. |
| `Cloud.SetField` | lib/cloudpad/cloud.rb:111-113 | The corrected setter: the field reads as the stored value afterwards, and every other field reads as before. |
| `Cloud.CacheFilePath` | lib/cloudpad/cloud.rb:37-43 | For a relative stage name, the cache file is `cwd/config/cloud/<stage>.yml`. |
| `Cloud.UpdateCache` | lib/cloudpad/cloud.rb:45-53 | The stage's cache file then holds the hosts' and containers' attribute maps. Every other file is unchanged. |
| `Cloud.ElementsOf` | lib/cloudpad/cloud.rb:61-64 | Wrapping loaded records succeeds exactly when every record is a hash. The elements then correspond one to one, in order, with equal attribute maps. |
| `Cloud.ElementList` | lib/cloudpad/cloud.rb:59-63 | An absent, nil or false list in the cache reads as no elements. So does an empty hash, which `collect` iterates as empty. A list reads as its records. It fails exactly when the value is none of these, or when a record cannot be wrapped. |
| `Cloud.GetCachedCloud` | lib/cloudpad/cloud.rb:55-65 | A missing cache file reads as an empty inventory, not an error. An existing file succeeds exactly when it holds a hash whose `hosts` and `containers` both read as element lists. The inventory is then those two lists. |
| `Cloud.ElementsOfDataList` | lib/cloudpad/cloud.rb:61-64 | Rewrapping the written attribute maps gives back the same elements. |
| `Cloud.CacheRoundTrip` | lib/cloudpad/cloud.rb:45-64 | Writing the cache and reading it back gives the same hosts and containers, in the same order. |
| `Cloud.ServerHost` | lib/cloudpad/cloud.rb:81-88 | A server entry becomes a host with exactly four attributes. `name`, `external_ip` and `roles` are the entry read at `hostname`, `ip` and `roles`, and `cloud_provider` is "boxchief". A hash entry is read by lookup. |
| `Cloud.PlainStringServer` | lib/cloudpad/cloud.rb:83-85 | A string entry that contains none of `hostname`, `ip` and `roles` becomes a host whose name, address and roles are all nil. |
| `Cloud.ServerHosts` | lib/cloudpad/cloud.rb:81-89 | Every server entry becomes its host, in order. This fails exactly when some entry is neither a hash nor a string, the receivers on which `sd["hostname"]` does not raise. |
| `Cloud.GetBoxchiefCloud` | lib/cloudpad/cloud.rb:67-90 | A response that is not a hash fails. `success: false` fails with the response's `error`. Otherwise a list of `data` (or an empty hash) gives exactly the hosts of its entries, in order, and any other `data` fails with a type error. |
| `Cloud.Update` | lib/cloudpad/cloud.rb:22-35 | The update succeeds exactly when the fetch does. A failure carries the fetch's error and leaves the inventory empty. A success rewrites the cache with exactly the inventory kept. From boxchief, hosts are the provider's hosts and containers are empty. From the cache, the inventory is the cached one. |
| `Cloud.MissingCacheIsEmpty` | lib/cloudpad/cloud.rb:55-56 | Updating a stage that has no cache file gives an empty inventory and creates a cache of empty lists. |
| `Cloud.UpdateRefreshesCache` | lib/cloudpad/cloud.rb:22-35 | After any successful update, reading the cache gives exactly the inventory kept. |
| `Cloud.CachedUpdateIsIdempotent` | lib/cloudpad/cloud.rb:22-35 | A second update from the cache changes neither the inventory nor any file. |
| `Cloud.BoxchiefFailureAborts` | lib/cloudpad/cloud.rb:77-79 | A provider answer with `success: false` aborts the update with the provider's error and an empty inventory. The error's message is "Boxchief Error: " followed by the provider's `error` text. |
| `Words.Split` | lib/cloudpad/kube.rb:50 | Every field is non-empty and free of whitespace. Together the fields hold exactly the line's non-whitespace characters, in order. |
| `Words.SplitUnwords` | lib/cloudpad/kube.rb:50 | Splitting words joined by single spaces gives the words back. |
| `Words.SplitWord` | lib/cloudpad/kube.rb:50 | A single word splits into itself. |
| `Words.SplitBlank` | lib/cloudpad/kube.rb:50 | A line of whitespace alone has no fields. |
| `Words.SplitAtSpace` | lib/cloudpad/kube.rb:50 | Fields break at every whitespace character. The fields of `a`, a whitespace character, then `b` are the fields of `a` followed by those of `b`. |
| `Words.SplitFirstWord` | lib/cloudpad/kube.rb:50 | After any leading whitespace, the first field runs up to the next whitespace character. The remaining fields are those of the rest of the line. |
| `Paths.JoinRelative` | lib/cloudpad/cloud.rb:38 | Joining a relative component puts it below the first path, adding one separator unless one is already there. |
| `Kube.FillAllDefaulted` | lib/cloudpad/kube.rb:16-21 | Or-assigning each key its default, one key after another, equals defaulting them all at once. In the one-step form, each key keeps a truthy value and otherwise gets its default, and the other options are kept. |
| `Kube.WithDefaultsInOrder` | lib/cloudpad/kube.rb:15-21 | Setting `name` and then filling in the options in the source's order gives the defaulted options. |
| `Kube.WithDefaultsSpec` | lib/cloudpad/kube.rb:15-21 | After defaulting: <br>• `name` is the spec's id. <br>• Each of `groups`, `images`, `containers`, `file_name`, `file_subdir` and `env` keeps a truthy value and otherwise has its default (`[id]`, `[]`, `[]`, `id`, `""`, `{}`). <br>• Every other option is unchanged. |
| `Kube.FirstExisting` | lib/cloudpad/kube.rb:23-29 | The result is the first existing `base + ext` in extension order, or none exactly when none exists. |
| `Kube.ResolveTemplate` | lib/cloudpad/kube.rb:23-29 | `.yml` is chosen whenever it exists, and `.yml.rb` only when `.yml` does not. The result is none exactly when neither exists. A found name is never blank. |
| `Kube.LocateFiles` | lib/cloudpad/kube.rb:22-33 | The result is the defaulted options with only `file` and `build_file` set, and `file` is non-blank. <br>• A template path part that is neither a string nor an array of them is a type error. <br>• It fails with "Kube config file could not be found." exactly when no template exists and the preset `file` is blank. <br>• It succeeds exactly when a template exists or `file` is preset, and the `id` option renders. <br>• A found template becomes `file`; otherwise the preset is kept. <br>• `build_file` is `build_kube_path/file_subdir/<id>.yml`, an array `file_subdir` joined first. |
| `Kube.PrepareOptions` | lib/cloudpad/kube.rb:12-34 | A template path part that is neither a string nor an array of them is a type error. Otherwise: <br>• it fails with the not-found error exactly when neither template file exists and the configured `file` is blank; <br>• it succeeds exactly when a template exists or `file` is configured, and the `id` option renders. <br>On success: <br>• the keys are the given ones plus `name`, `file`, `build_file` and the defaulted ones; <br>• `name` is the spec's id; <br>• each defaulted option keeps a truthy value and otherwise has its default; <br>• `file` is the template found, `.yml` before `.yml.rb`, or else the configured `file`; <br>• `build_file` is `build_kube_path/file_subdir/<id>.yml`, an array `file_subdir` joined first; <br>• every other option is unchanged. |
| `Kube.PathPart` | lib/cloudpad/kube.rb:22 | A string argument of `File.join` stands for itself. An array stands for its elements joined, and is accepted exactly when every element is. Any other value is refused, as Ruby raises a TypeError. |
| `Kube.StringListPart` | lib/cloudpad/kube.rb:22 | An array of strings joins like the strings themselves. |
| `Paths.JoinAllPlain` | lib/cloudpad/kube.rb:22 | Joining components without separators at their ends puts exactly one separator between neighbours. |
| `Kube.TemplateBase` | lib/cloudpad/kube.rb:22 | The template base exists exactly when `file_subdir` and `file_name` are strings or arrays of them. For relative parts it is `kube_path/file_subdir/file_name`, with one separator between parts. |
| `Kube.NestedSubdirTemplate` | lib/cloudpad/kube.rb:22 | A `file_subdir` such as `["jobs", "batch"]` puts the template base at `kube_path/jobs/batch/<file_name>`. |
| `Kube.Finish` | lib/cloudpad/kube.rb:30-33 | It fails with the not-found error exactly when `file` is blank. It succeeds whenever `file` is non-blank and the `id` option renders. On success the options gain exactly `build_file` = `build_kube_path/subdir/<id>.yml`. |
| `Kube.MissingTemplateFails` | lib/cloudpad/kube.rb:22-32 | If nothing is configured and neither `kube_path/id.yml` nor `kube_path/id.yml.rb` exists, preparation fails with the not-found error, whose message is "Kube config file could not be found." |
| `Kube.DefaultTemplateLocation` | lib/cloudpad/kube.rb:19-22 | If no subdirectory or file name is configured, the template is looked for at `kube_path/id`. |
| `Kube.IdList` | lib/cloudpad/kube.rb:36 | A nil or false id list, or an empty hash, means no ids, and a list is taken as it is. It succeeds exactly in these cases. |
| `Kube.ResolveIds` | lib/cloudpad/kube.rb:36 | Only entries of the table are returned, never nil, at most one per id. When every id is known, the result is the ids' entries in order. |
| `Kube.ResolveIdsAppend` | lib/cloudpad/kube.rb:36 | Resolving a concatenation of id lists concatenates the resolutions, so order is kept. |
| `Kube.UnknownIdIsDropped` | lib/cloudpad/kube.rb:35-40 | An id that is absent from the table, or mapped to nil, contributes nothing, wherever it occurs. |
| `Kube.Images` | lib/cloudpad/kube.rb:35-37 | The images are the context entries of the spec's image ids, resolved in order. |
| `Kube.Groups` | lib/cloudpad/kube.rb:38-40 | The groups are the context entries of the spec's group ids, resolved in order. |
| `Kube.GroupEnv` | lib/cloudpad/kube.rb:42 | A group's env is its `env` hash, or `{}` when that is nil, false or absent. A group that is not a hash, or an env that is truthy but not a hash, is a type error. |
| `Kube.GroupEnvs` | lib/cloudpad/kube.rb:42 | Each group gives its `env`, or `{}` when unset, in order. This fails exactly when some group or its env is malformed. |
| `Kube.MergeEnvs` | lib/cloudpad/kube.rb:42 | The merged env binds exactly the keys some group env binds. Each key has the value from the last group that binds it. |
| `Kube.FullEnv` | lib/cloudpad/kube.rb:41-44 | The spec's own env wins for its keys. Any other key comes from the last group, in the spec's order, whose env binds it. There are no other keys. |
| `Kube.SplitCommand` | lib/cloudpad/kube.rb:49-53 | A non-string `full_command` changes nothing. For a string, `command` is a one-element list and every other option is kept. When the line has no words, `command` is `[nil]` and `args` is nil (and only then is `args` nil). Otherwise `command`'s element followed by `args` is the line's words, in order. |
| `Kube.FullCommandRoundTrip` | lib/cloudpad/kube.rb:49-53 | A command line of words joined by spaces expands to `command = [first word]` and `args = the remaining words`, in order. |
| `Kube.CommandIsFirstToken` | lib/cloudpad/kube.rb:49-53 | Whatever whitespace surrounds it, the first token of a command line becomes the command. The tokens of the rest of the line become the arguments. |
| `Kube.Overlay` | lib/cloudpad/kube.rb:46 | `Hash#merge`: keys of the override take its values, and all other keys keep the base's values. |
| `Kube.Containers` | lib/cloudpad/kube.rb:45-55 | With no container entries (an empty list or an empty hash), the single entry is the spec's own options after expansion, and the spec's options are changed to match. Otherwise there is one entry per item: the spec options overridden by that item, then expanded, and the spec is unchanged. A `containers` value that cannot be iterated as a list, or a non-hash entry, is a type error. |
| `Kube.TagError` | lib/cloudpad/kube.rb:61-64 | For a hash image the error's message is "Image <id> does not have a known tag set.", with the image's `id` interpolated. A non-hash image is a type error. |
| `Kube.CheckTags` | lib/cloudpad/kube.rb:61-65 | Passes exactly when every image has a non-blank tag. Otherwise it fails on the first untagged image, with that image's id. |
| `Kube.BuildSpec` | lib/cloudpad/kube.rb:57-69 | The template write is produced exactly when every referenced image is tagged. It renders `file` into `build_file`. When an image lacks a tag, nothing is written. |
| `Kube.Replicas` | lib/cloudpad/kube.rb:76-79 | Unset or nil `replicas` gives 1. Any other stored value, `0` and `false` included, is returned as it is. |
| `Kube.Classify` | lib/cloudpad/kube.rb:101-107 | A poll is a failure exactly when `failed > 0`. It is completion exactly when it has no failures and `succeeded >= completions`. It is a wait exactly when neither holds. Absent counts read as 0. |
| `Kube.FailureTakesPrecedence` | lib/cloudpad/kube.rb:101-107 | A poll with failures fails the job even when enough pods succeeded. |
| `Kube.WaitForJob` | lib/cloudpad/kube.rb:99-109 | Over a run of polls, the verdict is that of the first decisive poll. It is still waiting exactly when every poll was a wait. |

## Left out

- `KubeSpec.apply_specs!` runs `kubectl apply` in a shell. It also reads an undefined `comps`.
- The shell commands of `Job#run!` are left out: delete, apply and `get job`. So are `sleep` and the unbounded polling loop. Only the per-poll decision and a finite run of polls are modelled.
- `Job#run!` loads the built spec to read the job name. That is file I/O and is left out.
- `build_spec!` writes the template through ERB. This is a foreign library call, so the model returns the requested write (`TemplateWrite`). `ctx.set :building_spec` and the `puts` output are left out too.
- The Faraday request to boxchief is network I/O, so the parsed JSON answer is a parameter. `YAML.load_file`, `to_yaml` and `FileUtils.mkdir_p` are replaced by the path-to-document map; creating the directory is not modelled.
- `Host#roles` applies `collect(:&to_sym)`, which is not a valid block argument, so it has no defined behaviour to state.
- `ConfigElement` is not part of this model. Where the spec's `id` option and its option hash come from is taken as given, and `self[key]` is read as a lookup in the options.
- `lib/cloudpad/task_utils.rb` and `lib/cloudpad.rb` are not part of this model. They hold prompts, process checks, clocks and file loading.
- Values.Render: lists and hashes are not rendered, because their `inspect` form is not modelled. An id or an error of that shape yields a `TypeMismatch`, or no message.
- Symbols and strings are one key space, as indifferent access makes them. A plain Ruby hash with symbol keys would not behave that way.
- Kube.IdList: a non-empty hash given as an id list is a type error in the model. Ruby iterates its `[key, value]` pairs and looks each pair up as an id, usually finding nothing. The model's maps do not keep insertion order, so the pairs' order cannot be stated.
- Docker.ContainerRecord: every interface has an integer `cport`, and `hport` is an integer when given. Ruby also accepts an interface with only `hport`, whose `_c` entry is then `""`. It also renders string ports under `no_range`, and raises a `TypeError` when adding the instance to them. These shapes are not represented.
- Values.Value has no floats or symbols as values. A float port or id would behave like a number in Ruby.
- Kube.LocateFiles: a failed `prepare_options` leaves the options already defaulted in place, because Ruby mutates them before raising. The model returns only the failure.
- Integer widths: Ruby integers are unbounded, like Dafny's, so no wrap-around is modelled.

## Findings

| source | as written | input that shows it | evidently intended | confidence | as-written member | corrected member |
|---|---|---|---|---|---|---|
| lib/cloudpad/cloud.rb:111-113 | `method_missing` stores a setter's argument under the method name itself, `=` included | `host.name = "a"` stores under `"name="`, so `host.name` still returns the old name | store under the attribute name without the `=`, so the getter sees the new value | not executed | `Cloud.DynamicSetterIsInvisible` | `Cloud.SetField` |
