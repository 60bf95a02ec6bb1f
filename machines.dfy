/** The machine-config merge of lib/machines.ts (`processConfig`): the
    caller's machine config, the app's secret list and the container
    template (passed in rather than read from disk) become the config sent
    upstream. JSON objects are maps from field name to value, which is what
    object spread works on; field order is not modelled. */
module Machines {
  import opened Wrappers
  import opened Strings

  /** A JSON value, with `Undefined` for a JavaScript `undefined` placed in an
      object (JSON.stringify later drops such a field). */
  datatype Json =
    | Null
    | Bool(b: bool)
    | Num(n: int)
    | Str(s: string)
    | Arr(items: seq<Json>)
    | Obj(fields: map<string, Json>)
    | Undefined

  type JsonObject = map<string, Json>

  /** One entry of `config.mounts`: its volume, its path and any other fields. */
  datatype Mount = Mount(volume: Json, path: string, extra: JsonObject)

  /** The caller's machine config: the typed fields processConfig reads, and
      `rest` holding every other field. */
  datatype MachineConfig = MachineConfig(
    image: string,
    env: Option<map<string, string>>,
    restart: Option<string>,
    mounts: Option<seq<Mount>>,
    rest: JsonObject)

  /** An entry of the app's secret list. */
  datatype Secret = Secret(name: string, value: string)

  /** The parsed template: its container and volume objects, and every other
      top-level field. */
  datatype Template = Template(containers: seq<JsonObject>, volumes: seq<JsonObject>, rest: JsonObject)

  /** processConfig's result: the caller's fields with `mounts`, `containers`
      and `volumes` set. */
  datatype ProcessedConfig = ProcessedConfig(
    image: string,
    env: Option<map<string, string>>,
    restart: Option<string>,
    mounts: seq<Mount>,
    containers: seq<JsonObject>,
    volumes: seq<JsonObject>,
    rest: JsonObject)

  const VolumePath := "/dev/fly_vol"
  const TigrisPrefix := "FLY_TIGRIS_"
  const DataPathVar := "FLY_USER_DATA_PATH"
  const DefaultDataPath := "/data"
  const ImageFile := "/etc/app-image.json"

  /** The fields the result holds in its own typed fields: the caller's
      image, env and restart, and the three the spread sets. A field of
      `rest` with one of these names is overridden by them. */
  const OwnFields: set<string> := {"image", "env", "restart", "mounts", "containers", "volumes"}

  // ---------------------------------------------------------------- mounts

  /** `config.mounts?.map(m => ({...m, path: "/dev/fly_vol"})) || []`. */
  function RewriteMounts(mounts: Option<seq<Mount>>): (out: seq<Mount>)
    ensures mounts.None? ==> out == []
    ensures mounts.Some? ==> |out| == |mounts.value|
    ensures mounts.Some? ==> forall i :: 0 <= i < |out| ==>
      out[i] == Mount(mounts.value[i].volume, VolumePath, mounts.value[i].extra)
  {
    match mounts
    case None => []
    case Some(ms) => seq(|ms|, i requires 0 <= i < |ms| => ms[i].(path := VolumePath))
  }

  /** `config.mounts?.[0]?.path || "/data"`: the first mount's own path, or
      /data when there is no mount or that path is empty. */
  function DataPath(mounts: Option<seq<Mount>>): (p: string)
    ensures p != ""
    ensures p != DefaultDataPath ==> mounts.Some? && |mounts.value| > 0 && p == mounts.value[0].path
    ensures mounts.Some? && |mounts.value| > 0 && mounts.value[0].path != "" ==> p == mounts.value[0].path
  {
    if mounts.Some? && |mounts.value| > 0 && mounts.value[0].path != "" then mounts.value[0].path else DefaultDataPath
  }

  // ---------------------------------------------------------------- secrets

  /** The names of the secrets that do not start with FLY_TIGRIS_, in order. */
  function VisibleSecretNames(secrets: seq<Secret>): (names: seq<string>)
    ensures |names| <= |secrets|
  {
    if |secrets| == 0 then []
    else if StartsWith(secrets[0].name, TigrisPrefix) then VisibleSecretNames(secrets[1..])
    else [secrets[0].name] + VisibleSecretNames(secrets[1..])
  }

  /** The filter keeps exactly the names without the FLY_TIGRIS_ prefix. */
  lemma {:induction false} VisibleSecretNamesExact(secrets: seq<Secret>)
    ensures forall n :: n in VisibleSecretNames(secrets) ==> !StartsWith(n, TigrisPrefix)
    ensures forall n :: n in VisibleSecretNames(secrets) <==>
      exists i :: 0 <= i < |secrets| && secrets[i].name == n && !StartsWith(n, TigrisPrefix)
  {
    if |secrets| > 0 {
      VisibleSecretNamesExact(secrets[1..]);
      assert forall i :: 1 <= i < |secrets| ==> secrets[i] == secrets[1..][i - 1];
      forall n | exists i :: 0 <= i < |secrets| && secrets[i].name == n && !StartsWith(n, TigrisPrefix)
        ensures n in VisibleSecretNames(secrets)
      {
        var i :| 0 <= i < |secrets| && secrets[i].name == n && !StartsWith(n, TigrisPrefix);
        if i > 0 {
          assert secrets[1..][i - 1].name == n;
        }
      }
    }
  }

  /** The filter keeps order: filtering a concatenation concatenates the filtered parts. */
  lemma {:induction false} VisibleSecretNamesAppend(a: seq<Secret>, b: seq<Secret>)
    ensures VisibleSecretNames(a + b) == VisibleSecretNames(a) + VisibleSecretNames(b)
  {
    if |a| == 0 {
      assert a + b == b;
    } else {
      var ab := a + b;
      assert ab[0] == a[0] && ab[1..] == a[1..] + b;
      VisibleSecretNamesAppend(a[1..], b);
      var tail := VisibleSecretNames(a[1..]);
      if !StartsWith(a[0].name, TigrisPrefix) {
        assert [a[0].name] + (tail + VisibleSecretNames(b)) == [a[0].name] + tail + VisibleSecretNames(b);
      }
    }
  }

  /** `{name, env_var: name}`. */
  function ContainerSecret(name: string): Json {
    Obj(map["name" := Str(name), "env_var" := Str(name)])
  }

  /** `containerSecrets`: one `{name, env_var}` object per visible secret. */
  function ContainerSecrets(secrets: seq<Secret>): (out: seq<Json>)
    ensures |out| == |VisibleSecretNames(secrets)|
    ensures forall i :: 0 <= i < |out| ==> out[i] == ContainerSecret(VisibleSecretNames(secrets)[i])
  {
    var names := VisibleSecretNames(secrets);
    seq(|names|, i requires 0 <= i < |names| => ContainerSecret(names[i]))
  }

  // ---------------------------------------------------------------- containers

  function EnvJson(env: map<string, string>): JsonObject {
    map k | k in env :: Str(env[k])
  }

  /** `{...config.env, FLY_USER_DATA_PATH: ...}`: the caller's variables, with
      the data path set last so that it overrides a caller-supplied one. */
  function AppEnv(config: MachineConfig): (env: map<string, string>)
    ensures DataPathVar in env && env[DataPathVar] == DataPath(config.mounts)
    ensures env.Keys == config.env.GetOr(map[]).Keys + {DataPathVar}
    ensures forall k :: k in config.env.GetOr(map[]) && k != DataPathVar ==> env[k] == config.env.GetOr(map[])[k]
  {
    config.env.GetOr(map[])[DataPathVar := DataPath(config.mounts)]
  }

  /** `{policy: config.restart?.policy}`. */
  function RestartJson(restart: Option<string>): JsonObject {
    map["policy" := match restart case Some(p) => Str(p) case None => Undefined]
  }

  function ImageFiles(image: string): Json {
    Arr([Obj(map["guest_path" := Str(ImageFile), "image_config" := Str(image)])])
  }

  predicate Named(o: JsonObject, name: string) {
    "name" in o && o["name"] == Str(name)
  }

  /** One template container: the one named "app" gets the env, the secrets,
      the image file and the restart policy; any other is returned as it is. */
  function StampContainer(container: JsonObject, config: MachineConfig, secrets: seq<Secret>): (out: JsonObject)
    ensures !Named(container, "app") ==> out == container
    ensures Named(container, "app") ==>
      && out.Keys == container.Keys + {"env", "secrets", "files", "restart"}
      && out["env"] == Obj(EnvJson(AppEnv(config)))
      && out["secrets"] == Arr(ContainerSecrets(secrets))
      && out["files"] == ImageFiles(config.image)
      && out["restart"] == Obj(RestartJson(config.restart))
      && forall k :: k in container && k !in {"env", "secrets", "files", "restart"} ==> out[k] == container[k]
  {
    if Named(container, "app") then
      container["env" := Obj(EnvJson(AppEnv(config)))]["secrets" := Arr(ContainerSecrets(secrets))]
        ["files" := ImageFiles(config.image)]["restart" := Obj(RestartJson(config.restart))]
    else container
  }

  function StampContainers(containers: seq<JsonObject>, config: MachineConfig, secrets: seq<Secret>): (out: seq<JsonObject>)
    ensures |out| == |containers|
    ensures forall i :: 0 <= i < |out| ==> out[i] == StampContainer(containers[i], config, secrets)
  {
    seq(|containers|, i requires 0 <= i < |containers| => StampContainer(containers[i], config, secrets))
  }

  // ---------------------------------------------------------------- volumes

  /** One template volume: the one named "app-image" gets the caller's image. */
  function StampVolume(volume: JsonObject, image: string): (out: JsonObject)
    ensures !Named(volume, "app-image") ==> out == volume
    ensures Named(volume, "app-image") ==>
      out.Keys == volume.Keys + {"image"} && out["image"] == Str(image)
      && forall k :: k in volume && k != "image" ==> out[k] == volume[k]
  {
    if Named(volume, "app-image") then volume["image" := Str(image)] else volume
  }

  function StampVolumes(volumes: seq<JsonObject>, image: string): (out: seq<JsonObject>)
    ensures |out| == |volumes|
    ensures forall i :: 0 <= i < |out| ==> out[i] == StampVolume(volumes[i], image)
  {
    seq(|volumes|, i requires 0 <= i < |volumes| => StampVolume(volumes[i], image))
  }

  // ---------------------------------------------------------------- the merge

  /** `processConfig`: `{...config, mounts, containers, volumes}`. A
      `containers` or `volumes` field of the caller's is overwritten; no
      top-level field of the template other than those two is copied. */
  function ProcessConfig(config: MachineConfig, secrets: seq<Secret>, template: Template): (out: ProcessedConfig)
    ensures out.image == config.image && out.env == config.env && out.restart == config.restart
    ensures out.rest == config.rest - OwnFields
    ensures forall k :: k in out.rest ==> k !in OwnFields && out.rest[k] == config.rest[k]
    ensures out.mounts == RewriteMounts(config.mounts)
    ensures out.containers == StampContainers(template.containers, config, secrets)
    ensures out.volumes == StampVolumes(template.volumes, config.image)
  {
    ProcessedConfig(
      config.image, config.env, config.restart,
      RewriteMounts(config.mounts),
      StampContainers(template.containers, config, secrets),
      StampVolumes(template.volumes, config.image),
      config.rest - OwnFields)
  }

  /** The template's other top-level fields do not reach the result. */
  lemma TemplateRestIgnored(config: MachineConfig, secrets: seq<Secret>, template: Template, other: JsonObject)
    ensures ProcessConfig(config, secrets, template) == ProcessConfig(config, secrets, template.(rest := other))
  {
  }

  /** The secrets an "app" container of the result lists are exactly the
      `{name, env_var: name}` objects of the given secrets whose names do not
      start with FLY_TIGRIS_. */
  lemma AppContainerSecrets(config: MachineConfig, secrets: seq<Secret>, template: Template, i: nat)
    requires i < |template.containers| && Named(template.containers[i], "app")
    ensures var c := ProcessConfig(config, secrets, template).containers[i];
      && "secrets" in c && c["secrets"].Arr?
      && forall e :: e in c["secrets"].items <==>
           exists k :: 0 <= k < |secrets| && !StartsWith(secrets[k].name, TigrisPrefix) && e == ContainerSecret(secrets[k].name)
  {
    var names := VisibleSecretNames(secrets);
    var items := ContainerSecrets(secrets);
    VisibleSecretNamesExact(secrets);
    forall e | e in items
      ensures exists k :: 0 <= k < |secrets| && !StartsWith(secrets[k].name, TigrisPrefix) && e == ContainerSecret(secrets[k].name)
    {
      var j :| 0 <= j < |items| && items[j] == e;
      assert names[j] in names;
    }
    forall e | exists k :: 0 <= k < |secrets| && !StartsWith(secrets[k].name, TigrisPrefix) && e == ContainerSecret(secrets[k].name)
      ensures e in items
    {
      var k :| 0 <= k < |secrets| && !StartsWith(secrets[k].name, TigrisPrefix) && e == ContainerSecret(secrets[k].name);
      assert secrets[k].name in names;
      var j :| 0 <= j < |names| && names[j] == secrets[k].name;
      assert items[j] == e;
    }
  }
}
