/** A kernel request on its way to the cluster and back: the document `acreate` builds
    (client.py:152-188), its decoding through the schema tables of the model classes, and
    `KernelModel.model_validate` (schema.py:98-171). */
module KernelPayloads {
  import opened Outcomes
  import opened TypeExpressions
  import opened Deserializer
  import ActivityTime
  import KernelResource

  const KERNEL_ID := "jupyrator.org/kernel-id"
  const KERNEL_MANAGER_NAME := "jupyrator.org/kernelmanager-name"
  const KERNEL_SPEC_NAME := "jupyrator.org/kernel-spec-name"

  datatype ConnectionInfo = ConnectionInfo(
    ip: string, shellPort: int, iopubPort: int, stdinPort: int, controlPort: int, hbPort: int,
    kernelId: string, key: string, transport: string, signatureScheme: string, kernelName: string)

  datatype Payload = Payload(
    id: string, specName: string, workingDir: string, namespace: string, volumes: seq<Json>, volumeMounts: seq<Json>,
    idleTimeout: int, connection: ConnectionInfo, image: string)

  datatype KernelModel = KernelModel(
    id: string, name: string, namespace: string, ready: bool, connection: ConnectionInfo, volumes: seq<Json>,
    volumeMounts: seq<Json>, image: string, idleTimeout: int, workingDir: string, lastActivity: Option<string>)

  // ---- the schema tables ------------------------------------------------

  const STR := Named("str")
  const INT := Named("int")

  predicate Declares(reg: Registry, n: string, attr: string, key: string, ty: Ty) {
    IsModel(reg, n) && attr in reg.classes[n].fields && reg.classes[n].fields[attr] == Field(key, ty)
  }

  predicate RequiresOnly(reg: Registry, n: string, attrs: set<string>) {
    n in reg.classes && Injective(reg.classes[n]) && reg.classes[n].required <= attrs
  }

  ghost predicate EnvTables(reg: Registry) {
    && Declares(reg, "V1EnvVar", "name", "name", STR)
    && Declares(reg, "V1EnvVar", "value", "value", STR)
    && RequiresOnly(reg, "V1EnvVar", {"name"})
  }

  ghost predicate ContainerTables(reg: Registry) {
    && Declares(reg, "V1Container", "env", "env", ListOf(Named("V1EnvVar")))
    && Declares(reg, "V1Container", "image", "image", STR)
    && Declares(reg, "V1Container", "name", "name", STR)
    && Declares(reg, "V1Container", "volume_mounts", "volumeMounts", ListOf(Named("V1VolumeMount")))
    && Declares(reg, "V1Container", "working_dir", "workingDir", STR)
    && Declares(reg, "V1Container", "command", "command", ListOf(STR))
    && RequiresOnly(reg, "V1Container", {"name"})
  }

  ghost predicate PodTables(reg: Registry) {
    && Declares(reg, "V1PodSpec", "containers", "containers", ListOf(Named("V1Container")))
    && Declares(reg, "V1PodSpec", "restart_policy", "restartPolicy", STR)
    && Declares(reg, "V1PodSpec", "volumes", "volumes", ListOf(Named("V1Volume")))
    && RequiresOnly(reg, "V1PodSpec", {"containers"})
  }

  ghost predicate TemplateTables(reg: Registry) {
    && Declares(reg, "V1PodTemplateSpec", "spec", "spec", Named("V1PodSpec"))
    && RequiresOnly(reg, "V1PodTemplateSpec", {"spec"})
  }

  ghost predicate MetadataTables(reg: Registry) {
    && Declares(reg, "V1ObjectMeta", "labels", "labels", DictOf(STR, STR))
    && Declares(reg, "V1ObjectMeta", "name", "name", STR)
    && Declares(reg, "V1ObjectMeta", "namespace", "namespace", STR)
    && RequiresOnly(reg, "V1ObjectMeta", {})
  }

  ghost predicate ConnectionTables(reg: Registry) {
    && Declares(reg, "V1KernelConnectionConfig", "ip", "ip", STR)
    && Declares(reg, "V1KernelConnectionConfig", "shell_port", "shellPort", INT)
    && Declares(reg, "V1KernelConnectionConfig", "iopub_port", "iopubPort", INT)
    && Declares(reg, "V1KernelConnectionConfig", "stdin_port", "stdinPort", INT)
    && Declares(reg, "V1KernelConnectionConfig", "control_port", "controlPort", INT)
    && Declares(reg, "V1KernelConnectionConfig", "hb_port", "hbPort", INT)
    && Declares(reg, "V1KernelConnectionConfig", "kernel_id", "kernelId", STR)
    && Declares(reg, "V1KernelConnectionConfig", "key", "key", STR)
    && Declares(reg, "V1KernelConnectionConfig", "transport", "transport", STR)
    && Declares(reg, "V1KernelConnectionConfig", "signature_scheme", "signatureScheme", STR)
    && Declares(reg, "V1KernelConnectionConfig", "kernel_name", "kernelName", STR)
    && RequiresOnly(reg, "V1KernelConnectionConfig", {})
  }

  ghost predicate SpecTables(reg: Registry) {
    && Declares(reg, "V1KernelSpec", "template", "template", Named("V1PodTemplateSpec"))
    && Declares(reg, "V1KernelSpec", "idle_timeout_seconds", "idleTimeoutSeconds", INT)
    && Declares(reg, "V1KernelSpec", "culling_interval_seconds", "cullingIntervalSeconds", INT)
    && Declares(reg, "V1KernelSpec", "kernel_connection_config", "kernelConnectionConfig", Named("V1KernelConnectionConfig"))
    && RequiresOnly(reg, "V1KernelSpec", {"template"})
  }

  ghost predicate TopTables(reg: Registry) {
    && Declares(reg, "V1Kernel", "api_version", "apiVersion", STR)
    && Declares(reg, "V1Kernel", "kind", "kind", STR)
    && Declares(reg, "V1Kernel", "metadata", "metadata", Named("V1ObjectMeta"))
    && Declares(reg, "V1Kernel", "spec", "spec", Named("V1KernelSpec"))
    && RequiresOnly(reg, "V1Kernel", {})
  }

  /** `str(x)` never fails and keeps a string; `int(x)` keeps an integer. */
  ghost predicate Conversions(reg: Registry) {
    && (forall j :: j != Null ==> reg.coerce("str", j).Some?)
    && (forall s :: reg.coerce("str", Str(s)) == Some(Str(s)))
    && (forall n :: reg.coerce("int", Num(n)) == Some(Num(n)))
  }

  /** The tables of v1_kernel.py:23-37 and v1_kernel_spec.py:18-44, 127-139, and of the Kubernetes
      client only what a request needs: the fields it fills, and no required field it leaves out. */
  ghost predicate KernelTables(reg: Registry) {
    && Sound(reg) && ShallowTables(reg) && Conversions(reg)
    && TopTables(reg) && SpecTables(reg) && ConnectionTables(reg)
    && MetadataTables(reg) && TemplateTables(reg) && PodTables(reg) && ContainerTables(reg) && EnvTables(reg)
    && IsModel(reg, "V1Volume") && IsModel(reg, "V1VolumeMount")
  }

  // ---- the document ------------------------------------------------

  function KernelName(p: Payload): string { p.specName + "-" + p.id }

  function PortEntries(c: ConnectionInfo): map<string, Json> {
    map["shellPort" := Num(c.shellPort), "iopubPort" := Num(c.iopubPort), "stdinPort" := Num(c.stdinPort),
        "controlPort" := Num(c.controlPort), "hbPort" := Num(c.hbPort)]
  }

  function TextEntries(c: ConnectionInfo): map<string, Json> {
    map["ip" := Str(c.ip), "kernelId" := Str(c.kernelId), "key" := Str(c.key), "transport" := Str(c.transport),
        "signatureScheme" := Str(c.signatureScheme), "kernelName" := Str(c.kernelName)]
  }

  /** `kernel_connection_info.model_dump(by_alias=True)` */
  function ConnectionDoc(c: ConnectionInfo): Json {
    Dict(PortEntries(c) + TextEntries(c))
  }

  function LabelsDoc(p: Payload): Json {
    Dict(map[KERNEL_ID := Str(p.id), KERNEL_MANAGER_NAME := Str(KernelName(p)), KERNEL_SPEC_NAME := Str(p.specName)])
  }

  function MetadataDoc(p: Payload): Json {
    Dict(map["labels" := LabelsDoc(p), "name" := Str(KernelName(p)), "namespace" := Str(p.namespace)])
  }

  /** `dump` is `payload.model_dump(by_alias=True).items()`: one environment variable per entry. */
  function EnvDoc(dump: seq<(string, Json)>): Json {
    List(seq(|dump|, i requires 0 <= i < |dump| => Dict(map["name" := Str(dump[i].0), "value" := dump[i].1])))
  }

  function CommandDoc(): Json {
    List([Str("python"), Str("-m"), Str("ipykernel"), Str("-f"), Str("$(KERNEL_CONNECTION_FILE_PATH)")])
  }

  function ContainerDoc(p: Payload, dump: seq<(string, Json)>): Json {
    Dict(map["env" := EnvDoc(dump), "image" := Str(p.image), "name" := Str("ipykernel"),
             "volumeMounts" := List(p.volumeMounts), "workingDir" := Str(p.workingDir),
             "command" := CommandDoc()])
  }

  function PodDoc(p: Payload, dump: seq<(string, Json)>): Json {
    Dict(map["containers" := List([ContainerDoc(p, dump)]), "restartPolicy" := Str("Never"), "volumes" := List(p.volumes)])
  }

  function TemplateDoc(p: Payload, dump: seq<(string, Json)>): Json {
    Dict(map["spec" := PodDoc(p, dump)])
  }

  function SpecDoc(p: Payload, dump: seq<(string, Json)>): Json {
    Dict(map["idleTimeoutSeconds" := Num(p.idleTimeout), "cullingIntervalSeconds" := Num(60),
             "kernelConnectionConfig" := ConnectionDoc(p.connection),
             "template" := TemplateDoc(p, dump)])
  }

  function KernelDoc(p: Payload, dump: seq<(string, Json)>): Json {
    Dict(map["apiVersion" := Str("jupyrator.org/v1"), "kind" := Str("KernelManager"),
             "metadata" := MetadataDoc(p), "spec" := SpecDoc(p, dump)])
  }

  /** What reaches the API server: the decoded kernel, written out under the JSON keys. */
  function Stored(reg: Registry, doc: Json): Option<Json>
    requires forall n :: n in reg.classes ==> Injective(reg.classes[n])
  {
    var v :- Deserialize(reg, doc, "V1Kernel");
    if v.Model? then RenameBack(reg, ToDict(v), Named("V1Kernel")) else None
  }

  // ---- reading a kernel back ------------------------------------------------

  function Get(j: Json, key: string): Option<Json> {
    if j.Dict? && key in j.entries then Some(j.entries[key]) else None
  }

  function AsStr(j: Json): Option<string> { if j.Str? then Some(j.s) else None }

  function AsNum(j: Json): Option<int> { if j.Num? then Some(j.n) else None }

  function AsList(j: Json): Option<seq<Json>> { if j.List? then Some(j.items) else None }

  function StrOr(j: Json, key: string, default: string): Option<string> {
    match Get(j, key) case None => Some(default) case Some(v) => AsStr(v)
  }

  function NumOr(j: Json, key: string, default: int): Option<int> {
    match Get(j, key) case None => Some(default) case Some(v) => AsNum(v)
  }

  function BoolOr(j: Json, key: string, default: bool): Option<bool> {
    match Get(j, key) case None => Some(default) case Some(v) => if v.Bool? then Some(v.b) else None
  }

  /** The identifiers that the default factories make up for a missing kernel id and key. */
  datatype Generated = Generated(id: string, key: string)

  /** `KernelConnectionInfoModel(**config)` */
  function ReadConnection(j: Json, gen: Generated): Option<ConnectionInfo> {
    if !j.Dict? then None
    else
      var ip :- StrOr(j, "ip", "0.0.0.0");
      var shell :- NumOr(j, "shellPort", 52318);
      var iopub :- NumOr(j, "iopubPort", 52317);
      var stdin :- NumOr(j, "stdinPort", 52319);
      var control :- NumOr(j, "controlPort", 52321);
      var hb :- NumOr(j, "hbPort", 52320);
      var id :- StrOr(j, "kernelId", gen.id);
      var key :- StrOr(j, "key", gen.key);
      var transport :- StrOr(j, "transport", "tcp");
      var scheme :- StrOr(j, "signatureScheme", "hmac-sha256");
      var name :- StrOr(j, "kernelName", "");
      Some(ConnectionInfo(ip, shell, iopub, stdin, control, hb, id, key, transport, scheme, name))
  }

  /** The status part: whether the kernel is ready, and the IP that replaces the configured one.
      Only the phase `Running` makes a kernel ready; otherwise a field `ready` of the document counts. */
  function ReadStatus(doc: Json): Option<(bool, Option<string>)> {
    var given :- BoolOr(doc, "ready", false);
    match Get(doc, "status")
    case None => Some((given, None))
    case Some(status) =>
      if !status.Dict? then None
      else
        var ready := Get(status, "phase") == Some(Str("Running")) || given;
        match Get(status, "ip")
        case None => Some((ready, None))
        case Some(v) =>
          var ip :- AsStr(v);
          Some((ready, Some(ip)))
  }

  function ReadActivity(metadata: Json): Option<Option<string>> {
    var annotations := (match Get(metadata, "annotations") case None => Dict(map[]) case Some(a) => a);
    if !annotations.Dict? then None
    else
      match Get(annotations, KernelResource.ACTIVITY_ANNOTATION)
      case None =>
        (match Get(metadata, "creationTimestamp")
         case None => Some(None)
         case Some(Null) => Some(None)
         case Some(v) => if v.Str? then Some(Some(v.s)) else None)
      case Some(v) =>
        var text :- AsStr(v);
        var t :- ActivityTime.ParseActivity(text);
        Some(Some(ActivityTime.IsoUtc(t)))
  }

  function FirstContainer(podSpec: Json): Option<Json> {
    var containers :- Get(podSpec, "containers");
    var items :- AsList(containers);
    if items == [] then None else Some(items[0])
  }

  function ListOfDicts(j: Json): Option<seq<Json>> {
    var items :- AsList(j);
    if forall i :: 0 <= i < |items| ==> items[i].Dict? then Some(items) else None
  }

  /** Kernel id, name and namespace; the metadata overrides fields of the document itself. */
  function ReadIdentity(doc: Json, metadata: Json): Option<(string, string, string)> {
    var name :- (if Get(metadata, "name").Some? then StrOr(metadata, "name", "") else StrOr(doc, "kernel_name", ""));
    var namespace :- (if Get(metadata, "namespace").Some? then StrOr(metadata, "namespace", "")
                      else StrOr(doc, "kernel_namespace", "default"));
    var labels :- Get(metadata, "labels");
    var idDoc :- Get(labels, KERNEL_ID);
    var id :- AsStr(idDoc);
    Some((id, name, namespace))
  }

  /** The pod part of the spec: volumes, mounts, image and working directory. */
  function ReadPod(podSpec: Json): Option<(seq<Json>, seq<Json>, string, string)> {
    var container :- FirstContainer(podSpec);
    var _ :- Get(container, "env");
    var volumesDoc :- Get(podSpec, "volumes");
    var volumes :- ListOfDicts(volumesDoc);
    var mountsDoc :- Get(container, "volumeMounts");
    var mounts :- ListOfDicts(mountsDoc);
    var imageDoc :- Get(container, "image");
    var image :- AsStr(imageDoc);
    var dirDoc :- Get(container, "workingDir");
    var dir :- AsStr(dirDoc);
    Some((volumes, mounts, image, dir))
  }

  /** What `model_validate` makes of a document, or None when it raises. */
  function ReadModel(doc: Json, gen: Generated): Option<KernelModel> {
    var metadata :- Get(doc, "metadata");
    var (id, name, namespace) :- ReadIdentity(doc, metadata);
    var (ready, ip) :- ReadStatus(doc);
    var spec :- Get(doc, "spec");
    var config :- Get(spec, "kernelConnectionConfig");
    var connection :- ReadConnection(config, gen);
    var template :- Get(spec, "template");
    var podSpec :- Get(template, "spec");
    var (volumes, mounts, image, dir) :- ReadPod(podSpec);
    var idleDoc :- Get(spec, "idleTimeoutSeconds");
    var idle :- AsNum(idleDoc);
    var activity :- ReadActivity(metadata);
    Some(KernelModel(id, name, namespace, ready, if ip.Some? then connection.(ip := ip.value) else connection,
                     volumes, mounts, image, idle, dir, activity))
  }

  // ---- the round trip ------------------------------------------------

  lemma ProjectGet(reg: Registry, d: Json, n: string, attr: string, key: string, ty: Ty)
    requires Sound(reg) && Declares(reg, n, attr, key, ty) && d.Dict? && key in d.entries && d.entries[key] != Null
    ensures Get(Project(reg, d, Named(n)), key) == Some(Project(reg, d.entries[key], ty))
  {
    ProjectionRestricts(reg, d, n, key);
    assert Given(reg.classes[n], attr, d);
  }

  /** Some attribute of the class holds `key`, at a type that `v` fits. */
  ghost predicate KeyFits(reg: Registry, c: Class, key: string, v: Json) {
    exists a :: a in c.fields && c.fields[a].key == key && WellTyped(reg, v, c.fields[a].ty)
  }

  lemma AttributeFits(reg: Registry, n: string, attr: string, key: string, ty: Ty, v: Json)
    requires Declares(reg, n, attr, key, ty) && WellTyped(reg, v, ty)
    ensures KeyFits(reg, reg.classes[n], key, v)
  {
    assert reg.classes[n].fields[attr].key == key;
  }

  ghost predicate AllFit(reg: Registry, n: string, m: map<string, Json>)
    requires n in reg.classes
  {
    forall k :: k in m ==> KeyFits(reg, reg.classes[n], k, m[k])
  }

  /** Entries that fit, none of them null. */
  ghost predicate AllGiven(reg: Registry, n: string, m: map<string, Json>)
    requires n in reg.classes
  {
    AllFit(reg, n, m) && forall k :: k in m ==> m[k] != Null
  }

  /** One more entry, for a declared attribute. */
  lemma OneMoreGiven(reg: Registry, n: string, m: map<string, Json>, attr: string, key: string, ty: Ty, v: Json)
    requires Declares(reg, n, attr, key, ty) && WellTyped(reg, v, ty) && v != Null && AllGiven(reg, n, m)
    ensures AllGiven(reg, n, m[key := v])
  {
    AttributeFits(reg, n, attr, key, ty, v);
  }

  lemma ModelFits(reg: Registry, d: Json, n: string)
    requires IsModel(reg, n) && Injective(reg.classes[n]) && d.Dict? && AllFit(reg, n, d.entries)
    requires var c := reg.classes[n];
             forall a :: a in c.required && a in c.fields ==> c.fields[a].key in d.entries && d.entries[c.fields[a].key] != Null
    ensures WellTyped(reg, d, Named(n))
  {
    var c := reg.classes[n];
    forall a | a in c.fields && c.fields[a].key in d.entries
      ensures WellTyped(reg, d.entries[c.fields[a].key], c.fields[a].ty)
    {
      var b :| b in c.fields && c.fields[b].key == c.fields[a].key && WellTyped(reg, d.entries[c.fields[a].key], c.fields[b].ty);
      assert a == b;
    }
  }

  /** Entries that are given make a model, if they contain the one required attribute. */
  lemma GivenFits(reg: Registry, m: map<string, Json>, n: string, attr: string, key: string, ty: Ty)
    requires Declares(reg, n, attr, key, ty) && RequiresOnly(reg, n, {attr})
    requires AllGiven(reg, n, m) && key in m
    ensures WellTyped(reg, Dict(m), Named(n))
  {
    ModelFits(reg, Dict(m), n);
  }

  lemma PrimitiveFits(reg: Registry, d: Json)
    requires Conversions(reg)
    ensures WellTyped(reg, d, STR)
    ensures d.Num? ==> WellTyped(reg, d, INT)
  {
    assert "str" in PRIMITIVES && "int" in PRIMITIVES;
  }

  lemma EnvVarFits(reg: Registry, name: string, value: Json)
    requires Conversions(reg) && EnvTables(reg)
    ensures WellTyped(reg, Dict(map["name" := Str(name), "value" := value]), Named("V1EnvVar"))
  {
    PrimitiveFits(reg, Str(name));
    PrimitiveFits(reg, value);
    AttributeFits(reg, "V1EnvVar", "name", "name", STR, Str(name));
    AttributeFits(reg, "V1EnvVar", "value", "value", STR, value);
    ModelFits(reg, Dict(map["name" := Str(name), "value" := value]), "V1EnvVar");
  }

  lemma EnvFits(reg: Registry, dump: seq<(string, Json)>)
    requires Conversions(reg) && EnvTables(reg)
    ensures WellTyped(reg, EnvDoc(dump), ListOf(Named("V1EnvVar")))
  {
    forall i | 0 <= i < |dump| ensures WellTyped(reg, EnvDoc(dump).items[i], Named("V1EnvVar")) {
      EnvVarFits(reg, dump[i].0, dump[i].1);
    }
  }

  lemma CommandFits(reg: Registry)
    requires Conversions(reg)
    ensures WellTyped(reg, CommandDoc(), ListOf(STR))
  {
    forall i | 0 <= i < |CommandDoc().items| ensures WellTyped(reg, CommandDoc().items[i], STR) {
      PrimitiveFits(reg, CommandDoc().items[i]);
    }
  }

  lemma ImageFits(reg: Registry, env: Json, image: string)
    requires Conversions(reg) && WellTyped(reg, env, ListOf(Named("V1EnvVar"))) && env.List?
    requires Declares(reg, "V1Container", "env", "env", ListOf(Named("V1EnvVar")))
    requires Declares(reg, "V1Container", "image", "image", STR) && Declares(reg, "V1Container", "name", "name", STR)
    ensures AllGiven(reg, "V1Container", map["env" := env, "image" := Str(image), "name" := Str("ipykernel")])
  {
    PrimitiveFits(reg, Str(image));
    PrimitiveFits(reg, Str("ipykernel"));
    OneMoreGiven(reg, "V1Container", map[], "env", "env", ListOf(Named("V1EnvVar")), env);
    OneMoreGiven(reg, "V1Container", map["env" := env], "image", "image", STR, Str(image));
    OneMoreGiven(reg, "V1Container", map["env" := env, "image" := Str(image)], "name", "name", STR, Str("ipykernel"));
  }

  lemma MountsFit(reg: Registry, m: map<string, Json>, mounts: Json, dir: string, command: Json)
    requires Conversions(reg) && WellTyped(reg, command, ListOf(STR)) && command.List?
    requires WellTyped(reg, mounts, ListOf(Named("V1VolumeMount"))) && mounts.List?
    requires Declares(reg, "V1Container", "volume_mounts", "volumeMounts", ListOf(Named("V1VolumeMount")))
    requires Declares(reg, "V1Container", "working_dir", "workingDir", STR)
    requires Declares(reg, "V1Container", "command", "command", ListOf(STR))
    requires AllGiven(reg, "V1Container", m)
    ensures AllGiven(reg, "V1Container", m["volumeMounts" := mounts]["workingDir" := Str(dir)]["command" := command])
  {
    PrimitiveFits(reg, Str(dir));
    OneMoreGiven(reg, "V1Container", m, "volume_mounts", "volumeMounts", ListOf(Named("V1VolumeMount")), mounts);
    OneMoreGiven(reg, "V1Container", m["volumeMounts" := mounts], "working_dir", "workingDir", STR, Str(dir));
    OneMoreGiven(reg, "V1Container", m["volumeMounts" := mounts]["workingDir" := Str(dir)], "command", "command", ListOf(STR),
        command);
  }

  lemma ContainerFits(reg: Registry, p: Payload, dump: seq<(string, Json)>)
    requires Conversions(reg) && EnvTables(reg) && ContainerTables(reg)
    requires WellTyped(reg, List(p.volumeMounts), ListOf(Named("V1VolumeMount")))
    ensures WellTyped(reg, ContainerDoc(p, dump), Named("V1Container"))
  {
    EnvFits(reg, dump);
    CommandFits(reg);
    ImageFits(reg, EnvDoc(dump), p.image);
    MountsFit(reg, map["env" := EnvDoc(dump), "image" := Str(p.image), "name" := Str("ipykernel")],
              List(p.volumeMounts), p.workingDir, CommandDoc());
    GivenFits(reg, ContainerDoc(p, dump).entries, "V1Container", "name", "name", STR);
  }

  lemma PodFits(reg: Registry, p: Payload, dump: seq<(string, Json)>)
    requires PodTables(reg) && Conversions(reg)
    requires WellTyped(reg, ContainerDoc(p, dump), Named("V1Container"))
    requires WellTyped(reg, List(p.volumes), ListOf(Named("V1Volume")))
    ensures WellTyped(reg, PodDoc(p, dump), Named("V1PodSpec"))
  {
    var containers := List([ContainerDoc(p, dump)]);
    assert WellTyped(reg, containers, ListOf(Named("V1Container")));
    PrimitiveFits(reg, Str("Never"));
    OneMoreGiven(reg, "V1PodSpec", map[], "containers", "containers", ListOf(Named("V1Container")), containers);
    OneMoreGiven(reg, "V1PodSpec", map["containers" := containers], "restart_policy", "restartPolicy", STR, Str("Never"));
    OneMoreGiven(reg, "V1PodSpec", map["containers" := containers, "restartPolicy" := Str("Never")],
                "volumes", "volumes", ListOf(Named("V1Volume")), List(p.volumes));
    GivenFits(reg, PodDoc(p, dump).entries, "V1PodSpec", "containers", "containers", ListOf(Named("V1Container")));
  }

  lemma TemplateFits(reg: Registry, pod: Json)
    requires TemplateTables(reg) && pod != Null && WellTyped(reg, pod, Named("V1PodSpec"))
    ensures WellTyped(reg, Dict(map["spec" := pod]), Named("V1PodTemplateSpec"))
  {
    AttributeFits(reg, "V1PodTemplateSpec", "spec", "spec", Named("V1PodSpec"), pod);
    ModelFits(reg, Dict(map["spec" := pod]), "V1PodTemplateSpec");
  }

  lemma RequestPortsFit(reg: Registry, conn: ConnectionInfo)
    requires Conversions(reg)
    requires Declares(reg, "V1KernelConnectionConfig", "shell_port", "shellPort", INT)
    requires Declares(reg, "V1KernelConnectionConfig", "iopub_port", "iopubPort", INT)
    requires Declares(reg, "V1KernelConnectionConfig", "stdin_port", "stdinPort", INT)
    ensures AllGiven(reg, "V1KernelConnectionConfig",
        map["shellPort" := Num(conn.shellPort), "iopubPort" := Num(conn.iopubPort), "stdinPort" := Num(conn.stdinPort)])
  {
    PrimitiveFits(reg, Num(conn.shellPort));
    PrimitiveFits(reg, Num(conn.iopubPort));
    PrimitiveFits(reg, Num(conn.stdinPort));
    OneMoreGiven(reg, "V1KernelConnectionConfig", map[], "shell_port", "shellPort", INT, Num(conn.shellPort));
    OneMoreGiven(reg, "V1KernelConnectionConfig", map["shellPort" := Num(conn.shellPort)], "iopub_port", "iopubPort", INT,
        Num(conn.iopubPort));
    OneMoreGiven(reg, "V1KernelConnectionConfig", map["shellPort" := Num(conn.shellPort), "iopubPort" := Num(conn.iopubPort)],
        "stdin_port", "stdinPort", INT, Num(conn.stdinPort));
  }

  lemma OtherPortsFit(reg: Registry, conn: ConnectionInfo, m: map<string, Json>)
    requires Conversions(reg)
    requires Declares(reg, "V1KernelConnectionConfig", "control_port", "controlPort", INT)
    requires Declares(reg, "V1KernelConnectionConfig", "hb_port", "hbPort", INT)
    requires AllGiven(reg, "V1KernelConnectionConfig", m)
    ensures AllGiven(reg, "V1KernelConnectionConfig", m["controlPort" := Num(conn.controlPort)]["hbPort" := Num(conn.hbPort)])
  {
    PrimitiveFits(reg, Num(conn.controlPort));
    PrimitiveFits(reg, Num(conn.hbPort));
    OneMoreGiven(reg, "V1KernelConnectionConfig", m, "control_port", "controlPort", INT, Num(conn.controlPort));
    OneMoreGiven(reg, "V1KernelConnectionConfig", m["controlPort" := Num(conn.controlPort)], "hb_port", "hbPort", INT,
        Num(conn.hbPort));
  }

  lemma FirstTextsFit(reg: Registry, conn: ConnectionInfo)
    requires Conversions(reg)
    requires Declares(reg, "V1KernelConnectionConfig", "ip", "ip", STR)
    requires Declares(reg, "V1KernelConnectionConfig", "kernel_id", "kernelId", STR)
    requires Declares(reg, "V1KernelConnectionConfig", "key", "key", STR)
    ensures AllGiven(reg, "V1KernelConnectionConfig",
        map["ip" := Str(conn.ip), "kernelId" := Str(conn.kernelId), "key" := Str(conn.key)])
  {
    PrimitiveFits(reg, Str(conn.ip));
    PrimitiveFits(reg, Str(conn.kernelId));
    PrimitiveFits(reg, Str(conn.key));
    OneMoreGiven(reg, "V1KernelConnectionConfig", map[], "ip", "ip", STR, Str(conn.ip));
    OneMoreGiven(reg, "V1KernelConnectionConfig", map["ip" := Str(conn.ip)], "kernel_id", "kernelId", STR, Str(conn.kernelId));
    OneMoreGiven(reg, "V1KernelConnectionConfig", map["ip" := Str(conn.ip), "kernelId" := Str(conn.kernelId)], "key", "key", STR,
        Str(conn.key));
  }

  lemma OtherTextsFit(reg: Registry, conn: ConnectionInfo, m: map<string, Json>)
    requires Conversions(reg)
    requires Declares(reg, "V1KernelConnectionConfig", "transport", "transport", STR)
    requires Declares(reg, "V1KernelConnectionConfig", "signature_scheme", "signatureScheme", STR)
    requires Declares(reg, "V1KernelConnectionConfig", "kernel_name", "kernelName", STR)
    requires AllGiven(reg, "V1KernelConnectionConfig", m)
    ensures AllGiven(reg, "V1KernelConnectionConfig",
        m["transport" := Str(conn.transport)]["signatureScheme" := Str(conn.signatureScheme)]
         ["kernelName" := Str(conn.kernelName)])
  {
    PrimitiveFits(reg, Str(conn.transport));
    PrimitiveFits(reg, Str(conn.signatureScheme));
    PrimitiveFits(reg, Str(conn.kernelName));
    OneMoreGiven(reg, "V1KernelConnectionConfig", m, "transport", "transport", STR, Str(conn.transport));
    OneMoreGiven(reg, "V1KernelConnectionConfig", m["transport" := Str(conn.transport)], "signature_scheme", "signatureScheme",
        STR, Str(conn.signatureScheme));
    OneMoreGiven(reg, "V1KernelConnectionConfig",
        m["transport" := Str(conn.transport)]["signatureScheme" := Str(conn.signatureScheme)],
        "kernel_name", "kernelName", STR, Str(conn.kernelName));
  }

  lemma ConnectionFits(reg: Registry, conn: ConnectionInfo)
    requires ConnectionTables(reg) && Conversions(reg)
    ensures WellTyped(reg, ConnectionDoc(conn), Named("V1KernelConnectionConfig"))
  {
    RequestPortsFit(reg, conn);
    OtherPortsFit(reg, conn,
        map["shellPort" := Num(conn.shellPort), "iopubPort" := Num(conn.iopubPort), "stdinPort" := Num(conn.stdinPort)]);
    FirstTextsFit(reg, conn);
    OtherTextsFit(reg, conn, map["ip" := Str(conn.ip), "kernelId" := Str(conn.kernelId), "key" := Str(conn.key)]);
    ModelFits(reg, ConnectionDoc(conn), "V1KernelConnectionConfig");
  }

  lemma TimesFit(reg: Registry, p: Payload)
    requires Conversions(reg)
    requires Declares(reg, "V1KernelSpec", "idle_timeout_seconds", "idleTimeoutSeconds", INT)
    requires Declares(reg, "V1KernelSpec", "culling_interval_seconds", "cullingIntervalSeconds", INT)
    ensures AllGiven(reg, "V1KernelSpec", map["idleTimeoutSeconds" := Num(p.idleTimeout), "cullingIntervalSeconds" := Num(60)])
  {
    PrimitiveFits(reg, Num(p.idleTimeout));
    PrimitiveFits(reg, Num(60));
    OneMoreGiven(reg, "V1KernelSpec", map[], "idle_timeout_seconds", "idleTimeoutSeconds", INT, Num(p.idleTimeout));
    OneMoreGiven(reg, "V1KernelSpec", map["idleTimeoutSeconds" := Num(p.idleTimeout)],
                "culling_interval_seconds", "cullingIntervalSeconds", INT, Num(60));
  }

  lemma SpecEntriesFit(reg: Registry, p: Payload, times: map<string, Json>, connection: Json, template: Json)
    requires Declares(reg, "V1KernelSpec", "template", "template", Named("V1PodTemplateSpec"))
    requires Declares(reg, "V1KernelSpec", "kernel_connection_config", "kernelConnectionConfig",
        Named("V1KernelConnectionConfig"))
    requires connection.Dict? && template.Dict?
    requires WellTyped(reg, connection, Named("V1KernelConnectionConfig")) && WellTyped(reg, template, Named("V1PodTemplateSpec"))
    requires AllGiven(reg, "V1KernelSpec", times)
    ensures AllGiven(reg, "V1KernelSpec", times["kernelConnectionConfig" := connection]["template" := template])
  {
    OneMoreGiven(reg, "V1KernelSpec", times, "kernel_connection_config", "kernelConnectionConfig",
                Named("V1KernelConnectionConfig"), connection);
    OneMoreGiven(reg, "V1KernelSpec", times["kernelConnectionConfig" := connection], "template", "template",
                Named("V1PodTemplateSpec"), template);
  }

  lemma SpecFits(reg: Registry, p: Payload, dump: seq<(string, Json)>)
    requires SpecTables(reg) && Conversions(reg)
    requires WellTyped(reg, ConnectionDoc(p.connection), Named("V1KernelConnectionConfig"))
    requires WellTyped(reg, TemplateDoc(p, dump), Named("V1PodTemplateSpec"))
    ensures WellTyped(reg, SpecDoc(p, dump), Named("V1KernelSpec"))
  {
    TimesFit(reg, p);
    SpecEntriesFit(reg, p, map["idleTimeoutSeconds" := Num(p.idleTimeout), "cullingIntervalSeconds" := Num(60)],
                   ConnectionDoc(p.connection), TemplateDoc(p, dump));
    GivenFits(reg, SpecDoc(p, dump).entries, "V1KernelSpec", "template", "template", Named("V1PodTemplateSpec"));
  }

  lemma MetadataFits(reg: Registry, p: Payload)
    requires MetadataTables(reg) && Conversions(reg)
    ensures WellTyped(reg, MetadataDoc(p), Named("V1ObjectMeta"))
  {
    var labels := LabelsDoc(p);
    forall k | k in labels.entries ensures WellTyped(reg, labels.entries[k], STR) { PrimitiveFits(reg, labels.entries[k]); }
    assert WellTyped(reg, labels, DictOf(STR, STR));
    PrimitiveFits(reg, Str(KernelName(p)));
    PrimitiveFits(reg, Str(p.namespace));
    AttributeFits(reg, "V1ObjectMeta", "labels", "labels", DictOf(STR, STR), labels);
    AttributeFits(reg, "V1ObjectMeta", "name", "name", STR, Str(KernelName(p)));
    AttributeFits(reg, "V1ObjectMeta", "namespace", "namespace", STR, Str(p.namespace));
    ModelFits(reg, MetadataDoc(p), "V1ObjectMeta");
  }

  /** What the request itself must satisfy: its volumes and mounts fit their Kubernetes types. */
  ghost predicate Requestable(reg: Registry, p: Payload) {
    && WellTyped(reg, List(p.volumes), ListOf(Named("V1Volume")))
    && WellTyped(reg, List(p.volumeMounts), ListOf(Named("V1VolumeMount")))
  }

  lemma KindFits(reg: Registry)
    requires Conversions(reg)
    requires Declares(reg, "V1Kernel", "api_version", "apiVersion", STR) && Declares(reg, "V1Kernel", "kind", "kind", STR)
    ensures AllGiven(reg, "V1Kernel", map["apiVersion" := Str("jupyrator.org/v1"), "kind" := Str("KernelManager")])
  {
    PrimitiveFits(reg, Str("jupyrator.org/v1"));
    PrimitiveFits(reg, Str("KernelManager"));
    OneMoreGiven(reg, "V1Kernel", map[], "api_version", "apiVersion", STR, Str("jupyrator.org/v1"));
    OneMoreGiven(reg, "V1Kernel", map["apiVersion" := Str("jupyrator.org/v1")], "kind", "kind", STR, Str("KernelManager"));
  }

  lemma KernelFits(reg: Registry, p: Payload, dump: seq<(string, Json)>)
    requires TopTables(reg) && Conversions(reg)
    requires WellTyped(reg, MetadataDoc(p), Named("V1ObjectMeta"))
    requires WellTyped(reg, SpecDoc(p, dump), Named("V1KernelSpec"))
    ensures WellTyped(reg, KernelDoc(p, dump), Named("V1Kernel"))
  {
    KindFits(reg);
    var kind := map["apiVersion" := Str("jupyrator.org/v1"), "kind" := Str("KernelManager")];
    OneMoreGiven(reg, "V1Kernel", kind, "metadata", "metadata", Named("V1ObjectMeta"), MetadataDoc(p));
    OneMoreGiven(reg, "V1Kernel", kind["metadata" := MetadataDoc(p)], "spec", "spec", Named("V1KernelSpec"), SpecDoc(p, dump));
    GivenFits(reg, KernelDoc(p, dump).entries, "V1Kernel", "spec", "spec", Named("V1KernelSpec"));
  }

  lemma RequestFits(reg: Registry, p: Payload, dump: seq<(string, Json)>)
    requires KernelTables(reg) && Requestable(reg, p)
    ensures WellTyped(reg, KernelDoc(p, dump), Named("V1Kernel"))
  {
    ContainerFits(reg, p, dump);
    PodFits(reg, p, dump);
    TemplateFits(reg, PodDoc(p, dump));
    ConnectionFits(reg, p.connection);
    SpecFits(reg, p, dump);
    MetadataFits(reg, p);
    KernelFits(reg, p, dump);
  }

  lemma FittingIsStored(reg: Registry, doc: Json)
    requires Sound(reg) && ShallowTables(reg) && IsModel(reg, "V1Kernel")
    requires doc != Null && WellTyped(reg, doc, Named("V1Kernel"))
    ensures Stored(reg, doc) == Some(Project(reg, doc, Named("V1Kernel")))
  {
    ShallowNeverBuries(reg, doc, Named("V1Kernel"));
    assert PlainName("V1Kernel") by { assert "V1Kernel"[0] == 'V'; }
    DecodeThenEncodeProjects(reg, doc, "V1Kernel");
  }

  // ---- reading what was stored ------------------------------------------------

  lemma StrProjects(reg: Registry, s: string)
    requires Sound(reg) && Conversions(reg)
    ensures Project(reg, Str(s), STR) == Str(s)
  {
    assert "str" in PRIMITIVES;
  }

  lemma NumProjects(reg: Registry, n: int)
    requires Sound(reg) && Conversions(reg)
    ensures Project(reg, Num(n), INT) == Num(n)
  {
    assert "int" in PRIMITIVES;
  }

  lemma NumReads(reg: Registry, d: Json, attr: string, key: string, n: int)
    requires Sound(reg) && Conversions(reg) && Declares(reg, "V1KernelConnectionConfig", attr, key, INT)
    requires Get(d, key) == Some(Num(n))
    ensures Get(Project(reg, d, Named("V1KernelConnectionConfig")), key) == Some(Num(n))
  {
    ProjectGet(reg, d, "V1KernelConnectionConfig", attr, key, INT);
    NumProjects(reg, n);
  }

  lemma StrReads(reg: Registry, d: Json, attr: string, key: string, s: string)
    requires Sound(reg) && Conversions(reg) && Declares(reg, "V1KernelConnectionConfig", attr, key, STR)
    requires Get(d, key) == Some(Str(s))
    ensures Get(Project(reg, d, Named("V1KernelConnectionConfig")), key) == Some(Str(s))
  {
    ProjectGet(reg, d, "V1KernelConnectionConfig", attr, key, STR);
    StrProjects(reg, s);
  }

  /** The fourth character from the end. */
  predicate EndsLikePort(k: string) { |k| >= 4 && k[|k| - 4] == 'P' }

  lemma PortKeys(conn: ConnectionInfo)
    ensures forall k :: k in PortEntries(conn) ==> EndsLikePort(k)
  {
  }

  lemma TextKeys(conn: ConnectionInfo)
    ensures forall k :: k in TextEntries(conn) ==> !EndsLikePort(k)
  {
  }

  predicate HoldsPorts(d: Json, conn: ConnectionInfo) {
    && Get(d, "shellPort") == Some(Num(conn.shellPort)) && Get(d, "iopubPort") == Some(Num(conn.iopubPort))
    && Get(d, "stdinPort") == Some(Num(conn.stdinPort)) && Get(d, "controlPort") == Some(Num(conn.controlPort))
    && Get(d, "hbPort") == Some(Num(conn.hbPort))
  }

  predicate HoldsTexts(d: Json, conn: ConnectionInfo) {
    && Get(d, "ip") == Some(Str(conn.ip)) && Get(d, "transport") == Some(Str(conn.transport))
    && Get(d, "kernelId") == Some(Str(conn.kernelId)) && Get(d, "kernelName") == Some(Str(conn.kernelName))
    && Get(d, "key") == Some(Str(conn.key)) && Get(d, "signatureScheme") == Some(Str(conn.signatureScheme))
  }

  /** The document holds the connection, under the aliases of its fields. */
  predicate HoldsEntries(d: Json, conn: ConnectionInfo) { HoldsPorts(d, conn) && HoldsTexts(d, conn) }

  lemma PortsHeld(conn: ConnectionInfo)
    ensures HoldsPorts(Dict(PortEntries(conn)), conn)
  {
  }

  lemma TextsHeld(conn: ConnectionInfo)
    ensures HoldsTexts(Dict(TextEntries(conn)), conn)
  {
  }

  /** Ports and texts have different keys, so neither hides the other. */
  lemma EntriesHeld(conn: ConnectionInfo)
    ensures HoldsEntries(ConnectionDoc(conn), conn)
  {
    PortKeys(conn);
    TextKeys(conn);
    forall k ensures k in PortEntries(conn) ==> Get(ConnectionDoc(conn), k) == Get(Dict(PortEntries(conn)), k)
      ensures k in TextEntries(conn) ==> Get(ConnectionDoc(conn), k) == Get(Dict(TextEntries(conn)), k)
    {
    }
    PortsHeld(conn);
    TextsHeld(conn);
  }

  lemma PortsProject(reg: Registry, d: Json, conn: ConnectionInfo)
    requires Sound(reg) && Conversions(reg) && ConnectionTables(reg) && HoldsPorts(d, conn)
    ensures HoldsPorts(Project(reg, d, Named("V1KernelConnectionConfig")), conn)
  {
    NumReads(reg, d, "shell_port", "shellPort", conn.shellPort);
    NumReads(reg, d, "iopub_port", "iopubPort", conn.iopubPort);
    NumReads(reg, d, "stdin_port", "stdinPort", conn.stdinPort);
    NumReads(reg, d, "control_port", "controlPort", conn.controlPort);
    NumReads(reg, d, "hb_port", "hbPort", conn.hbPort);
  }

  lemma TextsProject(reg: Registry, d: Json, conn: ConnectionInfo)
    requires Sound(reg) && Conversions(reg) && ConnectionTables(reg) && HoldsTexts(d, conn)
    ensures HoldsTexts(Project(reg, d, Named("V1KernelConnectionConfig")), conn)
  {
    StrReads(reg, d, "ip", "ip", conn.ip);
    StrReads(reg, d, "transport", "transport", conn.transport);
    StrReads(reg, d, "kernel_id", "kernelId", conn.kernelId);
    StrReads(reg, d, "kernel_name", "kernelName", conn.kernelName);
    StrReads(reg, d, "key", "key", conn.key);
    StrReads(reg, d, "signature_scheme", "signatureScheme", conn.signatureScheme);
  }

  lemma EntriesRead(conn: ConnectionInfo, d: Json, gen: Generated)
    requires HoldsEntries(d, conn)
    ensures ReadConnection(d, gen) == Some(conn)
  {
  }

  lemma StoredEntries(reg: Registry, conn: ConnectionInfo)
    requires Sound(reg) && Conversions(reg) && ConnectionTables(reg)
    ensures HoldsEntries(Project(reg, ConnectionDoc(conn), Named("V1KernelConnectionConfig")), conn)
  {
    EntriesHeld(conn);
    PortsProject(reg, ConnectionDoc(conn), conn);
    TextsProject(reg, ConnectionDoc(conn), conn);
  }

  /** The connection that was requested is the one read back, whatever the default factories make. */
  lemma ConnectionReadsBack(reg: Registry, conn: ConnectionInfo, gen: Generated)
    requires Sound(reg) && Conversions(reg) && ConnectionTables(reg)
    ensures ReadConnection(Project(reg, ConnectionDoc(conn), Named("V1KernelConnectionConfig")), gen) == Some(conn)
  {
    StoredEntries(reg, conn);
    EntriesRead(conn, Project(reg, ConnectionDoc(conn), Named("V1KernelConnectionConfig")), gen);
  }

  /** The container as it is stored. */
  lemma ContainerEntries(p: Payload, dump: seq<(string, Json)>)
    ensures var c := ContainerDoc(p, dump);
            && Get(c, "env") == Some(EnvDoc(dump)) && Get(c, "volumeMounts") == Some(List(p.volumeMounts))
            && Get(c, "image") == Some(Str(p.image)) && Get(c, "workingDir") == Some(Str(p.workingDir))
  {
  }

  lemma ContainerProjects(reg: Registry, c: Json, env: Json, mounts: Json, image: string, dir: string)
    requires Sound(reg) && Conversions(reg) && ContainerTables(reg)
    requires Get(c, "env") == Some(env) && env != Null && Get(c, "volumeMounts") == Some(mounts) && mounts != Null
    requires Get(c, "image") == Some(Str(image)) && Get(c, "workingDir") == Some(Str(dir))
    ensures var d := Project(reg, c, Named("V1Container"));
            && Get(d, "env").Some? && Get(d, "image") == Some(Str(image)) && Get(d, "workingDir") == Some(Str(dir))
            && Get(d, "volumeMounts") == Some(Project(reg, mounts, ListOf(Named("V1VolumeMount"))))
  {
    ProjectGet(reg, c, "V1Container", "env", "env", ListOf(Named("V1EnvVar")));
    ProjectGet(reg, c, "V1Container", "image", "image", STR);
    ProjectGet(reg, c, "V1Container", "working_dir", "workingDir", STR);
    ProjectGet(reg, c, "V1Container", "volume_mounts", "volumeMounts", ListOf(Named("V1VolumeMount")));
    StrProjects(reg, image);
    StrProjects(reg, dir);
  }

  lemma ContainerReads(reg: Registry, p: Payload, dump: seq<(string, Json)>, d: Json)
    requires Sound(reg) && Conversions(reg) && ContainerTables(reg)
    requires d == Project(reg, ContainerDoc(p, dump), Named("V1Container"))
    ensures Get(d, "env").Some? && Get(d, "image") == Some(Str(p.image)) && Get(d, "workingDir") == Some(Str(p.workingDir))
    ensures Get(d, "volumeMounts") == Some(Project(reg, List(p.volumeMounts), ListOf(Named("V1VolumeMount"))))
  {
    ContainerEntries(p, dump);
    ContainerProjects(reg, ContainerDoc(p, dump), EnvDoc(dump), List(p.volumeMounts), p.image, p.workingDir);
  }

  lemma PodReads(reg: Registry, p: Payload, dump: seq<(string, Json)>, d: Json)
    requires Sound(reg) && PodTables(reg)
    requires d == Project(reg, PodDoc(p, dump), Named("V1PodSpec"))
    ensures Get(d, "volumes") == Some(Project(reg, List(p.volumes), ListOf(Named("V1Volume"))))
    ensures FirstContainer(d) == Some(Project(reg, ContainerDoc(p, dump), Named("V1Container")))
  {
    var pod := PodDoc(p, dump);
    ProjectGet(reg, pod, "V1PodSpec", "containers", "containers", ListOf(Named("V1Container")));
    ProjectGet(reg, pod, "V1PodSpec", "volumes", "volumes", ListOf(Named("V1Volume")));
    assert pod.entries["containers"] == List([ContainerDoc(p, dump)]);
  }

  lemma TemplateReads(reg: Registry, p: Payload, dump: seq<(string, Json)>, d: Json)
    requires Sound(reg) && TemplateTables(reg)
    requires Declares(reg, "V1KernelSpec", "template", "template", Named("V1PodTemplateSpec"))
    requires d == Project(reg, SpecDoc(p, dump), Named("V1KernelSpec"))
    ensures Get(d, "template").Some?
    ensures Get(Get(d, "template").value, "spec") == Some(Project(reg, PodDoc(p, dump), Named("V1PodSpec")))
  {
    ProjectGet(reg, SpecDoc(p, dump), "V1KernelSpec", "template", "template", Named("V1PodTemplateSpec"));
    ProjectGet(reg, TemplateDoc(p, dump), "V1PodTemplateSpec", "spec", "spec", Named("V1PodSpec"));
  }

  lemma SpecEntries(p: Payload, dump: seq<(string, Json)>)
    ensures Get(SpecDoc(p, dump), "idleTimeoutSeconds") == Some(Num(p.idleTimeout))
    ensures Get(SpecDoc(p, dump), "kernelConnectionConfig") == Some(ConnectionDoc(p.connection))
  {
  }

  lemma SpecProjects(reg: Registry, spec: Json, idle: int, config: Json)
    requires Sound(reg) && Conversions(reg)
    requires Declares(reg, "V1KernelSpec", "idle_timeout_seconds", "idleTimeoutSeconds", INT)
    requires Declares(reg, "V1KernelSpec", "kernel_connection_config", "kernelConnectionConfig",
        Named("V1KernelConnectionConfig"))
    requires Get(spec, "idleTimeoutSeconds") == Some(Num(idle)) && Get(spec, "kernelConnectionConfig") == Some(config)
        && config != Null
    ensures var d := Project(reg, spec, Named("V1KernelSpec"));
            && Get(d, "idleTimeoutSeconds") == Some(Num(idle))
            && Get(d, "kernelConnectionConfig") == Some(Project(reg, config, Named("V1KernelConnectionConfig")))
  {
    ProjectGet(reg, spec, "V1KernelSpec", "idle_timeout_seconds", "idleTimeoutSeconds", INT);
    ProjectGet(reg, spec, "V1KernelSpec", "kernel_connection_config", "kernelConnectionConfig",
        Named("V1KernelConnectionConfig"));
    NumProjects(reg, idle);
  }

  lemma SpecReads(reg: Registry, p: Payload, dump: seq<(string, Json)>, d: Json)
    requires Sound(reg) && Conversions(reg) && SpecTables(reg)
    requires d == Project(reg, SpecDoc(p, dump), Named("V1KernelSpec"))
    ensures Get(d, "idleTimeoutSeconds") == Some(Num(p.idleTimeout))
    ensures Get(d, "kernelConnectionConfig") == Some(Project(reg, ConnectionDoc(p.connection), Named("V1KernelConnectionConfig")))
  {
    SpecEntries(p, dump);
    SpecProjects(reg, SpecDoc(p, dump), p.idleTimeout, ConnectionDoc(p.connection));
  }

  lemma LabelsProject(reg: Registry, p: Payload)
    requires Sound(reg) && Conversions(reg)
    ensures Project(reg, LabelsDoc(p), DictOf(STR, STR)) == LabelsDoc(p)
  {
    var labels := LabelsDoc(p);
    forall k | k in labels.entries ensures Project(reg, labels.entries[k], STR) == labels.entries[k] {
      StrProjects(reg, labels.entries[k].s);
    }
    assert Project(reg, labels, DictOf(STR, STR)).entries == labels.entries;
  }

  lemma MetadataProjects(reg: Registry, m: Json, name: string, namespace: string, labels: Json)
    requires Sound(reg) && Conversions(reg) && MetadataTables(reg)
    requires Get(m, "name") == Some(Str(name)) && Get(m, "namespace") == Some(Str(namespace))
    requires Get(m, "labels") == Some(labels) && labels != Null && Project(reg, labels, DictOf(STR, STR)) == labels
    ensures var d := Project(reg, m, Named("V1ObjectMeta"));
            && Get(d, "name") == Some(Str(name)) && Get(d, "namespace") == Some(Str(namespace))
            && Get(d, "labels") == Some(labels)
  {
    ProjectGet(reg, m, "V1ObjectMeta", "name", "name", STR);
    ProjectGet(reg, m, "V1ObjectMeta", "namespace", "namespace", STR);
    ProjectGet(reg, m, "V1ObjectMeta", "labels", "labels", DictOf(STR, STR));
    StrProjects(reg, name);
    StrProjects(reg, namespace);
  }

  lemma MetadataReads(reg: Registry, p: Payload, d: Json)
    requires Sound(reg) && Conversions(reg) && MetadataTables(reg)
    requires d == Project(reg, MetadataDoc(p), Named("V1ObjectMeta"))
    ensures Get(d, "name") == Some(Str(KernelName(p))) && Get(d, "namespace") == Some(Str(p.namespace))
    ensures Get(d, "labels") == Some(LabelsDoc(p))
  {
    LabelsProject(reg, p);
    MetadataProjects(reg, MetadataDoc(p), KernelName(p), p.namespace, LabelsDoc(p));
  }

  /** A later version of the stored document: same spec, name, namespace and labels; status,
      annotations and everything the server adds are arbitrary. */
  predicate SameRequest(doc: Json, stored: Json) {
    && Get(doc, "spec") == Get(stored, "spec")
    && Get(doc, "metadata").Some? && Get(stored, "metadata").Some?
    && Get(doc, "metadata").value.Dict?
    && Get(Get(doc, "metadata").value, "name") == Get(Get(stored, "metadata").value, "name")
    && Get(Get(doc, "metadata").value, "namespace") == Get(Get(stored, "metadata").value, "namespace")
    && Get(Get(doc, "metadata").value, "labels") == Get(Get(stored, "metadata").value, "labels")
  }

  /** The activity annotation and the status are readable. */
  predicate ReadableExtras(doc: Json) {
    && Get(doc, "metadata").Some? && ReadActivity(Get(doc, "metadata").value).Some? && ReadStatus(doc).Some?
  }

  function Volumes(reg: Registry, vs: seq<Json>, n: string): seq<Json>
    requires forall m :: m in reg.classes ==> Injective(reg.classes[m])
  {
    seq(|vs|, i requires 0 <= i < |vs| => Project(reg, vs[i], Named(n)))
  }

  /** What the apiserver should see of a request. */
  function Echo(reg: Registry, p: Payload, ready: bool, ip: Option<string>, activity: Option<string>): KernelModel
    requires forall m :: m in reg.classes ==> Injective(reg.classes[m])
  {
    KernelModel(p.id, KernelName(p), p.namespace, ready, if ip.Some? then p.connection.(ip := ip.value) else p.connection,
                Volumes(reg, p.volumes, "V1Volume"), Volumes(reg, p.volumeMounts, "V1VolumeMount"),
                p.image, p.idleTimeout, p.workingDir, activity)
  }

  lemma VolumesRead(reg: Registry, vs: seq<Json>, n: string)
    requires Sound(reg) && IsModel(reg, n) && forall i :: 0 <= i < |vs| ==> vs[i].Dict?
    ensures ListOfDicts(Project(reg, List(vs), ListOf(Named(n)))) == Some(Volumes(reg, vs, n))
  {
    var d := Project(reg, List(vs), ListOf(Named(n)));
    assert d.items == Volumes(reg, vs, n);
  }

  lemma StoredParts(reg: Registry, p: Payload, dump: seq<(string, Json)>, stored: Json)
    requires Sound(reg) && TopTables(reg) && stored == Project(reg, KernelDoc(p, dump), Named("V1Kernel"))
    ensures Get(stored, "spec") == Some(Project(reg, SpecDoc(p, dump), Named("V1KernelSpec")))
    ensures Get(stored, "metadata") == Some(Project(reg, MetadataDoc(p), Named("V1ObjectMeta")))
  {
    ProjectGet(reg, KernelDoc(p, dump), "V1Kernel", "spec", "spec", Named("V1KernelSpec"));
    ProjectGet(reg, KernelDoc(p, dump), "V1Kernel", "metadata", "metadata", Named("V1ObjectMeta"));
  }

  lemma PodReadsBack(reg: Registry, p: Payload, dump: seq<(string, Json)>)
    requires Sound(reg) && Conversions(reg) && PodTables(reg) && ContainerTables(reg)
    requires IsModel(reg, "V1Volume") && IsModel(reg, "V1VolumeMount")
    requires forall i :: 0 <= i < |p.volumes| ==> p.volumes[i].Dict?
    requires forall i :: 0 <= i < |p.volumeMounts| ==> p.volumeMounts[i].Dict?
    ensures ReadPod(Project(reg, PodDoc(p, dump), Named("V1PodSpec")))
            == Some((Volumes(reg, p.volumes, "V1Volume"), Volumes(reg, p.volumeMounts, "V1VolumeMount"), p.image, p.workingDir))
  {
    PodReads(reg, p, dump, Project(reg, PodDoc(p, dump), Named("V1PodSpec")));
    ContainerReads(reg, p, dump, Project(reg, ContainerDoc(p, dump), Named("V1Container")));
    VolumesRead(reg, p.volumes, "V1Volume");
    VolumesRead(reg, p.volumeMounts, "V1VolumeMount");
  }

  lemma IdentityReadsBack(reg: Registry, p: Payload, meta: Json, doc: Json, m: Json)
    requires Sound(reg) && Conversions(reg) && MetadataTables(reg)
    requires meta == Project(reg, MetadataDoc(p), Named("V1ObjectMeta"))
    requires Get(m, "name") == Get(meta, "name") && Get(m, "namespace") == Get(meta, "namespace")
        && Get(m, "labels") == Get(meta, "labels")
    ensures ReadIdentity(doc, m) == Some((p.id, KernelName(p), p.namespace))
  {
    MetadataReads(reg, p, meta);
    LabelReads(p);
  }

  /** Reading goes through the parts of the document; `spec` is the stored spec. */
  lemma ReadsAsEcho(reg: Registry, p: Payload, doc: Json, gen: Generated, spec: Json, config: Json, pod: Json)
    requires Sound(reg) && Get(doc, "spec") == Some(spec) && Get(spec, "idleTimeoutSeconds") == Some(Num(p.idleTimeout))
    requires Get(spec, "kernelConnectionConfig") == Some(config) && ReadConnection(config, gen) == Some(p.connection)
    requires Get(spec, "template").Some? && Get(Get(spec, "template").value, "spec") == Some(pod)
    requires ReadPod(pod)
             == Some((Volumes(reg, p.volumes, "V1Volume"), Volumes(reg, p.volumeMounts, "V1VolumeMount"), p.image, p.workingDir))
    requires ReadableExtras(doc) && ReadIdentity(doc, Get(doc, "metadata").value) == Some((p.id, KernelName(p), p.namespace))
    ensures var (ready, ip) := ReadStatus(doc).value;
            ReadModel(doc, gen) == Some(Echo(reg, p, ready, ip, ReadActivity(Get(doc, "metadata").value).value))
  {
  }

  lemma LabelReads(p: Payload)
    ensures Get(LabelsDoc(p), KERNEL_ID) == Some(Str(p.id))
    ensures Get(LabelsDoc(p), KERNEL_MANAGER_NAME) == Some(Str(KernelName(p)))
  {
  }

  /** Every request whose volumes fit their types is stored under the name `spec-id`, with the id as
      its label, and every later version of the stored document reads back as the request: the IP is
      the one in the status if there is one, and volumes and mounts are their projections. */
  lemma PayloadRoundTrip(reg: Registry, p: Payload, dump: seq<(string, Json)>, doc: Json, gen: Generated)
    requires KernelTables(reg) && Requestable(reg, p)
    requires forall i :: 0 <= i < |p.volumes| ==> p.volumes[i].Dict?
    requires forall i :: 0 <= i < |p.volumeMounts| ==> p.volumeMounts[i].Dict?
    requires Stored(reg, KernelDoc(p, dump)).Some? ==> SameRequest(doc, Stored(reg, KernelDoc(p, dump)).value)
    requires ReadableExtras(doc)
    ensures Stored(reg, KernelDoc(p, dump)).Some?
    ensures var (ready, ip) := ReadStatus(doc).value;
            ReadModel(doc, gen) == Some(Echo(reg, p, ready, ip, ReadActivity(Get(doc, "metadata").value).value))
  {
    RequestFits(reg, p, dump);
    FittingIsStored(reg, KernelDoc(p, dump));
    var stored := Stored(reg, KernelDoc(p, dump)).value;
    StoredParts(reg, p, dump, stored);
    PodReadsBack(reg, p, dump);
    ConnectionReadsBack(reg, p.connection, gen);
    IdentityReadsBack(reg, p, Get(stored, "metadata").value, doc, Get(doc, "metadata").value);
    SpecReads(reg, p, dump, Get(doc, "spec").value);
    TemplateReads(reg, p, dump, Get(doc, "spec").value);
    ReadsAsEcho(reg, p, doc, gen, Get(doc, "spec").value,
                Project(reg, ConnectionDoc(p.connection), Named("V1KernelConnectionConfig")),
                Project(reg, PodDoc(p, dump), Named("V1PodSpec")));
  }

  /** Encoding adds no key. */
  lemma NoneAdded(reg: Registry, d: Json, n: string, q: string)
    requires Sound(reg) && IsModel(reg, n) && d.Dict? && Get(d, q).None?
    ensures Get(Project(reg, d, Named(n)), q).None?
  {
    ProjectionRestricts(reg, d, n, q);
  }

  lemma NoStatus(doc: Json)
    requires Get(doc, "status").None? && Get(doc, "ready").None?
    ensures ReadStatus(doc) == Some((false, None))
  {
  }

  lemma NoActivity(metadata: Json)
    requires Get(metadata, "annotations").None? && Get(metadata, "creationTimestamp").None?
    ensures ReadActivity(metadata) == Some(None)
  {
  }

  lemma StatusStaysOut(reg: Registry, d: Json, n: string)
    requires Sound(reg) && IsModel(reg, n) && d.Dict? && Get(d, "status").None? && Get(d, "ready").None?
    ensures ReadStatus(Project(reg, d, Named(n))) == Some((false, None))
  {
    NoneAdded(reg, d, n, "status");
    NoneAdded(reg, d, n, "ready");
    NoStatus(Project(reg, d, Named(n)));
  }

  lemma ActivityStaysOut(reg: Registry, d: Json, n: string)
    requires Sound(reg) && IsModel(reg, n) && d.Dict? && Get(d, "annotations").None? && Get(d, "creationTimestamp").None?
    ensures ReadActivity(Project(reg, d, Named(n))) == Some(None)
  {
    NoneAdded(reg, d, n, "annotations");
    NoneAdded(reg, d, n, "creationTimestamp");
    NoActivity(Project(reg, d, Named(n)));
  }

  lemma NothingExtra(p: Payload, dump: seq<(string, Json)>)
    ensures Get(KernelDoc(p, dump), "status").None? && Get(KernelDoc(p, dump), "ready").None?
    ensures Get(MetadataDoc(p), "annotations").None? && Get(MetadataDoc(p), "creationTimestamp").None?
  {
  }

  /** A document that was just stored has no status and no annotations yet. */
  lemma FreshExtras(reg: Registry, p: Payload, dump: seq<(string, Json)>)
    requires KernelTables(reg) && Requestable(reg, p)
    ensures var stored := Stored(reg, KernelDoc(p, dump));
            stored.Some? && ReadStatus(stored.value) == Some((false, None)) && ReadableExtras(stored.value)
            && SameRequest(stored.value, stored.value)
  {
    RequestFits(reg, p, dump);
    FittingIsStored(reg, KernelDoc(p, dump));
    StoredParts(reg, p, dump, Stored(reg, KernelDoc(p, dump)).value);
    NothingExtra(p, dump);
    StatusStaysOut(reg, KernelDoc(p, dump), "V1Kernel");
    ActivityStaysOut(reg, MetadataDoc(p), "V1ObjectMeta");
    MetadataReads(reg, p, Project(reg, MetadataDoc(p), Named("V1ObjectMeta")));
  }

  /** Every later version of the stored document carries the connection as it was stored. */
  lemma StoredConnection(reg: Registry, p: Payload, dump: seq<(string, Json)>, doc: Json)
    requires KernelTables(reg) && Requestable(reg, p)
    requires Stored(reg, KernelDoc(p, dump)).Some? ==> SameRequest(doc, Stored(reg, KernelDoc(p, dump)).value)
    ensures Get(doc, "spec").Some?
    ensures Get(Get(doc, "spec").value, "kernelConnectionConfig")
              == Some(Project(reg, ConnectionDoc(p.connection), Named("V1KernelConnectionConfig")))
  {
    RequestFits(reg, p, dump);
    FittingIsStored(reg, KernelDoc(p, dump));
    StoredParts(reg, p, dump, Stored(reg, KernelDoc(p, dump)).value);
    SpecReads(reg, p, dump, Get(doc, "spec").value);
  }

  /** Volumes come back as they were sent exactly when none has an undeclared key, a null property or
      a value of another type. */
  lemma VolumesUnchanged(reg: Registry, vs: seq<Json>, n: string)
    requires Sound(reg)
    ensures Volumes(reg, vs, n) == vs <==> forall i :: 0 <= i < |vs| ==> Clean(reg, vs[i], Named(n))
  {
    forall i | 0 <= i < |vs| ensures Project(reg, vs[i], Named(n)) == vs[i] <==> Clean(reg, vs[i], Named(n)) {
      CleanIffUnchanged(reg, vs[i], Named(n));
    }
    assert Volumes(reg, vs, n) == vs <==> forall i :: 0 <= i < |vs| ==> Volumes(reg, vs, n)[i] == vs[i];
  }

  /** A document of the cluster has no field `ready`, so only a phase `Running` reads as ready. */
  lemma ReadyMeansRunning(doc: Json, gen: Generated)
    requires ReadModel(doc, gen).Some? && Get(doc, "ready").None?
    ensures ReadModel(doc, gen).value.ready <==>
              Get(doc, "status").Some? && Get(Get(doc, "status").value, "phase") == Some(Str("Running"))
  {
    var status := ReadStatus(doc).value;
    assert ReadModel(doc, gen).value.ready == status.0;
  }
}
