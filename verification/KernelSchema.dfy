/** The schema tables themselves: those of the repository's models in full (v1_kernel.py:23-37,
    v1_kernel_spec.py:18-44 and 127-139), and of the Kubernetes client's models what a request fills. */
module KernelSchema {
  import opened Outcomes
  import opened TypeExpressions
  import opened Deserializer
  import opened KernelPayloads

  const KERNEL := Class(
    map["api_version" := Field("apiVersion", STR), "kind" := Field("kind", STR),
        "metadata" := Field("metadata", Named("V1ObjectMeta")), "spec" := Field("spec", Named("V1KernelSpec")),
        "status" := Field("status", Named("V1KernelStatus"))], {})

  const KERNEL_SPEC := Class(
    map["template" := Field("template", Named("V1PodTemplateSpec")),
        "idle_timeout_seconds" := Field("idleTimeoutSeconds", INT),
        "culling_interval_seconds" := Field("cullingIntervalSeconds", INT),
        "kernel_connection_config" := Field("kernelConnectionConfig", Named("V1KernelConnectionConfig"))], {"template"})

  const CONNECTION := Class(
    map["ip" := Field("ip", STR), "shell_port" := Field("shellPort", INT), "iopub_port" := Field("iopubPort", INT),
        "stdin_port" := Field("stdinPort", INT), "control_port" := Field("controlPort", INT), "hb_port" := Field("hbPort", INT),
        "kernel_id" := Field("kernelId", STR), "key" := Field("key", STR), "transport" := Field("transport", STR),
        "signature_scheme" := Field("signatureScheme", STR), "kernel_name" := Field("kernelName", STR)], {})

  const METADATA := Class(
    map["labels" := Field("labels", DictOf(STR, STR)), "name" := Field("name", STR), "namespace" := Field("namespace", STR)], {})

  const TEMPLATE := Class(map["spec" := Field("spec", Named("V1PodSpec"))], {})

  const POD := Class(
    map["containers" := Field("containers", ListOf(Named("V1Container"))), "restart_policy" := Field("restartPolicy", STR),
        "volumes" := Field("volumes", ListOf(Named("V1Volume")))], {"containers"})

  const CONTAINER := Class(
    map["env" := Field("env", ListOf(Named("V1EnvVar"))), "image" := Field("image", STR), "name" := Field("name", STR),
        "volume_mounts" := Field("volumeMounts", ListOf(Named("V1VolumeMount"))),
        "working_dir" := Field("workingDir", STR), "command" := Field("command", ListOf(STR))], {"name"})

  const ENV := Class(map["name" := Field("name", STR), "value" := Field("value", STR)], {"name"})

  const VOLUME := Class(map["name" := Field("name", STR)], {"name"})

  const MOUNT := Class(
    map["name" := Field("name", STR), "mount_path" := Field("mountPath", STR)], {"name", "mount_path"})

  /** `str` of anything is some string, `int` is taken of numbers alone; no other primitive occurs. */
  function Convert(n: string, j: Json): Option<Json> {
    if n == "str" then Some(if j.Str? then j else Str(""))
    else if n == "int" && j.Num? then Some(j)
    else None
  }

  const TABLES := Registry(
    map["V1Kernel" := KERNEL, "V1KernelSpec" := KERNEL_SPEC, "V1KernelConnectionConfig" := CONNECTION,
        "V1ObjectMeta" := METADATA, "V1PodTemplateSpec" := TEMPLATE, "V1PodSpec" := POD, "V1Container" := CONTAINER,
        "V1EnvVar" := ENV, "V1Volume" := VOLUME, "V1VolumeMount" := MOUNT], Convert)

  // ---- the tables are sound ------------------------------------------------

  /** The attributes have different JSON keys, all of them in `keys`, and types that are readable and hold
      models at most one container down. */
  predicate Good(reg: Registry, fields: map<string, Field>, keys: set<string>) {
    && Injective(Class(fields, {}))
    && forall a :: a in fields ==> fields[a].key in keys && Readable(fields[a].ty) && Shallow(reg, fields[a].ty)
  }

  lemma With(reg: Registry, fields: map<string, Field>, keys: set<string>, attr: string, key: string, ty: Ty)
    returns (more: map<string, Field>, allKeys: set<string>)
    requires Good(reg, fields, keys) && key !in keys && Readable(ty) && Shallow(reg, ty)
    ensures more == fields[attr := Field(key, ty)] && allKeys == keys + {key} && Good(reg, more, allKeys)
  {
    more, allKeys := fields[attr := Field(key, ty)], keys + {key};
  }

  /** The same for a type that names a model, or a list of them. */
  lemma WithModel(reg: Registry, fields: map<string, Field>, keys: set<string>, attr: string, key: string, n: string, list: bool)
    returns (more: map<string, Field>, allKeys: set<string>)
    requires Good(reg, fields, keys) && key !in keys && n != "" && n[0] == 'V' && '\n' !in n
    ensures var ty := if list then ListOf(Named(n)) else Named(n);
            more == fields[attr := Field(key, ty)] && allKeys == keys + {key} && Good(reg, more, allKeys)
  {
    more, allKeys := With(reg, fields, keys, attr, key, if list then ListOf(Named(n)) else Named(n));
  }

  lemma AddressIsGood(reg: Registry) returns (m: map<string, Field>, keys: set<string>)
    ensures m == map["ip" := Field("ip", STR), "shell_port" := Field("shellPort", INT), "iopub_port" := Field("iopubPort", INT),
                     "stdin_port" := Field("stdinPort", INT), "control_port" := Field("controlPort", INT),
                     "hb_port" := Field("hbPort", INT)]
    ensures Good(reg, m, keys) && keys == {"ip", "shellPort", "iopubPort", "stdinPort", "controlPort", "hbPort"}
  {
    m := map[];
    m, keys := With(reg, m, {}, "ip", "ip", STR);
    m, keys := With(reg, m, keys, "shell_port", "shellPort", INT);
    m, keys := With(reg, m, keys, "iopub_port", "iopubPort", INT);
    m, keys := With(reg, m, keys, "stdin_port", "stdinPort", INT);
    m, keys := With(reg, m, keys, "control_port", "controlPort", INT);
    m, keys := With(reg, m, keys, "hb_port", "hbPort", INT);
  }

  lemma ConnectionIsGood(reg: Registry) returns (keys: set<string>)
    ensures Good(reg, CONNECTION.fields, keys)
  {
    var m;
    m, keys := AddressIsGood(reg);
    m, keys := With(reg, m, keys, "kernel_id", "kernelId", STR);
    m, keys := With(reg, m, keys, "key", "key", STR);
    m, keys := With(reg, m, keys, "transport", "transport", STR);
    m, keys := With(reg, m, keys, "signature_scheme", "signatureScheme", STR);
    m, keys := With(reg, m, keys, "kernel_name", "kernelName", STR);
  }

  lemma KernelIsGood(reg: Registry) returns (keys: set<string>)
    ensures Good(reg, KERNEL.fields, keys)
  {
    var m := map[];
    m, keys := With(reg, m, {}, "api_version", "apiVersion", STR);
    m, keys := With(reg, m, keys, "kind", "kind", STR);
    m, keys := WithModel(reg, m, keys, "metadata", "metadata", "V1ObjectMeta", false);
    m, keys := WithModel(reg, m, keys, "spec", "spec", "V1KernelSpec", false);
    m, keys := WithModel(reg, m, keys, "status", "status", "V1KernelStatus", false);
  }

  lemma SpecIsGood(reg: Registry) returns (keys: set<string>)
    ensures Good(reg, KERNEL_SPEC.fields, keys)
  {
    var m := map[];
    m, keys := WithModel(reg, m, {}, "template", "template", "V1PodTemplateSpec", false);
    m, keys := With(reg, m, keys, "idle_timeout_seconds", "idleTimeoutSeconds", INT);
    m, keys := With(reg, m, keys, "culling_interval_seconds", "cullingIntervalSeconds", INT);
    m, keys := WithModel(reg, m, keys, "kernel_connection_config", "kernelConnectionConfig", "V1KernelConnectionConfig", false);
  }

  lemma MetadataIsGood(reg: Registry) returns (keys: set<string>)
    ensures Good(reg, METADATA.fields, keys)
  {
    var m := map[];
    m, keys := With(reg, m, {}, "labels", "labels", DictOf(STR, STR));
    m, keys := With(reg, m, keys, "name", "name", STR);
    m, keys := With(reg, m, keys, "namespace", "namespace", STR);
  }

  lemma PodIsGood(reg: Registry) returns (keys: set<string>)
    ensures Good(reg, POD.fields, keys)
  {
    var m := map[];
    m, keys := WithModel(reg, m, {}, "containers", "containers", "V1Container", true);
    m, keys := With(reg, m, keys, "restart_policy", "restartPolicy", STR);
    m, keys := WithModel(reg, m, keys, "volumes", "volumes", "V1Volume", true);
  }

  lemma ContainerIsGood(reg: Registry) returns (keys: set<string>)
    ensures Good(reg, CONTAINER.fields, keys)
  {
    var m := map[];
    m, keys := WithModel(reg, m, {}, "env", "env", "V1EnvVar", true);
    m, keys := With(reg, m, keys, "image", "image", STR);
    m, keys := With(reg, m, keys, "name", "name", STR);
    m, keys := WithModel(reg, m, keys, "volume_mounts", "volumeMounts", "V1VolumeMount", true);
    m, keys := With(reg, m, keys, "working_dir", "workingDir", STR);
    m, keys := With(reg, m, keys, "command", "command", ListOf(STR));
  }

  lemma TemplateIsGood(reg: Registry) returns (keys: set<string>)
    ensures Good(reg, TEMPLATE.fields, keys)
  {
    var m := map[];
    m, keys := WithModel(reg, m, {}, "spec", "spec", "V1PodSpec", false);
  }

  lemma EnvIsGood(reg: Registry) returns (keys: set<string>)
    ensures Good(reg, ENV.fields, keys)
  {
    var m := map[];
    m, keys := With(reg, m, {}, "name", "name", STR);
    m, keys := With(reg, m, keys, "value", "value", STR);
  }

  lemma VolumeIsGood(reg: Registry) returns (keys: set<string>)
    ensures Good(reg, VOLUME.fields, keys)
  {
    var m := map[];
    m, keys := With(reg, m, {}, "name", "name", STR);
  }

  lemma MountIsGood(reg: Registry) returns (keys: set<string>)
    ensures Good(reg, MOUNT.fields, keys)
  {
    var m := map[];
    m, keys := With(reg, m, {}, "name", "name", STR);
    m, keys := With(reg, m, keys, "mount_path", "mountPath", STR);
  }

  // ---- and they are the ones a request needs ------------------------------------------------

  /** The class is in the registry under its name. */
  predicate Has(reg: Registry, n: string, c: Class) {
    n in reg.classes && reg.classes[n] == c && n != "file" && n !in PRIMITIVES && n != "object"
  }

  lemma KernelHolds(reg: Registry)
    requires Has(reg, "V1Kernel", KERNEL)
    ensures TopTables(reg)
  {
    var keys := KernelIsGood(reg);
  }

  lemma SpecHolds(reg: Registry)
    requires Has(reg, "V1KernelSpec", KERNEL_SPEC)
    ensures SpecTables(reg)
  {
    var keys := SpecIsGood(reg);
  }

  lemma Declared(reg: Registry, n: string, c: Class, attr: string, key: string, ty: Ty)
    requires Has(reg, n, c) && attr in c.fields && c.fields[attr] == Field(key, ty)
    ensures Declares(reg, n, attr, key, ty)
  {
  }

  lemma PortsHold(reg: Registry, n: string)
    requires Has(reg, n, CONNECTION)
    ensures Declares(reg, n, "shell_port", "shellPort", INT) && Declares(reg, n, "iopub_port", "iopubPort", INT)
    ensures Declares(reg, n, "stdin_port", "stdinPort", INT) && Declares(reg, n, "control_port", "controlPort", INT)
    ensures Declares(reg, n, "hb_port", "hbPort", INT)
  {
    Declared(reg, n, CONNECTION, "shell_port", "shellPort", INT);
    Declared(reg, n, CONNECTION, "iopub_port", "iopubPort", INT);
    Declared(reg, n, CONNECTION, "stdin_port", "stdinPort", INT);
    Declared(reg, n, CONNECTION, "control_port", "controlPort", INT);
    Declared(reg, n, CONNECTION, "hb_port", "hbPort", INT);
  }

  lemma TextsHold(reg: Registry, n: string)
    requires Has(reg, n, CONNECTION)
    ensures Declares(reg, n, "ip", "ip", STR) && Declares(reg, n, "kernel_id", "kernelId", STR)
    ensures Declares(reg, n, "key", "key", STR) && Declares(reg, n, "transport", "transport", STR)
    ensures Declares(reg, n, "signature_scheme", "signatureScheme", STR)
    ensures Declares(reg, n, "kernel_name", "kernelName", STR)
  {
    Declared(reg, n, CONNECTION, "ip", "ip", STR);
    Declared(reg, n, CONNECTION, "kernel_id", "kernelId", STR);
    Declared(reg, n, CONNECTION, "key", "key", STR);
    Declared(reg, n, CONNECTION, "transport", "transport", STR);
    Declared(reg, n, CONNECTION, "signature_scheme", "signatureScheme", STR);
    Declared(reg, n, CONNECTION, "kernel_name", "kernelName", STR);
  }

  lemma GoodIsInjective(reg: Registry, c: Class, keys: set<string>)
    requires Good(reg, c.fields, keys)
    ensures Injective(c)
  {
  }

  lemma ConnectionHolds(reg: Registry)
    requires Has(reg, "V1KernelConnectionConfig", CONNECTION)
    ensures ConnectionTables(reg)
  {
    PortsHold(reg, "V1KernelConnectionConfig");
    TextsHold(reg, "V1KernelConnectionConfig");
    var keys := ConnectionIsGood(reg);
    GoodIsInjective(reg, CONNECTION, keys);
  }

  lemma MetadataHolds(reg: Registry)
    requires Has(reg, "V1ObjectMeta", METADATA)
    ensures MetadataTables(reg)
  {
    var keys := MetadataIsGood(reg);
  }

  lemma PodHolds(reg: Registry)
    requires Has(reg, "V1PodSpec", POD)
    ensures PodTables(reg)
  {
    var keys := PodIsGood(reg);
  }

  lemma ContainerHolds(reg: Registry)
    requires Has(reg, "V1Container", CONTAINER)
    ensures ContainerTables(reg)
  {
    var keys := ContainerIsGood(reg);
  }

  lemma TemplateHolds(reg: Registry)
    requires Has(reg, "V1PodTemplateSpec", TEMPLATE)
    ensures TemplateTables(reg)
  {
    var keys := TemplateIsGood(reg);
  }

  lemma EnvHolds(reg: Registry)
    requires Has(reg, "V1EnvVar", ENV)
    ensures EnvTables(reg)
  {
    Declared(reg, "V1EnvVar", ENV, "name", "name", STR);
    Declared(reg, "V1EnvVar", ENV, "value", "value", STR);
    var keys := EnvIsGood(reg);
    GoodIsInjective(reg, ENV, keys);
  }

  /** The registry has these classes. */
  predicate HasAll(reg: Registry) {
    && Has(reg, "V1Kernel", KERNEL) && Has(reg, "V1KernelSpec", KERNEL_SPEC)
    && Has(reg, "V1KernelConnectionConfig", CONNECTION) && Has(reg, "V1ObjectMeta", METADATA)
    && Has(reg, "V1PodTemplateSpec", TEMPLATE) && Has(reg, "V1PodSpec", POD)
    && Has(reg, "V1Container", CONTAINER) && Has(reg, "V1EnvVar", ENV)
    && Has(reg, "V1Volume", VOLUME) && Has(reg, "V1VolumeMount", MOUNT)
  }

  const NAMES := {"V1Kernel", "V1KernelSpec", "V1KernelConnectionConfig", "V1ObjectMeta", "V1PodTemplateSpec",
                  "V1PodSpec", "V1Container", "V1EnvVar", "V1Volume", "V1VolumeMount"}

  lemma ClassIsGood(reg: Registry, n: string) returns (keys: set<string>)
    requires HasAll(reg) && n in NAMES
    ensures n in reg.classes && Good(reg, reg.classes[n].fields, keys)
  {
    match n
    case "V1Kernel" => keys := KernelIsGood(reg);
    case "V1KernelSpec" => keys := SpecIsGood(reg);
    case "V1KernelConnectionConfig" => keys := ConnectionIsGood(reg);
    case "V1ObjectMeta" => keys := MetadataIsGood(reg);
    case "V1PodSpec" => keys := PodIsGood(reg);
    case "V1Container" => keys := ContainerIsGood(reg);
    case "V1PodTemplateSpec" => keys := TemplateIsGood(reg);
    case "V1EnvVar" => keys := EnvIsGood(reg);
    case "V1Volume" => keys := VolumeIsGood(reg);
    case _ => keys := MountIsGood(reg);
  }

  lemma AllGood(reg: Registry)
    requires HasAll(reg) && reg.classes.Keys == NAMES && forall n, j :: reg.coerce(n, j) != Some(Null)
    ensures Sound(reg) && ShallowTables(reg)
  {
    forall n | n in reg.classes
      ensures Injective(reg.classes[n])
      ensures forall a :: a in reg.classes[n].fields ==>
                Readable(reg.classes[n].fields[a].ty) && Shallow(reg, reg.classes[n].fields[a].ty)
    {
      var keys := ClassIsGood(reg, n);
    }
  }

  lemma AllHold(reg: Registry)
    requires HasAll(reg) && reg.classes.Keys == NAMES && Conversions(reg) && forall n, j :: reg.coerce(n, j) != Some(Null)
    ensures KernelTables(reg)
  {
    AllGood(reg);
    KernelHolds(reg);
    SpecHolds(reg);
    ConnectionHolds(reg);
    MetadataHolds(reg);
    PodHolds(reg);
    ContainerHolds(reg);
    TemplateHolds(reg);
    EnvHolds(reg);
  }

  lemma KernelLookups()
    ensures Has(TABLES, "V1Kernel", KERNEL) && Has(TABLES, "V1KernelSpec", KERNEL_SPEC)
  {
  }

  lemma PartLookups()
    ensures Has(TABLES, "V1KernelConnectionConfig", CONNECTION) && Has(TABLES, "V1ObjectMeta", METADATA)
    ensures Has(TABLES, "V1PodTemplateSpec", TEMPLATE)
  {
  }

  lemma PodLookups()
    ensures Has(TABLES, "V1PodSpec", POD) && Has(TABLES, "V1Container", CONTAINER) && Has(TABLES, "V1EnvVar", ENV)
    ensures Has(TABLES, "V1Volume", VOLUME) && Has(TABLES, "V1VolumeMount", MOUNT)
  {
  }

  lemma AllNames()
    ensures TABLES.classes.Keys == NAMES
  {
  }

  /** These tables are what the round trip of a request asks for. */
  lemma TablesAreKernelTables()
    ensures KernelTables(TABLES)
  {
    KernelLookups();
    PartLookups();
    PodLookups();
    AllNames();
    AllHold(TABLES);
  }
}
