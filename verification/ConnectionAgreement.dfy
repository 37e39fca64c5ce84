/** The connection as the kernel, the monitor and the apiserver see it: the file the controller
    writes (kernelmanager_controller.go:220-248), the paths it hands out (262-291, 329-338), and the
    connection information of the apiserver (schema.py:129-133, kernel_manager.py:67). */
module ConnectionAgreement {
  import opened Outcomes
  import opened KernelResource
  import opened SnakeCase
  import opened PodGeneration
  import TypeExpressions
  import opened Deserializer
  import KernelPayloads
  import Numerals

  datatype Scalar = Text(s: string) | Number(n: int)

  datatype Field =
    | Ip | ShellPort | IopubPort | StdinPort | ControlPort | HbPort
    | KernelId | KernelName | SigningKey | Transport | SignatureScheme

  /** The JSON tags of kernelmanager_types.go:61-81. */
  function Tag(f: Field): string {
    match f
    case Ip => "ip"
    case ShellPort => "shellPort"
    case IopubPort => "iopubPort"
    case StdinPort => "stdinPort"
    case ControlPort => "controlPort"
    case HbPort => "hbPort"
    case KernelId => "kernelId"
    case KernelName => "kernelName"
    case SigningKey => "key"
    case Transport => "transport"
    case SignatureScheme => "signatureScheme"
  }

  /** The field names of schema.py:29-59. */
  function Attribute(f: Field): string {
    match f
    case Ip => "ip"
    case ShellPort => "shell_port"
    case IopubPort => "iopub_port"
    case StdinPort => "stdin_port"
    case ControlPort => "control_port"
    case HbPort => "hb_port"
    case KernelId => "kernel_id"
    case KernelName => "kernel_name"
    case SigningKey => "key"
    case Transport => "transport"
    case SignatureScheme => "signature_scheme"
  }

  function ValueOf(c: ConnectionConfig, f: Field): Scalar {
    match f
    case Ip => Text(c.ip)
    case ShellPort => Number(c.shellPort as int)
    case IopubPort => Number(c.iopubPort as int)
    case StdinPort => Number(c.stdinPort as int)
    case ControlPort => Number(c.controlPort as int)
    case HbPort => Number(c.hbPort as int)
    case KernelId => Text(c.kernelId)
    case KernelName => Text(c.kernelName)
    case SigningKey => Text(c.key)
    case Transport => Text(c.transport)
    case SignatureScheme => Text(c.signatureScheme)
  }

  /** A value that `omitempty` leaves out. */
  predicate Empty(v: Scalar) { v == Text("") || v == Number(0) }

  // ---- names ------------------------------------------------

  /** Tells the tags apart by their length and a letter. */
  function FieldOfTag(s: string): Field {
    if |s| == 2 then Ip else if |s| == 3 then SigningKey else if |s| == 6 then HbPort else if |s| == 8 then KernelId
    else if |s| == 10 then KernelName else if |s| == 11 then ControlPort else if |s| == 15 then SignatureScheme
    else if |s| == 9 && s[0] == 'i' then IopubPort else if |s| == 9 && s[0] == 't' then Transport
    else if |s| == 9 && s[1] == 'h' then ShellPort else StdinPort
  }

  lemma TagsDiffer()
    ensures forall f, g :: Tag(f) == Tag(g) ==> f == g
  {
    forall f ensures FieldOfTag(Tag(f)) == f {
      match f case _ =>
    }
    forall f, g | Tag(f) == Tag(g) ensures f == g {
      assert FieldOfTag(Tag(f)) == FieldOfTag(Tag(g));
    }
  }

  predicate SmallLetters(s: string) { forall i :: 0 <= i < |s| ==> IsLower(s[i]) }

  lemma {:induction false} TailOfTwoWords(a: string, c: char, b: string)
    requires SmallLetters(a) && SmallLetters(b) && IsUpper(c)
    ensures SnakeTail(a + [c] + b) == a + ['_', Lower(c)] + b
  {
    if a == [] {
      TailFixed(b);
      assert (a + [c] + b)[1..] == b;
    } else {
      TailOfTwoWords(a[1..], c, b);
      assert (a + [c] + b)[1..] == a[1..] + [c] + b;
    }
  }

  lemma TwoWords(a: string, c: char, b: string)
    requires a != [] && SmallLetters(a) && SmallLetters(b) && IsUpper(c)
    ensures Snake(a + [c] + b) == a + ['_', Lower(c)] + b
  {
    var rest := a[1..];
    assert a == [a[0]] + rest;
    TailOfTwoWords(rest, c, b);
    SplitFirst(a[0], rest, [c], b);
    SplitFirst(a[0], rest, ['_', Lower(c)], b);
  }

  lemma SplitFirst(first: char, rest: string, middle: string, b: string)
    ensures var s := [first] + rest + middle + b;
            s[0] == first && s[1..] == rest + middle + b && s == [first] + (rest + middle + b)
  {
  }

  lemma TwoWordsAreCamel(a: string, c: char, b: string)
    requires a != [] && SmallLetters(a) && SmallLetters(b) && IsUpper(c)
    ensures CamelCase(a + [c] + b) && Ascii(a + [c] + b)
  {
  }

  lemma OneWord(a: string)
    requires a != [] && SmallLetters(a)
    ensures Snake(a) == a && CamelCase(a) && Ascii(a)
  {
    TailFixed(a[1..]);
  }

  lemma Spelled(a: string, c: char, b: string, tag: string, attribute: string)
    requires a != [] && SmallLetters(a) && SmallLetters(b) && IsUpper(c)
    requires tag == a + [c] + b && attribute == a + ['_', Lower(c)] + b
    ensures Snake(tag) == attribute && CamelCase(tag) && Ascii(tag)
  {
    TwoWords(a, c, b);
    TwoWordsAreCamel(a, c, b);
  }

  lemma PortTags(f: Field)
    requires f in {ShellPort, IopubPort, StdinPort, ControlPort, HbPort}
    ensures Snake(Tag(f)) == Attribute(f) && CamelCase(Tag(f)) && Ascii(Tag(f))
  {
    match f
    case ShellPort => Spelled("shell", 'P', "ort", "shellPort", "shell_port");
    case IopubPort => Spelled("iopub", 'P', "ort", "iopubPort", "iopub_port");
    case StdinPort => Spelled("stdin", 'P', "ort", "stdinPort", "stdin_port");
    case ControlPort => Spelled("control", 'P', "ort", "controlPort", "control_port");
    case HbPort => Spelled("hb", 'P', "ort", "hbPort", "hb_port");
  }

  /** Every Go tag is camelCase and its snake_case form is the Python field name. */
  lemma TagToAttribute(f: Field)
    ensures Snake(Tag(f)) == Attribute(f) && CamelCase(Tag(f)) && Ascii(Tag(f))
  {
    match f
    case Ip => OneWord("ip");
    case SigningKey => OneWord("key");
    case Transport => OneWord("transport");
    case KernelId => Spelled("kernel", 'I', "d", "kernelId", "kernel_id");
    case KernelName => Spelled("kernel", 'N', "ame", "kernelName", "kernel_name");
    case SignatureScheme => Spelled("signature", 'S', "cheme", "signatureScheme", "signature_scheme");
    case _ => PortTags(f);
  }

  // ---- the file ------------------------------------------------

  /** The object with `names(f) := values(f)` for the chosen fields. */
  function ByField(chosen: Field -> bool, names: Field -> string, values: Field -> Scalar): (m: map<string, Scalar>)
    requires forall f, g :: names(f) == names(g) ==> f == g
    ensures forall f :: names(f) in m <==> chosen(f)
    ensures forall f :: chosen(f) ==> m[names(f)] == values(f)
    ensures forall k :: k in m ==> exists f :: chosen(f) && names(f) == k
  {
    var fields := set f | chosen(f);
    map f | f in fields :: names(f) := values(f)
  }

  /** `json.Marshal` of the connection: the tags of the fields that are not empty. */
  function GoJson(c: ConnectionConfig): map<string, Scalar> {
    TagsDiffer();
    ByField(f => !Empty(ValueOf(c, f)), f => Tag(f), f => ValueOf(c, f))
  }

  lemma AttributesDiffer()
    ensures forall f, g :: Attribute(f) == Attribute(g) ==> f == g
  {
    forall f, g | Attribute(f) == Attribute(g) ensures f == g {
      TagToAttribute(f);
      TagToAttribute(g);
      CamelInvertsSnake(Tag(f));
      CamelInvertsSnake(Tag(g));
      TagsDiffer();
    }
  }

  /** The snake_case object in the ConfigMap, with what the text encodes standing for the text. */
  function ConfigFile(c: ConnectionConfig): map<string, Scalar> {
    AttributesDiffer();
    ByField(f => !Empty(ValueOf(c, f)), f => Attribute(f), f => ValueOf(c, f))
  }

  lemma JsonEntries(c: ConnectionConfig)
    ensures forall f :: Tag(f) in GoJson(c) <==> !Empty(ValueOf(c, f))
    ensures forall f :: Tag(f) in GoJson(c) ==> GoJson(c)[Tag(f)] == ValueOf(c, f)
    ensures forall k :: k in GoJson(c) ==> exists f :: Tag(f) == k && !Empty(ValueOf(c, f))
  {
    TagsDiffer();
    var names := f => Tag(f);
    var values := f => ValueOf(c, f);
    var chosen := f => !Empty(ValueOf(c, f));
    var m := ByField(chosen, names, values);
    assert forall f :: chosen(f) == !Empty(ValueOf(c, f)) && names(f) == Tag(f) && values(f) == ValueOf(c, f);
  }

  lemma FileEntries(c: ConnectionConfig)
    ensures forall f :: Attribute(f) in ConfigFile(c) <==> !Empty(ValueOf(c, f))
    ensures forall f :: Attribute(f) in ConfigFile(c) ==> ConfigFile(c)[Attribute(f)] == ValueOf(c, f)
    ensures forall k :: k in ConfigFile(c) ==> exists f :: Attribute(f) == k && !Empty(ValueOf(c, f))
  {
    AttributesDiffer();
    var names := f => Attribute(f);
    var values := f => ValueOf(c, f);
    var chosen := f => !Empty(ValueOf(c, f));
    var m := ByField(chosen, names, values);
    assert forall f :: chosen(f) == !Empty(ValueOf(c, f)) && names(f) == Attribute(f) && values(f) == ValueOf(c, f);
  }

  lemma JsonKeys(c: ConnectionConfig)
    ensures forall k :: k in GoJson(c) ==> CamelCase(k) && Ascii(k)
  {
    JsonEntries(c);
    forall k | k in GoJson(c) ensures CamelCase(k) && Ascii(k) {
      var f :| Tag(f) == k && !Empty(ValueOf(c, f));
      TagToAttribute(f);
    }
  }

  /** `m` holds the fields of `c` that are not empty, under these names. */
  ghost predicate Lists(m: map<string, Scalar>, c: ConnectionConfig, names: Field -> string) {
    && (forall f :: names(f) in m <==> !Empty(ValueOf(c, f)))
    && (forall f :: names(f) in m ==> m[names(f)] == ValueOf(c, f))
    && (forall k :: k in m ==> exists f :: names(f) == k && !Empty(ValueOf(c, f)))
  }

  lemma TagsDoNotCollide(m: map<string, Scalar>, order: seq<string>, c: ConnectionConfig, tags: Field -> string)
    requires (forall f :: CamelCase(tags(f))) && Enumerates(order, m.Keys) && Lists(m, c, tags)
    ensures CollisionFree(m)
  {
    forall k | k in m ensures CamelCase(k) {
      var f :| tags(f) == k && !Empty(ValueOf(c, f));
    }
    NothingLost(m, order);
  }

  lemma ListedIsRenamed(m: map<string, Scalar>, order: seq<string>, file: map<string, Scalar>, c: ConnectionConfig,
                        tags: Field -> string, attributes: Field -> string, q: string)
    requires forall f :: Snake(tags(f)) == attributes(f)
    requires Enumerates(order, m.Keys) && Lists(m, c, tags) && Lists(file, c, attributes) && CollisionFree(m) && q in file
    ensures q in RenameInOrder(order, m) && RenameInOrder(order, m)[q] == file[q]
  {
    var f :| attributes(f) == q && !Empty(ValueOf(c, f));
    RenamedValue(order, m, tags(f));
  }

  lemma SameFile(m: map<string, Scalar>, order: seq<string>, file: map<string, Scalar>, c: ConnectionConfig,
                 tags: Field -> string, attributes: Field -> string)
    requires forall f :: Snake(tags(f)) == attributes(f) && CamelCase(tags(f))
    requires Enumerates(order, m.Keys) && Lists(m, c, tags) && Lists(file, c, attributes)
    ensures RenameInOrder(order, m) == file
  {
    TagsDoNotCollide(m, order, c, tags);
    var r := RenameInOrder(order, m);
    forall q | q in r ensures q in file { RenamedIsListed(m, order, file, c, tags, attributes, q); }
    forall q | q in file ensures q in r && r[q] == file[q] { ListedIsRenamed(m, order, file, c, tags, attributes, q); }
  }

  lemma RenamedIsListed(m: map<string, Scalar>, order: seq<string>, file: map<string, Scalar>, c: ConnectionConfig,
                        tags: Field -> string, attributes: Field -> string, q: string)
    requires forall f :: Snake(tags(f)) == attributes(f)
    requires Enumerates(order, m.Keys) && Lists(m, c, tags) && Lists(file, c, attributes) && q in RenameInOrder(order, m)
    ensures q in file
  {
    RenamedKeys(order, m, q);
    var k :| k in order && Snake(k) == q;
    var f :| tags(f) == k && !Empty(ValueOf(c, f));
    assert attributes(f) == q;
  }

  lemma RenamedFile(m: map<string, Scalar>, order: seq<string>, file: map<string, Scalar>, c: ConnectionConfig)
    requires Enumerates(order, m.Keys) && Lists(m, c, Tag) && Lists(file, c, Attribute)
    ensures RenameInOrder(order, m) == file
  {
    forall f ensures Snake(Tag(f)) == Attribute(f) && CamelCase(Tag(f)) { TagToAttribute(f); }
    SameFile(m, order, file, c, Tag, Attribute);
  }

  /** Whatever order Go visits the keys in, the converted object is the same. */
  lemma FileContents(c: ConnectionConfig, order: seq<string>)
    requires Enumerates(order, GoJson(c).Keys)
    ensures RenameInOrder(order, GoJson(c)) == ConfigFile(c)
  {
    GoJsonLists(c);
    ConfigFileLists(c);
    RenamedFile(GoJson(c), order, ConfigFile(c), c);
  }

  lemma GoJsonLists(c: ConnectionConfig)
    ensures Lists(GoJson(c), c, Tag)
  {
    JsonEntries(c);
  }

  lemma ConfigFileLists(c: ConnectionConfig)
    ensures Lists(ConfigFile(c), c, Attribute)
  {
    FileEntries(c);
  }

  /** The conversion the controller runs gives that object. */
  method GenerateConfigFile(c: ConnectionConfig) returns (file: map<string, Scalar>)
    ensures file == ConfigFile(c)
  {
    JsonKeys(c);
    file := ToSnakeCaseKeys(GoJson(c));
    ghost var order :| Enumerates(order, GoJson(c).Keys) && file == RenameInOrder(order, GoJson(c));
    FileContents(c, order);
  }

  // ---- the document ------------------------------------------------

  predicate IsInt32(n: int) { -0x8000_0000 <= n < 0x8000_0000 }

  /** Decoding a string field: absent and null leave it empty. */
  function GoText(config: Json, tag: string): Option<string> {
    match KernelPayloads.Get(config, tag)
    case None => Some("")
    case Some(Null) => Some("")
    case Some(Str(s)) => Some(s)
    case Some(_) => None
  }

  function GoInt32(config: Json, tag: string): Option<int32> {
    match KernelPayloads.Get(config, tag)
    case None => Some(0)
    case Some(Null) => Some(0)
    case Some(Num(n)) => if IsInt32(n) then Some(n as int32) else None
    case Some(_) => None
  }

  /** What Go decodes from the connection document, by the JSON tags. */
  function GoDecode(config: Json): Option<ConnectionConfig> {
    if !config.Dict? then None
    else
      var ip :- GoText(config, Tag(Ip));
      var shell :- GoInt32(config, Tag(ShellPort));
      var iopub :- GoInt32(config, Tag(IopubPort));
      var stdin :- GoInt32(config, Tag(StdinPort));
      var control :- GoInt32(config, Tag(ControlPort));
      var hb :- GoInt32(config, Tag(HbPort));
      var id :- GoText(config, Tag(KernelId));
      var name :- GoText(config, Tag(KernelName));
      var key :- GoText(config, Tag(SigningKey));
      var transport :- GoText(config, Tag(Transport));
      var scheme :- GoText(config, Tag(SignatureScheme));
      Some(ConnectionConfig(ip, shell, iopub, stdin, control, hb, id, name, key, transport, scheme))
  }

  // ---- the apiserver's view ------------------------------------------------

  function InfoValue(i: KernelPayloads.ConnectionInfo, f: Field): Scalar {
    match f
    case Ip => Text(i.ip)
    case ShellPort => Number(i.shellPort)
    case IopubPort => Number(i.iopubPort)
    case StdinPort => Number(i.stdinPort)
    case ControlPort => Number(i.controlPort)
    case HbPort => Number(i.hbPort)
    case KernelId => Text(i.kernelId)
    case KernelName => Text(i.kernelName)
    case SigningKey => Text(i.key)
    case Transport => Text(i.transport)
    case SignatureScheme => Text(i.signatureScheme)
  }

  /** `kernel_connection_info.model_dump()`: every field, under its Python name. */
  function ModelDump(i: KernelPayloads.ConnectionInfo): map<string, Scalar> {
    AttributesDiffer();
    ByField(_ => true, f => Attribute(f), f => InfoValue(i, f))
  }

  lemma DumpEntries(i: KernelPayloads.ConnectionInfo)
    ensures forall f :: Attribute(f) in ModelDump(i) && ModelDump(i)[Attribute(f)] == InfoValue(i, f)
    ensures forall k :: k in ModelDump(i) ==> exists f :: Attribute(f) == k
  {
    AttributesDiffer();
    var names := f => Attribute(f);
    var values := f => InfoValue(i, f);
    var chosen := (_: Field) => true;
    var m := ByField(chosen, names, values);
    assert forall f :: chosen(f) && names(f) == Attribute(f) && values(f) == InfoValue(i, f);
  }

  function WithoutIp(m: map<string, Scalar>): map<string, Scalar> { m - {Attribute(Ip)} }

  /** The field is given in the document, and not empty. */
  predicate Filled(config: Json, f: Field) {
    match KernelPayloads.Get(config, Tag(f))
    case Some(Str(s)) => s != ""
    case Some(Num(n)) => n != 0
    case _ => false
  }

  /** Both sides read one field: what Go has of it, and what the apiserver has. */
  predicate SameField(config: Json, go: Scalar, info: Scalar, f: Field) {
    (!Empty(go) <==> Filled(config, f)) && (Filled(config, f) ==> go == info)
  }

  /** What Go has of a field is what it decodes under the field's tag. */
  lemma GoField(config: Json, f: Field)
    requires GoDecode(config).Some?
    ensures match ValueOf(GoDecode(config).value, f)
            case Text(s) => GoText(config, Tag(f)) == Some(s)
            case Number(n) => GoInt32(config, Tag(f)).Some? && GoInt32(config, Tag(f)).value as int == n
  {
    match f case _ =>
  }

  function JsonOf(v: Scalar): Json { match v case Text(s) => Str(s) case Number(n) => Num(n) }

  lemma InfoText(config: Json, info: KernelPayloads.ConnectionInfo, gen: KernelPayloads.Generated, f: Field)
    requires KernelPayloads.ReadConnection(config, gen) == Some(info)
    requires f.Ip? || f.KernelId? || f.KernelName? || f.SigningKey? || f.Transport? || f.SignatureScheme?
    ensures KernelPayloads.Get(config, Tag(f)).Some? ==> KernelPayloads.Get(config, Tag(f)) == Some(JsonOf(InfoValue(info, f)))
  {
    match f case _ =>
  }

  lemma InfoPort(config: Json, info: KernelPayloads.ConnectionInfo, gen: KernelPayloads.Generated, f: Field)
    requires KernelPayloads.ReadConnection(config, gen) == Some(info)
    requires f.ShellPort? || f.IopubPort? || f.StdinPort? || f.ControlPort? || f.HbPort?
    ensures KernelPayloads.Get(config, Tag(f)).Some? ==> KernelPayloads.Get(config, Tag(f)) == Some(JsonOf(InfoValue(info, f)))
  {
    match f case _ =>
  }

  /** For every connection document that both decode, and every field: Go's tag and the apiserver's alias read
      the same entry. */
  lemma FieldDecodes(config: Json, info: KernelPayloads.ConnectionInfo, gen: KernelPayloads.Generated, f: Field)
    requires GoDecode(config).Some? && KernelPayloads.ReadConnection(config, gen) == Some(info)
    ensures SameField(config, ValueOf(GoDecode(config).value, f), InfoValue(info, f), f)
  {
    GoField(config, f);
    if f.ShellPort? || f.IopubPort? || f.StdinPort? || f.ControlPort? || f.HbPort? {
      InfoPort(config, info, gen, f);
    } else {
      InfoText(config, info, gen, f);
    }
  }

  /** The connection part of a resource document. */
  function ConnectionOf(doc: Json): Option<Json> {
    var spec :- KernelPayloads.Get(doc, "spec");
    KernelPayloads.Get(spec, "kernelConnectionConfig")
  }

  /** The model's connection is the document's, the IP taken from the status if it has one. */
  lemma ModelConnection(doc: Json, gen: KernelPayloads.Generated, config: Json)
    requires KernelPayloads.ReadModel(doc, gen).Some? && ConnectionOf(doc) == Some(config)
    ensures KernelPayloads.ReadStatus(doc).Some? && KernelPayloads.ReadConnection(config, gen).Some?
    ensures var info, ip := KernelPayloads.ReadConnection(config, gen).value, KernelPayloads.ReadStatus(doc).value.1;
            KernelPayloads.ReadModel(doc, gen).value.connection == if ip.Some? then info.(ip := ip.value) else info
  {
  }

  /** What the kernel and the monitor read in their file, and what the apiserver dumps. */
  ghost predicate FieldAgrees(file: map<string, Scalar>, dump: map<string, Scalar>, config: Json, statusIp: Option<string>,
      f: Field) {
    && Attribute(f) in dump
    && (Attribute(f) in file <==> Filled(config, f))
    && (Attribute(f) in file && (f != Ip || statusIp.None?) ==> file[Attribute(f)] == dump[Attribute(f)])
    && (f == Ip && statusIp.Some? ==> dump[Attribute(f)] == Text(statusIp.value))
  }

  /** For every document that both Go and the apiserver can read: a field is in the file exactly when the
      document gives it and it is not empty, and then both agree on it, except for an IP that the status
      replaces. */
  lemma FieldsAgree(doc: Json, gen: KernelPayloads.Generated, config: Json, f: Field)
    requires KernelPayloads.ReadModel(doc, gen).Some? && ConnectionOf(doc) == Some(config) && GoDecode(config).Some?
    requires KernelPayloads.ReadStatus(doc).Some?
    ensures FieldAgrees(ConfigFile(GoDecode(config).value), ModelDump(KernelPayloads.ReadModel(doc, gen).value.connection),
                        config, KernelPayloads.ReadStatus(doc).value.1, f)
  {
    ModelConnection(doc, gen, config);
    var go, info := GoDecode(config).value, KernelPayloads.ReadConnection(config, gen).value;
    FieldDecodes(config, info, gen, f);
    FileEntries(go);
    DumpEntries(KernelPayloads.ReadModel(doc, gen).value.connection);
    assert f != Ip ==> InfoValue(KernelPayloads.ReadModel(doc, gen).value.connection, f) == InfoValue(info, f);
  }

  lemma SameWithoutIp(file: map<string, Scalar>, dump: map<string, Scalar>, config: Json, statusIp: Option<string>)
    requires forall f, g :: Attribute(f) == Attribute(g) ==> f == g
    requires forall f :: FieldAgrees(file, dump, config, statusIp, f)
    requires forall k :: k in file || k in dump ==> exists f :: Attribute(f) == k
    ensures WithoutIp(file) == WithoutIp(dump) <==> forall f :: f != Ip ==> Filled(config, f)
  {
    if forall f :: f != Ip ==> Filled(config, f) {
      forall k
        ensures k in WithoutIp(file) <==> k in WithoutIp(dump)
        ensures k in WithoutIp(file) ==> file[k] == dump[k]
      {
        if k in file || k in dump {
          var f :| Attribute(f) == k;
          assert FieldAgrees(file, dump, config, statusIp, f);
        }
      }
    } else {
      var f :| f != Ip && !Filled(config, f);
      assert FieldAgrees(file, dump, config, statusIp, f);
      assert Attribute(f) in WithoutIp(dump) && Attribute(f) !in WithoutIp(file);
    }
  }

  lemma KeysAreFields(go: ConnectionConfig, info: KernelPayloads.ConnectionInfo)
    ensures forall k :: k in ConfigFile(go) || k in ModelDump(info) ==> exists f :: Attribute(f) == k
  {
    FileEntries(go);
    DumpEntries(info);
  }

  /** So they agree on everything but the IP exactly when the document gives every other field, not empty. */
  lemma OneConnection(doc: Json, gen: KernelPayloads.Generated, config: Json)
    requires KernelPayloads.ReadModel(doc, gen).Some? && ConnectionOf(doc) == Some(config) && GoDecode(config).Some?
    ensures var file, dump := ConfigFile(GoDecode(config).value), ModelDump(KernelPayloads.ReadModel(doc, gen).value.connection);
            WithoutIp(file) == WithoutIp(dump) <==> forall f :: f != Ip ==> Filled(config, f)
  {
    ModelConnection(doc, gen, config);
    var statusIp := KernelPayloads.ReadStatus(doc).value.1;
    var file, dump := ConfigFile(GoDecode(config).value), ModelDump(KernelPayloads.ReadModel(doc, gen).value.connection);
    KeysAreFields(GoDecode(config).value, KernelPayloads.ReadModel(doc, gen).value.connection);
    AttributesDiffer();
    forall f ensures FieldAgrees(file, dump, config, statusIp, f) { FieldsAgree(doc, gen, config, f); }
    SameWithoutIp(file, dump, config, statusIp);
  }

  // ---- the document of a request ------------------------------------------------

  predicate Int32Ports(i: KernelPayloads.ConnectionInfo) {
    IsInt32(i.shellPort) && IsInt32(i.iopubPort) && IsInt32(i.stdinPort) && IsInt32(i.controlPort) && IsInt32(i.hbPort)
  }

  /** The requested connection, as Go would hold it. */
  function GoConfig(i: KernelPayloads.ConnectionInfo): ConnectionConfig
    requires Int32Ports(i)
  {
    ConnectionConfig(i.ip, i.shellPort as int32, i.iopubPort as int32, i.stdinPort as int32, i.controlPort as int32,
                     i.hbPort as int32, i.kernelId, i.kernelName, i.key, i.transport, i.signatureScheme)
  }

  lemma EntriesDecode(i: KernelPayloads.ConnectionInfo, config: Json)
    requires Int32Ports(i) && KernelPayloads.HoldsEntries(config, i)
    ensures GoDecode(config) == Some(GoConfig(i))
    ensures forall f :: Filled(config, f) <==> !Empty(InfoValue(i, f))
  {
    forall f ensures Filled(config, f) <==> !Empty(InfoValue(i, f)) {
      match f case _ =>
    }
  }

  /** What the apiserver stores of a request is what Go decodes: document, schema tables, aliases and tags fit. */
  lemma StoredConnectionDecodes(reg: Registry, i: KernelPayloads.ConnectionInfo)
    requires Sound(reg) && KernelPayloads.Conversions(reg) && KernelPayloads.ConnectionTables(reg) && Int32Ports(i)
    ensures var config := Project(reg, KernelPayloads.ConnectionDoc(i), TypeExpressions.Named("V1KernelConnectionConfig"));
            && GoDecode(config) == Some(GoConfig(i))
            && forall f :: Filled(config, f) <==> !Empty(InfoValue(i, f))
  {
    var config := Project(reg, KernelPayloads.ConnectionDoc(i), TypeExpressions.Named("V1KernelConnectionConfig"));
    KernelPayloads.StoredEntries(reg, i);
    EntriesDecode(i, config);
  }

  /** For every request with int32 ports, from every later version of its stored document: Go decodes the requested
      connection, and its file equals the apiserver's dump on everything but the IP exactly when no other
      field of the request is empty. */
  lemma RequestHasOneConnection(reg: Registry, p: KernelPayloads.Payload, dump: seq<(string, Json)>, doc: Json,
                                gen: KernelPayloads.Generated)
    requires KernelPayloads.KernelTables(reg) && KernelPayloads.Requestable(reg, p) && Int32Ports(p.connection)
    requires forall i :: 0 <= i < |p.volumes| ==> p.volumes[i].Dict?
    requires forall i :: 0 <= i < |p.volumeMounts| ==> p.volumeMounts[i].Dict?
    requires var stored := KernelPayloads.Stored(reg, KernelPayloads.KernelDoc(p, dump));
             stored.Some? ==> KernelPayloads.SameRequest(doc, stored.value)
    requires KernelPayloads.ReadableExtras(doc)
    ensures ConnectionOf(doc).Some? && GoDecode(ConnectionOf(doc).value) == Some(GoConfig(p.connection))
    ensures KernelPayloads.ReadModel(doc, gen).Some?
    ensures var file, dump := ConfigFile(GoConfig(p.connection)), ModelDump(KernelPayloads.ReadModel(doc, gen).value.connection);
            WithoutIp(file) == WithoutIp(dump) <==> forall f :: f != Ip ==> !Empty(InfoValue(p.connection, f))
  {
    KernelPayloads.PayloadRoundTrip(reg, p, dump, doc, gen);
    KernelPayloads.StoredConnection(reg, p, dump, doc);
    StoredConnectionDecodes(reg, p.connection);
    OneConnection(doc, gen, ConnectionOf(doc).value);
  }

  // ---- paths and mounts ------------------------------------------------

  /** The names a path goes through; repeated and trailing slashes do not matter. */
  function Components(path: string): seq<string>
    decreases |path|
  {
    match TypeExpressions.FirstIndexOf(path, '/')
    case None => if path == "" then [] else [path]
    case Some(i) => (if i == 0 then [] else [path[..i]]) + Components(path[i + 1..])
  }

  lemma ComponentsAfter(first: string, rest: string)
    requires '/' !in first
    ensures Components(first + "/" + rest) == (if first == "" then [] else [first]) + Components(rest)
  {
    var path := first + ['/'] + rest;
    TypeExpressions.FirstIndexAfter(first, '/', rest);
    assert path[..|first|] == first && path[|first| + 1..] == rest;
    assert first + "/" + rest == path;
  }

  lemma PathAssociates(first: string, rest: string, file: string)
    ensures (first + "/" + rest) + "/" + file == first + "/" + (rest + "/" + file)
  {
  }

  lemma PartsAssociate(head: seq<string>, parts: seq<string>, file: string)
    ensures head + (parts + [file]) == (head + parts) + [file]
  {
  }

  lemma {:induction false} FileInDirectory(dir: string, file: string)
    requires file != "" && '/' !in file
    ensures Components(dir + "/" + file) == Components(dir) + [file]
    decreases |dir|
  {
    match TypeExpressions.FirstIndexOf(dir, '/')
    case None =>
      ComponentsAfter(dir, file);
    case Some(i) =>
      var first, rest := dir[..i], dir[i + 1..];
      assert dir == first + "/" + rest;
      PathAssociates(first, rest, file);
      FileInDirectory(rest, file);
      ComponentsAfter(first, rest + "/" + file);
      ComponentsAfter(first, rest);
      PartsAssociate(if first == "" then [] else [first], Components(rest), file);
  }

  /** The mount covers the path. */
  predicate Covers(m: VolumeMount, path: string) { Components(m.mountPath) <= Components(path) }

  /** In a container with these mounts, the path is the file `file` of ConfigMap `cm`: the deepest
      covering mount is of a volume made from `cm`, no other volume has its name, and `file` is what
      is left of the path. */
  ghost predicate ReadsConfigMap(mounts: seq<VolumeMount>, volumes: seq<Volume>, path: string, cm: string, file: string) {
    exists i, v :: 0 <= i < |mounts| && 0 <= v < |volumes|
      && Components(path) == Components(mounts[i].mountPath) + [file]
      && (forall j :: 0 <= j < |mounts| && j != i && Covers(mounts[j], path) ==>
            |Components(mounts[j].mountPath)| < |Components(mounts[i].mountPath)|)
      && volumes[v] == Volume(mounts[i].name, FromConfigMap(cm))
      && forall w :: 0 <= w < |volumes| && w != v ==> volumes[w].name != mounts[i].name
  }

  /** The value a process sees: the last definition of the variable. */
  function LookupEnv(env: seq<EnvVar>, name: string): Option<string> {
    if env == [] then None
    else if env[|env| - 1].name == name then Some(env[|env| - 1].value)
    else LookupEnv(env[..|env| - 1], name)
  }

  /** Of these mounts, those that cover the file lie above its directory. */
  ghost predicate ShallowerThan(mounts: seq<VolumeMount>, dir: string, file: string) {
    forall m :: m in mounts && Covers(m, dir + "/" + file) ==> |Components(m.mountPath)| < |Components(dir)|
  }

  /** No user volume takes the connection volume's name, and no user mount of the kernel's container
      lies on the way from the mount path to the connection file. */
  ghost predicate NoClash(key: Key, spec: Spec)
    requires spec.template.containers != []
  {
    && (forall i :: 0 <= i < |spec.template.volumes| ==> spec.template.volumes[i].name != "connection-file-volume")
    && ShallowerThan(spec.template.containers[0].mounts, MountPath(spec), key.name + ".json")
  }

  lemma AppendedMountReads(user: seq<VolumeMount>, volumes: seq<Volume>, dir: string, cm: string, file: string)
    requires file != "" && '/' !in file
    requires forall i :: 0 <= i < |volumes| ==> volumes[i].name != "connection-file-volume"
    requires ShallowerThan(user, dir, file)
    ensures ReadsConfigMap(user + [VolumeMount("connection-file-volume", dir)],
                           volumes + [Volume("connection-file-volume", FromConfigMap(cm))], dir + "/" + file, cm, file)
  {
    FileInDirectory(dir, file);
    var mounts := user + [VolumeMount("connection-file-volume", dir)];
    var all := volumes + [Volume("connection-file-volume", FromConfigMap(cm))];
    assert mounts[|user|].mountPath == dir && all[|volumes|] == Volume("connection-file-volume", FromConfigMap(cm));
    assert forall j :: 0 <= j < |mounts| && j != |user| ==> mounts[j] == user[j];
    assert forall w :: 0 <= w < |all| && w != |volumes| ==> all[w] == volumes[w];
  }

  lemma LookupLast(env: seq<EnvVar>, e: EnvVar, name: string)
    ensures LookupEnv(env + [e], name) == if e.name == name then Some(e.value) else LookupEnv(env, name)
  {
    assert (env + [e])[..|env|] == env;
  }

  /** The monitor's environment, as the monitor looks it up (monitor/main.py:148-151). */
  lemma MonitorReads(key: Key, spec: Spec)
    ensures LookupEnv(MonitorEnv(key, spec), "NAME") == Some(key.name)
    ensures LookupEnv(MonitorEnv(key, spec), "NAMESPACE") == Some(key.namespace)
    ensures LookupEnv(MonitorEnv(key, spec), "IDLE_TIMEOUT") == Some(Numerals.PrintInt(spec.idleTimeoutSeconds as int))
    ensures LookupEnv(MonitorEnv(key, spec), "CULLING_INTERVAL") == Some(Numerals.PrintInt(CullingInterval(spec) as int))
  {
    var env := MonitorEnv(key, spec);
    forall name ensures LookupEnv(env, name) == LookupEnv(env[..3] + [env[3]], name)
      ensures LookupEnv(env[..3], name) == LookupEnv(env[..2] + [env[2]], name)
      ensures LookupEnv(env[..2], name) == LookupEnv([env[0]] + [env[1]], name)
      ensures LookupEnv([env[0]], name) == LookupEnv([] + [env[0]], name)
    {
      assert env == env[..3] + [env[3]] && env[..3] == env[..2] + [env[2]];
      assert env[..2] == [env[0]] + [env[1]] && [env[0]] == [] + [env[0]];
    }
    forall name, e, front
      ensures LookupEnv(front + [e], name) == if e.name == name then Some(e.value) else LookupEnv(front, name)
    {
      LookupLast(front, e, name);
    }
  }

  /** The path in the kernel's environment is the file `<name>.json` of the ConfigMap named like the
      resource. */
  lemma KernelReadsTheConfigMap(key: Key, spec: Spec, monitorImage: string)
    requires spec.template.containers != [] && spec.connection != NO_CONNECTION && NoClash(key, spec)
    requires '/' !in key.name
    ensures var pod := GeneratedSpec(key, spec, monitorImage);
            var path := LookupEnv(pod.containers[0].env, "KERNEL_CONNECTION_FILE_PATH");
            path.Some? && ReadsConfigMap(pod.containers[0].mounts, pod.volumes, path.value, key.name, key.name + ".json")
  {
    var file := key.name + ".json";
    var user := spec.template.containers[0];
    assert MountPath(spec) + "/" + key.name + ".json" == MountPath(spec) + "/" + file;
    AppendedMountReads(user.mounts, spec.template.volumes, MountPath(spec), key.name, file);
    LookupLast(user.env, ConnectionEnv(key.name, spec), "KERNEL_CONNECTION_FILE_PATH");
    assert GeneratedSpec(key, spec, monitorImage).containers[0] == MainContainer(key.name, spec);
  }

  /** And if there is a monitor, `/tmp/<NAME>.json` in its container is the same file. */
  lemma MonitorReadsTheConfigMap(key: Key, spec: Spec, monitorImage: string)
    requires spec.template.containers != [] && Monitored(spec, monitorImage) && NoClash(key, spec)
    requires '/' !in key.name
    ensures var pod := GeneratedSpec(key, spec, monitorImage);
            var monitor := pod.containers[|pod.containers| - 1];
            var name := LookupEnv(monitor.env, "NAME");
            name.Some? && ReadsConfigMap(monitor.mounts, pod.volumes, "/tmp/" + name.value + ".json", key.name,
                key.name + ".json")
  {
    MonitorReads(key, spec);
    var file := key.name + ".json";
    AppendedMountReads([], spec.template.volumes, "/tmp", key.name, file);
    assert "/tmp/" + key.name + ".json" == "/tmp" + "/" + file;
    var mount := VolumeMount("connection-file-volume", "/tmp");
    assert [] + [mount] == [mount];
    var pod := GeneratedSpec(key, spec, monitorImage);
    assert pod.containers[|pod.containers| - 1] == Sidecar(key, spec, monitorImage);
  }
}
