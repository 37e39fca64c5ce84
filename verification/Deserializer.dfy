/** The type-directed decoder of the client (client.py:433-476, 571-597) and the model classes'
    `to_dict` (v1_kernel.py:180-202, v1_kernel_spec.py:90-110, 241-263). */
module Deserializer {
  import opened Outcomes
  import opened TypeExpressions

  datatype Json =
    | Null | Bool(b: bool) | Num(n: int) | Str(s: string)
    | List(items: seq<Json>) | Dict(entries: map<string, Json>)

  /** What the decoder builds: JSON left as it is, a list, a dict, or an instance of a model class
      with one value for every declared attribute (`Plain(Null)` for None). */
  datatype Py =
    | Plain(json: Json)
    | PyList(items: seq<Py>)
    | PyDict(entries: map<string, Py>)
    | Model(cls: string, attrs: map<string, Py>)

  /** One entry of `openapi_types` and of `attribute_map`. */
  datatype Field = Field(key: string, ty: Ty)

  /** The tables of a model class; setting a `required` attribute to None raises ValueError. */
  datatype Class = Class(fields: map<string, Field>, required: set<string>)

  /** The known classes, and the constructors of the primitive types: `coerce(name, data)` is the
      JSON value of `name(data)`, or None when that raises. */
  datatype Registry = Registry(classes: map<string, Class>, coerce: (string, Json) -> Option<Json>)

  const PRIMITIVES := {"int", "long", "float", "str", "bool", "date", "datetime"}

  predicate Injective(c: Class) {
    forall a, b :: a in c.fields && b in c.fields && c.fields[a].key == c.fields[b].key ==> a == b
  }

  /** Attribute maps are injective, type expressions are readable, conversions never yield None. */
  ghost predicate Sound(reg: Registry) {
    && (forall n :: n in reg.classes ==> Injective(reg.classes[n]))
    && (forall n, a :: n in reg.classes && a in reg.classes[n].fields ==> Readable(reg.classes[n].fields[a].ty))
    && (forall n, j :: reg.coerce(n, j) != Some(Null))
  }

  predicate IsModel(reg: Registry, n: string) {
    n != "file" && n !in PRIMITIVES && n != "object" && n in reg.classes && reg.classes[n].fields.Keys != {}
  }

  // ---- decoding ------------------------------------------------

  /** `klass(**kwargs)`: the missing attributes are None. */
  function Instantiate(n: string, c: Class, kwargs: map<string, Py>): Option<Py> {
    var attrs := map a | a in c.fields :: if a in kwargs then kwargs[a] else Plain(Null);
    if forall a :: a in c.required && a in attrs ==> attrs[a] != Plain(Null) then Some(Model(n, attrs)) else None
  }

  /** `_deserialize(data, klass)` for a type string; None when an exception leaves it. */
  function Deserialize(reg: Registry, data: Json, klass: string): Option<Py>
    decreases data, 1
  {
    if data == Null then Some(Plain(Null))
    else if klass == "file" then None
    else if StartsWith(klass, "list[") then
      var sub :- PeelList(klass);
      if !data.List? then None
      else
        var items :- DeserializeItems(reg, data.items, sub);
        Some(PyList(items))
    else if StartsWith(klass, "dict(") then
      var (_, sub) :- PeelDict(klass);
      if !data.Dict? then None
      else if forall k :: k in data.entries ==> Deserialize(reg, data.entries[k], sub).Some? then
        Some(PyDict(map k | k in data.entries :: Deserialize(reg, data.entries[k], sub).value))
      else None
    else if klass in PRIMITIVES then
      var j :- reg.coerce(klass, data);
      Some(Plain(j))
    else if klass == "object" then Some(Plain(data))
    else if klass !in reg.classes then None
    else DeserializeModel(reg, data, klass)
  }

  function DeserializeItems(reg: Registry, items: seq<Json>, klass: string): (r: Option<seq<Py>>)
    ensures r.Some? ==> |r.value| == |items|
    ensures r.Some? <==> forall i :: 0 <= i < |items| ==> Deserialize(reg, items[i], klass).Some?
    ensures r.Some? ==> forall i :: 0 <= i < |items| ==> Some(r.value[i]) == Deserialize(reg, items[i], klass)
    decreases items, 0
  {
    if items == [] then Some([])
    else
      var first := Deserialize(reg, items[0], klass);
      var rest := DeserializeItems(reg, items[1..], klass);
      assert forall i :: 0 < i < |items| ==> items[i] == items[1..][i - 1];
      if first.Some? && rest.Some? then Some([first.value] + rest.value) else None
  }

  /** `__deserialize_model`: a dict fills the attributes whose key it has; a list that contains a
      key cannot be indexed by it; anything else fills nothing. */
  function DeserializeModel(reg: Registry, data: Json, n: string): Option<Py>
    requires n in reg.classes
    decreases data, 0
  {
    var c := reg.classes[n];
    if c.fields.Keys == {} then Some(Plain(data))
    else if data.Dict? then
      var kwargs :- Kwargs(reg, data, c);
      Instantiate(n, c, kwargs)
    else if data.List? && exists a :: a in c.fields && Str(c.fields[a].key) in data.items then None
    else Instantiate(n, c, map[])
  }

  function Kwargs(reg: Registry, data: Json, c: Class): Option<map<string, Py>>
    requires data.Dict?
    decreases data, -1
  {
    var d := data.entries;
    if forall a :: a in c.fields && c.fields[a].key in d ==>
         Deserialize(reg, d[c.fields[a].key], Print(c.fields[a].ty)).Some?
    then Some(map a | a in c.fields && c.fields[a].key in d ::
                Deserialize(reg, d[c.fields[a].key], Print(c.fields[a].ty)).value)
    else None
  }

  /** The loop of client.py:584-589, visiting the attributes in any order. */
  method FillKwargs(reg: Registry, data: Json, c: Class) returns (r: Option<map<string, Py>>)
    requires data.Dict?
    ensures r == Kwargs(reg, data, c)
  {
    var kwargs: map<string, Py> := map[];
    var todo := c.fields.Keys;
    while todo != {}
      invariant todo <= c.fields.Keys
      invariant kwargs.Keys == set a | a in c.fields && a !in todo && c.fields[a].key in data.entries
      invariant forall a :: a in kwargs ==>
                  Deserialize(reg, data.entries[c.fields[a].key], Print(c.fields[a].ty)) == Some(kwargs[a])
      decreases |todo|
    {
      var attr :| attr in todo;
      var f := c.fields[attr];
      if f.key in data.entries {
        var value := Deserialize(reg, data.entries[f.key], Print(f.ty));
        if value.None? {
          return None;
        }
        kwargs := kwargs[attr := value.value];
      }
      todo := todo - {attr};
    }
    assert kwargs == Kwargs(reg, data, c).value;
    r := Some(kwargs);
  }

  // ---- to_dict ------------------------------------------------

  /** `x.to_dict() if hasattr(x, "to_dict") else x` */
  function DictOfModel(v: Py): Py
    decreases v, 1
  {
    if v.Model? then ToDict(v) else v
  }

  /** One property: a model, or the models directly inside a list or dict, become dicts; models
      that sit deeper stay objects. */
  function ConvertProperty(v: Py): Py
    decreases v, 0
  {
    match v
    case PyList(xs) => PyList(seq(|xs|, i requires 0 <= i < |xs| => DictOfModel(xs[i])))
    case PyDict(m) => PyDict(map k | k in m :: DictOfModel(m[k]))
    case Model(_, attrs) => PyDict(map a | a in attrs :: ConvertProperty(attrs[a]))
    case Plain(_) => v
  }

  function ToDict(v: Py): Py
    requires v.Model?
    decreases v, 0
  {
    PyDict(map a | a in v.attrs :: ConvertProperty(v.attrs[a]))
  }

  /** The loop of v1_kernel.py:182-202. */
  method ToDictLoop(v: Py) returns (r: Py)
    requires v.Model?
    ensures r == ToDict(v)
  {
    var result: map<string, Py> := map[];
    var todo := v.attrs.Keys;
    while todo != {}
      invariant todo <= v.attrs.Keys && result.Keys == v.attrs.Keys - todo
      invariant forall a :: a in result ==> result[a] == ConvertProperty(v.attrs[a])
      decreases |todo|
    {
      var attr :| attr in todo;
      var value := v.attrs[attr];
      if value.PyList? {
        var items: seq<Py> := [];
        for i := 0 to |value.items|
          invariant |items| == i && forall j :: 0 <= j < i ==> items[j] == DictOfModel(value.items[j])
        {
          items := items + [if value.items[i].Model? then ToDict(value.items[i]) else value.items[i]];
        }
        result := result[attr := PyList(items)];
      } else if value.Model? {
        result := result[attr := ToDict(value)];
      } else if value.PyDict? {
        result := result[attr := PyDict(map k | k in value.entries :: DictOfModel(value.entries[k]))];
      } else {
        result := result[attr := value];
      }
      todo := todo - {attr};
    }
    r := PyDict(result);
  }

  // ---- the partner: projection on the declared keys ------------------------------------------------

  /** Data that fits a type; null fits every type, undeclared keys are allowed. */
  ghost predicate WellTyped(reg: Registry, d: Json, t: Ty)
    decreases d
  {
    d == Null ||
    match t
    case ListOf(e) => d.List? && forall i :: 0 <= i < |d.items| ==> WellTyped(reg, d.items[i], e)
    case DictOf(_, e) => d.Dict? && forall k :: k in d.entries ==> WellTyped(reg, d.entries[k], e)
    case Named(n) =>
      if n in PRIMITIVES then reg.coerce(n, d).Some?
      else if IsModel(reg, n) then
        && d.Dict?
        && (forall a :: a in reg.classes[n].fields && reg.classes[n].fields[a].key in d.entries ==>
              WellTyped(reg, d.entries[reg.classes[n].fields[a].key], reg.classes[n].fields[a].ty))
        && (forall a :: a in reg.classes[n].required && a in reg.classes[n].fields ==>
              reg.classes[n].fields[a].key in d.entries && d.entries[reg.classes[n].fields[a].key] != Null)
      else n == "object" || (n != "file" && n in reg.classes)
  }

  /** Attribute values, stored under their keys; None is the same as absent. */
  function Renamed(c: Class, values: map<string, Json>): map<string, Json>
    requires Injective(c)
  {
    map a | a in values && a in c.fields && values[a] != Null :: c.fields[a].key := values[a]
  }

  /** `d` restricted, at every level, to the keys the type declares. */
  function Project(reg: Registry, d: Json, t: Ty): Json
    requires forall n :: n in reg.classes ==> Injective(reg.classes[n])
    decreases d, 0
  {
    if d == Null then Null
    else
      match t
      case ListOf(e) =>
        if d.List? then List(seq(|d.items|, i requires 0 <= i < |d.items| => Project(reg, d.items[i], e))) else d
      case DictOf(_, e) =>
        if d.Dict? then Dict(map k | k in d.entries :: Project(reg, d.entries[k], e)) else d
      case Named(n) =>
        if n in PRIMITIVES then (match reg.coerce(n, d) case Some(j) => j case None => d)
        else if IsModel(reg, n) && d.Dict? then
          var c := reg.classes[n];
          Dict(Renamed(c, ProjectFields(reg, d, c)))
        else d
  }

  function ProjectFields(reg: Registry, d: Json, c: Class): map<string, Json>
    requires forall n :: n in reg.classes ==> Injective(reg.classes[n])
    requires d.Dict?
    decreases d, -1
  {
    map a | a in c.fields && c.fields[a].key in d.entries :: Project(reg, d.entries[c.fields[a].key], c.fields[a].ty)
  }

  /** Reads a `to_dict` result as JSON, renaming attributes by `attribute_map`; None if a model
      object is still inside. */
  function RenameBack(reg: Registry, v: Py, t: Ty): Option<Json>
    requires forall n :: n in reg.classes ==> Injective(reg.classes[n])
    decreases v, 0
  {
    match v
    case Plain(j) => Some(j)
    case Model(_, _) => None
    case PyList(xs) =>
      if t.ListOf? && forall i :: 0 <= i < |xs| ==> RenameBack(reg, xs[i], t.elem).Some? then
        Some(List(seq(|xs|, i requires 0 <= i < |xs| => RenameBack(reg, xs[i], t.elem).value)))
      else None
    case PyDict(m) =>
      if t.DictOf? then
        if forall k :: k in m ==> RenameBack(reg, m[k], t.value).Some?
        then Some(Dict(map k | k in m :: RenameBack(reg, m[k], t.value).value))
        else None
      else if t.Named? && IsModel(reg, t.name) then
        var c := reg.classes[t.name];
        if forall a :: a in m && a in c.fields ==> RenameBack(reg, m[a], c.fields[a].ty).Some?
        then Some(Dict(Renamed(c, ReadFields(reg, v, c))))
        else None
      else None
  }

  function ReadFields(reg: Registry, v: Py, c: Class): map<string, Json>
    requires forall n :: n in reg.classes ==> Injective(reg.classes[n])
    requires v.PyDict?
    requires forall a :: a in v.entries && a in c.fields ==> RenameBack(reg, v.entries[a], c.fields[a].ty).Some?
    decreases v, -1
  {
    map a | a in v.entries && a in c.fields :: RenameBack(reg, v.entries[a], c.fields[a].ty).value
  }

  /** The decoded value of `d` contains a model object. */
  ghost predicate HoldsModel(reg: Registry, d: Json, t: Ty)
    decreases d
  {
    d != Null &&
    match t
    case ListOf(e) => d.List? && exists i :: 0 <= i < |d.items| && HoldsModel(reg, d.items[i], e)
    case DictOf(_, e) => d.Dict? && exists k :: k in d.entries && HoldsModel(reg, d.entries[k], e)
    case Named(n) => IsModel(reg, n)
  }

  /** What a list or dict property leaves unconverted: a model one container further down, or a
      directly contained model that itself buries one. */
  ghost predicate BuriedInItem(reg: Registry, d: Json, t: Ty)
    decreases d, 1
  {
    if t.Named? then BuriesModel(reg, d, t) else HoldsModel(reg, d, t)
  }

  /** Some property of `d`, or of a model inside it, holds a model two containers down. */
  ghost predicate BuriesModel(reg: Registry, d: Json, t: Ty)
    decreases d, 0
  {
    d != Null &&
    match t
    case ListOf(e) => d.List? && exists i :: 0 <= i < |d.items| && BuriedInItem(reg, d.items[i], e)
    case DictOf(_, e) => d.Dict? && exists k :: k in d.entries && BuriedInItem(reg, d.entries[k], e)
    case Named(n) =>
      && IsModel(reg, n) && d.Dict?
      && exists a :: a in reg.classes[n].fields && reg.classes[n].fields[a].key in d.entries &&
           BuriesModel(reg, d.entries[reg.classes[n].fields[a].key], reg.classes[n].fields[a].ty)
  }

  // ---- one step of decoding ------------------------------------------------

  lemma ListName(e: Ty)
    requires Readable(ListOf(e))
    ensures Print(ListOf(e)) != "file" && StartsWith(Print(ListOf(e)), "list[")
    ensures PeelList(Print(ListOf(e))) == Some(Print(e))
  {
    PeelPrintedList(e);
    assert Print(ListOf(e))[0] == 'l';
  }

  function Decoded(reg: Registry, d: Json, t: Ty): Py
    requires Deserialize(reg, d, Print(t)).Some?
  {
    Deserialize(reg, d, Print(t)).value
  }

  lemma DecodeList(reg: Registry, d: Json, e: Ty)
    requires Readable(ListOf(e)) && d.List?
    requires forall i :: 0 <= i < |d.items| ==> Deserialize(reg, d.items[i], Print(e)).Some?
    ensures Deserialize(reg, d, Print(ListOf(e)))
            == Some(PyList(seq(|d.items|, i requires 0 <= i < |d.items| => Decoded(reg, d.items[i], e))))
  {
    ListName(e);
    var items := DeserializeItems(reg, d.items, Print(e)).value;
    assert items == seq(|d.items|, i requires 0 <= i < |d.items| => Decoded(reg, d.items[i], e));
  }

  lemma DecodeDictClass(reg: Registry, d: Json, klass: string, key: string, sub: string)
    requires |klass| > 5 && !StartsWith(klass, "list[") && StartsWith(klass, "dict(")
    requires PeelDict(klass) == Some((key, sub)) && d.Dict?
    requires forall q :: q in d.entries ==> Deserialize(reg, d.entries[q], sub).Some?
    ensures var r := Deserialize(reg, d, klass);
            r.Some? && r.value.PyDict? && r.value.entries.Keys == d.entries.Keys &&
            forall q :: q in d.entries ==> Some(r.value.entries[q]) == Deserialize(reg, d.entries[q], sub)
  {
  }

  lemma DecodeDict(reg: Registry, d: Json, k: Ty, e: Ty)
    requires Readable(DictOf(k, e)) && d.Dict?
    requires forall q :: q in d.entries ==> Deserialize(reg, d.entries[q], Print(e)).Some?
    ensures var r := Deserialize(reg, d, Print(DictOf(k, e)));
            r.Some? && r.value.PyDict? && r.value.entries.Keys == d.entries.Keys &&
            forall q :: q in d.entries ==> Some(r.value.entries[q]) == Deserialize(reg, d.entries[q], Print(e))
  {
    PeelPrintedDict(k, e);
    DecodeDictClass(reg, d, Print(DictOf(k, e)), Print(k), Print(e));
  }

  /** Where the data of an attribute is, if anywhere. */
  predicate Given(c: Class, a: string, d: Json) {
    a in c.fields && d.Dict? && c.fields[a].key in d.entries
  }

  function Datum(c: Class, a: string, d: Json): Json
    requires Given(c, a, d)
  {
    d.entries[c.fields[a].key]
  }

  lemma DecodeModel(reg: Registry, d: Json, n: string)
    requires Sound(reg) && IsModel(reg, n) && PlainName(n) && d.Dict?
    requires var c := reg.classes[n];
             (forall a :: Given(c, a, d) ==> Deserialize(reg, Datum(c, a, d), Print(c.fields[a].ty)).Some?) &&
             (forall a :: a in c.required && a in c.fields ==> Given(c, a, d) && Datum(c, a, d) != Null)
    ensures var c := reg.classes[n];
            Deserialize(reg, d, n) == Some(Model(n, map a | a in c.fields ::
              if Given(c, a, d) then Decoded(reg, Datum(c, a, d), c.fields[a].ty) else Plain(Null)))
  {
    var c := reg.classes[n];
    var attrs := map a | a in c.fields ::
      if Given(c, a, d) then Decoded(reg, Datum(c, a, d), c.fields[a].ty) else Plain(Null);
    forall a | a in c.fields && c.fields[a].key in d.entries
      ensures Deserialize(reg, d.entries[c.fields[a].key], Print(c.fields[a].ty)).Some?
    {
      assert Given(c, a, d);
    }
    var kwargs := Kwargs(reg, d, c).value;
    assert attrs == map a | a in c.fields :: if a in kwargs then kwargs[a] else Plain(Null);
    forall a | a in c.required && a in attrs ensures attrs[a] != Plain(Null) {
      DecodedIsNotNone(reg, Datum(c, a, d), Print(c.fields[a].ty));
    }
    assert Instantiate(n, c, kwargs) == Some(Model(n, attrs));
  }

  lemma DecodedIsNotNone(reg: Registry, d: Json, klass: string)
    requires Sound(reg) && d != Null && Deserialize(reg, d, klass).Some?
    ensures Deserialize(reg, d, klass).value != Plain(Null)
  {
  }

  /** Well-typed data decodes, a model type to an instance of its class. */
  lemma {:induction false} WellTypedDecodes(reg: Registry, d: Json, t: Ty)
    requires Sound(reg) && Readable(t) && WellTyped(reg, d, t)
    ensures Deserialize(reg, d, Print(t)).Some?
    ensures Decoded(reg, d, t).Model? <==> t.Named? && IsModel(reg, t.name) && d != Null
    decreases d
  {
    if d != Null {
      match t
      case ListOf(e) =>
        forall i | 0 <= i < |d.items| ensures Deserialize(reg, d.items[i], Print(e)).Some? {
          WellTypedDecodes(reg, d.items[i], e);
        }
        DecodeList(reg, d, e);
      case DictOf(k, e) =>
        forall q | q in d.entries ensures Deserialize(reg, d.entries[q], Print(e)).Some? {
          WellTypedDecodes(reg, d.entries[q], e);
        }
        DecodeDict(reg, d, k, e);
      case Named(n) =>
        if IsModel(reg, n) {
          var c := reg.classes[n];
          forall a | Given(c, a, d) ensures Deserialize(reg, Datum(c, a, d), Print(c.fields[a].ty)).Some? {
            WellTypedDecodes(reg, Datum(c, a, d), c.fields[a].ty);
          }
          DecodeModel(reg, d, n);
        }
    }
  }

  // ---- decode then encode ------------------------------------------------

  lemma ListReadsBack(reg: Registry, xs: seq<Py>, e: Ty, d: Json, stuck: bool)
    requires Sound(reg) && d.List? && |xs| == |d.items|
    requires !stuck ==> forall i :: 0 <= i < |xs| ==> RenameBack(reg, xs[i], e) == Some(Project(reg, d.items[i], e))
    requires stuck ==> exists i :: 0 <= i < |xs| && RenameBack(reg, xs[i], e) == None
    ensures RenameBack(reg, PyList(xs), ListOf(e)) == if stuck then None else Some(Project(reg, d, ListOf(e)))
  {
    var r := RenameBack(reg, PyList(xs), ListOf(e));
    if !stuck {
      assert r.Some?;
      assert r.value.items == Project(reg, d, ListOf(e)).items;
    }
  }

  lemma DictReadsBack(reg: Registry, m: map<string, Py>, k: Ty, e: Ty, d: Json, stuck: bool)
    requires Sound(reg) && d.Dict? && m.Keys == d.entries.Keys
    requires !stuck ==> forall q :: q in m ==> RenameBack(reg, m[q], e) == Some(Project(reg, d.entries[q], e))
    requires stuck ==> exists q :: q in m && RenameBack(reg, m[q], e) == None
    ensures RenameBack(reg, PyDict(m), DictOf(k, e)) == if stuck then None else Some(Project(reg, d, DictOf(k, e)))
  {
    var r := RenameBack(reg, PyDict(m), DictOf(k, e));
    if !stuck {
      assert r.Some?;
      assert r.value.entries == Project(reg, d, DictOf(k, e)).entries;
    }
  }

  /** Without conversion, a decoded value reads back as the projection unless it holds a model. */
  lemma {:induction false} RawReadsBack(reg: Registry, d: Json, t: Ty)
    requires Sound(reg) && Readable(t) && WellTyped(reg, d, t)
    ensures Deserialize(reg, d, Print(t)).Some?
    ensures RenameBack(reg, Decoded(reg, d, t), t)
            == if HoldsModel(reg, d, t) then None else Some(Project(reg, d, t))
    decreases d
  {
    WellTypedDecodes(reg, d, t);
    if d != Null {
      match t
      case ListOf(e) =>
        forall i | 0 <= i < |d.items| ensures Deserialize(reg, d.items[i], Print(e)).Some?
          ensures RenameBack(reg, Decoded(reg, d.items[i], e), e)
                  == if HoldsModel(reg, d.items[i], e) then None else Some(Project(reg, d.items[i], e))
        {
          RawReadsBack(reg, d.items[i], e);
        }
        DecodeList(reg, d, e);
        ListReadsBack(reg, Decoded(reg, d, t).items, e, d, HoldsModel(reg, d, t));
      case DictOf(k, e) =>
        forall q | q in d.entries ensures Deserialize(reg, d.entries[q], Print(e)).Some?
          ensures RenameBack(reg, Decoded(reg, d.entries[q], e), e)
                  == if HoldsModel(reg, d.entries[q], e) then None else Some(Project(reg, d.entries[q], e))
        {
          RawReadsBack(reg, d.entries[q], e);
        }
        DecodeDict(reg, d, k, e);
        DictReadsBack(reg, Decoded(reg, d, t).entries, k, e, d, HoldsModel(reg, d, t));
      case Named(n) =>
    }
  }

  lemma ItemReadsBack(reg: Registry, d: Json, t: Ty)
    requires Sound(reg) && Readable(t) && WellTyped(reg, d, t)
    ensures Deserialize(reg, d, Print(t)).Some?
    ensures RenameBack(reg, DictOfModel(Decoded(reg, d, t)), t)
            == if BuriedInItem(reg, d, t) then None else Some(Project(reg, d, t))
    decreases d, 1
  {
    WellTypedDecodes(reg, d, t);
    if t.Named? && IsModel(reg, t.name) && d != Null {
      PropertyReadsBack(reg, d, t);
      var v := Decoded(reg, d, t);
      assert DictOfModel(v) == ConvertProperty(v);
    } else {
      RawReadsBack(reg, d, t);
    }
  }

  lemma ListPropertyReadsBack(reg: Registry, d: Json, e: Ty)
    requires Sound(reg) && Readable(ListOf(e)) && d.List?
    requires forall i :: 0 <= i < |d.items| ==>
               && Deserialize(reg, d.items[i], Print(e)).Some?
               && RenameBack(reg, DictOfModel(Decoded(reg, d.items[i], e)), e)
                  == if BuriedInItem(reg, d.items[i], e) then None else Some(Project(reg, d.items[i], e))
    ensures Deserialize(reg, d, Print(ListOf(e))).Some?
    ensures RenameBack(reg, ConvertProperty(Decoded(reg, d, ListOf(e))), ListOf(e))
            == if BuriesModel(reg, d, ListOf(e)) then None else Some(Project(reg, d, ListOf(e)))
  {
    DecodeList(reg, d, e);
    var xs := ConvertProperty(Decoded(reg, d, ListOf(e))).items;
    assert forall i :: 0 <= i < |xs| ==> xs[i] == DictOfModel(Decoded(reg, d.items[i], e));
    ListReadsBack(reg, xs, e, d, BuriesModel(reg, d, ListOf(e)));
  }

  lemma DictPropertyReadsBack(reg: Registry, d: Json, k: Ty, e: Ty)
    requires Sound(reg) && Readable(DictOf(k, e)) && d.Dict?
    requires forall q :: q in d.entries ==>
               && Deserialize(reg, d.entries[q], Print(e)).Some?
               && RenameBack(reg, DictOfModel(Decoded(reg, d.entries[q], e)), e)
                  == if BuriedInItem(reg, d.entries[q], e) then None else Some(Project(reg, d.entries[q], e))
    ensures Deserialize(reg, d, Print(DictOf(k, e))).Some?
    ensures RenameBack(reg, ConvertProperty(Decoded(reg, d, DictOf(k, e))), DictOf(k, e))
            == if BuriesModel(reg, d, DictOf(k, e)) then None else Some(Project(reg, d, DictOf(k, e)))
  {
    DecodeDict(reg, d, k, e);
    var m := ConvertProperty(Decoded(reg, d, DictOf(k, e))).entries;
    assert forall q :: q in m ==> m[q] == DictOfModel(Decoded(reg, d.entries[q], e));
    DictReadsBack(reg, m, k, e, d, BuriesModel(reg, d, DictOf(k, e)));
  }

  /** After conversion, a property reads back as the projection unless it buries a model. */
  lemma PropertyReadsBack(reg: Registry, d: Json, t: Ty)
    requires Sound(reg) && Readable(t) && WellTyped(reg, d, t)
    ensures Deserialize(reg, d, Print(t)).Some?
    ensures RenameBack(reg, ConvertProperty(Decoded(reg, d, t)), t)
            == if BuriesModel(reg, d, t) then None else Some(Project(reg, d, t))
    decreases d, 0
  {
    WellTypedDecodes(reg, d, t);
    if d != Null {
      match t
      case ListOf(e) =>
        forall i | 0 <= i < |d.items| ensures Deserialize(reg, d.items[i], Print(e)).Some?
          ensures RenameBack(reg, DictOfModel(Decoded(reg, d.items[i], e)), e)
                  == if BuriedInItem(reg, d.items[i], e) then None else Some(Project(reg, d.items[i], e))
        {
          ItemReadsBack(reg, d.items[i], e);
        }
        ListPropertyReadsBack(reg, d, e);
      case DictOf(k, e) =>
        forall q | q in d.entries ensures Deserialize(reg, d.entries[q], Print(e)).Some?
          ensures RenameBack(reg, DictOfModel(Decoded(reg, d.entries[q], e)), e)
                  == if BuriedInItem(reg, d.entries[q], e) then None else Some(Project(reg, d.entries[q], e))
        {
          ItemReadsBack(reg, d.entries[q], e);
        }
        DictPropertyReadsBack(reg, d, k, e);
      case Named(n) =>
        if IsModel(reg, n) {
          ModelReadsBack(reg, d, n);
        }
    }
  }

  lemma FieldsReadBack(reg: Registry, m: map<string, Py>, n: string, d: Json, stuck: bool)
    requires Sound(reg) && IsModel(reg, n) && d.Dict? && m.Keys == reg.classes[n].fields.Keys
    requires var c := reg.classes[n];
             !stuck ==> (forall a :: a in c.fields ==>
               RenameBack(reg, m[a], c.fields[a].ty)
               == Some(if Given(c, a, d) then Project(reg, Datum(c, a, d), c.fields[a].ty) else Null))
    requires stuck ==> exists a :: a in m && RenameBack(reg, m[a], reg.classes[n].fields[a].ty) == None
    ensures RenameBack(reg, PyDict(m), Named(n)) == if stuck then None else Some(Project(reg, d, Named(n)))
  {
    var c := reg.classes[n];
    if !stuck {
      SameRenaming(c, ReadFields(reg, PyDict(m), c), ProjectFields(reg, d, c));
    }
  }

  lemma SameRenaming(c: Class, all: map<string, Json>, given: map<string, Json>)
    requires Injective(c) && all.Keys == c.fields.Keys && given.Keys <= c.fields.Keys
    requires forall a :: a in all ==> all[a] == if a in given then given[a] else Null
    ensures Renamed(c, all) == Renamed(c, given)
  {
  }

  /** One attribute of the converted instance: present data reads back, absent data is null. */
  lemma AttributeReadsBack(reg: Registry, d: Json, n: string, a: string)
    requires Sound(reg) && IsModel(reg, n) && PlainName(n) && d != Null && WellTyped(reg, d, Named(n))
    requires a in reg.classes[n].fields
    requires var c := reg.classes[n];
             (forall b :: Given(c, b, d) ==> Deserialize(reg, Datum(c, b, d), Print(c.fields[b].ty)).Some?) &&
             (Given(c, a, d) ==>
                RenameBack(reg, ConvertProperty(Decoded(reg, Datum(c, a, d), c.fields[a].ty)), c.fields[a].ty)
                == if BuriesModel(reg, Datum(c, a, d), c.fields[a].ty) then None
                   else Some(Project(reg, Datum(c, a, d), c.fields[a].ty)))
    ensures Deserialize(reg, d, n).Some? && Decoded(reg, d, Named(n)).Model?
    ensures var c, m := reg.classes[n], ConvertProperty(Decoded(reg, d, Named(n))).entries;
            m.Keys == c.fields.Keys &&
            RenameBack(reg, m[a], c.fields[a].ty)
            == if !Given(c, a, d) then Some(Null)
               else if BuriesModel(reg, Datum(c, a, d), c.fields[a].ty) then None
               else Some(Project(reg, Datum(c, a, d), c.fields[a].ty))
  {
    DecodeModel(reg, d, n);
  }

  lemma ModelReadsBack(reg: Registry, d: Json, n: string)
    requires Sound(reg) && IsModel(reg, n) && PlainName(n) && d != Null && WellTyped(reg, d, Named(n))
    ensures Deserialize(reg, d, n).Some?
    ensures RenameBack(reg, ConvertProperty(Decoded(reg, d, Named(n))), Named(n))
            == if BuriesModel(reg, d, Named(n)) then None else Some(Project(reg, d, Named(n)))
    decreases d, -1
  {
    WellTypedDecodes(reg, d, Named(n));
    var c := reg.classes[n];
    forall a | Given(c, a, d)
      ensures Deserialize(reg, Datum(c, a, d), Print(c.fields[a].ty)).Some?
      ensures RenameBack(reg, ConvertProperty(Decoded(reg, Datum(c, a, d), c.fields[a].ty)), c.fields[a].ty)
              == if BuriesModel(reg, Datum(c, a, d), c.fields[a].ty) then None
                 else Some(Project(reg, Datum(c, a, d), c.fields[a].ty))
    {
      PropertyReadsBack(reg, Datum(c, a, d), c.fields[a].ty);
    }
    var m := ConvertProperty(Decoded(reg, d, Named(n))).entries;
    forall a | a in c.fields
      ensures m.Keys == c.fields.Keys
      ensures RenameBack(reg, m[a], c.fields[a].ty)
              == if !Given(c, a, d) then Some(Null)
                 else if BuriesModel(reg, Datum(c, a, d), c.fields[a].ty) then None
                 else Some(Project(reg, Datum(c, a, d), c.fields[a].ty))
    {
      AttributeReadsBack(reg, d, n, a);
    }
    var stuck := BuriesModel(reg, d, Named(n));
    if stuck {
      var a :| Given(c, a, d) && BuriesModel(reg, Datum(c, a, d), c.fields[a].ty);
      assert RenameBack(reg, m[a], c.fields[a].ty) == None;
    }
    FieldsReadBack(reg, m, n, d, stuck);
  }

  /** Decoding a document of a model class and taking its `to_dict`, renamed by the attribute map,
      gives the document restricted to its declared keys, null and absent alike; except that it
      gives no plain data at all exactly when some property holds a model two containers down. */
  lemma DecodeThenEncodeProjects(reg: Registry, d: Json, n: string)
    requires Sound(reg) && IsModel(reg, n) && PlainName(n) && d != Null && WellTyped(reg, d, Named(n))
    ensures Deserialize(reg, d, n).Some? && Deserialize(reg, d, n).value.Model?
    ensures RenameBack(reg, ToDict(Deserialize(reg, d, n).value), Named(n))
            == if BuriesModel(reg, d, Named(n)) then None else Some(Project(reg, d, Named(n)))
  {
    WellTypedDecodes(reg, d, Named(n));
    ModelReadsBack(reg, d, n);
    var v := Decoded(reg, d, Named(n));
    assert ToDict(v) == ConvertProperty(v);
  }

  // ---- what the projection is, and when decoding never buries a model ----------------------------

  lemma NullProjection(reg: Registry, d: Json, t: Ty)
    requires Sound(reg)
    ensures Project(reg, d, t) == Null <==> d == Null
  {
  }

  /** The projection of a model document has exactly the declared, non-null keys of the document. */
  lemma ProjectionRestricts(reg: Registry, d: Json, n: string, q: string)
    requires Sound(reg) && IsModel(reg, n) && d.Dict?
    ensures var c, p := reg.classes[n], Project(reg, d, Named(n));
            && p.Dict?
            && (q in p.entries <==> q in d.entries && d.entries[q] != Null && exists a :: a in c.fields && c.fields[a].key == q)
            && forall a :: Given(c, a, d) && c.fields[a].key == q && d.entries[q] != Null ==>
                 q in p.entries && p.entries[q] == Project(reg, d.entries[q], c.fields[a].ty)
  {
    var c := reg.classes[n];
    var given := ProjectFields(reg, d, c);
    forall a | Given(c, a, d) ensures a in given && (given[a] == Null <==> Datum(c, a, d) == Null) {
      NullProjection(reg, Datum(c, a, d), c.fields[a].ty);
    }
  }

  /** Nothing undeclared, no null property, and every primitive already of its type. */
  ghost predicate Clean(reg: Registry, d: Json, t: Ty)
    decreases d
  {
    d == Null ||
    match t
    case ListOf(e) => d.List? ==> forall i :: 0 <= i < |d.items| ==> Clean(reg, d.items[i], e)
    case DictOf(_, e) => d.Dict? ==> forall k :: k in d.entries ==> Clean(reg, d.entries[k], e)
    case Named(n) =>
      if n in PRIMITIVES then reg.coerce(n, d) in {None, Some(d)}
      else if IsModel(reg, n) && d.Dict? then
        forall k :: k in d.entries ==>
          && d.entries[k] != Null
          && exists a :: a in reg.classes[n].fields && reg.classes[n].fields[a].key == k &&
               Clean(reg, d.entries[k], reg.classes[n].fields[a].ty)
      else true
  }

  /** The projection is the document itself exactly when the document is clean. */
  lemma {:induction false} CleanIffUnchanged(reg: Registry, d: Json, t: Ty)
    requires Sound(reg)
    ensures Project(reg, d, t) == d <==> Clean(reg, d, t)
    decreases d
  {
    if d != Null {
      match t
      case ListOf(e) =>
        if d.List? {
          var p := Project(reg, d, t).items;
          forall i | 0 <= i < |d.items| ensures p[i] == d.items[i] <==> Clean(reg, d.items[i], e) {
            CleanIffUnchanged(reg, d.items[i], e);
          }
          assert p == d.items <==> forall i :: 0 <= i < |d.items| ==> p[i] == d.items[i];
        }
      case DictOf(_, e) =>
        if d.Dict? {
          var p := Project(reg, d, t).entries;
          forall k | k in d.entries ensures p[k] == d.entries[k] <==> Clean(reg, d.entries[k], e) {
            CleanIffUnchanged(reg, d.entries[k], e);
          }
          assert p == d.entries <==> forall k :: k in d.entries ==> p[k] == d.entries[k];
        }
      case Named(n) =>
        if n !in PRIMITIVES && IsModel(reg, n) && d.Dict? {
          CleanModel(reg, d, n);
        }
    }
  }

  lemma CleanModel(reg: Registry, d: Json, n: string)
    requires Sound(reg) && IsModel(reg, n) && d.Dict?
    ensures Project(reg, d, Named(n)) == d <==> Clean(reg, d, Named(n))
    decreases d, 0
  {
    var c, p := reg.classes[n], Project(reg, d, Named(n)).entries;
    forall q ensures q in p <==> q in d.entries && d.entries[q] != Null && exists a :: a in c.fields && c.fields[a].key == q
      ensures forall a :: Given(c, a, d) && c.fields[a].key == q && d.entries[q] != Null ==>
                q in p && p[q] == Project(reg, d.entries[q], c.fields[a].ty)
    {
      ProjectionRestricts(reg, d, n, q);
    }
    forall a | Given(c, a, d)
      ensures Project(reg, Datum(c, a, d), c.fields[a].ty) == Datum(c, a, d) <==> Clean(reg, Datum(c, a, d), c.fields[a].ty)
    {
      CleanIffUnchanged(reg, Datum(c, a, d), c.fields[a].ty);
    }
    CleanEntries(reg, d, n, p);
  }

  /** `p` holds the projections of the declared entries of `d`, and nothing else. */
  lemma CleanEntries(reg: Registry, d: Json, n: string, p: map<string, Json>)
    requires Sound(reg) && IsModel(reg, n) && d.Dict?
    requires var c := reg.classes[n];
             forall q :: q in p <==> q in d.entries && d.entries[q] != Null && exists a :: a in c.fields && c.fields[a].key == q
    requires var c := reg.classes[n];
             forall a :: Given(c, a, d) && d.entries[c.fields[a].key] != Null ==>
               c.fields[a].key in p && p[c.fields[a].key] == Project(reg, d.entries[c.fields[a].key], c.fields[a].ty)
    requires var c := reg.classes[n];
             forall a :: Given(c, a, d) ==>
               (Project(reg, Datum(c, a, d), c.fields[a].ty) == Datum(c, a, d) <==> Clean(reg, Datum(c, a, d), c.fields[a].ty))
    ensures p == d.entries <==> Clean(reg, d, Named(n))
  {
    var c := reg.classes[n];
    if Clean(reg, d, Named(n)) {
      forall q | q in d.entries ensures q in p && p[q] == d.entries[q] {
        var a :| a in c.fields && c.fields[a].key == q && Clean(reg, d.entries[q], c.fields[a].ty);
        assert Given(c, a, d) && Datum(c, a, d) == d.entries[q];
      }
      assert p == d.entries;
    }
    if p == d.entries {
      forall q | q in d.entries
        ensures d.entries[q] != Null
        ensures exists a :: a in c.fields && c.fields[a].key == q && Clean(reg, d.entries[q], c.fields[a].ty)
      {
        assert q in p;
        var a :| a in c.fields && c.fields[a].key == q;
        assert Given(c, a, d) && Datum(c, a, d) == d.entries[q];
      }
    }
  }

  predicate MentionsModel(reg: Registry, t: Ty) {
    match t
    case Named(n) => IsModel(reg, n)
    case ListOf(e) => MentionsModel(reg, e)
    case DictOf(_, e) => MentionsModel(reg, e)
  }

  /** Models occur directly or directly inside one container. */
  predicate Shallow(reg: Registry, t: Ty) {
    match t
    case Named(_) => true
    case ListOf(e) => e.Named? || !MentionsModel(reg, e)
    case DictOf(_, e) => e.Named? || !MentionsModel(reg, e)
  }

  ghost predicate ShallowTables(reg: Registry) {
    forall n, a :: n in reg.classes && a in reg.classes[n].fields ==> Shallow(reg, reg.classes[n].fields[a].ty)
  }

  lemma {:induction false} HoldingMentions(reg: Registry, d: Json, t: Ty)
    ensures HoldsModel(reg, d, t) ==> MentionsModel(reg, t)
    decreases d
  {
    if HoldsModel(reg, d, t) {
      match t
      case Named(_) =>
      case ListOf(e) =>
        var i :| 0 <= i < |d.items| && HoldsModel(reg, d.items[i], e);
        HoldingMentions(reg, d.items[i], e);
      case DictOf(_, e) =>
        var k :| k in d.entries && HoldsModel(reg, d.entries[k], e);
        HoldingMentions(reg, d.entries[k], e);
    }
  }

  /** With such tables no data buries a model, however deep the data and however recursive the classes. */
  lemma {:induction false} ShallowNeverBuries(reg: Registry, d: Json, t: Ty)
    requires ShallowTables(reg) && Shallow(reg, t)
    ensures !BuriesModel(reg, d, t)
    decreases d
  {
    if d != Null {
      match t
      case Named(n) =>
        if IsModel(reg, n) && d.Dict? {
          var c := reg.classes[n];
          forall a | a in c.fields && c.fields[a].key in d.entries
            ensures !BuriesModel(reg, d.entries[c.fields[a].key], c.fields[a].ty)
          {
            ShallowNeverBuries(reg, d.entries[c.fields[a].key], c.fields[a].ty);
          }
        }
      case ListOf(e) =>
        if d.List? {
          forall i | 0 <= i < |d.items| ensures !BuriedInItem(reg, d.items[i], e) {
            if e.Named? { ShallowNeverBuries(reg, d.items[i], e); } else { HoldingMentions(reg, d.items[i], e); }
          }
        }
      case DictOf(_, e) =>
        if d.Dict? {
          forall k | k in d.entries ensures !BuriedInItem(reg, d.entries[k], e) {
            if e.Named? { ShallowNeverBuries(reg, d.entries[k], e); } else { HoldingMentions(reg, d.entries[k], e); }
          }
        }
    }
  }
}
