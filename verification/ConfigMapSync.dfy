/** Copying the owned fields of a ConfigMap (util.go:27-57). */
module ConfigMapSync {
  import opened Outcomes

  /** A Go map: `None` is the nil map, which reads like an empty one but is not deeply equal to it. */
  type GoMap<V> = Option<map<string, V>>

  function Entries<V>(m: GoMap<V>): map<string, V> {
    if m.None? then map[] else m.value
  }

  /** Indexing a Go map of strings: a missing key reads as the empty string. */
  function Lookup(m: GoMap<string>, k: string): string {
    if k in Entries(m) then Entries(m)[k] else ""
  }

  /** The owned fields; `F` is the type of the files in `data`. */
  datatype Fields<F> = Fields(labels: GoMap<string>, annotations: GoMap<string>, data: GoMap<F>,
                              binaryData: GoMap<seq<bv8>>)

  class ConfigMap<F(==)> {
    var labels: GoMap<string>
    var annotations: GoMap<string>
    var data: GoMap<F>
    var binaryData: GoMap<seq<bv8>>

    constructor (f: Fields<F>)
      ensures Value() == f
    {
      labels, annotations, data, binaryData := f.labels, f.annotations, f.data, f.binaryData;
    }

    function Value(): Fields<F>
      reads this
    {
      Fields(labels, annotations, data, binaryData)
    }
  }

  /** Some key already present in `found` should read differently. */
  ghost predicate OldKeyDiffers(desired: GoMap<string>, found: GoMap<string>) {
    exists k :: k in Entries(found) && Lookup(desired, k) != Entries(found)[k]
  }

  ghost predicate OutOfDate<F>(desired: Fields<F>, found: Fields<F>) {
    || OldKeyDiffers(desired.labels, found.labels)
    || OldKeyDiffers(desired.annotations, found.annotations)
    || desired.data != found.data
    || desired.binaryData != found.binaryData
  }

  /** The loops of util.go:30-34 and 37-41, in whatever order Go visits the keys. */
  method ScanOldKeys(desired: GoMap<string>, found: GoMap<string>) returns (differs: bool)
    ensures differs <==> OldKeyDiffers(desired, found)
  {
    differs := false;
    var old_ := Entries(found);
    var todo := old_.Keys;
    while todo != {}
      invariant todo <= old_.Keys
      invariant differs <==> exists k :: k in old_ && k !in todo && Lookup(desired, k) != old_[k]
      decreases |todo|
    {
      var k :| k in todo;
      if Lookup(desired, k) != old_[k] {
        differs := true;
      }
      todo := todo - {k};
    }
  }

  method CopyConfigMapFields<F(==)>(from: ConfigMap<F>, to: ConfigMap<F>) returns (requireUpdate: bool)
    modifies to
    ensures requireUpdate <==> OutOfDate(old(from.Value()), old(to.Value()))
    ensures to.Value() == from.Value() == old(from.Value())
  {
    requireUpdate := false;
    var labelsDiffer := ScanOldKeys(from.labels, to.labels);
    if labelsDiffer {
      requireUpdate := true;
    }
    to.labels := from.labels;

    var annotationsDiffer := ScanOldKeys(from.annotations, to.annotations);
    if annotationsDiffer {
      requireUpdate := true;
    }
    to.annotations := from.annotations;

    if to.data != from.data {
      requireUpdate := true;
    }
    to.data := from.data;

    if to.binaryData != from.binaryData {
      requireUpdate := true;
    }
    to.binaryData := from.binaryData;
  }

  /** Copying twice: the second pass never asks for an update. */
  method CopyTwice<F(==)>(from: ConfigMap<F>, to: ConfigMap<F>) returns (first: bool, second: bool)
    modifies to
    ensures first <==> OutOfDate(old(from.Value()), old(to.Value()))
    ensures !second
    ensures to.Value() == old(from.Value())
  {
    first := CopyConfigMapFields(from, to);
    second := CopyConfigMapFields(from, to);
  }

  lemma SameKeysAgree(desired: GoMap<string>, found: GoMap<string>)
    requires !OldKeyDiffers(desired, found) && Entries(desired).Keys == Entries(found).Keys
    ensures Entries(desired) == Entries(found)
  {
    forall k | k in Entries(found) ensures Entries(desired)[k] == Entries(found)[k] {
      assert Lookup(desired, k) == Entries(found)[k];
    }
  }

  /** The scan overlooks a real difference exactly when the values of all common keys agree and
      what differs is a desired key not stored yet or a stored empty value no longer desired. */
  lemma OverlookedDifference(desired: GoMap<string>, found: GoMap<string>)
    ensures var d, f := Entries(desired), Entries(found);
            !OldKeyDiffers(desired, found) && d != f <==>
            && d.Keys != f.Keys
            && (forall k :: k in d && k in f ==> d[k] == f[k])
            && (forall k :: k in f && k !in d ==> f[k] == "")
  {
    var d, f := Entries(desired), Entries(found);
    if !OldKeyDiffers(desired, found) {
      if d.Keys == f.Keys {
        SameKeysAgree(desired, found);
      }
      forall k | k in f ensures Lookup(desired, k) == f[k] {}
    }
  }

  /** A difference in added labels alone asks for no update, so the stored copy is stale until something else does. */
  lemma AddedKeyIsMissed<F>(found: Fields<F>, k: string, v: string)
    requires k !in Entries(found.labels)
    ensures var desired := found.(labels := Some(Entries(found.labels)[k := v]));
            !OutOfDate(desired, found) && Lookup(desired.labels, k) == v && k !in Entries(found.labels)
  {
    var desired := found.(labels := Some(Entries(found.labels)[k := v]));
    assert forall j :: j in Entries(found.labels) ==> Lookup(desired.labels, j) == Entries(found.labels)[j];
  }
}
