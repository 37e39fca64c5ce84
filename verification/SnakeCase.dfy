/** Key conversion of the connection file (util.go:59-99), on ASCII keys. */
module SnakeCase {
  predicate IsUpper(c: char) { 'A' <= c <= 'Z' }

  predicate IsLower(c: char) { 'a' <= c <= 'z' }

  function Lower(c: char): char {
    if IsUpper(c) then (c as int + 32) as char else c
  }

  function Upper(c: char): char {
    if IsLower(c) then (c as int - 32) as char else c
  }

  predicate Ascii(s: string) { forall c :: c in s ==> c as int < 128 }

  function ToLower(s: string): (r: string)
    ensures |r| == |s|
    ensures forall i :: 0 <= i < |s| ==> r[i] == Lower(s[i])
  {
    seq(|s|, i requires 0 <= i < |s| => Lower(s[i]))
  }

  /** Every character past the first: a capital becomes an underscore and its small letter. */
  function SnakeTail(s: string): string {
    if s == [] then []
    else if IsUpper(s[0]) then ['_', Lower(s[0])] + SnakeTail(s[1..])
    else [s[0]] + SnakeTail(s[1..])
  }

  function Snake(s: string): string {
    if s == [] then [] else [Lower(s[0])] + SnakeTail(s[1..])
  }

  lemma ToLowerConcat(a: string, b: string)
    ensures ToLower(a + b) == ToLower(a) + ToLower(b)
  {
  }

  /** What the loop still has to append when it is about to read index `i`. */
  function Pending(s: string, i: nat): string
    requires i <= |s|
  {
    if i == 0 then Snake(s) else SnakeTail(s[i..])
  }

  /** What util.go:63-67 appends for index `i`, before lower-casing. */
  function Appended(s: string, i: nat): string
    requires i < |s|
  {
    if i > 0 && IsUpper(s[i]) then ['_', (s[i] as int + 32) as char] else [s[i]]
  }

  lemma PendingStep(s: string, i: nat)
    requires i < |s|
    ensures Pending(s, i) == ToLower(Appended(s, i)) + Pending(s, i + 1)
  {
    assert s[i..][1..] == s[i + 1..];
    assert SnakeTail([]) == [];
    if i > 0 && IsUpper(s[i]) {
      assert ToLower(Appended(s, i)) == ['_', Lower(s[i])];
    } else {
      assert ToLower(Appended(s, i)) == [Lower(s[i])];
    }
  }

  lemma Associates(a: string, b: string, c: string)
    ensures (a + b) + c == a + (b + c)
  {
  }

  lemma LoopStep(result: string, s: string, i: nat)
    requires i < |s| && ToLower(result) + Pending(s, i) == Snake(s)
    ensures ToLower(result + Appended(s, i)) + Pending(s, i + 1) == Snake(s)
  {
    var next := Appended(s, i);
    ToLowerConcat(result, next);
    PendingStep(s, i);
    Associates(ToLower(result), ToLower(next), Pending(s, i + 1));
  }

  /** The loop of util.go:60-70: append rune by rune, then lower-case the whole. */
  method ConvertToSnakeCase(str: string) returns (out: string)
    requires Ascii(str)
    ensures out == Snake(str)
  {
    var result: string := [];
    for i := 0 to |str|
      invariant ToLower(result) + Pending(str, i) == Snake(str)
    {
      LoopStep(result, str, i);
      var r := str[i];
      var next := [r];
      if i > 0 && 'A' <= r <= 'Z' {
        next := ['_', (r as int + 32) as char];
      }
      assert next == Appended(str, i);
      result := result + next;
    }
    out := ToLower(result);
  }

  // ---- what the conversion keeps ------------------------------------------------

  function CapitalCount(s: string): nat {
    if s == [] then 0 else (if IsUpper(s[0]) then 1 else 0) + CapitalCount(s[1..])
  }

  lemma {:induction false} TailShape(s: string)
    ensures |SnakeTail(s)| == |s| + CapitalCount(s)
    ensures forall c :: c in SnakeTail(s) ==> !IsUpper(c)
  {
    if s != [] { TailShape(s[1..]); }
  }

  lemma {:induction false} TailFixed(s: string)
    requires forall c :: c in s ==> !IsUpper(c)
    ensures SnakeTail(s) == s
  {
    if s != [] {
      assert s[0] in s;
      TailFixed(s[1..]);
    }
  }

  /** The name grows by the number of capitals past the first character. */
  lemma SnakeLength(s: string)
    ensures |Snake(s)| == |s| + (if s == [] then 0 else CapitalCount(s[1..]))
  {
    if s != [] { TailShape(s[1..]); }
  }

  lemma SnakeIdempotent(s: string)
    ensures Snake(Snake(s)) == Snake(s)
  {
    if s != [] {
      TailShape(s[1..]);
      assert Snake(s)[1..] == SnakeTail(s[1..]);
      TailFixed(SnakeTail(s[1..]));
    }
  }

  /** Reads snake_case back: an underscore capitalises the character after it. */
  function Camel(t: string): string {
    if t == [] then []
    else if t[0] == '_' && |t| > 1 then [Upper(t[1])] + Camel(t[2..])
    else [t[0]] + Camel(t[1..])
  }

  /** A field name as the Go tags write it (kernelmanager_types.go:61-81). */
  predicate CamelCase(s: string) {
    '_' !in s && (s == [] || !IsUpper(s[0]))
  }

  lemma {:induction false} CamelInvertsTail(s: string)
    requires '_' !in s
    ensures Camel(SnakeTail(s)) == s
  {
    if s != [] {
      assert '_' != s[0] by { assert s[0] in s; }
      CamelInvertsTail(s[1..]);
      var rest := SnakeTail(s[1..]);
      if IsUpper(s[0]) {
        assert SnakeTail(s)[2..] == rest;
      } else {
        assert SnakeTail(s)[1..] == rest;
      }
    }
  }

  lemma CamelInvertsSnake(s: string)
    requires CamelCase(s)
    ensures Camel(Snake(s)) == s
  {
    if s != [] {
      assert s[0] in s;
      CamelInvertsTail(s[1..]);
      assert Snake(s)[1..] == SnakeTail(s[1..]);
    }
  }

  // ---- renaming the keys of a JSON object ------------------------------------------------

  ghost predicate Enumerates(order: seq<string>, keys: set<string>) {
    (forall k :: k in order <==> k in keys) && forall i, j :: 0 <= i < j < |order| ==> order[i] != order[j]
  }

  /** The object built when the keys are visited in this order. */
  function RenameInOrder<V>(order: seq<string>, m: map<string, V>): map<string, V>
    requires forall k :: k in order ==> k in m
  {
    if order == [] then map[]
    else
      var last := order[|order| - 1];
      assert last in order;
      RenameInOrder(order[..|order| - 1], m)[Snake(last) := m[last]]
  }

  /** The loop of util.go:86-90; Go visits a map's keys in no particular order. */
  method ToSnakeCaseKeys<V>(m: map<string, V>) returns (r: map<string, V>)
    requires forall k :: k in m ==> Ascii(k)
    ensures exists order: seq<string> :: Enumerates(order, m.Keys) && r == RenameInOrder(order, m)
  {
    r := map[];
    ghost var order: seq<string> := [];
    var todo := m.Keys;
    while todo != {}
      invariant todo <= m.Keys && Enumerates(order, m.Keys - todo)
      invariant r == RenameInOrder(order, m)
      decreases |todo|
    {
      var k :| k in todo;
      var snake := ConvertToSnakeCase(k);
      r := r[snake := m[k]];
      assert (order + [k])[..|order|] == order;
      order := order + [k];
      todo := todo - {k};
    }
    assert m.Keys - todo == m.Keys;
  }

  ghost predicate CollisionFree<V(!new)>(m: map<string, V>) {
    forall j, k :: j in m && k in m && Snake(j) == Snake(k) ==> m[j] == m[k]
  }

  lemma {:induction false} RenamedKeys<V>(order: seq<string>, m: map<string, V>, q: string)
    requires forall k :: k in order ==> k in m
    ensures q in RenameInOrder(order, m) <==> exists k :: k in order && Snake(k) == q
  {
    if order != [] {
      var last, front := order[|order| - 1], order[..|order| - 1];
      RenamedKeys(front, m, q);
      assert forall k :: k in order <==> k in front || k == last by { assert order == front + [last]; }
    }
  }

  lemma {:induction false} RenamedValue<V(!new)>(order: seq<string>, m: map<string, V>, k: string)
    requires forall k :: k in order ==> k in m
    requires CollisionFree(m) && k in order
    ensures Snake(k) in RenameInOrder(order, m) && RenameInOrder(order, m)[Snake(k)] == m[k]
  {
    var last, front := order[|order| - 1], order[..|order| - 1];
    assert order == front + [last];
    if Snake(k) != Snake(last) {
      RenamedValue(front, m, k);
    }
  }

  lemma SameRenaming<V(!new)>(p: seq<string>, q: seq<string>, m: map<string, V>)
    requires CollisionFree(m) && Enumerates(p, m.Keys) && Enumerates(q, m.Keys)
    ensures RenameInOrder(p, m) == RenameInOrder(q, m)
  {
    var a, b := RenameInOrder(p, m), RenameInOrder(q, m);
    forall key: string
      ensures key in a <==> key in b
      ensures key in a ==> a[key] == b[key]
    {
      RenamedKeys(p, m, key);
      RenamedKeys(q, m, key);
      if key in a {
        var k :| k in p && Snake(k) == key;
        RenamedValue(p, m, k);
        RenamedValue(q, m, k);
      }
    }
  }

  lemma {:induction false} SomeOrder(keys: set<string>) returns (order: seq<string>)
    ensures Enumerates(order, keys)
  {
    if keys == {} {
      order := [];
    } else {
      var k :| k in keys;
      order := SomeOrder(keys - {k});
      order := order + [k];
    }
  }

  /** Two keys that collide with different values tell two orders apart. */
  lemma CollisionShows<V(!new)>(m: map<string, V>, j: string, k: string) returns (p: seq<string>, q: seq<string>)
    requires j in m && k in m && Snake(j) == Snake(k) && m[j] != m[k]
    ensures Enumerates(p, m.Keys) && Enumerates(q, m.Keys)
    ensures RenameInOrder(p, m) != RenameInOrder(q, m)
  {
    var rest := SomeOrder(m.Keys - {j, k});
    p, q := rest + [j, k], rest + [k, j];
    assert p[..|p| - 1] == rest + [j] && q[..|q| - 1] == rest + [k];
    assert p[|p| - 1] == k && q[|q| - 1] == j;
    assert RenameInOrder(p, m)[Snake(k)] == m[k];
    assert RenameInOrder(q, m)[Snake(k)] == m[j];
  }

  ghost predicate OrderDoesNotMatter<V(!new)>(m: map<string, V>) {
    forall p: seq<string>, q: seq<string> :: Enumerates(p, m.Keys) && Enumerates(q, m.Keys) ==>
      RenameInOrder(p, m) == RenameInOrder(q, m)
  }

  /** The converted object is the same for every iteration order exactly when no two keys with
      different values convert to the same name. */
  lemma OrderIndependence<V(!new)>(m: map<string, V>)
    ensures OrderDoesNotMatter(m) <==> CollisionFree(m)
  {
    if CollisionFree(m) {
      forall p: seq<string>, q: seq<string> | Enumerates(p, m.Keys) && Enumerates(q, m.Keys)
        ensures RenameInOrder(p, m) == RenameInOrder(q, m)
      {
        SameRenaming(p, q, m);
      }
    } else {
      var j, k :| j in m && k in m && Snake(j) == Snake(k) && m[j] != m[k];
      var p, q := CollisionShows(m, j, k);
    }
  }

  /** On camelCase keys every pair survives, under its own name, and can be read back. */
  lemma NothingLost<V(!new)>(m: map<string, V>, order: seq<string>)
    requires Enumerates(order, m.Keys) && forall k :: k in m ==> CamelCase(k)
    ensures CollisionFree(m)
    ensures forall k :: k in m ==> Snake(k) in RenameInOrder(order, m) && RenameInOrder(order, m)[Snake(k)] == m[k]
    ensures forall q :: q in RenameInOrder(order, m) ==> Camel(q) in m && RenameInOrder(order, m)[q] == m[Camel(q)]
  {
    forall k | k in m ensures Camel(Snake(k)) == k { CamelInvertsSnake(k); }
    var r := RenameInOrder(order, m);
    assert CollisionFree(m) by {
      forall j, k | j in m && k in m && Snake(j) == Snake(k) ensures j == k { assert Camel(Snake(j)) == Camel(Snake(k)); }
    }
    forall k | k in m ensures Snake(k) in r && r[Snake(k)] == m[k] { RenamedValue(order, m, k); }
    forall q | q in r ensures Camel(q) in m && r[q] == m[Camel(q)] {
      RenamedKeys(order, m, q);
      var k :| k in order && Snake(k) == q;
    }
  }
}
