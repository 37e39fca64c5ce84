/** The type-expression grammar read by the client's decoder (client.py:449-456): a plain
    class name, `list[T]` or `dict(K, V)`, taken apart by two greedy regular expressions. */
module TypeExpressions {
  import opened Outcomes

  datatype Ty = Named(name: string) | ListOf(elem: Ty) | DictOf(key: Ty, value: Ty)

  function Print(t: Ty): string {
    match t
    case Named(n) => n
    case ListOf(e) => "list[" + Print(e) + "]"
    case DictOf(k, v) => "dict(" + Print(k) + ", " + Print(v) + ")"
  }

  predicate StartsWith(s: string, prefix: string) {
    |prefix| <= |s| && s[..|prefix|] == prefix
  }

  function FirstIndexOf(s: string, c: char): (r: Option<nat>)
    ensures r.None? <==> c !in s
    ensures r.Some? ==> r.value < |s| && s[r.value] == c && c !in s[..r.value]
  {
    if s == [] then None
    else if s[0] == c then Some(0)
    else
      match FirstIndexOf(s[1..], c)
      case None => None
      case Some(i) =>
        assert s[..i + 1] == [s[0]] + s[1..][..i];
        Some(i + 1)
  }

  function LastIndexOf(s: string, c: char): (r: Option<nat>)
    ensures r.None? <==> c !in s
    ensures r.Some? ==> r.value < |s| && s[r.value] == c && c !in s[r.value + 1..]
  {
    if s == [] then None
    else if s[|s| - 1] == c then Some(|s| - 1)
    else
      match LastIndexOf(s[..|s| - 1], c)
      case None =>
        assert s == s[..|s| - 1] + [s[|s| - 1]];
        None
      case Some(i) =>
        assert s[i + 1..] == s[..|s| - 1][i + 1..] + [s[|s| - 1]];
        Some(i)
  }

  /** What `.` can reach: everything up to the first line break. */
  function FirstLine(s: string): string {
    match FirstIndexOf(s, '\n')
    case None => s
    case Some(i) => s[..i]
  }

  /** Group 1 of `list\[(.*)\]`: the longest match ends at the last bracket of the line. */
  function PeelList(s: string): (r: Option<string>)
    requires StartsWith(s, "list[")
    ensures r.Some? ==> |r.value| < |s| && forall c :: c in r.value ==> c in s && c != '\n'
  {
    var line := FirstLine(s[5..]);
    match LastIndexOf(line, ']')
    case None => None
    case Some(i) => Some(line[..i])
  }

  /** Groups 1 and 2 of `dict\(([^,]*), (.*)\)`. */
  function PeelDict(s: string): (r: Option<(string, string)>)
    requires StartsWith(s, "dict(")
    ensures r.Some? ==> |r.value.0| < |s| && |r.value.1| < |s| && ',' in s && ',' !in r.value.0
    ensures r.Some? ==> forall c :: c in r.value.0 ==> c in s
    ensures r.Some? ==> forall c :: c in r.value.1 ==> c in s && c != '\n'
  {
    var body := s[5..];
    match FirstIndexOf(body, ',')
    case None => None
    case Some(i) =>
      if i + 1 < |body| && body[i + 1] == ' ' then
        var line := FirstLine(body[i + 2..]);
        match LastIndexOf(line, ')')
        case None => None
        case Some(j) => Some((body[..i], line[..j]))
      else None
  }

  /** The tree the decoder walks when it peels `s` level by level. */
  function Parse(s: string): Option<Ty>
    decreases |s|
  {
    if StartsWith(s, "list[") then
      var inner :- PeelList(s);
      var e :- Parse(inner);
      Some(ListOf(e))
    else if StartsWith(s, "dict(") then
      var (k, v) :- PeelDict(s);
      var key :- Parse(k);
      var value :- Parse(v);
      Some(DictOf(key, value))
    else Some(Named(s))
  }

  predicate PlainName(n: string) {
    !StartsWith(n, "list[") && !StartsWith(n, "dict(")
  }

  /** Names do not look like containers, keys print without a comma, nothing nested breaks a line. */
  predicate Readable(t: Ty) {
    match t
    case Named(n) => PlainName(n)
    case ListOf(e) => '\n' !in Print(e) && Readable(e)
    case DictOf(k, v) => ',' !in Print(k) && '\n' !in Print(v) && Readable(k) && Readable(v)
  }

  lemma {:induction false} FirstIndexAfter(s: string, c: char, rest: string)
    requires c !in s
    ensures FirstIndexOf(s + [c] + rest, c) == Some(|s|)
  {
    if s != [] {
      FirstIndexAfter(s[1..], c, rest);
      assert (s + [c] + rest)[1..] == s[1..] + [c] + rest;
    }
  }

  lemma AfterPrefix(prefix: string, rest: string)
    ensures StartsWith(prefix + rest, prefix) && (prefix + rest)[|prefix|..] == rest
  {
  }

  lemma UpToBracket(x: string, bracket: char)
    requires '\n' !in x && bracket != '\n'
    ensures FirstLine(x + [bracket]) == x + [bracket] && LastIndexOf(x + [bracket], bracket) == Some(|x|)
    ensures (x + [bracket])[..|x|] == x
  {
  }

  lemma PeelPrintedList(e: Ty)
    requires '\n' !in Print(e)
    ensures StartsWith(Print(ListOf(e)), "list[") && PeelList(Print(ListOf(e))) == Some(Print(e))
  {
    var x := Print(e);
    AfterPrefix("list[", x + [']']);
    assert Print(ListOf(e)) == "list[" + (x + [']']);
    UpToBracket(x, ']');
  }

  lemma DictStarts(k: string, v: string)
    ensures "dict(" + k + ", " + v + ")" == "dict(" + (k + [','] + ([' '] + (v + [')'])))
  {
  }

  lemma KeyEnds(k: string, rest: string)
    requires ',' !in k
    ensures FirstIndexOf(k + [','] + ([' '] + rest), ',') == Some(|k|)
    ensures var body := k + [','] + ([' '] + rest);
            |k| + 2 <= |body| && body[|k| + 1] == ' ' && body[..|k|] == k && body[|k| + 2..] == rest
  {
    FirstIndexAfter(k, ',', [' '] + rest);
  }

  lemma PeelPrintedDict(k: Ty, v: Ty)
    requires ',' !in Print(k) && '\n' !in Print(v)
    ensures StartsWith(Print(DictOf(k, v)), "dict(")
    ensures PeelDict(Print(DictOf(k, v))) == Some((Print(k), Print(v)))
    ensures !StartsWith(Print(DictOf(k, v)), "list[") && |Print(DictOf(k, v))| > 5
  {
    var key, rest := Print(k), Print(v) + [')'];
    var body := key + [','] + ([' '] + rest);
    DictStarts(key, Print(v));
    AfterPrefix("dict(", body);
    assert Print(DictOf(k, v))[..5][0] == 'd' && "list["[0] == 'l';
    KeyEnds(key, rest);
    UpToBracket(Print(v), ')');
  }

  lemma {:induction false} ReadableParsesBack(t: Ty)
    requires Readable(t)
    ensures Parse(Print(t)) == Some(t)
  {
    match t
    case Named(n) =>
    case ListOf(e) =>
      PeelPrintedList(e);
      ReadableParsesBack(e);
    case DictOf(k, v) =>
      PeelPrintedDict(k, v);
      ReadableParsesBack(k);
      ReadableParsesBack(v);
  }

  lemma WrappedListLacks(inner: string, c: char)
    requires c !in inner && (c == '\n' || c == ',')
    ensures c !in "list[" + inner + "]"
  {
    assert c !in "list[";
  }

  lemma WrappedDictLacks(k: string, v: string)
    requires '\n' !in k && '\n' !in v
    ensures '\n' !in "dict(" + k + ", " + v + ")"
  {
    assert '\n' !in "dict(" && '\n' !in ", ";
  }

  /** Parsing invents no character beyond the container syntax, and a comma only with a dict. */
  lemma {:induction false} ParsedCharacters(s: string, t: Ty, c: char)
    requires Parse(s) == Some(t) && c !in s
    requires c == '\n' || c == ','
    ensures c !in Print(t)
    decreases |s|
  {
    if StartsWith(s, "list[") {
      var inner := PeelList(s).value;
      ParsedCharacters(inner, t.elem, c);
      WrappedListLacks(Print(t.elem), c);
    } else if StartsWith(s, "dict(") {
      var (k, v) := PeelDict(s).value;
      ParsedCharacters(k, t.key, c);
      ParsedCharacters(v, t.value, c);
      WrappedDictLacks(Print(t.key), Print(t.value));
    }
  }

  lemma ListNotReadable(e: Ty)
    requires Parse(Print(ListOf(e))) == Some(ListOf(e))
    ensures '\n' !in Print(e) && Parse(Print(e)) == Some(e)
  {
    var s := Print(ListOf(e));
    assert s[..5] == "list[";
    var inner := PeelList(s).value;
    ParsedCharacters(inner, e, '\n');
    PeelPrintedList(e);
  }

  lemma DictNotReadable(k: Ty, v: Ty)
    requires Parse(Print(DictOf(k, v))) == Some(DictOf(k, v))
    ensures ',' !in Print(k) && '\n' !in Print(v) && Parse(Print(k)) == Some(k) && Parse(Print(v)) == Some(v)
  {
    var s := Print(DictOf(k, v));
    assert s[..5] == "dict(" && s[..5][0] == 'd' && "list["[0] == 'l';
    var (key, value) := PeelDict(s).value;
    ParsedCharacters(key, k, ',');
    ParsedCharacters(value, v, '\n');
    PeelPrintedDict(k, v);
  }

  /** Peeling recovers the printed tree exactly when keys are comma-free, names do not pose as
      containers and no nested expression breaks a line. */
  lemma {:induction false} PrintedTypesParseBack(t: Ty)
    ensures Parse(Print(t)) == Some(t) <==> Readable(t)
  {
    if Readable(t) {
      ReadableParsesBack(t);
    } else if Parse(Print(t)) == Some(t) {
      match t
      case Named(n) =>
      case ListOf(e) =>
        ListNotReadable(e);
        PrintedTypesParseBack(e);
      case DictOf(k, v) =>
        DictNotReadable(k, v);
        PrintedTypesParseBack(k);
        PrintedTypesParseBack(v);
    }
  }
}
