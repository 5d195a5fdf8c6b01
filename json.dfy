/**
 * Parsed JSON as Python's `json.loads` hands it to the validator: objects keep
 * their members in insertion order, because `dict` iteration order decides the
 * order of the validator's messages. Numbers are integers only.
 */
module Json {
  import opened Strings

  datatype Option<T> = None | Some(value: T)

  datatype Json =
    | JNull
    | JBool(b: bool)
    | JInt(i: int)
    | JStr(s: string)
    | JArr(items: seq<Json>)
    | JObj(members: seq<(string, Json)>)

  /** What `json.loads(text)` produced: a value, or the `JSONDecodeError` message. */
  datatype Parsed = Ok(value: Json) | Err(message: string)

  /** Position of the first member whose key is `key`. */
  function Find(ms: seq<(string, Json)>, key: string): (r: Option<nat>)
    ensures r.Some? ==> r.value < |ms| && ms[r.value].0 == key
    ensures r.Some? ==> forall j :: 0 <= j < r.value ==> ms[j].0 != key
    ensures r.None? <==> forall j :: 0 <= j < |ms| ==> ms[j].0 != key
  {
    if |ms| == 0 then None
    else if ms[0].0 == key then Some(0)
    else match Find(ms[1..], key)
      case None => None
      case Some(k) => Some(k + 1)
  }

  /** Python `key in d` for a dict `d`. */
  predicate HasKey(j: Json, key: string)
  {
    j.JObj? && Find(j.members, key).Some?
  }

  /** Python `d.get(key)`: `None` stands for Python's `None`. */
  function Get(j: Json, key: string): (r: Option<Json>)
    ensures r.Some? <==> HasKey(j, key)
  {
    if j.JObj? then
      match Find(j.members, key)
      case None => None
      case Some(k) => Some(j.members[k].1)
    else None
  }

  /** Python `d.get(key, default)`. */
  function GetOr(j: Json, key: string, default: Json): Json
  {
    match Get(j, key)
    case None => default
    case Some(v) => v
  }

  /** Python truthiness: `None`, `False`, `0`, `""`, `[]` and `{}` are false. */
  predicate Falsy(j: Json)
  {
    j == JNull || j == JBool(false) || j == JInt(0) || j == JStr("")
    || j == JArr([]) || j == JObj([])
  }

  /** One step of a path into a value: a dict key or a list position. */
  datatype Step = Key(name: string) | Index(pos: nat)

  /** The value reached by following `path`, if every step exists. */
  function At(j: Json, path: seq<Step>): Option<Json>
    decreases |path|
  {
    if path == [] then Some(j)
    else match path[0]
      case Key(k) => (match Get(j, k) case None => None case Some(v) => At(v, path[1..]))
      case Index(n) =>
        if j.JArr? && n < |j.items| then At(j.items[n], path[1..]) else None
  }

  lemma AtAppend(j: Json, p: seq<Step>, q: seq<Step>)
    requires At(j, p).Some?
    ensures At(j, p + q) == At(At(j, p).value, q)
    decreases |p|
  {
    if p == [] {
      assert p + q == q;
    } else {
      assert (p + q)[0] == p[0] && (p + q)[1..] == p[1..] + q;
      match p[0]
      case Key(k) => AtAppend(Get(j, k).value, p[1..], q);
      case Index(n) => AtAppend(j.items[n], p[1..], q);
    }
  }

  /** Following a path that starts at key `k` is following the rest from the value at `k`. */
  lemma AtKey(j: Json, k: string, rest: seq<Step>)
    requires Get(j, k).Some?
    ensures At(j, [Key(k)] + rest) == At(Get(j, k).value, rest)
  {
    var p := [Key(k)] + rest;
    assert p[0] == Key(k) && p[1..] == rest;
  }

  lemma AtKeys2(j: Json, a: string, b: string)
    requires Get(j, a).Some?
    ensures At(j, [Key(a), Key(b)]) == Get(Get(j, a).value, b)
  {
    AtKey(j, a, [Key(b)]);
    if Get(Get(j, a).value, b).Some? {
      AtKey(Get(j, a).value, b, []);
    }
  }

  lemma AtKeys3(j: Json, a: string, b: string, c: string)
    requires Get(j, a).Some? && Get(Get(j, a).value, b).Some?
    ensures At(j, [Key(a), Key(b), Key(c)]) == Get(Get(Get(j, a).value, b).value, c)
  {
    AtKey(j, a, [Key(b), Key(c)]);
    AtKeys2(Get(j, a).value, b, c);
  }

  /** A dict whose keys are pairwise distinct, as every dict `json.loads` returns. */
  predicate DistinctKeys(ms: seq<(string, Json)>)
  {
    forall a, b :: 0 <= a < b < |ms| ==> ms[a].0 != ms[b].0
  }

  /** With distinct keys, the member at position `k` is what `Get` returns for its key. */
  lemma GetMember(ms: seq<(string, Json)>, k: nat)
    requires DistinctKeys(ms) && k < |ms|
    ensures Get(JObj(ms), ms[k].0) == Some(ms[k].1)
  {
  }

  /** The value of the first member with a given key is what `Get` returns for that key. */
  lemma GetFirst(ms: seq<(string, Json)>, k: nat)
    requires k < |ms|
    requires forall j :: 0 <= j < k ==> ms[j].0 != ms[k].0
    ensures Get(JObj(ms), ms[k].0) == Some(ms[k].1)
  {
  }

  /**
   * Python `str(v)` of a parsed value. Strings nested in a list or dict are
   * shown as `'...'`, without Python's escaping of quotes and control characters.
   */
  function Show(j: Json): string
    decreases j, 1
  {
    match j
    case JNull => "None"
    case JBool(b) => if b then "True" else "False"
    case JInt(i) => IntToString(i)
    case JStr(s) => s
    case JArr(items) => "[" + ShowItems(j, |items|) + "]"
    case JObj(ms) => "{" + ShowItems(j, |ms|) + "}"
  }

  /** Python `repr(v)`: like `str`, but a string is quoted. */
  function Repr(j: Json): string
    decreases j, 2
  {
    if j.JStr? then "'" + j.s + "'" else Show(j)
  }

  /** The first `k` elements (or `key: value` members) of a list or dict, joined by ", ". */
  function ShowItems(j: Json, k: nat): string
    requires j.JArr? || j.JObj?
    requires k <= (if j.JArr? then |j.items| else |j.members|)
    decreases j, 0, k
  {
    if k == 0 then ""
    else
      var last :=
        if j.JArr? then Repr(j.items[k - 1])
        else "'" + j.members[k - 1].0 + "': " + Repr(j.members[k - 1].1);
      if k == 1 then last else ShowItems(j, k - 1) + ", " + last
  }
}
