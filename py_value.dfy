/**
 * Python values as a JSON decoder produces them, and the few Python operations
 * the core applies to such loosely-shaped values: truthiness, `dict.get`, `str()`.
 */
module PyValue {
  import opened Wrappers
  import opened PyText

  /**
   * `None`, a bool, an int, a str, a list, or a dict.  A dict keeps its
   * insertion order as a list of entries; a decoded dict has distinct keys, and
   * lookup takes the first entry with the key.
   */
  datatype Json =
    | JNull
    | JBool(b: bool)
    | JInt(i: int)
    | JStr(s: string)
    | JList(items: seq<Json>)
    | JObj(entries: seq<(string, Json)>)

  /** Python's truth test: `None`, `False`, `0` and empty containers are false. */
  predicate Truthy(v: Json) {
    match v
    case JNull => false
    case JBool(b) => b
    case JInt(i) => i != 0
    case JStr(s) => s != []
    case JList(items) => items != []
    case JObj(entries) => entries != []
  }

  /** `d.get(key)`: the value of the first entry with `key`, if there is one. */
  function Lookup<V>(entries: seq<(string, V)>, key: string): Option<V> {
    if entries == [] then None
    else if entries[0].0 == key then Some(entries[0].1)
    else Lookup(entries[1..], key)
  }

  /** Lookup finds the value of the first entry with the key, and nothing when no entry has it. */
  lemma {:induction false} LookupFirst<V>(entries: seq<(string, V)>, key: string)
    ensures Lookup(entries, key).None? <==> forall k :: 0 <= k < |entries| ==> entries[k].0 != key
    ensures Lookup(entries, key).Some? ==> exists k :: (0 <= k < |entries| && entries[k] == (key, Lookup(entries, key).value)
      && forall j :: 0 <= j < k ==> entries[j].0 != key)
  {
    if entries != [] && entries[0].0 != key {
      LookupFirst(entries[1..], key);
      if Lookup(entries, key).Some? {
        var k :| 0 <= k < |entries[1..]| && entries[1..][k] == (key, Lookup(entries, key).value)
          && forall j :: 0 <= j < k ==> entries[1..][j].0 != key;
        assert entries[k + 1] == (key, Lookup(entries, key).value);
        assert forall j :: 0 <= j < k + 1 ==> entries[j].0 != key by {
          forall j | 0 <= j < k + 1 ensures entries[j].0 != key {
            if j > 0 { assert entries[j] == entries[1..][j - 1]; }
          }
        }
      } else {
        assert forall k :: 0 <= k < |entries| ==> entries[k].0 != key by {
          forall k | 0 <= k < |entries| ensures entries[k].0 != key {
            if k > 0 { assert entries[k] == entries[1..][k - 1]; }
          }
        }
      }
    } else if entries != [] {
      assert entries[0] == (key, Lookup(entries, key).value);
    }
  }

  /** Looking a key up in two runs of entries: the first run's entry wins. */
  lemma {:induction false} LookupConcat<V>(a: seq<(string, V)>, b: seq<(string, V)>, key: string)
    ensures Lookup(a + b, key) == if Lookup(a, key).Some? then Lookup(a, key) else Lookup(b, key)
  {
    if a != [] {
      assert (a + b)[1..] == a[1..] + b;
      LookupConcat(a[1..], b, key);
    } else {
      assert a + b == b;
    }
  }

  /** `mapping.get(name, default)` on a mapping of strings, such as the environment. */
  function GetSetting(mapping: map<string, string>, name: string, default: string): string {
    if name in mapping then mapping[name] else default
  }

  /** `d.get(key, default)` */
  function GetOr(entries: seq<(string, Json)>, key: string, default: Json): Json {
    Lookup(entries, key).GetOr(default)
  }

  /** `d.get(key)`, which is `None` when the key is absent. */
  function Get(entries: seq<(string, Json)>, key: string): Json {
    GetOr(entries, key, JNull)
  }

  /** `x or y` */
  function Or(x: Json, y: Json): (r: Json)
    ensures Truthy(x) ==> r == x
    ensures !Truthy(x) ==> r == y
  {
    if Truthy(x) then x else y
  }

  /** `small` is `big` with some elements left out and the rest in their original order, as a filtering comprehension leaves it. */
  predicate IsSubsequence<T(==)>(small: seq<T>, big: seq<T>) {
    if small == [] then true
    else if big == [] then false
    else if small[0] == big[0] then IsSubsequence(small[1..], big[1..])
    else IsSubsequence(small, big[1..])
  }

  /** `str(v)`: a string is itself, anything else its `repr`. */
  function Str(v: Json): string {
    if v.JStr? then v.s else Repr(v)
  }

  /**
   * `repr(v)`.  Strings are quoted with single quotes; Python's choice of
   * double quotes and its escape sequences are not modelled.
   */
  function Repr(v: Json): string
    decreases v, 1
  {
    match v
    case JNull => "None"
    case JBool(b) => if b then "True" else "False"
    case JInt(i) => IntToString(i)
    case JStr(s) => "'" + s + "'"
    case JList(items) => "[" + ReprItems(v, items) + "]"
    case JObj(entries) => "{" + ReprEntries(v, entries) + "}"
  }

  function ReprItems(ghost parent: Json, items: seq<Json>): string
    requires forall k :: 0 <= k < |items| ==> items[k] < parent
    decreases parent, 0, |items|
  {
    if items == [] then ""
    else if |items| == 1 then Repr(items[0])
    else Repr(items[0]) + ", " + ReprItems(parent, items[1..])
  }

  function ReprEntries(ghost parent: Json, entries: seq<(string, Json)>): string
    requires forall k :: 0 <= k < |entries| ==> entries[k].1 < parent
    decreases parent, 0, |entries|
  {
    if entries == [] then ""
    else
      var entry := "'" + entries[0].0 + "': " + Repr(entries[0].1);
      if |entries| == 1 then entry else entry + ", " + ReprEntries(parent, entries[1..])
  }

  /** A truthy value never prints as the empty string. */
  lemma TruthyStrNonEmpty(v: Json)
    requires Truthy(v)
    ensures Str(v) != []
  {
  }
}
