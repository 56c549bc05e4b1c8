/** A decoded JSON document, as `json.loads` returns it, and the Python operations the
    adapters apply to decoded values. Numbers are whole numbers; an object lists each
    key once, in the order of the decoded `dict`. Operations that Python would reject
    for the value's type (`.get` on a list, iterating `null`, `.lower()` on a number,
    `[0]` on an empty list) raise, as they do in the source. */
module Json {
  import opened Outcomes
  import Strings

  datatype Json =
    | JNull
    | JBool(b: bool)
    | JInt(n: int)
    | JStr(s: string)
    | JArr(items: seq<Json>)
    | JObj(members: seq<(string, Json)>)

  /** The value bound to `key` in an object's members. */
  function Lookup(members: seq<(string, Json)>, key: string): (r: Option<Json>)
    ensures r.Some? <==> exists i :: 0 <= i < |members| && members[i].0 == key
    ensures r.Some? ==> exists i :: 0 <= i < |members| && members[i] == (key, r.value)
  {
    if members == [] then None
    else if members[0].0 == key then Some(members[0].1)
    else
      var r := Lookup(members[1..], key);
      assert forall i :: 0 < i < |members| ==> members[i] == members[1..][i - 1];
      r
  }

  /** `d.get(key, default)`; a non-object has no `get`. */
  function Get(d: Json, key: string, default: Json): (r: Outcome<Json>)
    ensures r.Done? <==> d.JObj?
  {
    if d.JObj? then Done(Lookup(d.members, key).GetOr(default)) else Raised("AttributeError")
  }

  /** `key in d` for an object. */
  predicate Has(d: Json, key: string)
  {
    d.JObj? && Lookup(d.members, key).Some?
  }

  /** `for x in v`: a list yields its items, an object its keys, a string its
      characters; anything else is not iterable. */
  function Iter(v: Json): (r: Outcome<seq<Json>>)
    ensures v.JArr? ==> r == Done(v.items)
    ensures r.Done? <==> v.JArr? || v.JObj? || v.JStr?
  {
    match v
    case JArr(items) => Done(items)
    case JObj(ms) => Done(seq(|ms|, i requires 0 <= i < |ms| => JStr(ms[i].0)))
    case JStr(s) => Done(seq(|s|, i requires 0 <= i < |s| => JStr([s[i]])))
    case _ => Raised("TypeError")
  }

  /** `d.items()` */
  function Items(d: Json): (r: Outcome<seq<(string, Json)>>)
    ensures r.Done? <==> d.JObj?
  {
    if d.JObj? then Done(d.members) else Raised("AttributeError")
  }

  /** `v[0]` */
  function First(v: Json): (r: Outcome<Json>)
    ensures v.JArr? && v.items != [] ==> r == Done(v.items[0])
    ensures v.JArr? && v.items == [] ==> r.Raised?
  {
    match v
    case JArr(items) => if items != [] then Done(items[0]) else Raised("IndexError")
    case JStr(s) => if s != [] then Done(JStr([s[0]])) else Raised("IndexError")
    case JObj(_) => Raised("KeyError")
    case _ => Raised("TypeError")
  }

  /** `v.lower()`, defined on strings only. */
  function LowerOf(v: Json): (r: Outcome<string>)
    ensures v.JStr? ==> r == Done(Strings.Lower(v.s))
    ensures !v.JStr? ==> r.Raised?
  {
    if v.JStr? then Done(Strings.Lower(v.s)) else Raised("AttributeError")
  }

  /** `bool(v)` */
  predicate Truthy(v: Json)
  {
    match v
    case JNull => false
    case JBool(b) => b
    case JInt(n) => n != 0
    case JStr(s) => s != []
    case JArr(items) => items != []
    case JObj(ms) => ms != []
  }

  /** `str(v)`, as an f-string interpolation renders a decoded value. */
  function Str(v: Json): (r: string)
    ensures v.JStr? ==> r == v.s
  {
    match v
    case JStr(s) => s
    case _ => Repr(v)
  }

  /** `repr(v)`; strings are quoted with `'` and not escaped. */
  function Repr(v: Json): string
    decreases v, 1
  {
    match v
    case JNull => "None"
    case JBool(b) => if b then "True" else "False"
    case JInt(n) => Strings.IntToString(n)
    case JStr(s) => "'" + s + "'"
    case JArr(items) => "[" + ReprItems(v, items) + "]"
    case JObj(ms) => "{" + ReprMembers(v, ms) + "}"
  }

  function ReprItems(ghost parent: Json, items: seq<Json>): string
    requires forall x :: x in items ==> x < parent
    decreases parent, 0, |items|
  {
    if items == [] then ""
    else
      assert items[0] in items;
      assert forall x :: x in items[1..] ==> x in items;
      if |items| == 1 then Repr(items[0]) else Repr(items[0]) + ", " + ReprItems(parent, items[1..])
  }

  function ReprMembers(ghost parent: Json, ms: seq<(string, Json)>): string
    requires forall m :: m in ms ==> m.1 < parent
    decreases parent, 0, |ms|
  {
    if ms == [] then ""
    else
      assert ms[0] in ms;
      assert forall m :: m in ms[1..] ==> m in ms;
      var head := "'" + ms[0].0 + "': " + Repr(ms[0].1);
      if |ms| == 1 then head else head + ", " + ReprMembers(parent, ms[1..])
  }
}
