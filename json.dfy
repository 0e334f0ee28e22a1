/**
 * Action parameters after `json.loads`: the values a custom action reads out of
 * its parameter object, with the parts of Python's data model the actions rely
 * on (truthiness, `isinstance(_, int)`, what a `for` loop iterates over).
 */
module Json {
  import opened Wrappers

  datatype Value =
    | Null
    | Bool(b: bool)
    | Int(i: int)
    | Float(r: real)
    | Str(s: string)
    | Array(items: seq<Value>)
    /**
     * Members in the order of the text. `json.loads` builds a dict from them:
     * a name that repeats is one key, kept where it first appeared (see DictKeys).
     */
    | Object(members: seq<(string, Value)>)

  /** `bool(v)`: null, false, zero, the empty string and empty containers are false. */
  predicate Truthy(v: Value) {
    match v
    case Null => false
    case Bool(b) => b
    case Int(i) => i != 0
    case Float(r) => r != 0.0
    case Str(s) => s != []
    case Array(items) => items != []
    case Object(members) => members != []
  }

  /**
   * The integer a value stands for when `isinstance(v, int)` holds. Python's
   * bool is a subclass of int, so True and False pass as 1 and 0.
   */
  function AsInt(v: Value): Option<int> {
    match v
    case Int(i) => Some(i)
    case Bool(b) => Some(if b then 1 else 0)
    case _ => None
  }

  /**
   * The keys of the dict `json.loads` builds from these members, in dict order:
   * storing a key that is already there keeps its place, so every name is kept
   * once, at its first appearance.
   */
  function DictKeys(members: seq<(string, Value)>): (r: seq<string>)
    ensures forall k :: 0 <= k < |members| ==> members[k].0 in r
    ensures forall x :: x in r ==> exists k :: 0 <= k < |members| && members[k].0 == x
    ensures forall i, j :: 0 <= i < j < |r| ==> r[i] != r[j]
    ensures |r| <= |members|
  {
    if members == [] then []
    else
      var init := DictKeys(members[..|members| - 1]);
      var name := members[|members| - 1].0;
      if name in init then init else init + [name]
  }


  /** Names given once each keep the order of the text. */
  lemma {:induction false} DistinctNamesKept(members: seq<(string, Value)>)
    requires forall i, j :: 0 <= i < j < |members| ==> members[i].0 != members[j].0
    ensures |DictKeys(members)| == |members|
    ensures forall k :: 0 <= k < |members| ==> DictKeys(members)[k] == members[k].0
  {
    if members != [] {
      var init := members[..|members| - 1];
      DistinctNamesKept(init);
    }
  }

  /**
   * What `for x in v` visits: the items of a list, the one-character strings of a
   * string, the keys of a dict (each repeated name once). Any other value makes `for` raise
   * TypeError, which is None here.
   */
  function Iterated(v: Value): (r: Option<seq<Value>>)
    ensures v.Array? ==> r == Some(v.items)
    ensures v.Str? ==> r.Some? && |r.value| == |v.s|
                       && forall k :: 0 <= k < |v.s| ==> r.value[k] == Str([v.s[k]])
    ensures v.Object? ==> r.Some? && |r.value| == |DictKeys(v.members)|
                          && forall k :: 0 <= k < |r.value| ==> r.value[k] == Str(DictKeys(v.members)[k])
    ensures !(v.Array? || v.Str? || v.Object?) ==> r.None?
  {
    match v
    case Array(items) => Some(items)
    case Str(s) => Some(seq(|s|, k requires 0 <= k < |s| => Str([s[k]])))
    case Object(members) =>
      var names := DictKeys(members);
      Some(seq(|names|, k requires 0 <= k < |names| => Str(names[k])))
    case _ => None
  }

  /** A name given twice is one key, and `for` visits it once. */
  lemma RepeatedNameOnce(v1: Value, v2: Value)
    ensures DictKeys([("w", v1), ("w", v2)]) == ["w"]
    ensures Iterated(Object([("w", v1), ("w", v2)])) == Some([Str("w")])
  {
    assert [("w", v1), ("w", v2)][..1] == [("w", v1)];
    assert [("w", v1)][..0] == [];
    var r := Iterated(Object([("w", v1), ("w", v2)])).value;
    assert |r| == 1 && r[0] == Str("w");
    assert r == [Str("w")];
  }
}
