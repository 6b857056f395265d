/** JSON values as `json.loads` returns them and as the uploader builds
    them, and Python's subscript operator `value[key]` on them. Objects keep
    their members in order, as Python dictionaries do. Parsing and
    serialisation themselves are library calls and stay abstract. */
module Json {
  import opened Common

  datatype Json =
    | JNull
    | JBool(b: bool)
    | JNumber(n: int)
    | JString(s: string)
    | JArray(items: seq<Json>)
    | JObject(members: seq<(string, Json)>)

  /** A subscript: a dictionary key or a list position. */
  datatype Key = Name(name: string) | Index(i: nat)

  /** The value of the last member named `name`: a decoded dictionary keeps
      the last of duplicate keys. */
  function LookupMember(members: seq<(string, Json)>, name: string): (r: Option<Json>)
    ensures r.Some? <==> exists i | 0 <= i < |members| :: members[i].0 == name
    ensures r.Some? ==> exists i | 0 <= i < |members| :: members[i] == (name, r.value)
  {
    if |members| == 0 then None
    else if members[|members| - 1].0 == name then Some(members[|members| - 1].1)
    else LookupMember(members[..|members| - 1], name)
  }

  /** A member no later member shadows is what a lookup of its name finds. */
  lemma {:induction false} LookupMemberAt(members: seq<(string, Json)>, i: nat)
    requires i < |members|
    requires forall k | i < k < |members| :: members[k].0 != members[i].0
    ensures LookupMember(members, members[i].0) == Some(members[i].1)
  {
    if i < |members| - 1 {
      LookupMemberAt(members[..|members| - 1], i);
    }
  }

  /** Python's `value[key]`. Dictionaries raise KeyError for a missing key
      (decoded dictionaries have string keys only, so an integer subscript
      is always missing); lists and strings raise TypeError for a string
      subscript and IndexError past the end; numbers, booleans and None are
      not subscriptable. */
  function Subscript(j: Json, k: Key): Result<Json, Exception> {
    match (j, k)
    case (JObject(ms), Name(n)) =>
      var v := LookupMember(ms, n);
      if v.Some? then Success(v.value) else Failure(KeyError(n))
    case (JObject(_), Index(i)) => Failure(KeyError("int"))
    case (JArray(xs), Index(i)) =>
      if i < |xs| then Success(xs[i]) else Failure(IndexError("list index out of range"))
    case (JArray(_), Name(_)) => Failure(TypeError("list indices must be integers or slices, not str"))
    case (JString(s), Index(i)) =>
      if i < |s| then Success(JString([s[i]])) else Failure(IndexError("string index out of range"))
    case (JString(_), Name(_)) => Failure(TypeError("string indices must be integers, not 'str'"))
    case _ => Failure(TypeError("object is not subscriptable"))
  }

  /** `value[k0][k1]...`: the first failing subscript raises. */
  function SubscriptPath(j: Json, path: seq<Key>): Result<Json, Exception>
    decreases |path|
  {
    if |path| == 0 then Success(j)
    else
      match Subscript(j, path[0])
      case Failure(e) => Failure(e)
      case Success(v) => SubscriptPath(v, path[1..])
  }

  /** Following a path in two legs is following it in one. */
  lemma {:induction false} SubscriptPathAppend(j: Json, p: seq<Key>, q: seq<Key>)
    ensures SubscriptPath(j, p + q) ==
      match SubscriptPath(j, p)
      case Failure(e) => Failure(e)
      case Success(v) => SubscriptPath(v, q)
    decreases |p|
  {
    if |p| > 0 {
      assert (p + q)[0] == p[0];
      assert (p + q)[1..] == p[1..] + q;
      match Subscript(j, p[0])
      case Failure(e) =>
      case Success(v) => SubscriptPathAppend(v, p[1..], q);
    } else {
      assert p + q == q;
    }
  }
}
