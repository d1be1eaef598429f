/**
 * JSON-like values (RFC 8259) as the Python and TypeScript code sees them after
 * decoding, together with the handful of Python built-in behaviours the backend
 * relies on: truthiness, `dict.get`, `key in dict`, iteration with `for`,
 * `"".join(...)` and `str(...)`.
 *
 * Objects are association lists so that Python's dict iteration order is kept;
 * the decoders that produce them give each key once, and a lookup returns the
 * first binding of a key.
 */
module PyJson {
  import opened Wrappers

  datatype Json =
    | JNull                            // None / null
    | JBool(b: bool)                   // True, False
    | JNum(n: real)                    // int and float alike
    | JStr(s: string)
    | JArr(items: seq<Json>)           // list
    | JObj(fields: seq<(string, Json)>) // dict, in insertion order

  /** The Python exception classes that the modelled code can raise. */
  datatype Exc =
    | AttributeError     // `.get` / `.items` on something that is not a dict
    | TypeError          // iterating a non-iterable, joining non-strings, `str += list`, unhashable key
    | KeyError           // `d[k]` with `k` absent
    | IndexError         // `[][0]`
    | ValidationError    // pydantic refusing a field value
    | UnboundLocalError  // returning a loop variable that was never assigned
    | IntegrityError     // a database commit refused by a constraint

  /** A Python computation that returns a value or raises; `:-` propagates the
    * exception as Python does. */
  datatype Result<+T> = Ok(value: T) | Raise(exc: Exc) {
    predicate IsFailure() {
      Raise?
    }

    function PropagateFailure<U>(): Result<U>
      requires Raise?
    {
      Raise(exc)
    }

    function Extract(): T
      requires Ok?
    {
      value
    }
  }

  /** Python's `bool(v)`. */
  predicate Truthy(v: Json) {
    match v
    case JNull => false
    case JBool(b) => b
    case JNum(n) => n != 0.0
    case JStr(s) => s != ""
    case JArr(xs) => xs != []
    case JObj(fs) => fs != []
  }

  /** True when `fields` binds `key`. */
  predicate Binds(fields: seq<(string, Json)>, key: string) {
    exists i :: 0 <= i < |fields| && fields[i].0 == key
  }

  /** The value of the first binding of `key` in `fields`. */
  function Lookup(fields: seq<(string, Json)>, key: string): (r: Option<Json>)
    ensures r.Some? <==> Binds(fields, key)
    ensures r.Some? ==> exists i :: 0 <= i < |fields| && fields[i] == (key, r.value)
  {
    if fields == [] then None
    else if fields[0].0 == key then Some(fields[0].1)
    else
      var r := Lookup(fields[1..], key);
      assert forall i :: 0 <= i < |fields| - 1 ==> fields[1..][i] == fields[i + 1];
      r
  }

  /** `d.get(key, default)`: only a dict has `.get`. */
  function GetOr(d: Json, key: string, default: Json): (r: Result<Json>)
    ensures r.Ok? <==> d.JObj?
    ensures d.JObj? && !Binds(d.fields, key) ==> r == Ok(default)
  {
    if d.JObj? then Ok(Lookup(d.fields, key).GetOr(default)) else Raise(AttributeError)
  }

  /** `d.get(key)`: a missing key gives `None`. */
  function Get(d: Json, key: string): Result<Json> {
    GetOr(d, key, JNull)
  }

  /** The value `d.get(key)` gives when `d` is known to be a dict. */
  function Field(d: Json, key: string): Json
    requires d.JObj?
  {
    Lookup(d.fields, key).GetOr(JNull)
  }

  /** The keys of a dict, as the strings `for k in d` yields. */
  function KeyStrings(fields: seq<(string, Json)>): (r: seq<Json>)
    ensures |r| == |fields|
    ensures forall i :: 0 <= i < |fields| ==> r[i] == JStr(fields[i].0)
  {
    if fields == [] then [] else [JStr(fields[0].0)] + KeyStrings(fields[1..])
  }

  /** The one-character strings `for c in s` yields. */
  function CharStrings(s: string): (r: seq<Json>)
    ensures |r| == |s|
    ensures forall i :: 0 <= i < |s| ==> r[i] == JStr([s[i]])
  {
    if s == [] then [] else [JStr([s[0]])] + CharStrings(s[1..])
  }

  /** What `for x in v` visits: a list's items, a string's characters, a dict's keys;
    * every other value is not iterable. */
  function Iter(v: Json): (r: Result<seq<Json>>)
    ensures r.Ok? <==> (v.JArr? || v.JStr? || v.JObj?)
    ensures v.JArr? ==> r == Ok(v.items)
  {
    match v
    case JArr(xs) => Ok(xs)
    case JStr(s) => Ok(CharStrings(s))
    case JObj(fs) => Ok(KeyStrings(fs))
    case _ => Raise(TypeError)
  }

  /** True when every item is a string. */
  predicate AllStrings(xs: seq<Json>) {
    forall i :: 0 <= i < |xs| ==> xs[i].JStr?
  }

  /** The concatenation of a sequence of strings. */
  function Concat(xs: seq<Json>): string
    requires AllStrings(xs)
  {
    if xs == [] then "" else xs[0].s + Concat(xs[1..])
  }

  /** `"".join(v)`: iterate `v` and concatenate, refusing any item that is not a string. */
  function Join(v: Json): (r: Result<string>)
    ensures r.Ok? <==> (Iter(v).Ok? && AllStrings(Iter(v).value))
    ensures r.Ok? ==> r.value == Concat(Iter(v).value)
  {
    match Iter(v)
    case Raise(e) => Raise(e)
    case Ok(xs) => if AllStrings(xs) then Ok(Concat(xs)) else Raise(TypeError)
  }

  /** Joining the characters of a string gives the string back. */
  lemma {:induction false} ConcatCharStrings(s: string)
    ensures AllStrings(CharStrings(s)) && Concat(CharStrings(s)) == s
  {
    if s != [] {
      ConcatCharStrings(s[1..]);
      assert CharStrings(s)[1..] == CharStrings(s[1..]);
    }
  }

  /** `"".join(s)` on a string is the string itself; on a list of strings it is their concatenation. */
  lemma JoinOfStrings(v: Json)
    ensures v.JStr? ==> Join(v) == Ok(v.s)
    ensures v.JArr? && AllStrings(v.items) ==> Join(v) == Ok(Concat(v.items))
    ensures v.JNull? ==> Join(v) == Raise(TypeError)
  {
    if v.JStr? { ConcatCharStrings(v.s); }
  }

  /** Python's `str(v)` (which is also what an f-string inserts). Strings, `None` and
    * booleans are spelt out; numbers and containers go through `repr`, the
    * interpreter's own formatting, which is not modelled. */
  function PyStr(v: Json, repr: Json -> string): string {
    match v
    case JStr(s) => s
    case JNull => "None"
    case JBool(b) => if b then "True" else "False"
    case _ => repr(v)
  }

  /** `v[0]`: the first item of a list, the first character of a string; a dict has
    * no key `0` among its string keys, and other values are not subscriptable. */
  function Index0(v: Json): (r: Result<Json>)
    ensures r.Ok? <==> ((v.JArr? && v.items != []) || (v.JStr? && v.s != ""))
    ensures v.JArr? && v.items != [] ==> r == Ok(v.items[0])
  {
    match v
    case JArr(xs) => if xs == [] then Raise(IndexError) else Ok(xs[0])
    case JStr(s) => if s == "" then Raise(IndexError) else Ok(JStr([s[0]]))
    case JObj(_) => Raise(KeyError)
    case _ => Raise(TypeError)
  }

  /** A pydantic `str` field: only a string passes. */
  function AsStr(v: Json): (r: Result<string>)
    ensures r.Ok? <==> v.JStr?
    ensures r.Ok? ==> r.value == v.s
  {
    if v.JStr? then Ok(v.s) else Raise(ValidationError)
  }

  /**
   * `out = []; for x in xs: out.append(f(x))`, where building an item may raise:
   * either every item is built, in order, or the first exception ends the loop.
   */
  function MapItems<T>(xs: seq<Json>, f: Json -> Result<T>): (r: Result<seq<T>>)
    ensures r.Ok? <==> (forall i :: 0 <= i < |xs| ==> f(xs[i]).Ok?)
    ensures r.Ok? ==> |r.value| == |xs| && forall i :: 0 <= i < |xs| ==> f(xs[i]) == Ok(r.value[i])
    ensures r.Raise? ==> exists i :: 0 <= i < |xs| && f(xs[i]) == Raise(r.exc) && forall j :: 0 <= j < i ==> f(xs[j]).Ok?
    decreases |xs|
  {
    if xs == [] then Ok([])
    else
      var init := xs[..|xs| - 1];
      assert forall i :: 0 <= i < |init| ==> init[i] == xs[i];
      match MapItems(init, f)
      case Raise(e) => Raise(e)
      case Ok(acc) =>
        match f(xs[|xs| - 1])
        case Raise(e) => Raise(e)
        case Ok(v) => Ok(acc + [v])
  }

  /** Once the loop has raised, the items after it change nothing. */
  lemma {:induction false} MapItemsKeepsFailure<T>(xs: seq<Json>, k: nat, f: Json -> Result<T>)
    requires k <= |xs|
    requires MapItems(xs[..k], f).Raise?
    ensures MapItems(xs, f) == MapItems(xs[..k], f)
    decreases |xs| - k
  {
    if k < |xs| {
      assert xs[..k + 1][..k] == xs[..k];
      MapItemsKeepsFailure(xs, k + 1, f);
    } else {
      assert xs[..k] == xs;
    }
  }

  /** The first item that raises decides the exception the loop raises. */
  lemma MapItemsFirstFailure<T>(xs: seq<Json>, i: nat, f: Json -> Result<T>)
    requires i < |xs| && f(xs[i]).Raise?
    requires forall j :: 0 <= j < i ==> f(xs[j]).Ok?
    ensures MapItems(xs, f) == Raise(f(xs[i]).exc)
  {
    var p := xs[..i];
    assert xs[..i + 1][..i] == p;
    assert forall j :: 0 <= j < |p| ==> f(p[j]).Ok? by {
      assert forall j :: 0 <= j < |p| ==> p[j] == xs[j];
    }
    assert MapItems(xs[..i + 1], f) == Raise(f(xs[i]).exc);
    MapItemsKeepsFailure(xs, i + 1, f);
  }

  /** The loop itself. */
  method MapLoop<T>(xs: seq<Json>, f: Json -> Result<T>) returns (r: Result<seq<T>>)
    ensures r == MapItems(xs, f)
  {
    var out: seq<T> := [];
    var i := 0;
    while i < |xs|
      invariant 0 <= i <= |xs|
      invariant MapItems(xs[..i], f) == Ok(out)
    {
      assert xs[..i + 1][..i] == xs[..i];
      var item := f(xs[i]);
      if item.Raise? {
        MapItemsKeepsFailure(xs, i + 1, f);
        return Raise(item.exc);
      }
      out := out + [item.value];
      i := i + 1;
    }
    assert xs[..|xs|] == xs;
    r := Ok(out);
  }

  /** `for x in v: out.append(f(x))` including the iteration of `v` itself. */
  function ForEach<T>(v: Json, f: Json -> Result<T>): Result<seq<T>> {
    var xs :- Iter(v);
    MapItems(xs, f)
  }
}
