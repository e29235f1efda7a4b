/** Values shared by every part of the model: decoded JSON, timestamps, and the
    library functions the pipeline calls but does not define. */
module Base {
  datatype Option<+T> = None | Some(value: T)

  /** A decoded JSON value. The fields of an object keep their order of arrival;
      decoding leaves each key once. */
  datatype Json =
    | JNull
    | JBool(b: bool)
    | JInt(i: int)
    | JFloat(r: real)
    | JStr(s: string)
    | JList(items: seq<Json>)
    | JObject(fields: seq<(string, Json)>)

  type Fields = seq<(string, Json)>

  function Get(fields: Fields, name: string): Option<Json> {
    if fields == [] then None
    else if fields[0].0 == name then Some(fields[0].1)
    else Get(fields[1..], name)
  }

  function FirstChar(s: string): char { if s == "" then ' ' else s[0] }

  /** A key that no earlier field carries is found where it stands. */
  lemma {:induction false} GetAt(e: Fields, i: nat)
    requires i < |e| && forall j :: 0 <= j < i ==> e[j].0 != e[i].0
    ensures Get(e, e[i].0) == Some(e[i].1)
  {
    if i > 0 {
      assert e[0].0 != e[i].0;
      GetAt(e[1..], i - 1);
    }
  }

  /** What an ISO-8601 text says: a local time in microseconds and, when the text
      carries one, an offset from UTC in microseconds. */
  datatype IsoTime = IsoTime(local: int, offset: Option<int>)

  /** A timezone-aware time: its instant in UTC and the offset it was written with. */
  datatype Stamp = Stamp(utc: int, offset: int)

  const SECOND: int := 1_000_000
  const MINUTE: int := 60 * SECOND

  /** A time without an offset is taken as UTC. */
  function Aware(t: IsoTime): Stamp {
    match t.offset
    case Some(o) => Stamp(t.local - o, o)
    case None => Stamp(t.local, 0)
  }

  /** The library functions the pipeline calls, as total functions. */
  datatype Env = Env(
    parse: string -> Option<Json>,      // json.loads; None is JSONDecodeError
    dumps: Json -> string,              // json.dumps
    str: Json -> string,                // str() of a value that is not a string
    iso: string -> Option<IsoTime>,     // datetime.fromisoformat; None is ValueError
    toInt: string -> Option<int>,       // int() of a string
    toFloat: string -> Option<real>,    // float() of a string
    isDigit: char -> bool,              // str.isdigit, one character
    isDecimal: char -> bool,            // \d of the regular expressions, one character
    uuid: string -> Option<nat>,        // the uuid cast of the warehouse
    uuid5: string -> string,            // uuid5 in the dead-letter namespace
    jsonb: string -> bool)              // does the warehouse accept the text as jsonb

  function Str(env: Env, j: Json): string {
    match j
    case JStr(s) => s
    case _ => env.str(j)
  }

  function ParseTime(env: Env, j: Json): Option<Stamp> {
    match env.iso(Str(env, j))
    case Some(t) => Some(Aware(t))
    case None => None
  }

  function Truncate(r: real): int {
    if r >= 0.0 then r.Floor else -(-r).Floor
  }

  /** The fraction is dropped: the integer nearest to the real between it and zero. */
  lemma TruncateIff(n: int, r: real)
    ensures n == Truncate(r) <==>
      if r >= 0.0 then 0 <= n && n as real <= r < n as real + 1.0 else n <= 0 && n as real - 1.0 < r <= n as real
  {
    var x := if r >= 0.0 then r else -r;
    assert x.Floor as real <= x < x.Floor as real + 1.0;
  }

  /** int() of a decoded value; None is the exception. */
  function ToInt(env: Env, j: Json): Option<int> {
    match j
    case JInt(i) => Some(i)
    case JFloat(r) => Some(Truncate(r))
    case JBool(b) => Some(if b then 1 else 0)
    case JStr(s) => env.toInt(s)
    case _ => None
  }

  function Power2(n: nat): (p: int)
    ensures p >= n + 1
  {
    if n == 0 then 1 else 2 * Power2(n - 1)
  }

  /** float() of an integer raises from 2^1024 - 2^970 on, where rounding leaves the
      doubles. */
  predicate FitsDouble(i: int) {
    var limit := Power2(1024) - Power2(970);
    -limit < i < limit
  }

  lemma {:induction false} Power2Rises(m: nat, n: nat)
    requires m < n
    ensures Power2(n) - Power2(m) >= Power2(m)
    decreases n
  {
    if m + 1 < n {
      Power2Rises(m, n - 1);
    }
  }

  lemma {:induction false} Power2Squares(n: nat)
    requires n >= 4
    ensures Power2(n) >= n * n
  {
    if n == 4 {
      assert Power2(4) == 2 * Power2(3) == 4 * Power2(2) == 8 * Power2(1) == 16 * Power2(0);
    } else {
      Power2Squares(n - 1);
      assert n * n == (n - 1) * (n - 1) + 2 * n - 1 && (n - 1) * (n - 1) >= 2 * n - 1;
    }
  }

  lemma SmallFitsDouble(i: int)
    requires -100_000 <= i <= 100_000
    ensures FitsDouble(i)
  {
    hide Power2;
    Power2Rises(970, 1024);
    Power2Squares(970);
  }

  /** float() of a decoded value; None is the exception. */
  function ToFloat(env: Env, j: Json): Option<real> {
    match j
    case JInt(i) => if FitsDouble(i) then Some(i as real) else None
    case JFloat(r) => Some(r)
    case JBool(b) => Some(if b then 1.0 else 0.0)
    case JStr(s) => env.toFloat(s)
    case _ => None
  }

  /** Booleans convert as the integers 0 and 1, and integers convert to equal floats. */
  lemma ConversionsAgree(env: Env, b: bool, i: int)
    ensures ToInt(env, JBool(b)) == ToInt(env, JInt(if b then 1 else 0))
    ensures ToFloat(env, JBool(b)) == ToFloat(env, JInt(if b then 1 else 0))
    ensures ToFloat(env, JInt(i)).Some? ==> ToFloat(env, JInt(i)) == ToFloat(env, JFloat(i as real))
  {
    hide FitsDouble;
    SmallFitsDouble(if b then 1 else 0);
  }

  /** All of the f-images of the elements, in order. */
  function Collect<T, U>(xs: seq<T>, f: T -> seq<U>): seq<U> {
    if xs == [] then [] else Collect(xs[..|xs| - 1], f) + f(xs[|xs| - 1])
  }

  lemma {:induction false} CollectAppend<T, U>(a: seq<T>, b: seq<T>, f: T -> seq<U>)
    ensures Collect(a + b, f) == Collect(a, f) + Collect(b, f)
  {
    if b == [] {
      assert a + b == a;
    } else {
      var n := |b| - 1;
      CollectAppend(a, b[..n], f);
      assert (a + b)[..|a + b| - 1] == a + b[..n];
      var x, y, z := Collect(a, f), Collect(b[..n], f), f(b[n]);
      assert x + (y + z) == x + y + z;
    }
  }

  lemma {:induction false} CollectSource<T, U>(xs: seq<T>, f: T -> seq<U>, u: U)
    ensures u in Collect(xs, f) <==> exists i :: 0 <= i < |xs| && u in f(xs[i])
  {
    if xs != [] {
      CollectSource(xs[..|xs| - 1], f, u);
    }
  }

  lemma {:induction false} CollectSame<T, U>(xs: seq<T>, f: T -> seq<U>, g: T -> seq<U>)
    requires forall x :: x in xs ==> f(x) == g(x)
    ensures Collect(xs, f) == Collect(xs, g)
  {
    if xs != [] {
      CollectSame(xs[..|xs| - 1], f, g);
      assert xs[|xs| - 1] in xs;
    }
  }
}
