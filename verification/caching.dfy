/** The process-wide memo cache behind the `cached_function` and
    `async_cached_function` decorators, as one sequential table.

    An entry is keyed by `name + ":" + digest`, where the digest covers the
    JSON text of the positional arguments and of the keyword arguments sorted
    by name. Entries expire lazily: only a lookup that finds an entry older
    than its time-to-live removes it. Both decorators share this model; the
    lock and the async/sync distinction are not modelled. */
module Caching {
  import opened Results
  import Text

  /** A Python argument value as the cache sees it. `Uuid` is a `uuid.UUID`
      (compared by identity of type: it never equals its own text), `Record`
      is a pydantic model whose `.dict()` gives its fields. */
  datatype Value =
    | Null
    | Bool(b: bool)
    | Int(i: int)
    | Str(s: string)
    | Uuid(text: string)
    | List(items: seq<Value>)
    | Record(fields: map<string, Value>)

  /** A JSON document as produced by `json.dumps(..., sort_keys=True)`:
      objects carry no member order, since the text lists them sorted. */
  datatype Json =
    | JNull
    | JBool(b: bool)
    | JInt(i: int)
    | JStr(s: string)
    | JArray(items: seq<Json>)
    | JObject(members: map<string, Json>)

  /** Keyword arguments in call order: a Python `**kwargs` dict's items. */
  type Kwargs = seq<(string, Value)>

  /** The document `[args, sorted(kwargs.items())]` whose digest forms the key. */
  datatype CallForm = CallForm(args: seq<Json>, kwargs: seq<(string, Json)>)

  /** `json.dumps` followed by SHA-256 and `hexdigest()`, as one function. */
  type Digest = CallForm -> string

  /** A stored result with the metadata `_cache_result` records. */
  datatype Entry<R> = Entry(
    result: R,
    funcName: string,
    args: seq<Value>,
    kwargs: map<string, Value>,
    cachedAt: int,
    ttl: Option<int>)

  type Table<R> = map<string, Entry<R>>

  // ---------------------------------------------------------------------------
  // Key derivation
  // ---------------------------------------------------------------------------

  /** Whether `json.dumps` accepts `v`; with `modelsAsDicts` the value has been
      through pydantic's `.dict()`, which turns nested models into dicts but
      leaves UUIDs as they are. */
  predicate Encodable(v: Value, modelsAsDicts: bool) {
    match v
    case Null => true
    case Bool(_) => true
    case Int(_) => true
    case Str(_) => true
    case Uuid(_) => false
    case List(items) => forall i :: 0 <= i < |items| ==> Encodable(items[i], modelsAsDicts)
    case Record(fields) => modelsAsDicts && forall k :: k in fields ==> Encodable(fields[k], true)
  }

  function Encode(v: Value, modelsAsDicts: bool): Json
    requires Encodable(v, modelsAsDicts)
  {
    match v
    case Null => JNull
    case Bool(b) => JBool(b)
    case Int(i) => JInt(i)
    case Str(s) => JStr(s)
    case List(items) =>
      JArray(seq(|items|, i requires 0 <= i < |items| => Encode(items[i], modelsAsDicts)))
    case Record(fields) => JObject(map k | k in fields :: Encode(fields[k], true))
  }

  /** The decorator's `serialize` applied to one top-level argument, then
      checked for JSON-encodability; `None` is the `TypeError` of `json.dumps`.
      Only the top level is special-cased: a UUID nested in a list is not. */
  function SerializeArg(v: Value): (j: Option<Json>)
    ensures v.Uuid? ==> j == Some(JStr(v.text))
    ensures v.Str? ==> j == Some(JStr(v.s))
  {
    match v
    case Uuid(t) => Some(JStr(t))
    case Record(_) => if Encodable(v, true) then Some(Encode(v, true)) else None
    case _ => if Encodable(v, false) then Some(Encode(v, false)) else None
  }

  function SerializeArgs(args: seq<Value>): (r: Option<seq<Json>>)
    ensures r.Some? <==> forall i :: 0 <= i < |args| ==> SerializeArg(args[i]).Some?
    ensures r.Some? ==> (|r.value| == |args| &&
      forall i :: 0 <= i < |args| ==> r.value[i] == SerializeArg(args[i]).value)
  {
    if |args| == 0 then Some([])
    else
      match (SerializeArg(args[0]), SerializeArgs(args[1..]))
      case (Some(j), Some(rest)) => Some([j] + rest)
      case _ => None
  }

  function SerializeKwargs(kwargs: Kwargs): (r: Option<seq<(string, Json)>>)
    ensures r.Some? <==> forall i :: 0 <= i < |kwargs| ==> SerializeArg(kwargs[i].1).Some?
    ensures r.Some? ==> (|r.value| == |kwargs| &&
      forall i :: 0 <= i < |kwargs| ==>
        r.value[i] == (kwargs[i].0, SerializeArg(kwargs[i].1).value))
  {
    if |kwargs| == 0 then Some([])
    else
      match (SerializeArg(kwargs[0].1), SerializeKwargs(kwargs[1..]))
      case (Some(j), Some(rest)) => Some([(kwargs[0].0, j)] + rest)
      case _ => None
  }

  /** Keyword names are distinct, as in any Python dict. */
  predicate UniqueNames(kwargs: Kwargs) {
    forall i, j :: 0 <= i < j < |kwargs| ==> kwargs[i].0 != kwargs[j].0
  }

  /** Ordered strictly by name, as `sorted(kwargs.items())` orders distinct names. */
  predicate NameSorted(s: Kwargs) {
    forall i, j :: 0 <= i < j < |s| ==> Text.Below(s[i].0, s[j].0)
  }

  /** Insert `x` at its place by name into a name-sorted sequence. */
  function Insert(x: (string, Value), s: Kwargs): (r: Kwargs)
    requires NameSorted(s)
    requires forall k :: 0 <= k < |s| ==> s[k].0 != x.0
    ensures NameSorted(r)
    ensures |r| == |s| + 1
    ensures forall p :: p in r <==> p in s || p == x
  {
    if |s| == 0 then [x]
    else if Text.Below(s[0].0, x.0) then
      var tail := Insert(x, s[1..]);
      assert s == [s[0]] + s[1..];
      forall k | 0 <= k < |tail|
        ensures Text.Below(s[0].0, tail[k].0)
      {
        assert tail[k] in tail;
        if tail[k] != x {
          var i :| 0 <= i < |s[1..]| && s[1..][i] == tail[k];
          assert s[i + 1] == tail[k];
        }
      }
      [s[0]] + tail
    else
      Text.BelowTotal(x.0, s[0].0);
      forall k | 0 <= k < |s|
        ensures Text.Below(x.0, s[k].0)
      {
        if k > 0 {
          Text.BelowTransitive(x.0, s[0].0, s[k].0);
        }
      }
      [x] + s
  }

  /** Sort by name (insertion sort). */
  function SortByName(s: Kwargs): (r: Kwargs)
    requires UniqueNames(s)
    ensures NameSorted(r)
    ensures |r| == |s|
    ensures forall p :: p in r <==> p in s
  {
    if |s| == 0 then []
    else
      var rest := SortByName(s[1..]);
      assert forall k :: 0 <= k < |rest| ==> rest[k].0 != s[0].0 by {
        forall k | 0 <= k < |rest|
          ensures rest[k].0 != s[0].0
        {
          assert rest[k] in s[1..];
        }
      }
      assert s == [s[0]] + s[1..];
      Insert(s[0], rest)
  }

  /** Two name-sorted sequences with the same elements are the same sequence. */
  lemma {:induction false} SortedUnique(a: Kwargs, b: Kwargs)
    requires NameSorted(a) && NameSorted(b)
    requires |a| == |b|
    requires forall p :: p in a <==> p in b
    ensures a == b
    decreases |a|
  {
    if |a| == 0 {
    } else {
      assert a[0] in b;
      assert |b| > 0;
      var k :| 0 <= k < |b| && b[k] == a[0];
      assert b[0] in a;
      var j :| 0 <= j < |a| && a[j] == b[0];
      if k > 0 && j > 0 {
        Text.BelowAsymmetric(a[0].0, b[0].0);
      }
      assert a[0] == b[0];
      forall p
        ensures p in a[1..] <==> p in b[1..]
      {
        if p in a[1..] {
          var i :| 1 <= i < |a| && a[i] == p;
          Text.BelowIrreflexive(a[0].0);
          assert p in b && p != b[0];
        }
        if p in b[1..] {
          var i :| 1 <= i < |b| && b[i] == p;
          Text.BelowIrreflexive(b[0].0);
          assert p in a && p != a[0];
        }
      }
      SortedUnique(a[1..], b[1..]);
      assert a == [a[0]] + a[1..] && b == [b[0]] + b[1..];
    }
  }

  /** The document hashed for a call, or `None` when `json.dumps` raises.
      Sorting before or after serialising gives the same sequence, since
      serialising keeps names and the names are distinct. */
  function CallFormOf(args: seq<Value>, kwargs: Kwargs): Option<CallForm>
    requires UniqueNames(kwargs)
  {
    match (SerializeArgs(args), SerializeKwargs(SortByName(kwargs)))
    case (Some(a), Some(k)) => Some(CallForm(a, k))
    case _ => None
  }

  /** `_generate_cache_key`: `None` stands for the `TypeError` raised when an
      argument is not JSON-encodable. */
  function CacheKey(digest: Digest, name: string, args: seq<Value>, kwargs: Kwargs): (k: Option<string>)
    requires UniqueNames(kwargs)
    ensures k.Some? <==> CallFormOf(args, kwargs).Some?
    ensures k.Some? ==> |k.value| > |name| && k.value[..|name|] == name && k.value[|name|] == ':'
  {
    match CallFormOf(args, kwargs)
    case Some(form) => Some(name + ":" + digest(form))
    case None => None
  }

  /** Two calls whose keyword arguments differ only in order get the same key. */
  lemma KeyIgnoresKeywordOrder(digest: Digest, name: string, args: seq<Value>, kw1: Kwargs, kw2: Kwargs)
    requires UniqueNames(kw1) && UniqueNames(kw2)
    requires multiset(kw1) == multiset(kw2)
    ensures CacheKey(digest, name, args, kw1) == CacheKey(digest, name, args, kw2)
  {
    var s1 := SortByName(kw1);
    var s2 := SortByName(kw2);
    assert forall p :: p in s1 <==> p in s2 by {
      forall p
        ensures p in s1 <==> p in s2
      {
        assert p in kw1 <==> p in multiset(kw1);
        assert p in kw2 <==> p in multiset(kw2);
      }
    }
    SortedUnique(s1, s2);
  }

  /** SHA-256 hex digests use only the characters `0-9a-f`. */
  ghost predicate HexValued(digest: Digest) {
    forall form, i :: 0 <= i < |digest(form)| ==> HexChar(digest(form)[i])
  }

  predicate HexChar(c: char) {
    '0' <= c <= '9' || 'a' <= c <= 'f'
  }

  /** The digest is treated as collision-free: distinct documents, distinct digests. */
  ghost predicate CollisionFree(digest: Digest) {
    forall f1, f2 :: digest(f1) == digest(f2) ==> f1 == f2
  }

  /** Position of the last `c` in `s`, or -1. */
  function LastIndex(s: string, c: char): (i: int)
    ensures -1 <= i < |s|
    ensures i >= 0 ==> s[i] == c && forall j :: i < j < |s| ==> s[j] != c
    ensures i == -1 ==> forall j :: 0 <= j < |s| ==> s[j] != c
    decreases |s|
  {
    if |s| == 0 then -1
    else if s[|s| - 1] == c then |s| - 1
    else LastIndex(s[..|s| - 1], c)
  }

  lemma {:induction false} LastColonSeparates(name: string, hex: string)
    requires forall i :: 0 <= i < |hex| ==> HexChar(hex[i])
    ensures LastIndex(name + ":" + hex, ':') == |name|
    decreases |hex|
  {
    var key := name + ":" + hex;
    if |hex| > 0 {
      assert key[|key| - 1] == hex[|hex| - 1];
      assert key[..|key| - 1] == name + ":" + hex[..|hex| - 1];
      LastColonSeparates(name, hex[..|hex| - 1]);
    }
  }

  /** The `name:` prefix keeps the keys of different functions apart: a key
      determines the function name it was made for. */
  lemma KeysSeparateFunctions(digest: Digest, n1: string, a1: seq<Value>, k1: Kwargs,
                              n2: string, a2: seq<Value>, k2: Kwargs)
    requires HexValued(digest)
    requires UniqueNames(k1) && UniqueNames(k2)
    requires CacheKey(digest, n1, a1, k1).Some?
    requires CacheKey(digest, n1, a1, k1) == CacheKey(digest, n2, a2, k2)
    ensures n1 == n2
  {
    var key := CacheKey(digest, n1, a1, k1).value;
    var h1 := digest(CallFormOf(a1, k1).value);
    var h2 := digest(CallFormOf(a2, k2).value);
    LastColonSeparates(n1, h1);
    LastColonSeparates(n2, h2);
    assert key == n1 + ":" + h1 == n2 + ":" + h2;
    assert n1 == key[..|n1|] && n2 == key[..|n2|];
  }

  /** With a collision-free digest, equal keys mean equal calls: the same
      function name and the same serialised arguments. */
  lemma KeyDeterminesCall(digest: Digest, n1: string, a1: seq<Value>, k1: Kwargs,
                          n2: string, a2: seq<Value>, k2: Kwargs)
    requires HexValued(digest) && CollisionFree(digest)
    requires UniqueNames(k1) && UniqueNames(k2)
    requires CacheKey(digest, n1, a1, k1).Some?
    requires CacheKey(digest, n1, a1, k1) == CacheKey(digest, n2, a2, k2)
    ensures n1 == n2
    ensures CallFormOf(a1, k1) == CallFormOf(a2, k2)
  {
    KeysSeparateFunctions(digest, n1, a1, k1, n2, a2, k2);
    var key := CacheKey(digest, n1, a1, k1).value;
    var f1 := CallFormOf(a1, k1).value;
    var f2 := CallFormOf(a2, k2).value;
    assert key == n1 + ":" + digest(f1) == n1 + ":" + digest(f2);
    assert digest(f1) == key[|n1| + 1..] == digest(f2);
  }

  // ---------------------------------------------------------------------------
  // Lookup and store
  // ---------------------------------------------------------------------------

  /** An entry with a time-to-live is stale once strictly more than `ttl`
      time units have passed since it was stored. */
  predicate Expired<R>(e: Entry<R>, now: int) {
    e.ttl.Some? && now - e.cachedAt > e.ttl.value
  }

  /** What `_get_cached_data` returns, with the table it leaves behind. */
  datatype Lookup<R> = Lookup(hit: Option<Entry<R>>, table: Table<R>)

  /** `_get_cached_data`: a present, fresh entry is a hit; a stale one is
      deleted and reported missing. */
  function Get<R>(t: Table<R>, key: string, now: int): (r: Lookup<R>)
    ensures r.hit.Some? <==> key in t && !Expired(t[key], now)
    ensures r.hit.Some? ==> r.hit.value == t[key] && r.table == t
    ensures r.hit.None? ==> r.table == t - {key}
  {
    if key !in t then Lookup(None, t)
    else if Expired(t[key], now) then Lookup(None, t - {key})
    else Lookup(Some(t[key]), t)
  }

  /** An entry stored without a time-to-live is a hit at any later time. */
  lemma NoTtlNeverExpires<R>(t: Table<R>, key: string, now: int)
    requires key in t && t[key].ttl.None?
    ensures Get(t, key, now).hit == Some(t[key])
  {
  }

  /** The expiry boundary is strict: at exactly `ttl` units the entry is still
      a hit, one unit later it is gone. */
  lemma TtlBoundary<R>(t: Table<R>, key: string)
    requires key in t && t[key].ttl.Some?
    ensures Get(t, key, t[key].cachedAt + t[key].ttl.value).hit.Some?
    ensures var late := Get(t, key, t[key].cachedAt + t[key].ttl.value + 1);
      late.hit.None? && key !in late.table
  {
  }

  /** `_cache_result`: store or overwrite the entry under `key`. */
  function Store<R>(t: Table<R>, key: string, result: R, name: string, args: seq<Value>,
                    kwargs: Kwargs, ttl: Option<int>, now: int): (t': Table<R>)
    requires UniqueNames(kwargs)
    ensures t'.Keys == t.Keys + {key}
    ensures t'[key].result == result && t'[key].funcName == name && t'[key].cachedAt == now
    ensures t'[key].args == args && t'[key].kwargs == KwargMap(kwargs) && t'[key].ttl == ttl
    ensures forall k :: k in t && k != key ==> t'[k] == t[k]
  {
    t[key := Entry(result, name, args, KwargMap(kwargs), now, ttl)]
  }

  /** The keyword arguments as the dict they came from. */
  function KwargMap(kwargs: Kwargs): (m: map<string, Value>)
    requires UniqueNames(kwargs)
    ensures forall i :: 0 <= i < |kwargs| ==> kwargs[i].0 in m && m[kwargs[i].0] == kwargs[i].1
    ensures forall n :: n in m ==> exists i :: 0 <= i < |kwargs| && kwargs[i].0 == n
  {
    if |kwargs| == 0 then map[]
    else
      var rest := KwargMap(kwargs[1..]);
      assert kwargs[0].0 !in rest;
      rest[kwargs[0].0 := kwargs[0].1]
  }

  // ---------------------------------------------------------------------------
  // The decorator
  // ---------------------------------------------------------------------------

  /** The outcome of one decorated call: what it returned or raised, the table
      afterwards, and whether the wrapped function was invoked. */
  datatype Call<R> = Call(result: Result<R>, table: Table<R>, computed: bool)

  const KeyTypeError := "Object is not JSON serializable"

  /** One call through `cached_function(ttl)` / `async_cached_function(ttl)`:
      derive the key, return a fresh hit without calling `func`, otherwise call
      `func` once and store what it returns (a successful result is stored
      whatever it is, since the entry record itself is never falsy). `now` is
      the clock at lookup, `storedAt` the clock read again when storing. */
  function CachedCall<R>(t: Table<R>, digest: Digest, name: string, args: seq<Value>, kwargs: Kwargs,
                         ttl: Option<int>, func: (seq<Value>, Kwargs) -> Result<R>,
                         now: int, storedAt: int): (c: Call<R>)
    requires UniqueNames(kwargs)
    ensures CacheKey(digest, name, args, kwargs).None? ==> c == Call(Err(KeyTypeError), t, false)
    ensures CacheKey(digest, name, args, kwargs).Some? ==>
      var key := CacheKey(digest, name, args, kwargs).value;
      && (!c.computed <==> key in t && !Expired(t[key], now))
      && (!c.computed ==> c.result == Ok(t[key].result) && c.table == t)
      && (c.computed ==> c.result == func(args, kwargs))
      && (c.computed && c.result.Err? ==> c.table == t - {key})
      && (c.computed && c.result.Ok? ==>
            key in c.table && c.table[key].result == c.result.value && c.table[key].cachedAt == storedAt
            && c.table[key].ttl == ttl && c.table[key].funcName == name
            && c.table[key].args == args && c.table[key].kwargs == KwargMap(kwargs)
            && forall k :: k != key ==> (k in c.table <==> k in t) && (k in t ==> c.table[k] == t[k]))
  {
    match CacheKey(digest, name, args, kwargs)
    case None => Call(Err(KeyTypeError), t, false)
    case Some(key) =>
      var found := Get(t, key, now);
      if found.hit.Some? then Call(Ok(found.hit.value.result), found.table, false)
      else
        match func(args, kwargs)
        case Err(e) => Call(Err(e), found.table, true)
        case Ok(v) => Call(Ok(v), Store(found.table, key, v, name, args, kwargs, ttl, storedAt), true)
  }

  /** Memoisation round trip: once a call without a time-to-live has stored a
      result, a later call with the same arguments, even with its keyword
      arguments in another order, returns that result without invoking
      the wrapped function, whatever that function would now return. */
  lemma SecondCallHits<R>(t: Table<R>, digest: Digest, name: string, args: seq<Value>,
                          kw1: Kwargs, kw2: Kwargs, func: (seq<Value>, Kwargs) -> Result<R>,
                          func2: (seq<Value>, Kwargs) -> Result<R>,
                          now: int, storedAt: int, later: int, storedLater: int)
    requires UniqueNames(kw1) && UniqueNames(kw2) && multiset(kw1) == multiset(kw2)
    requires CachedCall(t, digest, name, args, kw1, None, func, now, storedAt).computed
    requires CachedCall(t, digest, name, args, kw1, None, func, now, storedAt).result.Ok?
    ensures var first := CachedCall(t, digest, name, args, kw1, None, func, now, storedAt);
      var second := CachedCall(first.table, digest, name, args, kw2, None, func2, later, storedLater);
      && !second.computed
      && second.result == first.result
      && second.table == first.table
  {
    KeyIgnoresKeywordOrder(digest, name, args, kw1, kw2);
  }

  /** A call whose wrapped function raises leaves no entry for its key, so the
      next call with the same arguments invokes the function again. */
  lemma FailureIsNotCached<R>(t: Table<R>, digest: Digest, name: string, args: seq<Value>,
                              kwargs: Kwargs, ttl: Option<int>, func: (seq<Value>, Kwargs) -> Result<R>,
                              func2: (seq<Value>, Kwargs) -> Result<R>,
                              now: int, storedAt: int, later: int, storedLater: int)
    requires UniqueNames(kwargs)
    requires CacheKey(digest, name, args, kwargs).Some?
    requires CachedCall(t, digest, name, args, kwargs, ttl, func, now, storedAt).result.Err?
    ensures var first := CachedCall(t, digest, name, args, kwargs, ttl, func, now, storedAt);
      var second := CachedCall(first.table, digest, name, args, kwargs, ttl, func2, later, storedLater);
      second.computed && second.result == func2(args, kwargs)
  {
  }

  /** If every stored result of `name` satisfies `P` and the wrapped function
      only ever succeeds with results satisfying `P`, then a call returns only
      such results and keeps the property for the whole table. */
  lemma CachedResultsKeepInvariant<R>(t: Table<R>, digest: Digest, name: string, args: seq<Value>,
                                      kwargs: Kwargs, ttl: Option<int>,
                                      func: (seq<Value>, Kwargs) -> Result<R>, P: R -> bool,
                                      now: int, storedAt: int)
    requires UniqueNames(kwargs)
    requires HexValued(digest)
    requires forall k :: k in t && t[k].funcName == name ==> P(t[k].result)
    requires func(args, kwargs).Ok? ==> P(func(args, kwargs).value)
    requires WellKeyed(t)
    ensures var c := CachedCall(t, digest, name, args, kwargs, ttl, func, now, storedAt);
      && (c.result.Ok? ==> P(c.result.value))
      && (forall k :: k in c.table && c.table[k].funcName == name ==> P(c.table[k].result))
  {
    var c := CachedCall(t, digest, name, args, kwargs, ttl, func, now, storedAt);
    if CacheKey(digest, name, args, kwargs).Some? && !c.computed {
      var key := CacheKey(digest, name, args, kwargs).value;
      LastColonSeparates(name, digest(CallFormOf(args, kwargs).value));
      assert t[key].funcName == name;
    }
  }

  // ---------------------------------------------------------------------------
  // Invalidation and statistics
  // ---------------------------------------------------------------------------

  /** Python's `==` on argument values: `True == 1` and `False == 0`, a UUID
      never equals a string, lists and models compare member-wise. */
  predicate PyEq(a: Value, b: Value)
    decreases a
  {
    match (a, b)
    case (Bool(x), Int(n)) => n == (if x then 1 else 0)
    case (Int(n), Bool(x)) => n == (if x then 1 else 0)
    case (List(xs), List(ys)) => |xs| == |ys| && forall i :: 0 <= i < |xs| ==> PyEq(xs[i], ys[i])
    case (Record(f), Record(g)) => f.Keys == g.Keys && forall k :: k in f ==> PyEq(f[k], g[k])
    case _ => a == b
  }

  /** Whether `invalidate_cache_by_parameter(funcName, paramName, value)`
      drops entry `e`: only entries of `funcName`; a digit-string name selects
      a positional argument (when there are that many), any other name a
      keyword argument. */
  predicate ParamMatches<R>(e: Entry<R>, funcName: string, paramName: string, value: Value) {
    && e.funcName == funcName
    && if Text.IsDigits(paramName) then
         var pos := Text.DigitsValue(paramName);
         pos < |e.args| && PyEq(e.args[pos], value)
       else
         paramName in e.kwargs && PyEq(e.kwargs[paramName], value)
  }

  /** The table without the entries of function `f`. */
  function WithoutFunction<R>(t: Table<R>, f: string): (t': Table<R>)
    ensures forall k :: k in t' <==> k in t && t[k].funcName != f
    ensures forall k :: k in t' ==> t'[k] == t[k]
  {
    map k | k in t && t[k].funcName != f :: t[k]
  }

  /** The table without the entries a parameter invalidation selects. */
  function WithoutMatching<R>(t: Table<R>, funcName: string, paramName: string, value: Value): (t': Table<R>)
    ensures forall k :: k in t' <==> k in t && !ParamMatches(t[k], funcName, paramName, value)
    ensures forall k :: k in t' ==> t'[k] == t[k]
  {
    map k | k in t && !ParamMatches(t[k], funcName, paramName, value) :: t[k]
  }

  /** `invalidate_cache_by_function`: collect the keys of `f`'s entries, then
      delete them. Exactly those entries go; every other entry stays as it was. */
  method InvalidateByFunction<R>(t: Table<R>, f: string) returns (t': Table<R>)
    ensures forall k :: k in t' <==> k in t && t[k].funcName != f
    ensures forall k :: k in t' ==> t'[k] == t[k]
    ensures t' == WithoutFunction(t, f)
  {
    var toRemove: set<string> := {};
    var pending := t.Keys;
    while pending != {}
      invariant pending <= t.Keys
      invariant forall k :: k in toRemove <==> k in t && k !in pending && t[k].funcName == f
      decreases pending
    {
      var k :| k in pending;
      if t[k].funcName == f {
        toRemove := toRemove + {k};
      }
      pending := pending - {k};
    }
    t' := t - toRemove;
  }

  /** `invalidate_cache_by_parameter`: the same two-phase removal, selecting
      by `ParamMatches`. Entries of other functions are never touched. */
  method InvalidateByParameter<R>(t: Table<R>, funcName: string, paramName: string, value: Value)
    returns (t': Table<R>)
    ensures forall k :: k in t && t[k].funcName != funcName ==> k in t' && t'[k] == t[k]
    ensures forall k :: k in t' ==> k in t && t'[k] == t[k]
    ensures forall k :: k in t ==> (k !in t' <==> ParamMatches(t[k], funcName, paramName, value))
    ensures t' == WithoutMatching(t, funcName, paramName, value)
  {
    var toRemove: set<string> := {};
    var pending := t.Keys;
    while pending != {}
      invariant pending <= t.Keys
      invariant forall k :: k in toRemove <==> k in t && k !in pending && ParamMatches(t[k], funcName, paramName, value)
      decreases pending
    {
      var k :| k in pending;
      var e := t[k];
      if e.funcName == funcName {
        if Text.IsDigits(paramName) {
          var pos := Text.DigitsValue(paramName);
          if pos < |e.args| && PyEq(e.args[pos], value) {
            toRemove := toRemove + {k};
          }
        } else if paramName in e.kwargs && PyEq(e.kwargs[paramName], value) {
          toRemove := toRemove + {k};
        }
      }
      pending := pending - {k};
    }
    t' := t - toRemove;
  }

  /** A decorated call records its positional arguments: after a computed
      success, invalidating `name` by position `p` with a value equal to the
      argument at `p` drops the stored entry, and the next identical call
      invokes the wrapped function again. */
  lemma PositionalInvalidationForcesRecompute<R>(t: Table<R>, digest: Digest, name: string, args: seq<Value>,
                                                kwargs: Kwargs, ttl: Option<int>,
                                                func: (seq<Value>, Kwargs) -> Result<R>, now: int,
                                                storedAt: int, p: string, x: Value, later: int,
                                                storedLater: int)
    requires UniqueNames(kwargs)
    requires var c := CachedCall(t, digest, name, args, kwargs, ttl, func, now, storedAt);
      c.computed && c.result.Ok?
    requires Text.IsDigits(p) && Text.DigitsValue(p) < |args| && PyEq(args[Text.DigitsValue(p)], x)
    ensures var c := CachedCall(t, digest, name, args, kwargs, ttl, func, now, storedAt);
      var t' := WithoutMatching(c.table, name, p, x);
      var key := CacheKey(digest, name, args, kwargs).value;
      && key !in t'
      && var next := CachedCall(t', digest, name, args, kwargs, ttl, func, later, storedLater);
         next.computed && next.result == func(args, kwargs)
  {
  }

  /** The same for a keyword argument: invalidating `name` by a keyword the
      call passed, with a value equal to it, forces the next call to recompute. */
  lemma KeywordInvalidationForcesRecompute<R>(t: Table<R>, digest: Digest, name: string, args: seq<Value>,
                                             kwargs: Kwargs, ttl: Option<int>,
                                             func: (seq<Value>, Kwargs) -> Result<R>, now: int,
                                             storedAt: int, i: nat, x: Value, later: int,
                                             storedLater: int)
    requires UniqueNames(kwargs)
    requires var c := CachedCall(t, digest, name, args, kwargs, ttl, func, now, storedAt);
      c.computed && c.result.Ok?
    requires i < |kwargs| && !Text.IsDigits(kwargs[i].0) && PyEq(kwargs[i].1, x)
    ensures var c := CachedCall(t, digest, name, args, kwargs, ttl, func, now, storedAt);
      var t' := WithoutMatching(c.table, name, kwargs[i].0, x);
      var key := CacheKey(digest, name, args, kwargs).value;
      && key !in t'
      && var next := CachedCall(t', digest, name, args, kwargs, ttl, func, later, storedLater);
         next.computed && next.result == func(args, kwargs)
  {
  }

  /** A positional invalidation never consults keyword arguments: two entries
      that differ only in their keyword arguments are dropped alike. */
  lemma PositionalIgnoresKeywords<R>(e: Entry<R>, kwargs: map<string, Value>, funcName: string,
                                     paramName: string, value: Value)
    requires Text.IsDigits(paramName)
    ensures ParamMatches(e, funcName, paramName, value) == ParamMatches(e.(kwargs := kwargs), funcName, paramName, value)
  {
  }

  /** Invalidating by parameter never removes more than invalidating the whole
      function would. */
  lemma ParameterWithinFunction<R>(t: Table<R>, funcName: string, paramName: string, value: Value)
    ensures forall k :: k in WithoutFunction(t, funcName) ==> k in WithoutMatching(t, funcName, paramName, value)
  {
  }

  /** `clear_all_cache`. */
  function ClearAll<R>(t: Table<R>): (t': Table<R>)
    ensures |t'| == 0
  {
    map[]
  }

  /** What `get_cache_stats` reports (its function list carries no order). */
  datatype CacheStats = CacheStats(totalEntries: nat, functions: set<string>)

  function Stats<R>(t: Table<R>): (s: CacheStats)
    ensures s.totalEntries == |t|
    ensures forall f :: f in s.functions <==> exists k :: k in t && t[k].funcName == f
  {
    CacheStats(|t|, set k | k in t :: t[k].funcName)
  }

  /** After invalidating `f`, the statistics no longer list it, and the entry
      count drops by exactly the number of entries `f` had. */
  lemma {:induction false} StatsAfterInvalidate<R>(t: Table<R>, f: string)
    ensures f !in Stats(WithoutFunction(t, f)).functions
    ensures Stats(WithoutFunction(t, f)).totalEntries + |set k | k in t && t[k].funcName == f| == |t|
  {
    var t' := WithoutFunction(t, f);
    var gone := set k | k in t && t[k].funcName == f;
    assert t'.Keys == t.Keys - gone;
    assert t.Keys == t'.Keys + gone;
    assert t'.Keys !! gone;
  }

  /** Keys were made for the functions their entries record: everything before
      the last `:` of a key is its entry's function name. */
  ghost predicate WellKeyed<R>(t: Table<R>) {
    forall k :: k in t ==> LastIndex(k, ':') == |t[k].funcName| && k[..|t[k].funcName|] == t[k].funcName
  }

  /** Decorated calls keep the table well keyed. */
  lemma CallKeepsWellKeyed<R>(t: Table<R>, digest: Digest, name: string, args: seq<Value>, kwargs: Kwargs,
                              ttl: Option<int>, func: (seq<Value>, Kwargs) -> Result<R>,
                              now: int, storedAt: int)
    requires UniqueNames(kwargs) && HexValued(digest) && WellKeyed(t)
    ensures WellKeyed(CachedCall(t, digest, name, args, kwargs, ttl, func, now, storedAt).table)
  {
    if CacheKey(digest, name, args, kwargs).Some? {
      LastColonSeparates(name, digest(CallFormOf(args, kwargs).value));
    }
  }

  /** After `invalidate_cache_by_function(name)` the next call of `name`
      invokes the wrapped function again, whatever was cached before. */
  lemma InvalidateForcesRecompute<R>(t: Table<R>, digest: Digest, name: string, args: seq<Value>,
                                     kwargs: Kwargs, ttl: Option<int>,
                                     func: (seq<Value>, Kwargs) -> Result<R>, now: int, storedAt: int)
    requires UniqueNames(kwargs) && HexValued(digest) && WellKeyed(t)
    requires CacheKey(digest, name, args, kwargs).Some?
    ensures var c := CachedCall(WithoutFunction(t, name), digest, name, args, kwargs, ttl, func, now, storedAt);
      c.computed && c.result == func(args, kwargs)
  {
    var key := CacheKey(digest, name, args, kwargs).value;
    LastColonSeparates(name, digest(CallFormOf(args, kwargs).value));
    assert key[..|name|] == name;
    assert key in t ==> t[key].funcName == name;
  }
}
