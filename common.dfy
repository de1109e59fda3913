/**
 * Shared vocabulary of the backend: optional values, HTTP errors raised by
 * the services, the JavaScript values that request bodies and spreadsheet
 * cells carry, and small sequence utilities used by several services.
 */
module Common {

  datatype Option<+T> = None | Some(value: T)

  /** The error object built by `createHttpError(status, message, details)`. */
  datatype HttpError = HttpError(status: int, message: string, details: Option<seq<string>>)

  /** A service call either yields a value or throws an `HttpError`. */
  datatype Result<+T> = Ok(value: T) | Err(error: HttpError)

  function Fail400(message: string): (e: HttpError)
    ensures e.status == 400 && e.message == message && e.details == None
  {
    HttpError(400, message, None)
  }

  function Fail404(message: string): (e: HttpError)
    ensures e.status == 404 && e.message == message && e.details == None
  {
    HttpError(404, message, None)
  }

  /**
   * A JavaScript value as it arrives in a JSON body, a query string or a
   * spreadsheet row. JSON numbers are finite, so `Num` holds a real.
   */
  datatype JsValue = Undefined | Null | Bool(b: bool) | Num(n: real) | Str(s: string) | Obj

  /** JavaScript truthiness. */
  predicate Truthy(v: JsValue)
  {
    match v
    case Undefined => false
    case Null => false
    case Bool(b) => b
    case Num(n) => n != 0.0
    case Str(s) => s != ""
    case Obj => true
  }

  /** A query-string parameter: absent, or a string; truthy when non-empty. */
  predicate Present(q: Option<string>)
  {
    q.Some? && q.value != ""
  }

  /** `a ?? b`: `b` only when `a` is null or undefined. */
  function Coalesce(a: JsValue, b: JsValue): (r: JsValue)
    ensures (a.Undefined? || a.Null?) ==> r == b
    ensures !(a.Undefined? || a.Null?) ==> r == a
  {
    if a.Undefined? || a.Null? then b else a
  }

  /** The result of JavaScript's `Number(...)` conversion. */
  datatype Numeric = Finite(value: real) | NotANumber | Infinite(positive: bool)
  {
    /** `Number.isInteger` */
    predicate IsInteger() { Finite? && value.Floor as real == value }
    /** `Number.isFinite` */
    predicate IsFinite() { Finite? }
    /** truthiness of a number: neither 0 nor NaN */
    predicate IsTruthy() { (Finite? && value != 0.0) || Infinite? }
  }

  /** `xs.indexOf(x)`: the first index of `x`, or -1. */
  function IndexOf<T(==)>(xs: seq<T>, x: T): (i: int)
    ensures -1 <= i < |xs|
    ensures i == -1 <==> x !in xs
    ensures 0 <= i ==> xs[i] == x && forall j :: 0 <= j < i ==> xs[j] != x
  {
    if |xs| == 0 then -1
    else if xs[0] == x then 0
    else var k := IndexOf(xs[1..], x); if k == -1 then -1 else k + 1
  }

  /** A prefix one longer is the prefix and the next element. */
  lemma SnocSlice<T>(s: seq<T>, i: nat)
    requires i < |s|
    ensures s[..i + 1] == s[..i] + [s[i]]
  {
  }

  /** `xs.map(f)` where a failing `f` throws: every result, or the first error. */
  function MapAll<A, B>(xs: seq<A>, f: A -> Result<B>): (r: Result<seq<B>>)
    ensures r.Ok? <==> forall i :: 0 <= i < |xs| ==> f(xs[i]).Ok?
    ensures r.Ok? ==> |r.value| == |xs| && forall i :: 0 <= i < |xs| ==> f(xs[i]) == Ok(r.value[i])
  {
    if xs == [] then Ok([])
    else
      match f(xs[0])
      case Err(e) => Err(e)
      case Ok(y) =>
        match MapAll(xs[1..], f)
        case Err(e) => Err(e)
        case Ok(rest) => Ok([y] + rest)
  }

  /** The error of a failing map is the one of the first element that fails. */
  lemma {:induction false} MapAllFirstError<A, B>(xs: seq<A>, f: A -> Result<B>)
    requires MapAll(xs, f).Err?
    ensures exists i :: 0 <= i < |xs| && f(xs[i]) == Err(MapAll(xs, f).error) &&
                        forall j :: 0 <= j < i ==> f(xs[j]).Ok?
  {
    if f(xs[0]).Ok? {
      var rest := xs[1..];
      MapAllFirstError(rest, f);
      var i :| 0 <= i < |rest| && f(rest[i]) == Err(MapAll(rest, f).error) &&
        forall j :: 0 <= j < i ==> f(rest[j]).Ok?;
      assert f(xs[i + 1]) == Err(MapAll(xs, f).error);
      forall j | 0 <= j < i + 1
        ensures f(xs[j]).Ok?
      {
        if j > 0 {
          assert xs[j] == rest[j - 1];
        }
      }
    }
  }

  /**
   * The elements among the first `k` of `xs` whose flag in `keep` is set, in
   * the order of `xs`: what a series of `if (rule fails) errors.push(message)`
   * statements has collected after `k` rules.
   */
  function Selected<T>(xs: seq<T>, keep: seq<bool>, k: nat): (r: seq<T>)
    requires |xs| == |keep| && k <= |xs|
    ensures |r| <= k
  {
    if k == 0 then [] else Selected(xs, keep, k - 1) + (if keep[k - 1] then [xs[k - 1]] else [])
  }

  /** Nothing is collected exactly when none of the rules fails. */
  lemma {:induction false} SelectedEmpty<T>(xs: seq<T>, keep: seq<bool>, k: nat)
    requires |xs| == |keep| && k <= |xs|
    ensures Selected(xs, keep, k) == [] <==> forall i :: 0 <= i < k ==> !keep[i]
  {
    if k > 0 {
      SelectedEmpty(xs, keep, k - 1);
    }
  }

  predicate Distinct<T(==)>(xs: seq<T>)
  {
    forall i, j :: 0 <= i < j < |xs| ==> xs[i] != xs[j]
  }

  /** With distinct messages, a message is collected exactly when its rule fails. */
  lemma {:induction false} SelectedMembership<T>(xs: seq<T>, keep: seq<bool>, k: nat, i: nat)
    requires |xs| == |keep| && k <= |xs| && Distinct(xs) && i < k
    ensures xs[i] in Selected(xs, keep, k) <==> keep[i]
  {
    if i == k - 1 {
      SelectedSubset(xs, keep, k - 1);
    } else {
      SelectedMembership(xs, keep, k - 1, i);
    }
  }

  /** Only messages of the first `k` rules are collected. */
  lemma {:induction false} SelectedSubset<T>(xs: seq<T>, keep: seq<bool>, k: nat)
    requires |xs| == |keep| && k <= |xs|
    ensures forall x :: x in Selected(xs, keep, k) ==> exists i :: 0 <= i < k && xs[i] == x
  {
    if k > 0 {
      SelectedSubset(xs, keep, k - 1);
    }
  }

  /** Keys already taken by the elements of `s`. */
  function KeySet<T, K(==)>(s: seq<T>, key: T -> K): (ks: set<K>)
    ensures forall i :: 0 <= i < |s| ==> key(s[i]) in ks
    ensures forall k :: k in ks ==> exists i :: 0 <= i < |s| && key(s[i]) == k
  {
    if s == [] then {} else KeySet(s[..|s| - 1], key) + {key(s[|s| - 1])}
  }

  /** Two keys that tell the same elements of `s` apart take the same number of values on `s`. */
  lemma {:induction false} KeySetSameSize<T, J, K>(s: seq<T>, f: T -> J, g: T -> K)
    requires forall i, j :: 0 <= i < |s| && 0 <= j < |s| ==> (f(s[i]) == f(s[j]) <==> g(s[i]) == g(s[j]))
    ensures |KeySet(s, f)| == |KeySet(s, g)|
  {
    if s != [] {
      SameKeysOnPrefix(s, f, g);
      KeySetSameSize(s[..|s| - 1], f, g);
      SeenAlike(s, f, g);
      KeySetLast(s, f);
      KeySetLast(s, g);
    }
  }

  lemma SameKeysOnPrefix<T, J, K>(s: seq<T>, f: T -> J, g: T -> K)
    requires s != []
    requires forall i, j :: 0 <= i < |s| && 0 <= j < |s| ==> (f(s[i]) == f(s[j]) <==> g(s[i]) == g(s[j]))
    ensures var init := s[..|s| - 1];
      forall i, j :: 0 <= i < |init| && 0 <= j < |init| ==> (f(init[i]) == f(init[j]) <==> g(init[i]) == g(init[j]))
  {
  }

  /** The last element's key occurs earlier under `f` exactly when it does under `g`. */
  lemma SeenAlike<T, J, K>(s: seq<T>, f: T -> J, g: T -> K)
    requires s != []
    requires forall i, j :: 0 <= i < |s| && 0 <= j < |s| ==> (f(s[i]) == f(s[j]) <==> g(s[i]) == g(s[j]))
    ensures f(s[|s| - 1]) in KeySet(s[..|s| - 1], f) <==> g(s[|s| - 1]) in KeySet(s[..|s| - 1], g)
  {
    if f(s[|s| - 1]) in KeySet(s[..|s| - 1], f) {
      SeenVia(s, f, g);
    }
    if g(s[|s| - 1]) in KeySet(s[..|s| - 1], g) {
      SeenVia(s, g, f);
    }
  }

  lemma SeenVia<T, J, K>(s: seq<T>, f: T -> J, g: T -> K)
    requires s != []
    requires forall i, j :: 0 <= i < |s| && 0 <= j < |s| ==> (f(s[i]) == f(s[j]) <==> g(s[i]) == g(s[j]))
    requires f(s[|s| - 1]) in KeySet(s[..|s| - 1], f)
    ensures g(s[|s| - 1]) in KeySet(s[..|s| - 1], g)
  {
    var init := s[..|s| - 1];
    var j :| 0 <= j < |init| && f(init[j]) == f(s[|s| - 1]);
    assert init[j] == s[j];
    assert g(init[j]) in KeySet(init, g);
  }

  lemma KeySetLast<T, K>(s: seq<T>, f: T -> K)
    requires s != []
    ensures |KeySet(s, f)| == |KeySet(s[..|s| - 1], f)| + (if f(s[|s| - 1]) in KeySet(s[..|s| - 1], f) then 0 else 1)
  {
    CardAddOne(KeySet(s[..|s| - 1], f), f(s[|s| - 1]));
  }

  lemma CardAddOne<K>(a: set<K>, k: K)
    ensures |a + {k}| == |a| + (if k in a then 0 else 1)
  {
    if k in a {
      assert a + {k} == a;
    } else {
      assert (a + {k}) - {k} == a;
    }
  }

  /** The index of the first element of `s` whose key is `k`, or `|s|` when none has it. */
  function FirstIndexBy<T, K(==)>(s: seq<T>, key: T -> K, k: K): (i: nat)
    ensures i <= |s|
    ensures i < |s| ==> key(s[i]) == k
    ensures forall j :: 0 <= j < i ==> key(s[j]) != k
  {
    if s == [] then 0
    else if key(s[0]) == k then 0
    else 1 + FirstIndexBy(s[1..], key, k)
  }

  /** Appending an element moves the first index of a key only when no earlier element has it. */
  lemma FirstIndexBySnoc<T, K>(s: seq<T>, x: T, key: T -> K, k: K)
    ensures FirstIndexBy(s + [x], key, k) ==
      if FirstIndexBy(s, key, k) < |s| then FirstIndexBy(s, key, k)
      else if key(x) == k then |s| else |s| + 1
  {
    var r := s + [x];
    var a, b := FirstIndexBy(r, key, k), FirstIndexBy(s, key, k);
    assert forall j :: 0 <= j < |s| ==> r[j] == s[j];
    if b < |s| {
      assert r[b] == s[b];
    } else if key(x) == k {
      assert r[|s|] == x;
    }
  }

  /** Every element of `s` has its key in `m`. */
  ghost predicate KeysIn<T, K, V>(s: seq<T>, key: T -> K, m: map<K, V>)
  {
    forall i :: 0 <= i < |s| ==> key(s[i]) in m
  }

  /** Every entry of `m` has an element in `s` and is named after the first such element. */
  ghost predicate FirstNamed<T, K, V, N>(s: seq<T>, key: T -> K, name: T -> N, proj: V -> N, m: map<K, V>)
  {
    forall k :: k in m ==> FirstIndexBy(s, key, k) < |s| && proj(m[k]) == name(s[FirstIndexBy(s, key, k)])
  }

  /** `keys` are listed in order of their first element in `s`. */
  ghost predicate FirstOrdered<T, K>(s: seq<T>, key: T -> K, keys: seq<K>)
  {
    forall a, b :: 0 <= a < b < |keys| ==> FirstIndexBy(s, key, keys[a]) < FirstIndexBy(s, key, keys[b])
  }

  /** A second update of the same key overwrites the first. */
  lemma UpdateTwice<K, V>(m: map<K, V>, k: K, a: V, b: V)
    ensures m[k := a][k := b] == m[k := b]
  {
  }

  /** A key that no element of `s` has, when every element's key is in `m`. */
  lemma FirstIndexByAbsent<T, K, V>(s: seq<T>, key: T -> K, m: map<K, V>, k: K)
    requires KeysIn(s, key, m)
    requires k !in m
    ensures FirstIndexBy(s, key, k) == |s|
  {
    assert forall j :: 0 <= j < |s| ==> key(s[j]) != k;
  }

  /**
   * Entries named after the first element with their key stay so when an
   * element is appended: old entries keep their name, and an entry added for
   * the new element's key is named after it.
   */
  lemma FirstNamedSnoc<T, K, V, N>(s: seq<T>, x: T, key: T -> K, name: T -> N, proj: V -> N, m0: map<K, V>, m: map<K, V>)
    requires FirstNamed(s, key, name, proj, m0) && KeysIn(s, key, m0)
    requires forall k :: k in m <==> k in m0 || k == key(x)
    requires forall k :: k in m0 ==> k in m && proj(m[k]) == proj(m0[k])
    requires key(x) !in m0 ==> key(x) in m && proj(m[key(x)]) == name(x)
    ensures FirstNamed(s + [x], key, name, proj, m)
  {
    var r := s + [x];
    forall k | k in m
      ensures FirstIndexBy(r, key, k) < |r| && proj(m[k]) == name(r[FirstIndexBy(r, key, k)])
    {
      FirstIndexBySnoc(s, x, key, k);
      if k in m0 {
        var i := FirstIndexBy(s, key, k);
        assert r[i] == s[i];
      } else {
        FirstIndexByAbsent(s, key, m0, k);
        assert r[|s|] == x;
      }
    }
  }

  /**
   * Keys listed in order of their first element stay so when an element is
   * appended and its key, if new, is listed last.
   */
  lemma FirstOrderedSnoc<T, K, V>(s: seq<T>, x: T, key: T -> K, m0: map<K, V>, keys0: seq<K>, keys: seq<K>)
    requires forall a :: 0 <= a < |keys0| ==> keys0[a] in m0
    requires forall k :: k in m0 ==> FirstIndexBy(s, key, k) < |s|
    requires FirstOrdered(s, key, keys0) && KeysIn(s, key, m0)
    requires key(x) in m0 ==> keys == keys0
    requires key(x) !in m0 ==> keys == keys0 + [key(x)]
    ensures FirstOrdered(s + [x], key, keys)
  {
    forall a, b | 0 <= a < b < |keys|
      ensures FirstIndexBy(s + [x], key, keys[a]) < FirstIndexBy(s + [x], key, keys[b])
    {
      assert keys[a] == keys0[a] && keys0[a] in m0;
      FirstIndexBySnoc(s, x, key, keys[a]);
      FirstIndexBySnoc(s, x, key, keys[b]);
      if b < |keys0| {
        assert keys[b] == keys0[b] && keys0[b] in m0;
      } else {
        assert keys[b] == key(x);
        FirstIndexByAbsent(s, key, m0, keys[b]);
      }
    }
  }

  /**
   * One more element keeps the entries named and the keys ordered by first
   * elements: an existing entry keeps its name and place, a new one is named
   * after the new element and listed last.
   */
  lemma FirstSeenSnoc<T, K, V, N>(s: seq<T>, x: T, key: T -> K, name: T -> N, proj: V -> N,
                                  m0: map<K, V>, m: map<K, V>, keys0: seq<K>, keys: seq<K>)
    requires FirstNamed(s, key, name, proj, m0) && FirstOrdered(s, key, keys0) && KeysIn(s, key, m0)
    requires forall a :: 0 <= a < |keys0| ==> keys0[a] in m0
    requires forall k :: k in m <==> k in m0 || k == key(x)
    requires forall k :: k in m0 ==> k in m && proj(m[k]) == proj(m0[k])
    requires key(x) in m0 ==> keys == keys0
    requires key(x) !in m0 ==> keys == keys0 + [key(x)] && key(x) in m && proj(m[key(x)]) == name(x)
    ensures FirstNamed(s + [x], key, name, proj, m) && FirstOrdered(s + [x], key, keys)
  {
    FirstNamedSnoc(s, x, key, name, proj, m0, m);
    FirstOrderedSnoc(s, x, key, m0, keys0, keys);
  }

  /**
   * The elements of `s` whose key has not occurred earlier in `s`, in order:
   * what a loop with a `seen` set (or `Array.from(new Set(...))`) keeps.
   */
  function FirstByKey<T, K(==)>(s: seq<T>, key: T -> K): (r: seq<T>)
    ensures |r| <= |s|
  {
    if s == [] then []
    else
      var p := FirstByKey(s[..|s| - 1], key);
      if key(s[|s| - 1]) in KeySet(p, key) then p else p + [s[|s| - 1]]
  }

  lemma {:induction false} FirstByKeyKeys<T, K>(s: seq<T>, key: T -> K)
    ensures KeySet(FirstByKey(s, key), key) == KeySet(s, key)
  {
    if s != [] {
      var s' := s[..|s| - 1];
      FirstByKeyKeys(s', key);
      var p := FirstByKey(s', key);
      if key(s[|s| - 1]) !in KeySet(p, key) {
        assert (p + [s[|s| - 1]])[..|p|] == p;
      }
    }
  }

  lemma {:induction false} FirstByKeyDistinct<T, K>(s: seq<T>, key: T -> K)
    ensures forall i, j :: 0 <= i < j < |FirstByKey(s, key)| ==>
      key(FirstByKey(s, key)[i]) != key(FirstByKey(s, key)[j])
  {
    if s != [] {
      var p := FirstByKey(s[..|s| - 1], key);
      FirstByKeyDistinct(s[..|s| - 1], key);
      var x := s[|s| - 1];
      if key(x) !in KeySet(p, key) {
        var r := p + [x];
        forall i, j | 0 <= i < j < |r|
          ensures key(r[i]) != key(r[j])
        {
          if j == |p| {
            assert r[i] == p[i] && r[j] == x;
            assert key(p[i]) in KeySet(p, key);
            assert key(x) !in KeySet(p, key);
          } else {
            assert r[i] == p[i] && r[j] == p[j];
            assert key(p[i]) != key(p[j]);
          }
        }
        assert FirstByKey(s, key) == r;
      }
    }
  }

  /** Each element kept is an element of the input, taken in input order. */
  lemma {:induction false} FirstByKeyIsSubsequence<T, K>(s: seq<T>, key: T -> K)
    ensures forall x :: x in FirstByKey(s, key) ==> x in s
  {
    if s != [] {
      FirstByKeyIsSubsequence(s[..|s| - 1], key);
    }
  }

  /**
   * First occurrence wins: an element whose key does not occur earlier in `s`
   * is kept, and nothing else with that key is.
   */
  lemma {:induction false} FirstByKeyFirstWins<T, K>(s: seq<T>, key: T -> K, i: nat)
    requires i < |s|
    requires forall j :: 0 <= j < i ==> key(s[j]) != key(s[i])
    ensures s[i] in FirstByKey(s, key)
    ensures forall x :: x in FirstByKey(s, key) && key(x) == key(s[i]) ==> x == s[i]
  {
    var s' := s[..|s| - 1];
    var p := FirstByKey(s', key);
    if i == |s| - 1 {
      FirstByKeyKeys(s', key);
      assert key(s[i]) !in KeySet(s', key);
      FirstByKeyIsSubsequence(s', key);
      assert forall x :: x in p ==> key(x) in KeySet(s', key);
    } else {
      FirstByKeyFirstWins(s', key, i);
      assert key(s[i]) in KeySet(p, key);
    }
  }
}
