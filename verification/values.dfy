/** Decoded XML as the plugin sees it after `xmltodict.parse`: nested dictionaries (keys in
    insertion order), lists for repeated elements, strings for text, `None` for empty elements.
    Python's run-time errors on such values (a missing key, indexing a string, iterating `None`)
    are modelled as values of `Exc`, so every operation says what happens on every shape. */
module Values {
  import opened Strings

  datatype Node =
    | Null
    | Bool(b: bool)
    | Str(s: string)
    | Map(entries: seq<(string, Node)>)
    | List(items: seq<Node>)

  /** The Python exceptions the modelled code can raise. */
  datatype Exc =
    | KeyError(key: string)
    | TypeError(what: string)
    | AttributeError(what: string)
    | ValueError(what: string)
    | Transport(message: string)

  datatype Option<+T> = None | Some(value: T)

  /** A value or the exception that was raised while computing it. */
  datatype Result<+T> = Ok(value: T) | Err(exc: Exc) {
    predicate IsFailure() { Err? }

    function PropagateFailure<U>(): Result<U>
      requires Err?
    {
      Err(exc)
    }

    function Extract(): T
      requires Ok?
    {
      value
    }
  }

  /** The values of `rs` in order, or the first exception among them: what a loop that
      computes each in turn and stops at the first exception produces. */
  function Collect<T>(rs: seq<Result<T>>): Result<seq<T>>
    decreases |rs|
  {
    if |rs| == 0 then Ok([])
    else
      var first :- rs[0];
      var rest :- Collect(rs[1..]);
      Ok([first] + rest)
  }

  /** Concatenation regroups freely. */
  lemma ConcatAssoc<T>(a: seq<T>, b: seq<T>, c: seq<T>)
    ensures (a + b) + c == a + (b + c)
  {
  }

  /** `acc` followed by the values of `r`, or the exception of `r`. */
  function After<T>(acc: seq<T>, r: Result<seq<T>>): Result<seq<T>> {
    match r
    case Ok(rest) => Ok(acc + rest)
    case Err(e) => Err(e)
  }

  lemma AfterNothing<T>(r: Result<seq<T>>)
    ensures After([], r) == r
  {
    if r.Ok? {
      assert [] + r.value == r.value;
    }
  }

  /** One step of a loop that collects `rs` in turn into `acc`: an exception ends the collection
      with it, a value moves into `acc`. */
  lemma CollectStep<T>(rs: seq<Result<T>>, i: nat, acc: seq<T>)
    requires i < |rs|
    ensures rs[i].Err? ==> After(acc, Collect(rs[i..])) == Err(rs[i].exc)
    ensures rs[i].Ok? ==> After(acc, Collect(rs[i..])) == After(acc + [rs[i].value], Collect(rs[i + 1..]))
  {
    assert rs[i..][0] == rs[i] && rs[i..][1..] == rs[i + 1..];
    if rs[i].Ok? && Collect(rs[i + 1..]).Ok? {
      var rest := Collect(rs[i + 1..]).value;
      assert acc + [rs[i].value] + rest == acc + ([rs[i].value] + rest);
    }
  }

  /** Collecting succeeds exactly when every result is a value, and then keeps them all, in
      order. */
  lemma {:induction false} CollectAll<T>(rs: seq<Result<T>>)
    ensures Collect(rs).Ok? <==> forall k | 0 <= k < |rs| :: rs[k].Ok?
    ensures Collect(rs).Ok? ==> |Collect(rs).value| == |rs|
    ensures Collect(rs).Ok? ==> forall k | 0 <= k < |rs| :: Collect(rs).value[k] == rs[k].value
    decreases |rs|
  {
    if |rs| > 0 {
      CollectAll(rs[1..]);
      assert forall k | 0 < k < |rs| :: rs[1..][k - 1] == rs[k];
      if Collect(rs).Ok? {
        assert Collect(rs).value == [rs[0].value] + Collect(rs[1..]).value;
      }
    }
  }

  // ----- ordered dictionaries (Python 3 `dict` keeps insertion order) -----

  type Dict<K, V> = seq<(K, V)>

  /** The keys of `d`, in order. */
  function Keys<K, V>(d: Dict<K, V>): (r: seq<K>)
    ensures |r| == |d|
  {
    if |d| == 0 then [] else [d[0].0] + Keys(d[1..])
  }

  /** `k in d`. */
  predicate HasKey<K(==), V>(d: Dict<K, V>, k: K) {
    k in Keys(d)
  }

  /** `d[k]` for a key that is present: the value stored at its first occurrence. */
  function Get<K(==), V>(d: Dict<K, V>, k: K): V
    requires HasKey(d, k)
  {
    if d[0].0 == k then d[0].1 else Get(d[1..], k)
  }

  /** The pair at position `i` is the one a lookup of its key finds, when no earlier pair has
      that key. */
  lemma {:induction false} GetAt<K, V>(d: Dict<K, V>, i: nat)
    requires i < |d|
    requires forall j :: 0 <= j < i ==> d[j].0 != d[i].0
    ensures HasKey(d, d[i].0) && Get(d, d[i].0) == d[i].1
  {
    if i > 0 {
      assert d[1..][i - 1] == d[i];
      GetAt(d[1..], i - 1);
      assert Keys(d) == [d[0].0] + Keys(d[1..]);
    }
  }

  /** `d[k] = v`: an existing key keeps its position and gets the new value, a new key goes last. */
  function Put<K(==), V>(d: Dict<K, V>, k: K, v: V): (r: Dict<K, V>)
  {
    if |d| == 0 then [(k, v)]
    else if d[0].0 == k then [(k, v)] + d[1..]
    else [d[0]] + Put(d[1..], k, v)
  }

  predicate NoDuplicates<T(==)>(s: seq<T>) {
    forall i, j :: 0 <= i < j < |s| ==> s[i] != s[j]
  }

  /** `[f(x) for x in xs]`. */
  function MapSeq<A, B>(f: A -> B, xs: seq<A>): (r: seq<B>)
    ensures |r| == |xs| && forall i :: 0 <= i < |xs| ==> r[i] == f(xs[i])
  {
    seq(|xs|, i requires 0 <= i < |xs| => f(xs[i]))
  }

  /** The image of a non-empty sequence: the first element's image, then the rest's. */
  lemma MapSeqTail<A, B>(f: A -> B, xs: seq<A>)
    requires |xs| > 0
    ensures MapSeq(f, xs)[0] == f(xs[0]) && MapSeq(f, xs)[1..] == MapSeq(f, xs[1..])
  {
    var r, t := MapSeq(f, xs), MapSeq(f, xs[1..]);
    forall k | 0 <= k < |t| ensures r[1..][k] == t[k] {
      assert xs[1..][k] == xs[k + 1];
    }
  }

  /** In a sequence without repeats, no element occurs before its own position. */
  lemma NotBefore<T>(s: seq<T>, i: nat)
    requires NoDuplicates(s) && i < |s|
    ensures s[i] !in s[..i]
  {
    forall j | 0 <= j < i ensures s[..i][j] != s[i] {
      assert s[..i][j] == s[j];
    }
  }

  /** After `d[k] = v`, reading `k` gives `v` and every other key reads as before. */
  lemma {:induction false} PutGet<K, V>(d: Dict<K, V>, k: K, v: V, k': K)
    ensures HasKey(Put(d, k, v), k') <==> (k' == k || HasKey(d, k'))
    ensures HasKey(Put(d, k, v), k') ==> Get(Put(d, k, v), k') == (if k' == k then v else Get(d, k'))
  {
    if |d| > 0 && d[0].0 != k {
      PutGet(d[1..], k, v, k');
    }
  }

  /** `d[k] = v` keeps the keys free of repeats: an existing key stays where it is, a new one
      goes last. */
  lemma {:induction false} PutKeys<K, V>(d: Dict<K, V>, k: K, v: V)
    requires NoDuplicates(Keys(d))
    ensures Keys(Put(d, k, v)) == if HasKey(d, k) then Keys(d) else Keys(d) + [k]
    ensures NoDuplicates(Keys(Put(d, k, v)))
  {
    if |d| > 0 {
      assert Keys(d) == [d[0].0] + Keys(d[1..]);
      assert NoDuplicates(Keys(d[1..])) by {
        forall i, j | 0 <= i < j < |Keys(d[1..])|
          ensures Keys(d[1..])[i] != Keys(d[1..])[j]
        {
          assert Keys(d[1..])[i] == Keys(d)[i + 1] && Keys(d[1..])[j] == Keys(d)[j + 1];
        }
      }
      PutKeys(d[1..], k, v);
      if d[0].0 != k {
        assert Keys(Put(d, k, v)) == [d[0].0] + Keys(Put(d[1..], k, v));
      }
    }
  }

  /** `d[k] = v` for each pair of `es` in turn; a `None` stands for an item the loop passes over. */
  function Assign<K(==), V>(d: Dict<K, V>, es: seq<Option<(K, V)>>): Dict<K, V>
    decreases |es|
  {
    if |es| == 0 then d
    else Assign(if es[0].Some? then Put(d, es[0].value.0, es[0].value.1) else d, es[1..])
  }

  /** Assigning `a + b` is assigning `a`, then `b`. */
  lemma {:induction false} AssignConcat<K, V>(d: Dict<K, V>, a: seq<Option<(K, V)>>, b: seq<Option<(K, V)>>)
    ensures Assign(d, a + b) == Assign(Assign(d, a), b)
    decreases |a|
  {
    if |a| > 0 {
      assert (a + b)[0] == a[0] && (a + b)[1..] == a[1..] + b;
      AssignConcat(if a[0].Some? then Put(d, a[0].value.0, a[0].value.1) else d, a[1..], b);
    } else {
      assert a + b == b;
    }
  }

  /** The position of the last pair of `es` with key `k`, or -1. */
  function LastAssigned<K(==), V>(es: seq<Option<(K, V)>>, k: K): (i: int)
    ensures -1 <= i < |es|
    ensures i >= 0 ==> es[i].Some? && es[i].value.0 == k
    ensures forall j :: i < j < |es| ==> !(es[j].Some? && es[j].value.0 == k)
  {
    if |es| == 0 then -1
    else
      var i := LastAssigned(es[1..], k);
      if i >= 0 then i + 1 else if es[0].Some? && es[0].value.0 == k then 0 else -1
  }

  /** After assigning the pairs of `es`, a key is present exactly when it was before or some pair
      assigns it; it holds the value of the LAST pair that assigns it; and keys stay unique. */
  lemma {:induction false} AssignLookup<K, V>(d: Dict<K, V>, es: seq<Option<(K, V)>>, k: K)
    requires NoDuplicates(Keys(d))
    ensures NoDuplicates(Keys(Assign(d, es)))
    ensures HasKey(Assign(d, es), k) <==> HasKey(d, k) || LastAssigned(es, k) >= 0
    ensures LastAssigned(es, k) >= 0 ==> Get(Assign(d, es), k) == es[LastAssigned(es, k)].value.1
    ensures LastAssigned(es, k) < 0 && HasKey(d, k) ==> Get(Assign(d, es), k) == Get(d, k)
    decreases |es|
  {
    if |es| > 0 {
      var next := if es[0].Some? then Put(d, es[0].value.0, es[0].value.1) else d;
      if es[0].Some? {
        PutKeys(d, es[0].value.0, es[0].value.1);
        PutGet(d, es[0].value.0, es[0].value.1, k);
      }
      AssignLookup(next, es[1..], k);
    }
  }

  // ----- Python operations on decoded values -----

  /** `n[k]` (the subscription `n["k"]`). */
  function Index(n: Node, k: string): (r: Result<Node>)
    ensures n.Map? && HasKey(n.entries, k) ==> r == Ok(Get(n.entries, k))
    ensures n.Map? && !HasKey(n.entries, k) ==> r == Err(KeyError(k))
    ensures !n.Map? ==> r.Err? && r.exc.TypeError?
  {
    match n
    case Map(es) => if HasKey(es, k) then Ok(Get(es, k)) else Err(KeyError(k))
    case Str(_) => Err(TypeError("string indices must be integers"))
    case List(_) => Err(TypeError("list indices must be integers or slices, not str"))
    case Null => Err(TypeError("'NoneType' object is not subscriptable"))
    case Bool(_) => Err(TypeError("'bool' object is not subscriptable"))
  }

  /** Successive subscriptions `n[k0][k1]...`. */
  function Path(n: Node, ks: seq<string>): Result<Node>
    decreases |ks|
  {
    if |ks| == 0 then Ok(n)
    else
      var child :- Index(n, ks[0]);
      Path(child, ks[1..])
  }

  /** `k in n`: a key of a dictionary, a substring of a string, an element of a list. */
  function In(k: string, n: Node): (r: Result<bool>)
    ensures n.Map? ==> r == Ok(HasKey(n.entries, k))
    ensures n.Str? ==> r == Ok(Contains(n.s, k))
  {
    match n
    case Map(es) => Ok(HasKey(es, k))
    case Str(s) => Ok(Contains(s, k))
    case List(xs) => Ok(Str(k) in xs)
    case Null => Err(TypeError("argument of type 'NoneType' is not iterable"))
    case Bool(_) => Err(TypeError("argument of type 'bool' is not iterable"))
  }

  /** What `for x in n` visits: list elements, dictionary keys, or the characters of a string. */
  function Iterate(n: Node): (r: Result<seq<Node>>)
    ensures n.List? ==> r == Ok(n.items)
    ensures n.Null? ==> r.Err?
  {
    match n
    case List(xs) => Ok(xs)
    case Map(es) => Ok(seq(|es|, i requires 0 <= i < |es| => Str(es[i].0)))
    case Str(s) => Ok(seq(|s|, i requires 0 <= i < |s| => Str([s[i]])))
    case Null => Err(TypeError("'NoneType' object is not iterable"))
    case Bool(_) => Err(TypeError("'bool' object is not iterable"))
  }

  /** `if isinstance(n, dict): n = [n]`: the decoder gives a lone child as a dictionary and
      repeated children as a list; this makes both a list. */
  function OneOrMany(n: Node): (r: Node)
    ensures n.Map? ==> r == List([n])
    ensures !n.Map? ==> r == n
  {
    if n.Map? then List([n]) else n
  }

  /** Python truthiness. */
  predicate Truthy(n: Node) {
    match n
    case Null => false
    case Bool(b) => b
    case Str(s) => s != ""
    case Map(es) => es != []
    case List(xs) => xs != []
  }

  /** `"%s" % n`. Dictionaries and lists are shown as a fixed marker, not as Python's `repr`. */
  function Show(n: Node): string {
    match n
    case Null => "None"
    case Bool(b) => if b then "True" else "False"
    case Str(s) => s
    case Map(_) => "{...}"
    case List(_) => "[...]"
  }

  /** `n` used as a dictionary key: a dictionary or a list is unhashable and raises `TypeError`. */
  function Hashable(n: Node): (r: Result<Node>)
    ensures r.Err? <==> n.Map? || n.List?
    ensures r.Err? ==> r.exc.TypeError?
    ensures r.Ok? ==> r.value == n
  {
    match n
    case Map(_) => Err(TypeError("unhashable type: 'dict'"))
    case List(_) => Err(TypeError("unhashable type: 'list'"))
    case _ => Ok(n)
  }

  /** `n[k] = v`: only dictionaries support item assignment. */
  function SetItem(n: Node, k: string, v: Node): (r: Result<Node>)
    ensures n.Map? ==> r == Ok(Map(Put(n.entries, k, v)))
    ensures !n.Map? ==> r.Err? && r.exc.TypeError?
  {
    match n
    case Map(es) => Ok(Map(Put(es, k, v)))
    case Str(_) => Err(TypeError("'str' object does not support item assignment"))
    case List(_) => Err(TypeError("list indices must be integers or slices, not str"))
    case Null => Err(TypeError("'NoneType' object does not support item assignment"))
    case Bool(_) => Err(TypeError("'bool' object does not support item assignment"))
  }

  /** The start of the message `int()` raises for an argument of the wrong type. */
  const INT_ARGUMENT := "int() argument must be a string, a bytes-like object or a real number, not "

  /** `int(n)` for the values a decoded document holds: a string of decimal digits is read as
      a number and a boolean counts as 0 or 1; any other string raises `ValueError`, and a
      dictionary, list or `None` raises `TypeError`. */
  function IntOf(n: Node): (r: Result<int>)
    ensures n.Str? && |n.s| > 0 && IsDigits(n.s) ==> r == Ok(DecimalValue(n.s))
    ensures n.Str? && (|n.s| == 0 || !IsDigits(n.s)) ==> r.Err? && r.exc.ValueError?
    ensures n.Null? || n.Map? || n.List? ==> r.Err? && r.exc.TypeError?
  {
    match n
    case Str(s) => if |s| > 0 && IsDigits(s) then Ok(DecimalValue(s)) else Err(ValueError("invalid literal for int() with base 10"))
    case Bool(b) => Ok(if b then 1 else 0)
    case Null => Err(TypeError(INT_ARGUMENT + "'NoneType'"))
    case Map(_) => Err(TypeError(INT_ARGUMENT + "'dict'"))
    case List(_) => Err(TypeError(INT_ARGUMENT + "'list'"))
  }

  /** `str + n`, which Python allows only when `n` is a string. */
  function AsStr(n: Node): (r: Result<string>)
    ensures n.Str? <==> r.Ok?
    ensures n.Str? ==> r.value == n.s
  {
    if n.Str? then Ok(n.s) else Err(TypeError("can only concatenate str (not \"" + TypeName(n) + "\") to str"))
  }

  function TypeName(n: Node): string {
    match n
    case Null => "NoneType"
    case Bool(_) => "bool"
    case Str(_) => "str"
    case Map(_) => "dict"
    case List(_) => "list"
  }
}
