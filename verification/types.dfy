/** The records of a riot project: nodes, registry access, applications and
    the errors the core reports. These are plain values; nothing in the core
    updates them in place. */
module Types {

  datatype Option<T> = None | Some(value: T)

  /** A Go `(value, error)` pair: either a value or the error that replaced it. */
  datatype Result<T> = Ok(value: T) | Err(error: Error)

  /** The errors the core itself raises, plus `External` for any error handed
      back by a collaborator (Docker engine, filesystem, registry). */
  datatype Error =
    | InvalidSelector(selector: string)
    | ApplicationNotFound(name: string)
    | NoLockEntry(app: string)
    | External(cause: string)

  /** `s` occurs in `text` from position `i`. */
  predicate OccursAt(text: string, s: string, i: int)
  {
    0 <= i <= |text| - |s| && text[i..i + |s|] == s
  }

  /** `s` occurs in `text`. */
  predicate Mentions(text: string, s: string)
  {
    exists i | 0 <= i <= |text| :: OccursAt(text, s, i)
  }

  /** The text `err.Error()` yields for each error. A collaborator's error
      keeps its own text. */
  function ErrorText(e: Error): (r: string)
    ensures e.External? ==> r == e.cause
  {
    match e
    case InvalidSelector(s) => "Invalid selector \"" + s + "\". Must start with . or #"
    case ApplicationNotFound(n) => "Application " + n + " not found"
    case NoLockEntry(a) => "application " + a + " has no riot.lock entry. Please run riot build"
    case External(c) => c
  }

  /** The core's own errors name the selector or application they are about. */
  lemma ErrorTextNames(e: Error)
    ensures e.InvalidSelector? ==> Mentions(ErrorText(e), e.selector)
    ensures e.ApplicationNotFound? ==> Mentions(ErrorText(e), e.name)
    ensures e.NoLockEntry? ==> Mentions(ErrorText(e), e.app)
  {
    match e
    case InvalidSelector(s) => assert OccursAt(ErrorText(e), s, 18);
    case ApplicationNotFound(n) => assert OccursAt(ErrorText(e), n, 12);
    case NoLockEntry(a) => assert OccursAt(ErrorText(e), a, 12);
    case External(_) =>
  }

  /** Distinct errors raised by the core itself have distinct texts. */
  lemma ErrorTextDistinct(e1: Error, e2: Error)
    requires !e1.External? && !e2.External? && ErrorText(e1) == ErrorText(e2)
    ensures e1 == e2
  {
    var t := ErrorText(e1);
    match e1
    case InvalidSelector(s1) =>
      assert t[0] == 'I' && e2.InvalidSelector?;
      assert t[18..|t| - 25] == s1 && t[18..|t| - 25] == e2.selector;
    case ApplicationNotFound(n1) =>
      assert t[0] == 'A' && e2.ApplicationNotFound?;
      assert t[12..|t| - 10] == n1 && t[12..|t| - 10] == e2.name;
    case NoLockEntry(a1) =>
      assert t[0] == 'a' && e2.NoLockEntry?;
      assert t[12..|t| - 46] == a1 && t[12..|t| - 46] == e2.app;
  }

  /** A device an application can be deployed to. */
  datatype Node = Node(name: string, host: string, labels: seq<string>)

  datatype RegistryCfg = RegistryCfg(host: string, username: string, password: string)

  /** Build arguments handed to the image build, and whether to skip the push. */
  datatype BuildCfg = BuildCfg(args: map<string, string>, dontPush: bool)

  /** One application of the project. `ports` maps a source-port string to a
      target-port string. */
  datatype Application = Application(
    name: string,
    deploymentSelector: seq<string>,
    image: string,
    buildArgs: seq<string>,
    runArgs: seq<string>,
    ports: map<string, string>,
    buildCfg: BuildCfg)

  function Last<T>(s: seq<T>): T
    requires s != []
  {
    s[|s| - 1]
  }

  function Init<T>(s: seq<T>): seq<T>
    requires s != []
  {
    s[..|s| - 1]
  }

  /** One more element of a prefix. */
  lemma PrefixStep<T>(s: seq<T>, i: int)
    requires 0 <= i < |s|
    ensures s[..i + 1] == s[..i] + [s[i]]
    ensures Init(s[..i + 1]) == s[..i] && Last(s[..i + 1]) == s[i]
  {
  }

  lemma PrefixWhole<T>(s: seq<T>)
    ensures s[..|s|] == s
  {
  }

  /** Splitting the last element off a concatenation. */
  lemma AppendInitLast<T>(a: seq<T>, b: seq<T>)
    requires b != []
    ensures a + b != [] && Init(a + b) == a + Init(b) && Last(a + b) == Last(b)
  {
  }

  lemma AppendAssoc<T>(a: seq<T>, b: seq<T>, c: seq<T>)
    ensures (a + b) + c == a + (b + c)
  {
  }

  /** `path.Join` of two non-empty components, without lexical cleaning. */
  function JoinPath(dir: string, name: string): string
  {
    dir + "/" + name
  }

  /** The keys of `pairs`. */
  function KeysOf<K, V>(pairs: seq<(K, V)>): set<K>
  {
    if pairs == [] then {} else KeysOf(Init(pairs)) + {Last(pairs).0}
  }

  /** `pairs` holds entries of `m`, each key at most once. */
  predicate Entries<K(!new), V(==, !new)>(pairs: seq<(K, V)>, m: map<K, V>)
  {
    && (forall i, j | 0 <= i < j < |pairs| :: pairs[i].0 != pairs[j].0)
    && (forall i | 0 <= i < |pairs| :: pairs[i].0 in m && m[pairs[i].0] == pairs[i].1)
  }

  /** `pairs` lists the entries of `m`, each once. */
  predicate Lists<K(!new), V(==, !new)>(pairs: seq<(K, V)>, m: map<K, V>)
  {
    Entries(pairs, m) && forall k | k in m :: (k, m[k]) in pairs
  }

  /** Go's `range` over a map: its entries, each once, in an order the
      language leaves unspecified (and randomises), so any listing may come
      out. */
  method EnumerateMap<K(!new), V(==, !new)>(m: map<K, V>) returns (pairs: seq<(K, V)>)
    ensures Lists(pairs, m)
  {
    pairs := [];
    var remaining := m.Keys;
    while remaining != {}
      invariant remaining <= m.Keys
      invariant Entries(pairs, m)
      invariant forall i | 0 <= i < |pairs| :: pairs[i].0 !in remaining
      invariant forall k | k in m && k !in remaining :: (k, m[k]) in pairs
      decreases |remaining|
    {
      var k :| k in remaining;
      pairs := pairs + [(k, m[k])];
      remaining := remaining - {k};
    }
  }

  /** A listing of entries visits as many keys as it is long. */
  lemma {:induction false} EntriesKeys<K(!new), V(!new)>(pairs: seq<(K, V)>, m: map<K, V>)
    requires Entries(pairs, m)
    ensures KeysOf(pairs) <= m.Keys && |KeysOf(pairs)| == |pairs|
  {
    if pairs != [] {
      assert Entries(Init(pairs), m);
      EntriesKeys(Init(pairs), m);
      KeysOfMembers(Init(pairs), Last(pairs).0);
    }
  }

  lemma {:induction false} KeysOfMembers<K, V>(pairs: seq<(K, V)>, k: K)
    ensures k in KeysOf(pairs) <==> exists i | 0 <= i < |pairs| :: pairs[i].0 == k
  {
    if pairs != [] {
      KeysOfMembers(Init(pairs), k);
    }
  }

  /** A complete listing visits every key, once. */
  lemma ListsAll<K(!new), V(!new)>(pairs: seq<(K, V)>, m: map<K, V>)
    requires Lists(pairs, m)
    ensures KeysOf(pairs) == m.Keys && |pairs| == |m|
  {
    EntriesKeys(pairs, m);
    forall k | k in m ensures k in KeysOf(pairs) {
      KeysOfMembers(pairs, k);
    }
  }

  /** The sum of `f` over the values of `m`. */
  ghost function MapSum<K, V>(m: map<K, V>, f: V -> int): int
    decreases |m|
  {
    if m == map[] then 0
    else
      var k :| k in m;
      f(m[k]) + MapSum(m - {k}, f)
  }

  /** The sum of `f` over the values of `pairs`. */
  function PairsSum<K, V>(pairs: seq<(K, V)>, f: V -> int): int
  {
    if pairs == [] then 0 else PairsSum(Init(pairs), f) + f(Last(pairs).1)
  }

  /** The sum over a map does not depend on the key taken out first. */
  lemma {:induction false} MapSumRemove<K, V>(m: map<K, V>, f: V -> int, k: K)
    requires k in m
    ensures MapSum(m, f) == f(m[k]) + MapSum(m - {k}, f)
    decreases |m|
  {
    var k0 :| k0 in m && MapSum(m, f) == f(m[k0]) + MapSum(m - {k0}, f);
    if k0 != k {
      MapSumRemove(m - {k0}, f, k);
      MapSumRemove(m - {k}, f, k0);
      assert m - {k0} - {k} == m - {k} - {k0};
    }
  }

  /** Summed along any listing of a map, its values sum to the same total. */
  lemma {:induction false} ListsSum<K(!new), V(!new)>(pairs: seq<(K, V)>, m: map<K, V>, f: V -> int)
    requires Lists(pairs, m)
    ensures PairsSum(pairs, f) == MapSum(m, f)
  {
    if pairs != [] {
      var init, k := Init(pairs), Last(pairs).0;
      assert Lists(init, m - {k}) by {
        forall k' | k' in m - {k} ensures (k', (m - {k})[k']) in init {
          var i :| 0 <= i < |pairs| && pairs[i] == (k', m[k']);
          assert i != |pairs| - 1;
        }
      }
      ListsSum(init, m - {k}, f);
      MapSumRemove(m, f, k);
    } else {
      ListsAll(pairs, m);
    }
  }
}
