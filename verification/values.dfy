/**
 * Decoded JSON documents, as PHP's `json_decode($text, true)` and the
 * browser's `JSON.parse` hand them to the plugin.
 *
 * Numbers are integers only. Objects keep their members in order. A decoder
 * gives a repeated key one member, at the first key's position and holding
 * the last value, so a decoded object never repeats a key; for such an
 * object the member order is the iteration order of the PHP array or JS
 * object, and `Elements` visits each entry once. Objects with repeated keys
 * are not produced by a decoder, and the model makes no claim about their
 * iteration.
 */
module Values {

  datatype Option<+T> = None | Some(value: T)

  datatype Json =
    | JNull
    | JBool(b: bool)
    | JInt(i: int)
    | JStr(s: string)
    | JList(items: seq<Json>)
    | JObject(members: seq<(string, Json)>)

  /** The value of the last member named `key`; in a decoded object it is the only member with that key. */
  function Lookup(members: seq<(string, Json)>, key: string): Option<Json>
    decreases |members|
  {
    if |members| == 0 then None
    else if members[|members| - 1].0 == key then Some(members[|members| - 1].1)
    else Lookup(members[..|members| - 1], key)
  }

  /** A key is found exactly when some member has it, and what is found is that member's value. */
  lemma {:induction false} LookupFound(members: seq<(string, Json)>, key: string)
    ensures Lookup(members, key).None? <==> forall i :: 0 <= i < |members| ==> members[i].0 != key
    ensures Lookup(members, key).Some? ==> (key, Lookup(members, key).value) in members
    decreases |members|
  {
    if |members| > 0 && members[|members| - 1].0 != key {
      LookupFound(members[..|members| - 1], key);
    }
  }

  /** A key that does not occur after position `i` reads back the value stored there. */
  lemma {:induction false} LookupLast(members: seq<(string, Json)>, i: nat)
    requires i < |members|
    requires forall j :: i < j < |members| ==> members[j].0 != members[i].0
    ensures Lookup(members, members[i].0) == Some(members[i].1)
    decreases |members|
  {
    if i < |members| - 1 {
      LookupLast(members[..|members| - 1], i);
    }
  }

  /** Looking a key up in two concatenated member lists: the later list wins. */
  lemma {:induction false} LookupAppend(a: seq<(string, Json)>, b: seq<(string, Json)>, key: string)
    ensures Lookup(a + b, key) == if Lookup(b, key).Some? then Lookup(b, key) else Lookup(a, key)
    decreases |b|
  {
    if |b| == 0 {
      assert a + b == a;
    } else {
      assert (a + b)[..|a + b| - 1] == a + b[..|b| - 1];
      LookupAppend(a, b[..|b| - 1], key);
    }
  }

  /** Every member named `key` takes the value `x`; keys and order stay. */
  function ReplaceValue(members: seq<(string, Json)>, key: string, x: Json): (r: seq<(string, Json)>)
    ensures |r| == |members|
    ensures forall i :: 0 <= i < |r| ==> r[i].0 == members[i].0
    ensures forall i :: 0 <= i < |r| ==> r[i].1 == if members[i].0 == key then x else members[i].1
  {
    seq(|members|, i requires 0 <= i < |members| => if members[i].0 == key then (key, x) else members[i])
  }

  lemma {:induction false} LookupReplaceValue(members: seq<(string, Json)>, key: string, x: Json, k: string)
    ensures Lookup(ReplaceValue(members, key, x), k) ==
      if k == key && Lookup(members, key).Some? then Some(x) else Lookup(members, k)
    decreases |members|
  {
    if |members| > 0 {
      var n := |members|;
      assert ReplaceValue(members, key, x)[..n - 1] == ReplaceValue(members[..n - 1], key, x);
      LookupReplaceValue(members[..n - 1], key, x, k);
    }
  }

  /**
   * Property access `v[key]`: only objects have named members. A list has
   * integer keys only, and every key the plugin reads is a name.
   */
  function Get(v: Json, key: string): Option<Json>
  {
    if v.JObject? then Lookup(v.members, key) else None
  }

  /** The values of a list or an object in order (what `foreach` visits); nothing for a scalar. */
  function Elements(v: Json): (r: seq<Json>)
    ensures v.JList? ==> r == v.items
    ensures v.JObject? ==> |r| == |v.members| && forall i :: 0 <= i < |r| ==> r[i] == v.members[i].1
    ensures !v.JList? && !v.JObject? ==> r == []
  {
    match v
    case JList(items) => items
    case JObject(members) => seq(|members|, i requires 0 <= i < |members| => members[i].1)
    case _ => []
  }

  /** `s` holds no value twice. */
  predicate Distinct<T(==)>(s: seq<T>)
  {
    forall i, j :: 0 <= i < j < |s| ==> s[i] != s[j]
  }

  /** The first `n` elements of `s`, or all of them when there are fewer. */
  function Take<T>(s: seq<T>, n: nat): (r: seq<T>)
    ensures |r| <= n && |r| <= |s|
    ensures |s| <= n ==> r == s
    ensures r == s[..|r|]
    ensures forall x :: x in r ==> x in s
  {
    if |s| <= n then s else s[..n]
  }

  /**
   * `array_values(array_unique($s))`: the first occurrence of every value, in order.
   */
  function Dedup<T(==,!new)>(s: seq<T>): (r: seq<T>)
    ensures Distinct(r) && |r| <= |s|
    ensures forall x :: x in r <==> x in s
    decreases |s|
  {
    if |s| == 0 then []
    else
      var p := Dedup(s[..|s| - 1]);
      assert forall x :: x in s <==> x in s[..|s| - 1] || x == s[|s| - 1] by {
        assert s == s[..|s| - 1] + [s[|s| - 1]];
      }
      if s[|s| - 1] in p then p else p + [s[|s| - 1]]
  }

  /** A duplicate-free sequence is its own deduplication. */
  lemma {:induction false} DedupOfDistinct<T(!new)>(s: seq<T>)
    requires Distinct(s)
    ensures Dedup(s) == s
    decreases |s|
  {
    if |s| > 0 {
      DedupOfDistinct(s[..|s| - 1]);
    }
  }

  /** The elements of `s` that pass `p`, in order (`array_values(array_filter(...))`). */
  function Filter<T(!new)>(p: T -> bool, s: seq<T>): (r: seq<T>)
    ensures |r| <= |s|
    ensures forall x :: x in r <==> x in s && p(x)
    decreases |s|
  {
    if |s| == 0 then []
    else
      var last := s[|s| - 1];
      assert s == s[..|s| - 1] + [last];
      Filter(p, s[..|s| - 1]) + (if p(last) then [last] else [])
  }

  /** Filtering keeps a list whose elements all pass. */
  lemma {:induction false} FilterAll<T(!new)>(p: T -> bool, s: seq<T>)
    requires forall i :: 0 <= i < |s| ==> p(s[i])
    ensures Filter(p, s) == s
    decreases |s|
  {
    if |s| > 0 {
      var init := s[..|s| - 1];
      assert forall i :: 0 <= i < |init| ==> init[i] == s[i];
      FilterAll(p, init);
      assert p(s[|s| - 1]);
    }
  }

  /**
   * The outputs of `f` for the elements of `s`, in order: the shape of a
   * loop that visits each element and appends zero or more results.
   */
  function Collect<T, U>(f: T -> seq<U>, s: seq<T>): seq<U>
    decreases |s|
  {
    if |s| == 0 then [] else Collect(f, s[..|s| - 1]) + f(s[|s| - 1])
  }

  /** One more visited element appends its own outputs. */
  lemma CollectStep<T, U>(f: T -> seq<U>, s: seq<T>, i: nat)
    requires i < |s|
    ensures Collect(f, s[..i + 1]) == Collect(f, s[..i]) + f(s[i])
  {
    assert s[..i + 1][..i] == s[..i];
  }

  /** When every element contributes exactly one output, the outputs are those, in order. */
  lemma {:induction false} CollectEach<T, U>(f: T -> seq<U>, s: seq<T>, t: seq<U>)
    requires |s| == |t|
    requires forall i :: 0 <= i < |s| ==> f(s[i]) == [t[i]]
    ensures Collect(f, s) == t
    decreases |s|
  {
    if |s| > 0 {
      var n := |s|;
      CollectEach(f, s[..n - 1], t[..n - 1]);
      assert t == t[..n - 1] + [t[n - 1]];
    }
  }

  lemma {:induction false} CollectAppend<T, U>(f: T -> seq<U>, a: seq<T>, b: seq<T>)
    ensures Collect(f, a + b) == Collect(f, a) + Collect(f, b)
    decreases |b|
  {
    if |b| == 0 {
      assert a + b == a;
    } else {
      assert (a + b)[..|a + b| - 1] == a + b[..|b| - 1];
      CollectAppend(f, a, b[..|b| - 1]);
    }
  }

  /** A property every output of `f` on `s` has holds for everything collected. */
  lemma {:induction false} CollectAll<T, U>(f: T -> seq<U>, s: seq<T>, p: U -> bool)
    requires forall t, u :: t in s && u in f(t) ==> p(u)
    ensures forall u :: u in Collect(f, s) ==> p(u)
    decreases |s|
  {
    if |s| > 0 {
      CollectAll(f, s[..|s| - 1], p);
    }
  }

  /** When every element yields exactly itself, collecting gives the sequence back. */
  lemma {:induction false} CollectIdentity<T, U>(f: T -> seq<U>, s: seq<T>, g: T -> U)
    requires forall t :: t in s ==> f(t) == [g(t)]
    ensures |Collect(f, s)| == |s| && forall i :: 0 <= i < |s| ==> Collect(f, s)[i] == g(s[i])
    decreases |s|
  {
    if |s| > 0 {
      CollectIdentity(f, s[..|s| - 1], g);
    }
  }

  /** Once a prefix has produced `n` outputs, the first `n` outputs of the whole are those. */
  lemma TakeOfLongPrefix<T>(a: seq<T>, b: seq<T>, n: nat)
    requires |a| == n
    ensures Take(a + b, n) == a
  {
    assert (a + b)[..n] == a;
  }

  /** The outputs for a prefix are followed by the outputs for the rest. */
  lemma CollectPrefix<T, U>(f: T -> seq<U>, s: seq<T>, i: nat)
    requires i <= |s|
    ensures Collect(f, s) == Collect(f, s[..i]) + Collect(f, s[i..])
  {
    assert s == s[..i] + s[i..];
    CollectAppend(f, s[..i], s[i..]);
  }

  /** A subset is no larger than the set that contains it. */
  lemma {:induction false} SubsetCardinality<T>(a: set<T>, b: set<T>)
    requires a <= b
    ensures |a| <= |b|
    decreases |a|
  {
    if a != {} {
      var x :| x in a;
      assert a - {x} <= b - {x};
      SubsetCardinality(a - {x}, b - {x});
    }
  }
}
