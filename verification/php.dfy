/**
 * PHP values and the handful of array built-ins the post-type and taxonomy
 * helpers rely on: lookup, assignment, appending, `isset`, `empty`,
 * `array_merge` and `array_replace_recursive`.
 *
 * A PHP array is an ordered dictionary; it is modelled as a sequence of
 * key/value pairs in insertion order. Assignment to an existing key keeps
 * the key's position, assignment to a new key appends, as PHP does.
 */
module Php {

  datatype Option<+T> = None | Some(value: T)

  datatype Result<+T, +E> = Success(value: T) | Failure(error: E)

  /** An array key: a string key or an integer key. */
  datatype Key = Name(name: string) | Index(index: int)

  /** The PHP values the model needs (floats and objects are not modelled). */
  datatype Value =
    | Null
    | Bool(b: bool)
    | Int(i: int)
    | Str(s: string)
    | Arr(entries: seq<(Key, Value)>)

  type Entries = seq<(Key, Value)>

  function Keys(a: Entries): set<Key>
  {
    if a == [] then {} else {a[0].0} + Keys(a[1..])
  }

  /** PHP arrays never hold a key twice. */
  predicate DistinctKeys(a: Entries)
  {
    a == [] || (a[0].0 !in Keys(a[1..]) && DistinctKeys(a[1..]))
  }

  /** Distinct keys at every nesting level. */
  ghost predicate WellFormed(a: Entries)
    decreases Arr(a), 0
  {
    && DistinctKeys(a)
    && forall i :: 0 <= i < |a| ==> a[i].1.Arr? ==> WellFormed(a[i].1.entries)
  }

  /** The value stored under a key, or None when the key is absent. */
  function Get(a: Entries, k: Key): (r: Option<Value>)
    ensures r.Some? <==> k in Keys(a)
  {
    if a == [] then None
    else if a[0].0 == k then Some(a[0].1)
    else Get(a[1..], k)
  }

  /** The position at which `Get` finds a present key. */
  lemma {:induction false} GetAt(a: Entries, k: Key) returns (i: nat)
    requires k in Keys(a)
    ensures i < |a| && a[i] == (k, Get(a, k).value)
  {
    if a[0].0 == k {
      i := 0;
    } else {
      var j := GetAt(a[1..], k);
      i := j + 1;
    }
  }

  /** PHP's `isset` on an array element: the key is present and its value is not null. */
  predicate Isset(a: Entries, k: string)
  {
    var v := Get(a, Name(k));
    v.Some? && !v.value.Null?
  }

  /** PHP's conversion of a value to boolean. */
  predicate Truthy(v: Value)
  {
    match v
    case Null => false
    case Bool(b) => b
    case Int(i) => i != 0
    case Str(s) => s != "" && s != "0"
    case Arr(es) => es != []
  }

  /** PHP's `empty` on a variable that exists. */
  predicate Empty(v: Value)
  {
    !Truthy(v)
  }

  lemma {:induction false} KeysAppend(a: Entries, e: (Key, Value))
    ensures Keys(a + [e]) == Keys(a) + {e.0}
  {
    if a != [] {
      assert (a + [e])[1..] == a[1..] + [e];
      KeysAppend(a[1..], e);
    }
  }

  lemma {:induction false} DistinctAppend(a: Entries, e: (Key, Value))
    requires DistinctKeys(a) && e.0 !in Keys(a)
    ensures DistinctKeys(a + [e])
  {
    if a != [] {
      assert (a + [e])[1..] == a[1..] + [e];
      KeysAppend(a[1..], e);
      DistinctAppend(a[1..], e);
    }
  }

  /** Assignment to an array element: overwrite in place, or append when the key is new. */
  function Set(a: Entries, k: Key, v: Value): (r: Entries)
    ensures Get(r, k) == Some(v)
    ensures forall k' :: k' != k ==> Get(r, k') == Get(a, k')
    ensures Keys(r) == Keys(a) + {k}
    ensures k in Keys(a) ==> |r| == |a|
    ensures k !in Keys(a) ==> r == a + [(k, v)]
  {
    if a == [] then [(k, v)]
    else if a[0].0 == k then [(k, v)] + a[1..]
    else
      var rest := Set(a[1..], k, v);
      assert ([a[0]] + rest)[1..] == rest;
      [a[0]] + rest
  }

  lemma {:induction false} SetKeepsDistinct(a: Entries, k: Key, v: Value)
    requires DistinctKeys(a)
    ensures DistinctKeys(Set(a, k, v))
  {
    if a != [] && a[0].0 != k {
      SetKeepsDistinct(a[1..], k, v);
      assert ([a[0]] + Set(a[1..], k, v))[1..] == Set(a[1..], k, v);
    } else if a != [] {
      assert ([(k, v)] + a[1..])[1..] == a[1..];
    }
  }

  /** The integer key an append without a key uses: one more than the largest integer key, and never below 0. */
  function NextIndex(a: Entries): int
  {
    if a == [] then 0
    else
      var n := NextIndex(a[..|a| - 1]);
      match a[|a| - 1].0
      case Index(j) => if j + 1 > n then j + 1 else n
      case Name(_) => n
  }

  lemma {:induction false} NextIndexIsFree(a: Entries)
    ensures NextIndex(a) >= 0
    ensures forall j :: Index(j) in Keys(a) ==> j < NextIndex(a)
  {
    if a != [] {
      var init := a[..|a| - 1];
      NextIndexIsFree(init);
      assert a == init + [a[|a| - 1]];
      KeysAppend(init, a[|a| - 1]);
    }
  }

  /** Appending without a key: the value goes under the next free integer key. */
  function Push(a: Entries, v: Value): (r: Entries)
    ensures r == a + [(Index(NextIndex(a)), v)]
    ensures Index(NextIndex(a)) !in Keys(a)
    ensures DistinctKeys(a) ==> DistinctKeys(r)
  {
    NextIndexIsFree(a);
    if DistinctKeys(a) then DistinctAppend(a, (Index(NextIndex(a)), v)); a + [(Index(NextIndex(a)), v)]
    else a + [(Index(NextIndex(a)), v)]
  }

  /** A PHP list literal `array(v0, v1, ...)`. */
  function ListOf(vs: seq<Value>): (r: Entries)
    ensures |r| == |vs|
    ensures forall i :: 0 <= i < |vs| ==> r[i] == (Index(i), vs[i])
  {
    seq(|vs|, i requires 0 <= i < |vs| => (Index(i), vs[i]))
  }

  lemma {:induction false} GetAppend(a: Entries, k: Key, v: Value, k': Key)
    ensures Get(a + [(k, v)], k') == if Get(a, k').Some? then Get(a, k') else if k == k' then Some(v) else None
  {
    if a != [] {
      assert (a + [(k, v)])[1..] == a[1..] + [(k, v)];
      GetAppend(a[1..], k, v, k');
    }
  }

  /** A key met for the first time at position `i` is found there. */
  lemma {:induction false} GetFirstMatch(a: Entries, i: nat)
    requires i < |a|
    requires forall j :: 0 <= j < i ==> a[j].0 != a[i].0
    ensures Get(a, a[i].0) == Some(a[i].1)
  {
    if i > 0 {
      GetFirstMatch(a[1..], i - 1);
    }
  }

  // ---------------------------------------------------------------- array_merge

  /** One entry of `array_merge`: string keys overwrite, integer keys are appended renumbered. */
  function MergeEntry(acc: Entries, e: (Key, Value)): Entries
  {
    match e.0
    case Name(_) => Set(acc, e.0, e.1)
    case Index(_) => Push(acc, e.1)
  }

  function MergeAll(acc: Entries, b: Entries): Entries
    decreases |b|
  {
    if b == [] then acc else MergeAll(MergeEntry(acc, b[0]), b[1..])
  }

  /** PHP's `array_merge` of two arrays. */
  function ArrayMerge(a: Entries, b: Entries): Entries
  {
    MergeAll(MergeAll([], a), b)
  }

  lemma {:induction false} MergeAllNamed(acc: Entries, b: Entries, n: string)
    requires DistinctKeys(b)
    ensures Get(MergeAll(acc, b), Name(n)) == if Name(n) in Keys(b) then Get(b, Name(n)) else Get(acc, Name(n))
    decreases |b|
  {
    if b != [] {
      var acc' := MergeEntry(acc, b[0]);
      MergeAllNamed(acc', b[1..], n);
      if b[0].0.Index? {
        GetAppend(acc, Index(NextIndex(acc)), b[0].1, Name(n));
      }
    }
  }

  /** `array_merge` on string keys: a key of `b` wins, other keys keep `a`'s value. */
  lemma ArrayMergeNamed(a: Entries, b: Entries, n: string)
    requires DistinctKeys(a) && DistinctKeys(b)
    ensures Get(ArrayMerge(a, b), Name(n)) == if Name(n) in Keys(b) then Get(b, Name(n)) else Get(a, Name(n))
  {
    MergeAllNamed([], a, n);
    MergeAllNamed(MergeAll([], a), b, n);
  }

  // ---------------------------------------------------- array_replace_recursive

  /**
   * The value `array_replace_recursive` keeps for a key the replacement
   * provides: when both sides hold arrays they are merged recursively,
   * otherwise the replacement's value wins.
   */
  function Merged(existing: Option<Value>, w: Value): Value
    decreases w, 2
  {
    if w.Arr? && existing.Some? && existing.value.Arr? then
      Arr(ReplaceRecursive(existing.value.entries, w.entries))
    else w
  }

  /** PHP's `array_replace_recursive`: `repl` applied over `base`. */
  function ReplaceRecursive(base: Entries, repl: Entries): Entries
    decreases Arr(repl), 1
  {
    ReplaceFrom(base, repl, 0)
  }

  /** Applies the replacement entries from position `i` on, in order. */
  function ReplaceFrom(acc: Entries, repl: Entries, i: nat): Entries
    requires i <= |repl|
    decreases Arr(repl), 0, |repl| - i
  {
    if i == |repl| then acc
    else
      var k := repl[i].0;
      ReplaceFrom(Set(acc, k, Merged(Get(acc, k), repl[i].1)), repl, i + 1)
  }

  lemma {:induction false} ReplaceFromGet(acc: Entries, repl: Entries, i: nat, k: Key)
    requires i <= |repl| && DistinctKeys(repl[i..])
    ensures Get(ReplaceFrom(acc, repl, i), k) ==
      match Get(repl[i..], k)
      case None => Get(acc, k)
      case Some(w) => Some(Merged(Get(acc, k), w))
    decreases |repl| - i
  {
    if i < |repl| {
      var k' := repl[i].0;
      var acc' := Set(acc, k', Merged(Get(acc, k'), repl[i].1));
      assert repl[i..][1..] == repl[i + 1..];
      ReplaceFromGet(acc', repl, i + 1, k);
    }
  }

  /** Lookup in the result of `array_replace_recursive`, key by key. */
  lemma ReplaceRecursiveGet(base: Entries, repl: Entries, k: Key)
    requires DistinctKeys(repl)
    ensures Get(ReplaceRecursive(base, repl), k) ==
      match Get(repl, k)
      case None => Get(base, k)
      case Some(w) => Some(Merged(Get(base, k), w))
  {
    ReplaceFromGet(base, repl, 0, k);
    assert repl[0..] == repl;
  }

  /** The value reached by following `path` through nested arrays, if any. */
  function PathGet(a: Entries, path: seq<Key>): Option<Value>
    decreases |path|
  {
    if path == [] then Some(Arr(a))
    else
      match Get(a, path[0])
      case None => None
      case Some(v) =>
        if |path| == 1 then Some(v)
        else if v.Arr? then PathGet(v.entries, path[1..])
        else None
  }

  /**
   * The replacement array provides a value somewhere along `path`: at the
   * path itself, or a non-array at one of its prefixes that replaces what
   * lies below.
   */
  predicate Touches(a: Entries, path: seq<Key>)
    decreases |path|
  {
    && path != []
    && match Get(a, path[0])
       case None => false
       case Some(v) => |path| == 1 || !v.Arr? || Touches(v.entries, path[1..])
  }

  lemma WellFormedAt(a: Entries, k: Key)
    requires WellFormed(a)
    requires Get(a, k).Some? && Get(a, k).value.Arr?
    ensures WellFormed(Get(a, k).value.entries)
  {
    var i := GetAt(a, k);
  }

  lemma {:induction false} UntouchedIsAbsent(a: Entries, path: seq<Key>)
    requires path != [] && !Touches(a, path)
    ensures PathGet(a, path) == None
    decreases |path|
  {
    match Get(a, path[0])
    case None =>
    case Some(v) =>
      UntouchedIsAbsent(v.entries, path[1..]);
  }

  /**
   * The caller's options win at every nesting level: a non-array value the
   * replacement holds at `path` is the value the result holds there.
   */
  lemma {:induction false} CallerValueWins(base: Entries, repl: Entries, path: seq<Key>, v: Value)
    requires WellFormed(repl)
    requires PathGet(repl, path) == Some(v) && !v.Arr?
    ensures PathGet(ReplaceRecursive(base, repl), path) == Some(v)
    decreases |path|
  {
    var k := path[0];
    var w := Get(repl, k).value;
    ReplaceRecursiveGet(base, repl, k);
    if |path| > 1 {
      WellFormedAt(repl, k);
      var b := Get(base, k);
      if b.Some? && b.value.Arr? {
        CallerValueWins(b.value.entries, w.entries, path[1..], v);
      }
    }
  }

  /**
   * Defaults survive: where the replacement provides nothing along `path`,
   * the result holds exactly what the base holds.
   */
  lemma {:induction false} UntouchedDefaultSurvives(base: Entries, repl: Entries, path: seq<Key>)
    requires WellFormed(repl)
    requires path != [] && !Touches(repl, path)
    ensures PathGet(ReplaceRecursive(base, repl), path) == PathGet(base, path)
    decreases |path|
  {
    var k := path[0];
    ReplaceRecursiveGet(base, repl, k);
    match Get(repl, k)
    case None =>
    case Some(w) =>
      WellFormedAt(repl, k);
      var b := Get(base, k);
      if b.Some? && b.value.Arr? {
        UntouchedDefaultSurvives(b.value.entries, w.entries, path[1..]);
      } else {
        UntouchedIsAbsent(w.entries, path[1..]);
      }
  }

  // ------------------------------------------------------ string conversion

  function DigitChar(d: nat): char
    requires d < 10
  {
    "0123456789"[d]
  }

  function NatToDecimal(n: nat): string
  {
    if n < 10 then [DigitChar(n)] else NatToDecimal(n / 10) + [DigitChar(n % 10)]
  }

  /** PHP's conversion of a value to string (arrays convert to "Array"). */
  function ToStr(v: Value): string
  {
    match v
    case Null => ""
    case Bool(b) => if b then "1" else ""
    case Int(i) => if i < 0 then "-" + NatToDecimal(-i) else NatToDecimal(i)
    case Str(s) => s
    case Arr(_) => "Array"
  }
}
