/**
 * The list and string helpers of the generator (src/fp.ts), and the few
 * JavaScript built-ins the generator leans on (`split`, `join`, `filter`,
 * `toUpperCase`, object enumeration).
 *
 * A JavaScript object is modelled as an ordered association list `Obj<V>`:
 * the generator's output order follows the order in which keys were declared.
 */
module Fp {
  import opened Wrappers

  /** A plain JavaScript object: its own enumerable entries in insertion order. */
  datatype Obj<V> = Obj(entries: seq<(string, V)>)

  // ---------------------------------------------------------------------------
  // Base functions

  /**
   * The filter predicate of `rejectFalsy` (named `isFalsy` in the source,
   * although it holds exactly for the values that do NOT coerce to false).
   * A value that may be falsy is an `Option<string>`: `None` stands for
   * null, undefined, 0 and false; `Some("")` is the empty string.
   */
  function Truthy(value: Option<string>): (r: bool)
    ensures !r <==> value == None || value == Some("")
  {
    value.Some? && value.value != ""
  }

  /** `last`: the final element, `None` (undefined) on an empty list. */
  function Last<T>(list: seq<T>): (r: Option<T>)
    ensures r.Some? <==> |list| > 0
    ensures r.Some? ==> r.value == list[|list| - 1]
  {
    if |list| == 0 then None else Some(list[|list| - 1])
  }

  /** `first`: element 0, `None` (undefined) on an empty list. */
  function First<T>(list: seq<T>): (r: Option<T>)
    ensures r.Some? <==> |list| > 0
    ensures r.Some? ==> r.value == list[0]
  {
    if |list| == 0 then None else Some(list[0])
  }

  /** `tail`: everything after the first element; the empty list stays empty. */
  function Tail<T>(list: seq<T>): (r: seq<T>)
    ensures |list| > 0 ==> list == [list[0]] + r
    ensures |list| == 0 ==> r == []
  {
    if |list| == 0 then [] else list[1..]
  }

  /** `keys`: the keys of an object in enumeration order. */
  function Keys<V>(data: Obj<V>): (r: seq<string>)
    ensures |r| == |data.entries|
    ensures forall i | 0 <= i < |r| :: r[i] == data.entries[i].0
  {
    seq(|data.entries|, i requires 0 <= i < |data.entries| => data.entries[i].0)
  }

  /** `values` (Object.values): the values of an object in enumeration order. */
  function Values<V>(data: Obj<V>): (r: seq<V>)
    ensures |r| == |data.entries|
    ensures forall i | 0 <= i < |r| :: r[i] == data.entries[i].1
  {
    seq(|data.entries|, i requires 0 <= i < |data.entries| => data.entries[i].1)
  }

  /** `entries`: each key paired with its value, in the order `keys` lists them. */
  function Entries<V>(data: Obj<V>): (r: seq<(string, V)>)
    ensures |r| == |Keys(data)| == |Values(data)|
    ensures forall i | 0 <= i < |r| :: r[i] == (Keys(data)[i], Values(data)[i])
  {
    data.entries
  }

  /** Property access `data[key]`: the value of the first entry with that key. */
  function Lookup<V>(data: Obj<V>, key: string): (r: Option<V>)
    ensures r.Some? <==> key in Keys(data)
    ensures r.Some? ==> (key, r.value) in data.entries
    decreases |data.entries|
  {
    if |data.entries| == 0 then None
    else if data.entries[0].0 == key then Some(data.entries[0].1)
    else
      var rest := Obj(data.entries[1..]);
      assert Keys(data) == [data.entries[0].0] + Keys(rest);
      Lookup(rest, key)
  }

  /** `filter`: the elements satisfying `p`, in their original order. */
  function Filter<T(!new)>(p: T -> bool, list: seq<T>): (r: seq<T>)
    ensures |r| <= |list|
    ensures forall x :: x in r <==> x in list && p(x)
  {
    if |list| == 0 then []
    else (if p(list[0]) then [list[0]] else []) + Filter(p, list[1..])
  }

  /** `Array.prototype.join`. */
  function Join(parts: seq<string>, sep: string): string
  {
    if |parts| == 0 then ""
    else if |parts| == 1 then parts[0]
    else parts[0] + sep + Join(parts[1..], sep)
  }

  /** The pieces concatenated with nothing between them. */
  function Concat(parts: seq<string>): string
  {
    if |parts| == 0 then "" else parts[0] + Concat(parts[1..])
  }

  /**
   * `String.prototype.split` with a one-character separator: the pieces
   * between separators, at least one (`SplitInverse` states that joining
   * them back gives the input).
   */
  function Split(s: string, sep: char): (r: seq<string>)
    ensures |r| >= 1
  {
    if |s| == 0 then [""]
    else
      var rest := Split(s[1..], sep);
      if s[0] == sep then [""] + rest
      else [[s[0]] + rest[0]] + rest[1..]
  }

  /** `splitPath`. */
  function SplitPath(s: string): (r: seq<string>)
    ensures |r| >= 1 && Join(r, "/") == s
    ensures forall i | 0 <= i < |r| :: '/' !in r[i]
  {
    SplitInverse(s, '/');
    Split(s, '/')
  }

  // ---------------------------------------------------------------------------
  // Specialized functions

  /** `rejectFalsy`: the values that do not coerce to false, in order. */
  function RejectFalsy(list: seq<Option<string>>): (r: seq<string>)
    ensures |r| <= |list|
    ensures forall i | 0 <= i < |r| :: r[i] != ""
    ensures forall s :: s in r <==> Some(s) in list && s != ""
  {
    if |list| == 0 then []
    else (if Truthy(list[0]) then [list[0].value] else []) + RejectFalsy(list[1..])
  }

  /** The strings of a list as present values (the inverse direction of `RejectFalsy`). */
  function Lift(list: seq<string>): (r: seq<Option<string>>)
    ensures |r| == |list| && forall i | 0 <= i < |r| :: r[i] == Some(list[i])
  {
    seq(|list|, i requires 0 <= i < |list| => Some(list[i]))
  }

  /** ASCII upper-casing of one character (`toUpperCase` on a letter a-z). */
  function UpperChar(c: char): (r: char)
    ensures 'a' <= c <= 'z' ==> r as int == c as int - 32 && 'A' <= r <= 'Z'
    ensures !('a' <= c <= 'z') ==> r == c
  {
    if 'a' <= c <= 'z' then (c as int - 32) as char else c
  }

  /** `toUpperCase` on a whole string, ASCII letters only. */
  function ToUpper(s: string): (r: string)
    ensures |r| == |s| && forall i | 0 <= i < |s| :: r[i] == UpperChar(s[i])
  {
    seq(|s|, i requires 0 <= i < |s| => UpperChar(s[i]))
  }

  /**
   * `inCamelCase`: the first character upper-cased, the rest unchanged. The
   * source dereferences `first(str)!`, which fails on the empty string.
   */
  function InCamelCase(str: string): (r: string)
    requires |str| > 0
    ensures |r| == |str|
    ensures r[0] == UpperChar(str[0]) && r[1..] == str[1..]
  {
    [UpperChar(First(str).value)] + Tail(str)
  }

  // ---------------------------------------------------------------------------
  // Lists without repetitions and ordered grouping

  predicate NoDuplicates<T(==)>(list: seq<T>)
  {
    forall i, j | 0 <= i < j < |list| :: list[i] != list[j]
  }

  /**
   * `existing` followed by the elements of `items` it does not already hold,
   * each added once, in their order of first appearance.
   */
  function AppendNew<T(==,!new)>(existing: seq<T>, items: seq<T>): (r: seq<T>)
    ensures |existing| <= |r| && r[..|existing|] == existing
    ensures forall x :: x in r <==> x in existing || x in items
    decreases |items|
  {
    if |items| == 0 then existing
    else
      var next := if items[0] in existing then existing else existing + [items[0]];
      var r := AppendNew(next, items[1..]);
      assert r[..|existing|] == next[..|existing|];
      r
  }

  /** The elements of `list` whose key is `k`, in order. */
  function Group<T(!new)>(key: T -> string, list: seq<T>, k: string): (r: seq<T>)
    ensures |r| <= |list|
    ensures forall x :: x in r <==> x in list && key(x) == k
  {
    if |list| == 0 then []
    else (if key(list[0]) == k then [list[0]] else []) + Group(key, list[1..], k)
  }

  /**
   * `groupBy` (imported by the service generator, not defined in fp.ts): an
   * order-preserving partition of `list` by `key`. Its contract is assumed:
   * one entry per distinct key, in order of first appearance, holding the
   * elements with that key in their original order.
   */
  function GroupBy<T(!new)>(key: T -> string, list: seq<T>): (r: Obj<seq<T>>)
    ensures NoDuplicates(Keys(r))
    ensures forall i | 0 <= i < |r.entries| :: r.entries[i].1 == Group(key, list, r.entries[i].0)
    ensures forall x | x in list :: key(x) in Keys(r)
    ensures forall k | k in Keys(r) :: Group(key, list, k) != []
  {
    var image := Image(key, list);
    var ks := AppendNew([], image);
    var r := Obj(seq(|ks|, i requires 0 <= i < |ks| => (ks[i], Group(key, list, ks[i]))));
    assert Keys(r) == ks;
    AppendNewNoDuplicates([], image);
    ImageHasEveryKey(key, list);
    r
  }

  /** The key of each element, in order. */
  function Image<T>(key: T -> string, list: seq<T>): (r: seq<string>)
    ensures |r| == |list| && forall i | 0 <= i < |list| :: r[i] == key(list[i])
  {
    seq(|list|, i requires 0 <= i < |list| => key(list[i]))
  }

  /** Every element's key is in the image, and every key of the image has a non-empty group. */
  lemma ImageHasEveryKey<T(!new)>(key: T -> string, list: seq<T>)
    ensures forall x | x in list :: key(x) in Image(key, list)
    ensures forall k | k in Image(key, list) :: Group(key, list, k) != []
  {
    var image := Image(key, list);
    forall x | x in list ensures key(x) in image {
      var i :| 0 <= i < |list| && list[i] == x;
      assert image[i] == key(x);
    }
    forall k | k in image ensures Group(key, list, k) != [] {
      var i :| 0 <= i < |image| && image[i] == k;
      assert list[i] in Group(key, list, k);
    }
  }

  /**
   * `listToObject` (imported by the service generator, not defined in fp.ts):
   * an ordered record with one entry per element, built by `toPair`. Its
   * contract is assumed.
   */
  function ListToObject<T, V>(list: seq<T>, toPair: T -> (string, V)): (r: Obj<V>)
    ensures |r.entries| == |list|
    ensures forall i | 0 <= i < |list| :: r.entries[i] == toPair(list[i])
  {
    Obj(seq(|list|, i requires 0 <= i < |list| => toPair(list[i])))
  }

  // ---------------------------------------------------------------------------
  // Lemmas

  /** The pieces of a split hold no separator, and joining them with it gives the input back. */
  lemma SplitInverse(s: string, sep: char)
    ensures forall i | 0 <= i < |Split(s, sep)| :: sep !in Split(s, sep)[i]
    ensures Join(Split(s, sep), [sep]) == s
  {
    SplitPiecesFree(s, sep);
    SplitJoinsBack(s, sep);
  }

  /** No piece of a split holds the separator. */
  lemma {:induction false} SplitPiecesFree(s: string, sep: char)
    ensures forall i | 0 <= i < |Split(s, sep)| :: sep !in Split(s, sep)[i]
  {
    if |s| > 0 {
      var rest := Split(s[1..], sep);
      SplitPiecesFree(s[1..], sep);
      if s[0] != sep {
        var r := [[s[0]] + rest[0]] + rest[1..];
        assert Split(s, sep) == r;
        assert forall i | 1 <= i < |r| :: r[i] == rest[i];
      }
    }
  }

  /** Joining the pieces of a split with the separator gives the input back. */
  lemma {:induction false} SplitJoinsBack(s: string, sep: char)
    ensures Join(Split(s, sep), [sep]) == s
  {
    if |s| > 0 {
      var rest := Split(s[1..], sep);
      SplitJoinsBack(s[1..], sep);
      assert s == [s[0]] + s[1..];
      if s[0] == sep {
        assert Split(s, sep) == [""] + rest;
      } else {
        var r := [[s[0]] + rest[0]] + rest[1..];
        assert Split(s, sep) == r;
        if |rest| > 1 {
          assert Join(rest, [sep]) == rest[0] + [sep] + Join(rest[1..], [sep]);
          assert Join(r, [sep]) == ([s[0]] + rest[0]) + [sep] + Join(rest[1..], [sep]);
        }
      }
    }
  }

  /** `split` and `join` are inverse: splitting a join of separator-free pieces gives the pieces back. */
  lemma {:induction false} SplitJoin(parts: seq<string>, sep: char)
    requires |parts| >= 1
    requires forall i | 0 <= i < |parts| :: sep !in parts[i]
    ensures Split(Join(parts, [sep]), sep) == parts
  {
    if |parts| == 1 {
      SplitWithoutSeparator(parts[0], sep);
    } else {
      SplitJoin(parts[1..], sep);
      SplitAfterPiece(parts[0], Join(parts[1..], [sep]), sep);
      assert parts == [parts[0]] + parts[1..];
    }
  }

  /** A string without the separator splits into itself alone. */
  lemma {:induction false} SplitWithoutSeparator(s: string, sep: char)
    requires sep !in s
    ensures Split(s, sep) == [s]
  {
    if |s| > 0 {
      SplitWithoutSeparator(s[1..], sep);
      assert s == [s[0]] + s[1..];
    }
  }

  /** Splitting `a + sep + b`, where `a` holds no separator, yields `a` then the pieces of `b`. */
  lemma {:induction false} SplitAfterPiece(a: string, b: string, sep: char)
    requires sep !in a
    ensures Split(a + [sep] + b, sep) == [a] + Split(b, sep)
  {
    if |a| == 0 {
      assert a + [sep] + b == [sep] + b;
      assert ([sep] + b)[1..] == b;
    } else {
      SplitAfterPiece(a[1..], b, sep);
      assert (a + [sep] + b)[1..] == a[1..] + [sep] + b;
      assert a == [a[0]] + a[1..];
    }
  }

  /** The number of pieces is one more than the number of separators. */
  lemma {:induction false} SplitCount(s: string, sep: char)
    ensures |Split(s, sep)| == multiset(s)[sep] + 1
  {
    if |s| > 0 {
      SplitCount(s[1..], sep);
      assert s == [s[0]] + s[1..];
      assert multiset(s) == multiset{s[0]} + multiset(s[1..]);
    }
  }

  /**
   * The last piece of a join is a suffix of it; with more than one piece,
   * the separator comes right before it.
   */
  lemma {:induction false} JoinLastSuffix(parts: seq<string>, sep: char)
    requires |parts| >= 1
    ensures var j, r := Join(parts, [sep]), parts[|parts| - 1];
      && |r| <= |j| && r == j[|j| - |r|..]
      && (|parts| > 1 ==> |r| < |j| && j[|j| - |r| - 1] == sep)
    decreases |parts|
  {
    var j, r := Join(parts, [sep]), parts[|parts| - 1];
    if |parts| == 1 {
      assert j == r == j[0..];
    } else {
      var tail := Join(parts[1..], [sep]);
      JoinLastSuffix(parts[1..], sep);
      assert j == (parts[0] + [sep]) + tail;
      assert tail[|tail| - |r|..] == j[|j| - |r|..];
      if |parts| == 2 {
        assert r == tail;
        assert j[|j| - |r| - 1] == sep;
      } else {
        assert tail[|tail| - |r| - 1] == j[|j| - |r| - 1];
      }
    }
  }

  /**
   * The last piece of a split is what follows the last separator: a suffix
   * without the separator, preceded by the separator unless it is the whole string.
   */
  lemma LastPiece(s: string, sep: char)
    ensures var r := Last(Split(s, sep)).value;
      && |r| <= |s| && r == s[|s| - |r|..]
      && sep !in r
      && (|r| < |s| ==> s[|s| - |r| - 1] == sep)
  {
    var pieces := Split(s, sep);
    var r := pieces[|pieces| - 1];
    assert Last(pieces).value == r;
    SplitInverse(s, sep);
    assert sep !in r;
    JoinLastSuffix(pieces, sep);
    if |pieces| == 1 {
      assert r == s == s[0..];
    }
  }

  /** `rejectFalsy` distributes over concatenation, so it keeps the relative order. */
  lemma {:induction false} RejectFalsyAppend(a: seq<Option<string>>, b: seq<Option<string>>)
    ensures RejectFalsy(a + b) == RejectFalsy(a) + RejectFalsy(b)
  {
    if |a| > 0 {
      RejectFalsyAppend(a[1..], b);
      assert (a + b)[0] == a[0];
      assert (a + b)[1..] == a[1..] + b;
    } else {
      assert a + b == b;
    }
  }

  /** `filter` distributes over concatenation, so it keeps order and multiplicity. */
  lemma {:induction false} FilterAppend<T(!new)>(p: T -> bool, a: seq<T>, b: seq<T>)
    ensures Filter(p, a + b) == Filter(p, a) + Filter(p, b)
  {
    if |a| > 0 {
      FilterAppend(p, a[1..], b);
      assert (a + b)[0] == a[0];
      assert (a + b)[1..] == a[1..] + b;
    } else {
      assert a + b == b;
    }
  }

  /** On one element, `filter` keeps it exactly when it satisfies the predicate. */
  lemma FilterSingleton<T(!new)>(p: T -> bool, x: T)
    ensures Filter(p, [x]) == if p(x) then [x] else []
  {
    assert [x][1..] == [];
  }

  /** A group distributes over concatenation, so it keeps order and multiplicity. */
  lemma {:induction false} GroupAppend<T(!new)>(key: T -> string, a: seq<T>, b: seq<T>, k: string)
    ensures Group(key, a + b, k) == Group(key, a, k) + Group(key, b, k)
  {
    if |a| > 0 {
      GroupAppend(key, a[1..], b, k);
      assert (a + b)[0] == a[0];
      assert (a + b)[1..] == a[1..] + b;
    } else {
      assert a + b == b;
    }
  }

  /** On one element, a group holds it exactly when it has the group's key. */
  lemma GroupSingleton<T(!new)>(key: T -> string, x: T, k: string)
    ensures Group(key, [x], k) == if key(x) == k then [x] else []
  {
    assert [x][1..] == [];
  }

  /** A truthy head is kept in front of what `rejectFalsy` makes of the tail. */
  lemma RejectFalsyTruthyHead(list: seq<Option<string>>)
    requires |list| > 0 && Truthy(list[0])
    ensures RejectFalsy(list) == [list[0].value] + RejectFalsy(list[1..])
  {
  }

  /** A list of non-empty strings passes through `rejectFalsy` unchanged. */
  lemma {:induction false} RejectFalsyKeepsNonEmpty(list: seq<string>)
    requires forall i | 0 <= i < |list| :: list[i] != ""
    ensures RejectFalsy(Lift(list)) == list
  {
    if |list| > 0 {
      var lifted := Lift(list);
      assert lifted[0] == Some(list[0]);
      RejectFalsyTruthyHead(lifted);
      assert lifted[1..] == Lift(list[1..]);
      RejectFalsyKeepsNonEmpty(list[1..]);
      assert list == [list[0]] + list[1..];
    }
  }

  /** `rejectFalsy` is idempotent. */
  lemma RejectFalsyIdempotent(list: seq<Option<string>>)
    ensures RejectFalsy(Lift(RejectFalsy(list))) == RejectFalsy(list)
  {
    RejectFalsyKeepsNonEmpty(RejectFalsy(list));
  }

  /** Upper-casing the first character twice changes nothing more. */
  lemma InCamelCaseIdempotent(str: string)
    requires |str| > 0
    ensures InCamelCase(InCamelCase(str)) == InCamelCase(str)
  {
  }

  /** `AppendNew` keeps a list free of repetitions. */
  lemma {:induction false} AppendNewNoDuplicates<T(!new)>(existing: seq<T>, items: seq<T>)
    requires NoDuplicates(existing)
    ensures NoDuplicates(AppendNew(existing, items))
    decreases |items|
  {
    if |items| > 0 {
      var next := if items[0] in existing then existing else existing + [items[0]];
      AppendNewNoDuplicates(next, items[1..]);
    }
  }

  /** Adding one more item to `AppendNew` adds it at the end unless it is already there. */
  lemma {:induction false} AppendNewSnoc<T(!new)>(existing: seq<T>, items: seq<T>, x: T)
    ensures AppendNew(existing, items + [x]) ==
      var a := AppendNew(existing, items); if x in a then a else a + [x]
    decreases |items|
  {
    if |items| == 0 {
      assert items + [x] == [x];
    } else {
      var next := if items[0] in existing then existing else existing + [items[0]];
      assert (items + [x])[0] == items[0];
      assert (items + [x])[1..] == items[1..] + [x];
      AppendNewSnoc(next, items[1..], x);
    }
  }

  /** Concatenating one more piece appends it at the end. */
  lemma {:induction false} ConcatSnoc(parts: seq<string>, x: string)
    ensures Concat(parts + [x]) == Concat(parts) + x
  {
    if |parts| == 0 {
      assert parts + [x] == [x];
    } else {
      assert (parts + [x])[1..] == parts[1..] + [x];
      ConcatSnoc(parts[1..], x);
    }
  }

  /** With unique keys, property access finds the value of the entry with that key. */
  lemma {:induction false} LookupUnique<V>(data: Obj<V>, i: nat)
    requires NoDuplicates(Keys(data))
    requires i < |data.entries|
    ensures Lookup(data, data.entries[i].0) == Some(data.entries[i].1)
    decreases i
  {
    if i > 0 {
      var rest := Obj(data.entries[1..]);
      assert Keys(data)[0] != Keys(data)[i];
      assert Keys(data) == [data.entries[0].0] + Keys(rest);
      LookupUnique(rest, i - 1);
    }
  }

  /** An entry whose key no earlier entry has is what looking up that key finds. */
  lemma {:induction false} LookupFirstMatch<V>(data: Obj<V>, i: nat)
    requires i < |data.entries|
    requires forall j | 0 <= j < i :: data.entries[j].0 != data.entries[i].0
    ensures Lookup(data, data.entries[i].0) == Some(data.entries[i].1)
    decreases i
  {
    if i > 0 {
      var rest := Obj(data.entries[1..]);
      assert data.entries[0].0 != data.entries[i].0;
      assert rest.entries[i - 1] == data.entries[i];
      forall j | 0 <= j < i - 1 ensures rest.entries[j].0 != rest.entries[i - 1].0 {
        assert rest.entries[j] == data.entries[j + 1];
      }
      LookupFirstMatch(rest, i - 1);
    }
  }

  /** The slices of `a + (b + c + d)`: `a + b` in front, `c` between it and `d`. */
  lemma FramedParts<T>(a: seq<T>, b: seq<T>, c: seq<T>, d: seq<T>)
    ensures var r := a + (b + c + d);
      && |r| == |a| + |b| + |c| + |d|
      && r[..|a| + |b|] == a + b
      && r[|a| + |b|..|r| - |d|] == c
  {
    var r := a + (b + c + d);
    assert r == (a + b) + c + d;
  }

  /** Dropping the head of a prefix is taking the shorter prefix of the tail. */
  lemma TailOfPrefix<T>(list: seq<T>, k: nat)
    requires 0 < k <= |list|
    ensures list[..k][1..] == list[1..][..k - 1]
  {
  }

  /** A non-empty list is its front followed by its last element. */
  lemma InitLast<T>(list: seq<T>)
    requires |list| > 0
    ensures list == list[..|list| - 1] + [list[|list| - 1]]
  {
  }

  /** A second update of the same key replaces the first. */
  lemma UpdateTwice<K, V>(m: map<K, V>, k: K, a: V, b: V)
    ensures m[k := a][k := b] == m[k := b]
  {
  }

  /** Every key of an object can be looked up. */
  lemma KeysLookup<V>(data: Obj<V>)
    ensures forall k | k in Keys(data) :: Lookup(data, k).Some?
  {
  }

  /** Looking up a key in a grouping gives its group, or nothing when no element has that key. */
  lemma GroupByLookup<T(!new)>(key: T -> string, list: seq<T>, k: string)
    ensures Lookup(GroupBy(key, list), k) == if Group(key, list, k) == [] then None else Some(Group(key, list, k))
  {
    var r := GroupBy(key, list);
    var g := Group(key, list, k);
    if g != [] {
      assert g[0] in g;
    }
    if k in Keys(r) {
      var i :| 0 <= i < |Keys(r)| && Keys(r)[i] == k;
      LookupUnique(r, i);
      assert r.entries[i].1 == g;
    }
  }
}
