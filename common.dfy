/**
 * Value types shared by the device modules: an optional value (Python's
 * `None` or a value) and the clamping rule that the property setters of the
 * oscilloscopes and generators apply before writing to the hardware.
 */
module Common {

  datatype Option<T> = None | Some(value: T)

  /** Python's `min(hi, max(lo, v))` on reals. */
  function Clamp(lo: real, hi: real, v: real): (r: real)
    ensures lo <= hi ==> lo <= r <= hi
    ensures lo <= v <= hi ==> r == v
    ensures v < lo ==> r == (if lo <= hi then lo else hi)
    ensures hi < v ==> r == hi
  {
    var m := if v > lo then v else lo;
    if m < hi then m else hi
  }

  /**
   * Python's `min(hi, max(lo, v))` on integers. Python's `min` and `max` take
   * any number; Dafny's `int` and `real` share no type a single function
   * could range over, and the integer settings (record lengths, counts,
   * channel numbers) would otherwise round-trip through `real` and `.Floor`.
   */
  function ClampInt(lo: int, hi: int, v: int): (r: int)
    ensures lo <= hi ==> lo <= r <= hi
    ensures lo <= v <= hi ==> r == v
    ensures v < lo ==> r == (if lo <= hi then lo else hi)
    ensures hi < v ==> r == hi
  {
    var m := if v > lo then v else lo;
    if m < hi then m else hi
  }

  function MinReal(a: real, b: real): (r: real)
    ensures r <= a && r <= b && (r == a || r == b)
  {
    if b < a then b else a
  }

  function MaxReal(a: real, b: real): (r: real)
    ensures r >= a && r >= b && (r == a || r == b)
  {
    if b > a then b else a
  }

  /** `min` on lengths: its result is a `nat`, usable as a slice bound without conversion. */
  function MinNat(a: nat, b: nat): (r: nat)
    ensures r <= a && r <= b && (r == a || r == b)
  {
    if b < a then b else a
  }

  // ---------------------------------------------------------------------
  // Insertion-ordered dictionaries

  /** A Python dictionary: its items in insertion order. */
  type Assoc<K, V> = seq<(K, V)>

  ghost predicate UniqueKeys<K, V>(r: Assoc<K, V>)
  {
    forall i, j :: 0 <= i < j < |r| ==> r[i].0 != r[j].0
  }

  /** `d.get(k)`. */
  function Lookup<K(==), V>(r: Assoc<K, V>, k: K): (v: Option<V>)
    ensures v.Some? <==> exists i :: 0 <= i < |r| && r[i].0 == k
    ensures v.Some? ==> exists i :: 0 <= i < |r| && r[i] == (k, v.value)
  {
    if r == [] then None
    else if r[0].0 == k then Some(r[0].1)
    else
      var v := Lookup(r[1..], k);
      assert v.Some? ==> r[1..][0].0 != k || r[0].0 != k;
      v
  }

  /** `d[k] = v`: overwrite in place when present, append otherwise. */
  function Put<K(==), V>(r: Assoc<K, V>, k: K, v: V): (r': Assoc<K, V>)
  {
    if r == [] then [(k, v)]
    else if r[0].0 == k then [(k, v)] + r[1..]
    else [r[0]] + Put(r[1..], k, v)
  }

  /** `d.pop(k, None)`. */
  function Drop<K(==), V>(r: Assoc<K, V>, k: K): (r': Assoc<K, V>)
  {
    if r == [] then []
    else if r[0].0 == k then r[1..]
    else [r[0]] + Drop(r[1..], k)
  }

  /** `list(d.values())`. */
  function Values<K, V>(r: Assoc<K, V>): (vs: seq<V>)
    ensures |vs| == |r|
    ensures forall i :: 0 <= i < |r| ==> vs[i] == r[i].1
  {
    if r == [] then [] else [r[0].1] + Values(r[1..])
  }

  lemma {:induction false} PutSpec<K, V>(r: Assoc<K, V>, k: K, v: V)
    requires UniqueKeys(r)
    ensures UniqueKeys(Put(r, k, v))
    ensures Lookup(Put(r, k, v), k) == Some(v)
    ensures forall k' :: k' != k ==> Lookup(Put(r, k, v), k') == Lookup(r, k')
    ensures |Put(r, k, v)| == if Lookup(r, k).Some? then |r| else |r| + 1
  {
    if r != [] {
      if r[0].0 == k {
        TailKeys(r);
      } else {
        PutSpec(r[1..], k, v);
        TailKeys(r);
        var t := Put(r[1..], k, v);
        assert Lookup(t, r[0].0) == None;
        assert Put(r, k, v) == [r[0]] + t;
        HeadKeys(r[0], t);
      }
    }
  }

  lemma {:induction false} DropSpec<K, V>(r: Assoc<K, V>, k: K)
    requires UniqueKeys(r)
    ensures UniqueKeys(Drop(r, k))
    ensures Lookup(Drop(r, k), k) == None
    ensures forall k' :: k' != k ==> Lookup(Drop(r, k), k') == Lookup(r, k')
    ensures |Drop(r, k)| == if Lookup(r, k).Some? then |r| - 1 else |r|
    ensures Lookup(r, k) == None ==> Drop(r, k) == r
  {
    if r != [] {
      TailKeys(r);
      if r[0].0 != k {
        DropSpec(r[1..], k);
        var t := Drop(r[1..], k);
        assert Lookup(t, r[0].0) == None;
        assert Drop(r, k) == [r[0]] + t;
        HeadKeys(r[0], t);
      }
    }
  }

  /** Prepending an item whose key is new keeps keys unique. */
  lemma HeadKeys<K, V>(e: (K, V), t: Assoc<K, V>)
    requires UniqueKeys(t) && Lookup(t, e.0) == None
    ensures UniqueKeys([e] + t)
  {
    var r := [e] + t;
    forall i, j | 0 <= i < j < |r| ensures r[i].0 != r[j].0 {
      assert r[j] == t[j - 1];
      if i > 0 {
        assert r[i] == t[i - 1];
      }
    }
  }

  /** The tail of a dictionary with unique keys has unique keys and lacks the head's key. */
  lemma TailKeys<K, V>(r: Assoc<K, V>)
    requires r != [] && UniqueKeys(r)
    ensures UniqueKeys(r[1..])
    ensures Lookup(r[1..], r[0].0) == None
  {
    forall i | 0 <= i < |r[1..]| ensures r[1..][i].0 != r[0].0 {
      assert r[1..][i] == r[i + 1];
    }
  }

  /** Every item of `Put(r, k, v)` is an item of `r` or the new item. */
  lemma {:induction false} PutItems<K, V>(r: Assoc<K, V>, k: K, v: V)
    ensures forall e :: e in Put(r, k, v) ==> e in r || e == (k, v)
  {
    if r != [] && r[0].0 != k {
      PutItems(r[1..], k, v);
      assert forall e :: e in r[1..] ==> e in r;
    }
  }

  /** Assigning `d[k] = v` for each item in turn. */
  function PutAll<K(==), V>(r: Assoc<K, V>, items: seq<(K, V)>): Assoc<K, V>
    decreases |items|
  {
    if items == [] then r else PutAll(Put(r, items[0].0, items[0].1), items[1..])
  }

  /**
   * After the assignments every assigned key is present, every item comes
   * from the old dictionary or the assignments, and earlier keys stay.
   */
  lemma {:induction false} PutAllSpec<K, V>(r: Assoc<K, V>, items: seq<(K, V)>)
    requires UniqueKeys(r)
    ensures UniqueKeys(PutAll(r, items))
    ensures forall e :: e in PutAll(r, items) ==> e in r || e in items
    ensures forall i :: 0 <= i < |items| ==> Lookup(PutAll(r, items), items[i].0).Some?
    ensures forall k :: Lookup(r, k).Some? ==> Lookup(PutAll(r, items), k).Some?
    decreases |items|
  {
    if items != [] {
      var r' := Put(r, items[0].0, items[0].1);
      PutSpec(r, items[0].0, items[0].1);
      PutItems(r, items[0].0, items[0].1);
      PutAllSpec(r', items[1..]);
      forall i | 0 <= i < |items| ensures Lookup(PutAll(r, items), items[i].0).Some? {
        if i > 0 {
          assert items[1..][i - 1] == items[i];
        }
      }
      assert forall e :: e in items[1..] ==> e in items;
    }
  }

  // ---------------------------------------------------------------------
  // Name-to-code tables

  /** The items of a table with name and code swapped. */
  function Swapped<K, V>(t: Assoc<K, V>): (u: Assoc<V, K>)
    ensures |u| == |t| && forall i :: 0 <= i < |t| ==> u[i] == (t[i].1, t[i].0)
  {
    seq(|t|, i requires 0 <= i < |t| => (t[i].1, t[i].0))
  }

  /** `dict([(value, key) for key, value in table.items()])`: the code-to-name table. */
  function Inverse<K(==), V(==)>(t: Assoc<K, V>): Assoc<V, K>
  {
    PutAll([], Swapped(t))
  }

  /** No element occurs again later in the list, checked head by head. */
  predicate AllDifferent<T(==)>(s: seq<T>)
  {
    s == [] || (s[0] !in s[1..] && AllDifferent(s[1..]))
  }

  lemma {:induction false} AllDifferentDistinct<T>(s: seq<T>)
    requires AllDifferent(s)
    ensures Distinct(s)
  {
    if s != [] {
      AllDifferentDistinct(s[1..]);
      forall i, j | 0 <= i < j < |s| ensures s[i] != s[j] {
        assert s[j] == s[1..][j - 1];
        if i > 0 {
          assert s[i] == s[1..][i - 1];
        }
      }
    }
  }

  /** The names of a table, in order. */
  function Keys<K, V>(t: Assoc<K, V>): (ks: seq<K>)
    ensures |ks| == |t| && forall i :: 0 <= i < |t| ==> ks[i] == t[i].0
  {
    seq(|t|, i requires 0 <= i < |t| => t[i].0)
  }

  /** A table whose names and codes are checked different, head by head, can be inverted. */
  lemma TableInvertible<K, V>(t: Assoc<K, V>)
    requires AllDifferent(Keys(t)) && AllDifferent(Values(t))
    ensures UniqueKeys(t) && Distinct(Values(t))
  {
    AllDifferentDistinct(Keys(t));
    AllDifferentDistinct(Values(t));
    forall i, j | 0 <= i < j < |t| ensures t[i].0 != t[j].0 {
      assert Keys(t)[i] != Keys(t)[j];
    }
  }

  /**
   * A getter that reads a code back through the inverted table recovers
   * the name the setter looked up, provided no two names share a code.
   */
  lemma InverseRoundTrip<K, V>(t: Assoc<K, V>, name: K)
    requires UniqueKeys(t) && Distinct(Values(t)) && Lookup(t, name).Some?
    ensures Lookup(Inverse(t), Lookup(t, name).value) == Some(name)
  {
    var code := Lookup(t, name).value;
    var i :| 0 <= i < |t| && t[i] == (name, code);
    InverseCodes(t, code);
    var k := Lookup(Inverse(t), code).value;
    var m := InverseItem(t, code, k);
    var vs := Values(t);
    DistinctIndex(vs, m, i);
  }

  /** Every item of the inverted table is an item of the table, swapped. */
  lemma InverseItem<K, V>(t: Assoc<K, V>, code: V, name: K) returns (m: int)
    requires Lookup(Inverse(t), code) == Some(name)
    ensures 0 <= m < |t| && t[m] == (name, code)
  {
    var inv := Inverse(t);
    var sw := Swapped(t);
    PutAllSpec([], sw);
    var j :| 0 <= j < |inv| && inv[j] == (code, name);
    assert inv[j] in inv;
    m :| 0 <= m < |sw| && sw[m] == (code, name);
  }

  /** The inverted table names exactly the codes the table lists; any other code raises. */
  lemma InverseCodes<K, V>(t: Assoc<K, V>, code: V)
    ensures Lookup(Inverse(t), code).Some? <==> code in Values(t)
  {
    var inv := Inverse(t);
    var sw := Swapped(t);
    PutAllSpec([], sw);
    if Lookup(inv, code).Some? {
      var j :| 0 <= j < |inv| && inv[j].0 == code;
      assert inv[j] in inv;
      var m :| 0 <= m < |sw| && sw[m] == inv[j];
      assert Values(t)[m] == code;
    }
    if code in Values(t) {
      var m :| 0 <= m < |t| && Values(t)[m] == code;
      assert sw[m].0 == code;
    }
  }

  /** Python's `abs` on a float. */
  function Abs(x: real): (a: real)
    ensures a >= 0.0 && (a == x || a == -x)
  {
    if x < 0.0 then -x else x
  }

  /** The smallest element, as Python's `min` of a non-empty list. */
  function SeqMin(s: seq<real>): (m: real)
    requires s != []
    ensures forall i :: 0 <= i < |s| ==> m <= s[i]
    ensures exists i :: 0 <= i < |s| && m == s[i]
  {
    if |s| == 1 then s[0]
    else
      var t := SeqMin(s[1..]);
      assert forall i :: 1 <= i < |s| ==> s[i] == s[1..][i - 1];
      MinReal(s[0], t)
  }

  /** The largest element, as Python's `max` of a non-empty list. */
  function SeqMax(s: seq<real>): (m: real)
    requires s != []
    ensures forall i :: 0 <= i < |s| ==> m >= s[i]
    ensures exists i :: 0 <= i < |s| && m == s[i]
  {
    if |s| == 1 then s[0]
    else
      var t := SeqMax(s[1..]);
      assert forall i :: 1 <= i < |s| ==> s[i] == s[1..][i - 1];
      MaxReal(s[0], t)
  }

  // ---------------------------------------------------------------------
  // Python lists

  /** No element occurs twice. */
  ghost predicate Distinct<T>(s: seq<T>)
  {
    forall i, j :: 0 <= i < j < |s| ==> s[i] != s[j]
  }

  /** In a list without repeats, equal elements sit at the same index. */
  lemma DistinctIndex<T>(s: seq<T>, i: int, j: int)
    requires Distinct(s) && 0 <= i < |s| && 0 <= j < |s| && s[i] == s[j]
    ensures i == j
  {
  }

  /** `list.remove(x)`: drop the first occurrence of `x`, if any. */
  function RemoveFirst<T(==)>(s: seq<T>, x: T): (r: seq<T>)
    ensures x !in s ==> r == s
    ensures x in s ==> |r| == |s| - 1
  {
    if s == [] then []
    else if s[0] == x then s[1..]
    else [s[0]] + RemoveFirst(s[1..], x)
  }

  /** The elements of `s` that are not in `r`, in order. */
  function Without<T(==)>(s: seq<T>, r: seq<T>): (t: seq<T>)
    ensures |t| <= |s|
  {
    if s == [] then []
    else (if s[0] in r then [] else [s[0]]) + Without(s[1..], r)
  }

  lemma {:induction false} WithoutMembers<T>(s: seq<T>, r: seq<T>)
    ensures forall x :: x in Without(s, r) <==> x in s && x !in r
  {
    if s != [] {
      WithoutMembers(s[1..], r);
      assert s == [s[0]] + s[1..];
    }
  }

  lemma {:induction false} WithoutNothing<T>(s: seq<T>)
    ensures Without(s, []) == s
  {
    if s != [] {
      WithoutNothing(s[1..]);
    }
  }

  lemma {:induction false} DistinctTail<T>(s: seq<T>)
    requires Distinct(s) && s != []
    ensures Distinct(s[1..]) && s[0] !in s[1..]
  {
    forall i, j | 0 <= i < j < |s[1..]| ensures s[1..][i] != s[1..][j] {
      assert s[1..][i] == s[i + 1] && s[1..][j] == s[j + 1];
    }
  }

  /**
   * On a list without repetitions, removing one more element from the
   * survivors is the same as filtering it out with the others.
   */
  lemma {:induction false} WithoutAbsent<T>(s: seq<T>, r: seq<T>, x: T)
    requires x !in s
    ensures Without(s, r + [x]) == Without(s, r)
  {
    if s != [] {
      WithoutAbsent(s[1..], r, x);
      assert s[0] in r + [x] <==> s[0] in r;
    }
  }

  lemma {:induction false} RemoveFirstWithout<T>(s: seq<T>, r: seq<T>, x: T)
    requires Distinct(s)
    ensures RemoveFirst(Without(s, r), x) == Without(s, r + [x])
  {
    if s != [] {
      var h, t := s[0], s[1..];
      DistinctTail(s);
      RemoveFirstWithout(t, r, x);
      if h in r {
        assert Without(s, r) == Without(t, r);
        assert Without(s, r + [x]) == Without(t, r + [x]);
      } else if h == x {
        assert Without(s, r) == [x] + Without(t, r);
        WithoutAbsent(t, r, x);
        assert Without(s, r + [x]) == Without(t, r + [x]);
      } else {
        assert Without(s, r) == [h] + Without(t, r);
        assert Without(s, r + [x]) == [h] + Without(t, r + [x]);
      }
    }
  }

  // ---------------------------------------------------------------------
  // Substrings

  /** `t` occurs in `s` at position `j`. */
  predicate At(s: string, t: string, j: int)
  {
    0 <= j && j + |t| <= |s| && s[j..j + |t|] == t
  }

  /** Python's `s.find(t)`: the first position of `t` in `s`, if any. */
  function Find(s: string, t: string): (r: Option<nat>)
    ensures r.Some? ==> At(s, t, r.value)
    decreases |s|
  {
    if |t| > |s| then None
    else if s[..|t|] == t then Some(0)
    else
      match Find(s[1..], t)
      case None => None
      case Some(i) => Some(i + 1)
  }

  /** `Find` gives the first occurrence, and none only when there is none. */
  lemma {:induction false} FindSpec(s: string, t: string)
    ensures Find(s, t).Some? ==> At(s, t, Find(s, t).value)
    ensures Find(s, t).Some? ==> forall j :: 0 <= j < Find(s, t).value ==> !At(s, t, j)
    ensures Find(s, t).None? ==> forall j :: !At(s, t, j)
    decreases |s|
  {
    if |t| <= |s| && s[..|t|] != t {
      FindSpec(s[1..], t);
      assert !At(s, t, 0);
      forall j | 0 < j ensures At(s, t, j) <==> At(s[1..], t, j - 1) {
        if j + |t| <= |s| {
          assert s[1..][j - 1..j - 1 + |t|] == s[j..j + |t|];
        }
      }
    }
  }

  /** Python's `t in s` on strings. */
  function Contains(s: string, t: string): bool
  {
    Find(s, t).Some?
  }

  lemma ContainsSpec(s: string, t: string)
    ensures Contains(s, t) <==> exists j :: At(s, t, j)
  {
    FindSpec(s, t);
  }

  /** Python's `s.split(sep)` for a non-empty separator. */
  function Split(s: string, sep: string): (parts: seq<string>)
    requires sep != []
    ensures |parts| >= 1
    decreases |s|
  {
    match Find(s, sep)
    case None => [s]
    case Some(i) => [s[..i]] + Split(s[i + |sep|..], sep)
  }

  /** Python's `sep.join(parts)`. */
  function Join(parts: seq<string>, sep: string): string
  {
    if parts == [] then []
    else if |parts| == 1 then parts[0]
    else parts[0] + sep + Join(parts[1..], sep)
  }

  /** Splitting and joining again gives back the string. */
  lemma {:induction false} SplitJoin(s: string, sep: string)
    requires sep != []
    ensures Join(Split(s, sep), sep) == s
    decreases |s|
  {
    match Find(s, sep)
    case None =>
    case Some(i) =>
      var rest := s[i + |sep|..];
      var tail := Split(rest, sep);
      SplitJoin(rest, sep);
      FindSpec(s, sep);
      var parts := [s[..i]] + tail;
      assert Split(s, sep) == parts;
      assert parts[1..] == tail;
      assert Join(parts, sep) == s[..i] + sep + Join(tail, sep);
      assert s[i..i + |sep|] == sep;
      assert s == s[..i] + sep + rest;
  }

  /** No piece of a split contains the separator. */
  lemma {:induction false} SplitPieces(s: string, sep: string)
    requires sep != []
    ensures forall p :: p in Split(s, sep) ==> !Contains(p, sep)
    decreases |s|
  {
    match Find(s, sep)
    case None =>
      FindSpec(s, sep);
      ContainsSpec(s, sep);
    case Some(i) =>
      SplitPieces(s[i + |sep|..], sep);
      FindSpec(s, sep);
      ContainsSpec(s[..i], sep);
      forall j | 0 <= j && j + |sep| <= i ensures !At(s[..i], sep, j) {
        assert !At(s, sep, j);
        assert s[..i][j..j + |sep|] == s[j..j + |sep|];
      }
  }

  // ---------------------------------------------------------------------
  // str() of an integer

  function DigitChar(d: nat): (c: char)
    requires d < 10
  {
    "0123456789"[d]
  }

  function NatToString(n: nat): (s: string)
    ensures |s| >= 1
    decreases n
  {
    if n < 10 then [DigitChar(n)] else NatToString(n / 10) + [DigitChar(n % 10)]
  }

  /** Python's `str(n)` for an int. */
  function IntToString(n: int): (s: string)
    ensures |s| >= 1
  {
    if n < 0 then "-" + NatToString(-n) else NatToString(n)
  }
}
