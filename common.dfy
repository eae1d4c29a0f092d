/** Values and helpers shared by every part of the storefront model: optional
    values, route outcomes, the JavaScript string operations the routes use
    (trim, lower-casing, substring search), plain JavaScript objects with
    their key order, and order-preserving filtering. */
module Common {

  datatype Option<T> = None | Some(value: T) {
    function GetOr(default: T): T {
      if Some? then value else default
    }
  }

  /** What a route returns: a value, or an HTTP status with the route's message. */
  datatype Outcome<T> = Success(value: T) | Failure(status: nat, message: string)

  /** The part of a signed-in session the routes read (`session.user`). */
  datatype Session = Session(id: Option<string>, email: Option<string>, role: Option<string>)

  /** The five order statuses the order routes accept. */
  const OrderStatuses: seq<string> := ["Order Placed", "Processing", "Shipped", "Delivered", "Cancelled"]

  /** The four payment types the order routes accept. */
  const PaymentTypes: seq<string> := ["COD", "Paid", "Pending", "Refunded"]

  /** The roles stored on a user (models/User.js). */
  const Roles: seq<string> := ["customer", "seller", "admin"]

  /** A present, non-empty string: what `!x` rejects for a string field. */
  predicate Truthy(s: Option<string>) {
    s.Some? && s.value != ""
  }

  /** `x || fallback` for an optional string. */
  function OrElse(s: Option<string>, fallback: string): (r: string)
    ensures Truthy(s) ==> r == s.value
    ensures !Truthy(s) ==> r == fallback
  {
    if Truthy(s) then s.value else fallback
  }

  /** Session role is one of the two staff roles. */
  predicate IsStaff(role: Option<string>) {
    role == Some("admin") || role == Some("seller")
  }

  // ---------------------------------------------------------------------------
  // Strings

  /** The whitespace that `trim` and `\s` recognise, restricted to ASCII. */
  predicate IsSpace(c: char) {
    c == ' ' || c == '\t' || c == '\n' || c == '\r' || c as int == 11 || c as int == 12
  }

  predicate AllSpace(s: string) {
    forall i :: 0 <= i < |s| ==> IsSpace(s[i])
  }

  function TrimStart(s: string): (r: string)
    ensures |r| <= |s| && r == s[|s| - |r|..]
    ensures r == [] || !IsSpace(r[0])
    ensures AllSpace(s[..|s| - |r|])
  {
    if s != [] && IsSpace(s[0]) then TrimStart(s[1..]) else s
  }

  function TrimEnd(s: string): (r: string)
    ensures |r| <= |s| && r == s[..|r|]
    ensures r == [] || !IsSpace(r[|r| - 1])
    ensures AllSpace(s[|r|..])
  {
    if s != [] && IsSpace(s[|s| - 1]) then TrimEnd(s[..|s| - 1]) else s
  }

  /** `s.trim()`: leading and trailing whitespace removed. */
  function Trim(s: string): (r: string)
    ensures r == [] <==> AllSpace(s)
    ensures r != [] ==> !IsSpace(r[0]) && !IsSpace(r[|r| - 1])
    ensures |r| <= |s|
  {
    var t := TrimStart(s);
    assert AllSpace(s) <==> AllSpace(t) by {
      if t == [] {
        assert s[..|s| - |t|] == s;
      } else {
        assert !IsSpace(s[|s| - |t|]);
      }
    }
    TrimEnd(t)
  }

  /** `!s.trim()`: empty or whitespace only (`Trim` is empty exactly then). */
  predicate IsBlank(s: string) {
    AllSpace(s)
  }

  function LowerChar(c: char): char {
    if 'A' <= c <= 'Z' then (c as int + 32) as char else c
  }

  /** `s.toLowerCase()` on ASCII letters. */
  function ToLower(s: string): (r: string)
    ensures |r| == |s|
    ensures forall i :: 0 <= i < |s| ==> r[i] == LowerChar(s[i])
  {
    if s == [] then [] else [LowerChar(s[0])] + ToLower(s[1..])
  }

  predicate EqualsIgnoreCase(a: string, b: string) {
    ToLower(a) == ToLower(b)
  }

  /** `hay.includes(needle)`. */
  predicate Contains(hay: string, needle: string)
    decreases |hay|
  {
    needle <= hay || (hay != [] && Contains(hay[1..], needle))
  }

  lemma {:induction false} ContainsAt(hay: string, needle: string, i: nat)
    requires i + |needle| <= |hay| && hay[i..i + |needle|] == needle
    ensures Contains(hay, needle)
    decreases i
  {
    if i == 0 {
      assert needle <= hay;
    } else {
      assert hay[1..][i - 1..i - 1 + |needle|] == needle;
      ContainsAt(hay[1..], needle, i - 1);
    }
  }

  /** `needle` occurs in `hay` starting at position `i`. */
  predicate OccursAt(hay: string, needle: string, i: int) {
    0 <= i && i + |needle| <= |hay| && hay[i..i + |needle|] == needle
  }

  /** `Contains` means an occurrence at some position: both directions. */
  lemma {:induction false} ContainsIff(hay: string, needle: string)
    ensures Contains(hay, needle) <==> exists i :: OccursAt(hay, needle, i)
    decreases |hay|
  {
    if needle <= hay {
      assert hay[0..|needle|] == needle;
      assert OccursAt(hay, needle, 0);
    }
    if hay != [] {
      ContainsIff(hay[1..], needle);
      if Contains(hay[1..], needle) {
        var i :| OccursAt(hay[1..], needle, i);
        assert hay[i + 1..i + 1 + |needle|] == hay[1..][i..i + |needle|];
        assert OccursAt(hay, needle, i + 1);
      }
    }
    if exists i :: OccursAt(hay, needle, i) {
      var i :| OccursAt(hay, needle, i);
      ContainsAt(hay, needle, i);
    }
  }

  // ---------------------------------------------------------------------------
  // Sequences

  /** `s[i]`, as a separate term so that `Distinct` below is only unfolded
      where a proof asks about positions of `s` through `At`. */
  function At<T>(s: seq<T>, i: nat): (x: T)
    requires i < |s|
    ensures x == s[i]
  {
    s[i]
  }

  /** No element occurs twice. */
  predicate Distinct<T(==)>(s: seq<T>) {
    forall i, j :: 0 <= i < j < |s| ==> At(s, i) != At(s, j)
  }

  /** One more element of `s` extends the prefix by that element. */
  lemma TakeNext<T>(s: seq<T>, i: nat)
    requires i < |s|
    ensures s[..i + 1] == s[..i] + [s[i]]
  {
  }

  /** Two different positions of a sequence without repeats hold different
      elements. */
  lemma DistinctApart<T>(s: seq<T>, i: nat, j: nat)
    requires Distinct(s) && i < |s| && j < |s| && i != j
    ensures s[i] != s[j]
  {
    if i < j {
      assert At(s, i) != At(s, j);
    } else {
      assert At(s, j) != At(s, i);
    }
  }

  /** The tail of a sequence without repeats has none, and lacks the head. */
  lemma DistinctTail<T>(s: seq<T>)
    requires Distinct(s) && s != []
    ensures Distinct(s[1..]) && s[0] !in s[1..]
  {
    var t := s[1..];
    forall i, j | 0 <= i < j < |t| ensures At(t, i) != At(t, j) {
      DistinctApart(s, i + 1, j + 1);
    }
    forall k | 0 <= k < |t| ensures t[k] != s[0] {
      DistinctApart(s, 0, k + 1);
    }
  }

  /** A new element in front keeps a sequence free of repeats. */
  lemma DistinctCons<T>(x: T, t: seq<T>)
    requires x !in t && Distinct(t)
    ensures Distinct([x] + t)
  {
    var u := [x] + t;
    forall i, j | 0 <= i < j < |u| ensures At(u, i) != At(u, j) {
      assert u[j] == t[j - 1];
      if i > 0 {
        assert u[i] == t[i - 1];
        DistinctApart(t, i - 1, j - 1);
      }
    }
  }

  /** A new element at the end keeps a sequence free of repeats. */
  lemma DistinctSnoc<T>(s: seq<T>, x: T)
    requires x !in s && Distinct(s)
    ensures Distinct(s + [x])
  {
    var u := s + [x];
    forall i, j | 0 <= i < j < |u| ensures At(u, i) != At(u, j) {
      assert u[i] == s[i];
      if j < |s| {
        DistinctApart(s, i, j);
      } else {
        assert s[i] in s;
      }
    }
  }

  /** In a sequence without repeats no element occurs before its own place. */
  lemma DistinctNotBefore<T>(s: seq<T>, i: nat)
    requires Distinct(s) && i < |s|
    ensures s[i] !in s[..i]
  {
    forall j | 0 <= j < i ensures s[..i][j] != s[i] {
      DistinctApart(s, j, i);
    }
  }

  /** `r` is `s` with some elements left out, the others in their order. */
  ghost predicate Subsequence<T>(r: seq<T>, s: seq<T>)
    decreases |s|
  {
    r == [] || (s != [] && ((r[0] == s[0] && Subsequence(r[1..], s[1..])) || Subsequence(r, s[1..])))
  }

  /** `s.filter(p)`. */
  function Filter<T(==)>(s: seq<T>, p: T -> bool): (r: seq<T>)
    ensures |r| <= |s|
  {
    if s == [] then []
    else if p(s[0]) then [s[0]] + Filter(s[1..], p)
    else Filter(s[1..], p)
  }

  /** What the filter keeps: exactly the elements of `s` that pass. */
  lemma {:induction false} FilterMembers<T(!new)>(s: seq<T>, p: T -> bool)
    ensures forall x :: x in Filter(s, p) <==> x in s && p(x)
  {
    if s != [] {
      FilterMembers(s[1..], p);
      assert s == [s[0]] + s[1..];
    }
  }

  lemma {:induction false} FilterSubsequence<T>(s: seq<T>, p: T -> bool)
    ensures Subsequence(Filter(s, p), s)
  {
    if s != [] {
      FilterSubsequence(s[1..], p);
      if !p(s[0]) {
        var r := Filter(s[1..], p);
        SubsequenceSkip(r, s);
      }
    }
  }

  lemma {:induction false} SubsequenceSkip<T>(r: seq<T>, s: seq<T>)
    requires s != [] && Subsequence(r, s[1..])
    ensures Subsequence(r, s)
  {
  }

  lemma {:induction false} FilterDistinct<T(!new)>(s: seq<T>, p: T -> bool)
    requires Distinct(s)
    ensures Distinct(Filter(s, p))
  {
    if s != [] {
      DistinctTail(s);
      FilterDistinct(s[1..], p);
      FilterMembers(s[1..], p);
      var r := Filter(s[1..], p);
      assert s[0] !in r;
      if p(s[0]) {
        DistinctCons(s[0], r);
      }
    }
  }

  function Count<T>(s: seq<T>, p: T -> bool): (n: nat)
    ensures n <= |s|
  {
    if s == [] then 0 else (if p(s[0]) then 1 else 0) + Count(s[1..], p)
  }

  lemma {:induction false} CountIsFilterLength<T>(s: seq<T>, p: T -> bool)
    ensures Count(s, p) == |Filter(s, p)|
  {
    if s != [] {
      CountIsFilterLength(s[1..], p);
    }
  }

  // ---------------------------------------------------------------------------
  // Plain JavaScript objects

  /** A JavaScript object with string keys: its keys in insertion order and
      the value under each key. */
  datatype Dict<V> = Dict(keys: seq<string>, vals: map<string, V>)

  ghost predicate DictValid<V>(d: Dict<V>) {
    Distinct(d.keys) && forall k :: k in d.vals <==> k in d.keys
  }

  function EmptyDict<V>(): (d: Dict<V>)
    ensures DictValid(d) && d.keys == [] && d.vals == map[]
  {
    Dict([], map[])
  }

  /** Every listed key has a value. */
  lemma KeyHasValue<V>(d: Dict<V>, i: nat)
    requires DictValid(d) && i < |d.keys|
    ensures d.keys[i] in d.vals
  {
    assert d.keys[i] in d.keys;
  }

  /** `d[k] = v`: an existing key keeps its place, a new key goes last. */
  function Put<V>(d: Dict<V>, k: string, v: V): (r: Dict<V>)
    requires DictValid(d)
    ensures DictValid(r)
    ensures r.vals == d.vals[k := v]
    ensures r.keys == if k in d.vals then d.keys else d.keys + [k]
  {
    if k in d.vals then Dict(d.keys, d.vals[k := v])
    else
      DistinctSnoc(d.keys, k);
      Dict(d.keys + [k], d.vals[k := v])
  }

  /** The condition "is not `k`". */
  function Except(k: string): string -> bool {
    x => x != k
  }

  /** Leaving out one key of a sequence without repeats shortens it by one
      when the key is there, and not at all otherwise. */
  lemma {:induction false} FilterExceptLength(s: seq<string>, k: string)
    requires Distinct(s)
    ensures |Filter(s, Except(k))| == |s| - (if k in s then 1 else 0)
  {
    if s != [] {
      DistinctTail(s);
      FilterExceptLength(s[1..], k);
      assert s == [s[0]] + s[1..];
    }
  }

  /** `delete d[k]`. */
  function Remove<V>(d: Dict<V>, k: string): (r: Dict<V>)
    requires DictValid(d)
    ensures DictValid(r)
    ensures r.vals == d.vals - {k}
    ensures r.keys == Filter(d.keys, Except(k))
    ensures Subsequence(r.keys, d.keys)
    ensures |r.keys| == |d.keys| - (if k in d.vals then 1 else 0)
  {
    FilterExceptLength(d.keys, k);
    FilterDistinct(d.keys, Except(k));
    FilterSubsequence(d.keys, Except(k));
    FilterMembers(d.keys, Except(k));
    Dict(Filter(d.keys, Except(k)), d.vals - {k})
  }

  /** The entries of `d` whose key satisfies `p`, in their original order. */
  function FilterKeys<V>(d: Dict<V>, p: string -> bool): (r: Dict<V>)
    requires DictValid(d)
    ensures DictValid(r)
    ensures forall k :: k in r.vals <==> k in d.vals && p(k)
    ensures forall k :: k in r.vals ==> r.vals[k] == d.vals[k]
    ensures Subsequence(r.keys, d.keys)
    ensures r.keys == Filter(d.keys, p)
  {
    FilterDistinct(d.keys, p);
    FilterSubsequence(d.keys, p);
    FilterMembers(d.keys, p);
    Dict(Filter(d.keys, p), map k | k in d.vals && p(k) :: d.vals[k])
  }

  /** A loop building `FilterKeys(d, keep)` after its first `i` keys. */
  ghost predicate FilteredUpTo<V>(v: Dict<V>, d: Dict<V>, keep: string -> bool, i: nat)
    requires i <= |d.keys|
  {
    DictValid(v) &&
    v.keys == Filter(d.keys[..i], keep) &&
    forall k :: k in v.vals ==> k in d.vals && v.vals[k] == d.vals[k]
  }

  lemma FilteredStart<V>(d: Dict<V>, keep: string -> bool)
    ensures FilteredUpTo(EmptyDict(), d, keep, 0)
  {
    assert d.keys[..0] == [];
  }

  /** One more key: copied when it passes, skipped otherwise. */
  lemma FilteredStep<V>(v: Dict<V>, d: Dict<V>, keep: string -> bool, i: nat)
    requires DictValid(d) && i < |d.keys| && FilteredUpTo(v, d, keep, i)
    ensures var k := d.keys[i];
      FilteredUpTo(if keep(k) then Put(v, k, d.vals[k]) else v, d, keep, i + 1)
  {
    var k := d.keys[i];
    TakeNext(d.keys, i);
    FilterAppend(d.keys[..i], k, keep);
    DistinctNotBefore(d.keys, i);
    FilterMembers(d.keys[..i], keep);
  }

  /** After the last key the loop has built exactly `FilterKeys(d, keep)`. */
  lemma FilteredDone<V>(v: Dict<V>, d: Dict<V>, keep: string -> bool)
    requires DictValid(d) && FilteredUpTo(v, d, keep, |d.keys|)
    ensures v == FilterKeys(d, keep)
  {
    assert d.keys[..|d.keys|] == d.keys;
    FilterMembers(d.keys, keep);
  }

  lemma {:induction false} FilterAppend<T>(s: seq<T>, x: T, p: T -> bool)
    ensures Filter(s + [x], p) == Filter(s, p) + (if p(x) then [x] else [])
  {
    if s == [] {
      assert s + [x] == [x];
    } else {
      assert (s + [x])[1..] == s[1..] + [x];
      FilterAppend(s[1..], x, p);
    }
  }

  /** Two tests that agree on every element filter alike. */
  lemma {:induction false} FilterSame<T>(s: seq<T>, p: T -> bool, q: T -> bool)
    requires forall i :: 0 <= i < |s| ==> p(s[i]) == q(s[i])
    ensures Filter(s, p) == Filter(s, q)
  {
    if s != [] {
      assert forall i :: 0 <= i < |s[1..]| ==> s[1..][i] == s[i + 1];
      FilterSame(s[1..], p, q);
    }
  }

  /** A filter every element passes changes nothing. */
  lemma {:induction false} FilterAllPass<T>(s: seq<T>, p: T -> bool)
    requires forall i :: 0 <= i < |s| ==> p(s[i])
    ensures Filter(s, p) == s
  {
    if s != [] {
      assert forall i :: 0 <= i < |s[1..]| ==> s[1..][i] == s[i + 1];
      FilterAllPass(s[1..], p);
    }
  }

  /** Complementary tests split a sequence: the two parts add up to it. */
  lemma {:induction false} FilterSplit<T>(s: seq<T>, p: T -> bool, q: T -> bool)
    requires forall i :: 0 <= i < |s| ==> p(s[i]) == !q(s[i])
    ensures |Filter(s, p)| + |Filter(s, q)| == |s|
  {
    if s != [] {
      assert forall i :: 0 <= i < |s[1..]| ==> s[1..][i] == s[i + 1];
      FilterSplit(s[1..], p, q);
    }
  }

  lemma {:induction false} CountAppend<T>(s: seq<T>, x: T, p: T -> bool)
    ensures Count(s + [x], p) == Count(s, p) + (if p(x) then 1 else 0)
  {
    if s == [] {
      assert s + [x] == [x];
    } else {
      assert (s + [x])[1..] == s[1..] + [x];
      CountAppend(s[1..], x, p);
    }
  }

  /** Filtering keeps the length exactly when every element passes. */
  lemma {:induction false} FilterKeepsAll<T>(s: seq<T>, p: T -> bool)
    ensures |Filter(s, p)| == |s| <==> forall i :: 0 <= i < |s| ==> p(s[i])
  {
    if s != [] {
      FilterKeepsAll(s[1..], p);
      assert forall i :: 1 <= i < |s| ==> s[i] == s[1..][i - 1];
    }
  }

  // ---------------------------------------------------------------------------
  // Sums over a sequence of keys

  function SumInt<T>(s: seq<T>, f: T -> int): int {
    if s == [] then 0 else f(s[0]) + SumInt(s[1..], f)
  }

  function SumReal<T>(s: seq<T>, f: T -> real): real {
    if s == [] then 0.0 else f(s[0]) + SumReal(s[1..], f)
  }

  lemma {:induction false} SumIntAppend<T>(s: seq<T>, x: T, f: T -> int)
    ensures SumInt(s + [x], f) == SumInt(s, f) + f(x)
  {
    if s == [] {
      assert s + [x] == [x];
    } else {
      assert (s + [x])[1..] == s[1..] + [x];
      SumIntAppend(s[1..], x, f);
    }
  }

  lemma {:induction false} SumRealAppend<T>(s: seq<T>, x: T, f: T -> real)
    ensures SumReal(s + [x], f) == SumReal(s, f) + f(x)
  {
    if s == [] {
      assert s + [x] == [x];
    } else {
      assert (s + [x])[1..] == s[1..] + [x];
      SumRealAppend(s[1..], x, f);
    }
  }

  /** Two weightings that differ only at `x`, which occurs at most once:
      the sums differ by the difference at `x`. */
  lemma {:induction false} SumIntExceptOne<T>(s: seq<T>, f: T -> int, g: T -> int, x: T)
    requires Distinct(s)
    requires forall i :: 0 <= i < |s| && s[i] != x ==> f(s[i]) == g(s[i])
    ensures SumInt(s, g) == SumInt(s, f) + (if x in s then g(x) - f(x) else 0)
  {
    if s != [] {
      assert forall i :: 0 <= i < |s[1..]| ==> s[1..][i] == s[i + 1];
      DistinctTail(s);
      SumIntExceptOne(s[1..], f, g, x);
    }
  }

  /** Weightings that agree on every element give the same sum. */
  lemma {:induction false} SumRealSame<T>(s: seq<T>, f: T -> real, g: T -> real)
    requires forall i :: 0 <= i < |s| ==> f(s[i]) == g(s[i])
    ensures SumReal(s, f) == SumReal(s, g)
  {
    if s != [] {
      assert forall i :: 0 <= i < |s[1..]| ==> s[1..][i] == s[i + 1];
      SumRealSame(s[1..], f, g);
    }
  }

  /** Leaving out elements that weigh nothing does not change the sum. */
  lemma {:induction false} SumRealFilter<T>(s: seq<T>, f: T -> real, p: T -> bool)
    requires forall i :: 0 <= i < |s| && !p(s[i]) ==> f(s[i]) == 0.0
    ensures SumReal(Filter(s, p), f) == SumReal(s, f)
  {
    if s != [] {
      assert forall i :: 0 <= i < |s[1..]| ==> s[1..][i] == s[i + 1];
      SumRealFilter(s[1..], f, p);
    }
  }

  lemma {:induction false} SumIntFilter<T>(s: seq<T>, f: T -> int, p: T -> bool)
    requires forall i :: 0 <= i < |s| && !p(s[i]) ==> f(s[i]) == 0
    ensures SumInt(Filter(s, p), f) == SumInt(s, f)
  {
    if s != [] {
      assert forall i :: 0 <= i < |s[1..]| ==> s[1..][i] == s[i + 1];
      SumIntFilter(s[1..], f, p);
    }
  }
}
