/** Types and sequence vocabulary shared by the models. */
module Common {

  datatype Option<+T> = None | Some(value: T)

  datatype Result<+T, +E> = Ok(value: T) | Err(error: E)

  ghost predicate Distinct<T>(s: seq<T>) {
    forall i, j :: 0 <= i < j < |s| ==> s[i] != s[j]
  }

  function Max(a: int, b: int): int {
    if a < b then b else a
  }

  function Min(a: int, b: int): int {
    if a < b then a else b
  }

  /** The first n elements, or all of them when there are fewer. */
  function Take<T>(s: seq<T>, n: nat): seq<T> {
    if n <= |s| then s[..n] else s
  }

  /** s with every occurrence of x removed. */
  function Without<T(==)>(s: seq<T>, x: T): seq<T> {
    if s == [] then []
    else if s[0] == x then Without(s[1..], x)
    else [s[0]] + Without(s[1..], x)
  }

  lemma {:induction false} WithoutMembers<T>(s: seq<T>, x: T)
    ensures forall y :: y in Without(s, x) <==> y in s && y != x
    ensures forall i :: 0 <= i < |Without(s, x)| ==> Without(s, x)[i] in s && Without(s, x)[i] != x
    ensures |Without(s, x)| <= |s|
  {
    if s != [] {
      WithoutMembers(s[1..], x);
      assert s == [s[0]] + s[1..];
    }
  }

  lemma {:induction false} WithoutDistinct<T>(s: seq<T>, x: T)
    requires Distinct(s)
    ensures Distinct(Without(s, x))
  {
    if s != [] {
      WithoutDistinct(s[1..], x);
      WithoutMembers(s[1..], x);
      var rest := Without(s[1..], x);
      forall j | 0 <= j < |rest| ensures rest[j] != s[0] {
        assert rest[j] in s[1..];
      }
    }
  }

  lemma {:induction false} WithoutAbsent<T>(s: seq<T>, x: T)
    requires x !in s
    ensures Without(s, x) == s
  {
    if s != [] {
      WithoutAbsent(s[1..], x);
      assert s == [s[0]] + s[1..];
    }
  }

  lemma {:induction false} WithoutLength<T>(s: seq<T>, x: T)
    requires Distinct(s) && x in s
    ensures |Without(s, x)| == |s| - 1
  {
    if s[0] == x {
      WithoutAbsent(s[1..], x);
    } else {
      WithoutLength(s[1..], x);
    }
  }

  /** A sequence without repetitions holds as many elements as the set of its members. */
  lemma {:induction false} DistinctCount<T>(s: seq<T>, members: set<T>)
    requires Distinct(s)
    requires forall x :: x in members <==> x in s
    ensures |members| == |s|
  {
    if s == [] {
      assert members == {};
    } else {
      var x := s[|s| - 1];
      var rest := s[..|s| - 1];
      assert s == rest + [x];
      DistinctCount(rest, members - {x});
    }
  }

  /** A sequence without repetitions holds each of its members once. */
  lemma {:induction false} DistinctOnce<T>(s: seq<T>, x: T)
    requires Distinct(s)
    ensures multiset(s)[x] == if x in s then 1 else 0
  {
    if s != [] {
      assert s == s[..|s| - 1] + [s[|s| - 1]];
      DistinctOnce(s[..|s| - 1], x);
    }
  }

  /** Apply f in order and stop at the first error. */
  function Collect<A, B, E>(s: seq<A>, f: A -> Result<B, E>): Result<seq<B>, E> {
    if s == [] then Ok([])
    else
      match Collect(s[..|s| - 1], f)
      case Err(e) => Err(e)
      case Ok(done) =>
        match f(s[|s| - 1])
        case Err(e) => Err(e)
        case Ok(b) => Ok(done + [b])
  }

  /** Collecting fails with the first error, and otherwise holds one value per element, in order. */
  lemma {:induction false} FirstErrorDecides<A, B, E>(s: seq<A>, f: A -> Result<B, E>) returns (bad: nat)
    ensures Collect(s, f).Ok? ==>
              && |Collect(s, f).value| == |s|
              && forall i :: 0 <= i < |s| ==> f(s[i]) == Ok(Collect(s, f).value[i])
    ensures Collect(s, f).Err? ==>
              && bad < |s| && f(s[bad]).Err? && Collect(s, f).error == f(s[bad]).error
              && forall i :: 0 <= i < bad ==> f(s[i]).Ok?
  {
    bad := 0;
    if s != [] {
      var rest := s[..|s| - 1];
      assert forall i :: 0 <= i < |rest| ==> rest[i] == s[i];
      bad := FirstErrorDecides(rest, f);
      if Collect(rest, f).Ok? {
        bad := |rest|;
        forall i | 0 <= i < |rest| ensures f(s[i]).Ok? {
          assert f(rest[i]).Ok?;
        }
      }
    }
  }

  lemma {:induction false} ErrorsPersist<A, B, E>(s: seq<A>, f: A -> Result<B, E>, n: nat)
    requires n <= |s| && Collect(s[..n], f).Err?
    ensures Collect(s, f) == Collect(s[..n], f)
  {
    if n == |s| {
      assert s[..n] == s;
    } else {
      var rest := s[..|s| - 1];
      assert rest[..n] == s[..n];
      ErrorsPersist(rest, f, n);
    }
  }

  /** Apply f in order, refusing errors and repeated values. */
  function CollectDistinct<A, B(==), E>(s: seq<A>, f: A -> Result<B, E>, duplicate: E): Result<seq<B>, E> {
    if s == [] then Ok([])
    else
      match CollectDistinct(s[..|s| - 1], f, duplicate)
      case Err(e) => Err(e)
      case Ok(done) =>
        match f(s[|s| - 1])
        case Err(e) => Err(e)
        case Ok(b) => if b in done then Err(duplicate) else Ok(done + [b])
  }

  lemma {:induction false} CollectedAreDistinct<A, B, E>(s: seq<A>, f: A -> Result<B, E>, duplicate: E)
    requires CollectDistinct(s, f, duplicate).Ok?
    ensures var r := CollectDistinct(s, f, duplicate).value;
            && |r| == |s| && Distinct(r)
            && forall i :: 0 <= i < |s| ==> f(s[i]) == Ok(r[i])
  {
    if s != [] {
      var rest := s[..|s| - 1];
      assert forall i :: 0 <= i < |rest| ==> rest[i] == s[i];
      CollectedAreDistinct(rest, f, duplicate);
    }
  }

  lemma {:induction false} DistinctFixedPoints<A, E>(s: seq<A>, f: A -> Result<A, E>, duplicate: E)
    requires Distinct(s) && forall i :: 0 <= i < |s| ==> f(s[i]) == Ok(s[i])
    ensures CollectDistinct(s, f, duplicate) == Ok(s)
  {
    if s != [] {
      var rest := s[..|s| - 1];
      assert forall i :: 0 <= i < |rest| ==> rest[i] == s[i];
      DistinctFixedPoints(rest, f, duplicate);
      assert s == rest + [s[|rest|]];
    }
  }

  lemma {:induction false} CollectedErrorsPersist<A, B, E>(s: seq<A>, f: A -> Result<B, E>, duplicate: E, n: nat)
    requires n <= |s| && CollectDistinct(s[..n], f, duplicate).Err?
    ensures CollectDistinct(s, f, duplicate) == CollectDistinct(s[..n], f, duplicate)
  {
    if n == |s| {
      assert s[..n] == s;
    } else {
      var rest := s[..|s| - 1];
      assert rest[..n] == s[..n];
      CollectedErrorsPersist(rest, f, duplicate, n);
    }
  }

  /** Whatever stands in a before b in the second sequence does so in the first. */
  ghost predicate KeepsOrder<T>(before: seq<T>, after: seq<T>) {
    forall i, j :: 0 <= i < j < |after| ==> StandsBefore(before, after[i], after[j])
  }

  ghost predicate StandsBefore<T>(s: seq<T>, a: T, b: T) {
    exists k, l :: 0 <= k < l < |s| && s[k] == a && s[l] == b
  }

  /** Dropping or keeping one more element at the end keeps the order. */
  lemma KeepsOrderAtEnd<T>(before: seq<T>, after: seq<T>, x: T, keep: bool)
    requires KeepsOrder(before, after) && forall i :: 0 <= i < |after| ==> after[i] in before
    ensures KeepsOrder(before + [x], after + if keep then [x] else [])
  {
    var all, kept := before + [x], after + if keep then [x] else [];
    forall i, j | 0 <= i < j < |kept| ensures StandsBefore(all, kept[i], kept[j]) {
      if j < |after| {
        assert StandsBefore(before, after[i], after[j]);
        var k, l :| 0 <= k < l < |before| && before[k] == after[i] && before[l] == after[j];
        assert all[k] == kept[i] && all[l] == kept[j];
      } else {
        var k :| 0 <= k < |before| && before[k] == after[i];
        assert all[k] == kept[i] && all[|before|] == kept[j];
      }
    }
  }

  lemma {:induction false} DistinctAreCollected<A, B, E>(s: seq<A>, f: A -> Result<B, E>, duplicate: E)
    requires forall i :: 0 <= i < |s| ==> f(s[i]).Ok?
    requires forall i, j :: 0 <= i < j < |s| ==> f(s[i]) != f(s[j])
    ensures CollectDistinct(s, f, duplicate).Ok?
  {
    if s != [] {
      var rest := s[..|s| - 1];
      assert forall i :: 0 <= i < |rest| ==> rest[i] == s[i];
      DistinctAreCollected(rest, f, duplicate);
      CollectedAreDistinct(rest, f, duplicate);
      var done := CollectDistinct(rest, f, duplicate).value;
      forall i | 0 <= i < |done| ensures done[i] != f(s[|rest|]).value {
        assert f(rest[i]) == Ok(done[i]) && f(s[i]) != f(s[|rest|]);
      }
    }
  }
}
