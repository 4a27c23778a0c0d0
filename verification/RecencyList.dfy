/**
 * The recency order behind touchLocationLocked of the weather service: a list of
 * location keys, most recently touched first, cut to a configured maximum.
 */
module RecencyList {
  import opened Common

  /** One touch of the list: move to the front, or push and drop from the back. */
  function Touched(keys: seq<string>, key: string, maximum: int): seq<string> {
    if key in keys then [key] + Without(keys, key)
    else Take([key] + keys, Max(maximum, 0))
  }

  /** What that touch drops. */
  function Evicted(keys: seq<string>, key: string, maximum: int): seq<string> {
    if key in keys || |keys| + 1 <= Max(maximum, 0) then []
    else ([key] + keys)[Max(maximum, 0)..]
  }

  /** The list after a whole history of touches, oldest touch first. */
  function AfterTouches(history: seq<string>, maximum: int): seq<string> {
    if history == [] then []
    else Touched(AfterTouches(history[..|history| - 1], maximum), history[|history| - 1], maximum)
  }

  /** Position of the latest touch of key, or -1. */
  function LastTouch(history: seq<string>, key: string): int
    ensures -1 <= LastTouch(history, key) < |history|
    ensures LastTouch(history, key) == -1 <==> key !in history
    ensures LastTouch(history, key) >= 0 ==> history[LastTouch(history, key)] == key
    ensures forall i :: LastTouch(history, key) < i < |history| ==> history[i] != key
  {
    if history == [] then -1
    else if history[|history| - 1] == key then |history| - 1
    else LastTouch(history[..|history| - 1], key)
  }

  /** Every location of the history once, latest touch first: no bound, no eviction. */
  function Recency(history: seq<string>): seq<string> {
    if history == [] then []
    else [history[|history| - 1]] + Without(Recency(history[..|history| - 1]), history[|history| - 1])
  }

  lemma {:induction false} RecencyMembers(history: seq<string>)
    ensures Distinct(Recency(history))
    ensures forall k :: k in Recency(history) <==> k in history
  {
    if history != [] {
      var rest, key := history[..|history| - 1], history[|history| - 1];
      RecencyMembers(rest);
      WithoutMembers(Recency(rest), key);
      WithoutDistinct(Recency(rest), key);
      var tail := Without(Recency(rest), key);
      assert key !in tail;
      assert history == rest + [key];
    }
  }

  ghost predicate LatestFirst(keys: seq<string>, history: seq<string>) {
    forall i, j :: 0 <= i < j < |keys| ==> LastTouch(history, keys[i]) > LastTouch(history, keys[j])
  }

  lemma {:induction false} WithoutLatestFirst(keys: seq<string>, history: seq<string>, key: string)
    requires LatestFirst(keys, history)
    ensures LatestFirst(Without(keys, key), history)
  {
    if keys != [] {
      var rest, tail := keys[1..], Without(keys[1..], key);
      assert forall i, j :: 0 <= i < j < |rest| ==> rest[i] == keys[i + 1] && rest[j] == keys[j + 1];
      WithoutLatestFirst(rest, history, key);
      WithoutMembers(rest, key);
      forall j | 0 <= j < |tail| ensures LastTouch(history, keys[0]) > LastTouch(history, tail[j]) {
        var m :| 0 <= m < |rest| && rest[m] == tail[j];
        assert keys[m + 1] == tail[j];
      }
      HeadLatestFirst(keys[0], tail, history);
    }
  }

  lemma HeadLatestFirst(head: string, tail: seq<string>, history: seq<string>)
    requires LatestFirst(tail, history)
    requires forall j :: 0 <= j < |tail| ==> LastTouch(history, head) > LastTouch(history, tail[j])
    ensures LatestFirst([head] + tail, history)
  {
  }

  lemma {:induction false} RecencyOrder(history: seq<string>)
    ensures LatestFirst(Recency(history), history)
  {
    if history != [] {
      var rest, key := history[..|history| - 1], history[|history| - 1];
      RecencyOrder(rest);
      WithoutLatestFirst(Recency(rest), rest, key);
      WithoutMembers(Recency(rest), key);
      var tail := Without(Recency(rest), key);
      forall j | 0 <= j < |tail|
        ensures LastTouch(history, tail[j]) == LastTouch(rest, tail[j])
      {
        assert tail[j] != key by { assert tail[j] in tail; }
      }
    }
  }

  /** Cutting and removing commute when what is removed lies inside the cut. */
  lemma {:induction false} WithoutTake(keys: seq<string>, key: string, n: nat)
    requires Distinct(keys) && key in Take(keys, n)
    ensures n > 0
    ensures Without(Take(keys, n), key) == Take(Without(keys, key), n - 1)
  {
    if n >= |keys| {
      assert Take(keys, n) == keys;
      WithoutLength(keys, key);
    } else if keys[0] == key {
      WithoutAbsent(keys[1..], key);
      WithoutAbsent(keys[1..n], key);
      assert Take(keys, n)[1..] == keys[1..n];
    } else {
      assert Take(keys, n)[1..] == Take(keys[1..], n - 1);
      WithoutTake(keys[1..], key, n - 1);
    }
  }

  /** And the part of a longer list before the removed element is not moved by the removal. */
  lemma {:induction false} WithoutBeyond(keys: seq<string>, key: string, n: nat)
    requires key !in Take(keys, n)
    ensures |Without(keys, key)| >= Min(n, |keys|)
    ensures Without(keys, key)[..Min(n, |keys|)] == keys[..Min(n, |keys|)]
  {
    if n == 0 || keys == [] {
    } else {
      assert keys[0] == Take(keys, n)[0];
      assert keys[1..][..Min(n - 1, |keys| - 1)] == keys[1..Min(n, |keys|)];
      forall x | x in Take(keys[1..], n - 1) ensures x in Take(keys, n) {
        assert Take(keys, n) == [keys[0]] + Take(keys[1..], n - 1);
      }
      WithoutBeyond(keys[1..], key, n - 1);
    }
  }

  lemma TouchKeepsPrefix(full: seq<string>, key: string, n: nat)
    requires Distinct(full)
    ensures Touched(Take(full, n), key, n) == Take([key] + Without(full, key), n)
  {
    var kept := Take(full, n);
    if key in kept {
      WithoutTake(full, key, n);
    } else {
      WithoutBeyond(full, key, n);
      var m := Min(n, |full|);
      assert kept == full[..m] == Without(full, key)[..m];
      if n > 0 {
        assert Take([key] + kept, n) == [key] + Take(kept, n - 1);
        if |full| < n {
          WithoutAbsent(full, key);
        }
        assert Take(kept, n - 1) == Take(Without(full, key), n - 1);
      }
    }
  }

  /** The bounded list is at every point the first `maximum` entries of the unbounded recency order. */
  lemma {:induction false} AfterTouchesIsPrefix(history: seq<string>, maximum: int)
    ensures AfterTouches(history, maximum) == Take(Recency(history), Max(maximum, 0))
  {
    if history != [] {
      var rest, key := history[..|history| - 1], history[|history| - 1];
      AfterTouchesIsPrefix(rest, maximum);
      RecencyMembers(rest);
      TouchKeepsPrefix(Recency(rest), key, Max(maximum, 0));
    }
  }

  lemma PrefixOutranksRest(full: seq<string>, n: nat, history: seq<string>, k: string, d: string)
    requires LatestFirst(full, history)
    requires k in Take(full, n) && d in full && d !in Take(full, n)
    ensures LastTouch(history, k) > LastTouch(history, d)
  {
    var i :| 0 <= i < |Take(full, n)| && Take(full, n)[i] == k;
    var j :| 0 <= j < |full| && full[j] == d;
    assert forall m :: 0 <= m < |Take(full, n)| ==> full[m] == Take(full, n)[m];
    assert j >= n;
  }

  /**
   * Least-recently-used eviction, stated over the history alone: the list is free of repetitions
   * and ordered by latest touch; it holds every touched location or exactly `maximum` of them;
   * and no location left out was touched later than one kept.
   */
  lemma LruRefinesHistory(history: seq<string>, maximum: int)
    ensures var keys := AfterTouches(history, maximum);
            && Distinct(keys) && LatestFirst(keys, history)
            && (forall k :: k in keys ==> k in history)
            && (|keys| == Max(maximum, 0) || forall k :: k in history ==> k in keys)
            && |keys| <= Max(maximum, 0)
            && forall k, d :: k in keys && d in history && d !in keys ==>
                 LastTouch(history, k) > LastTouch(history, d)
  {
    var n := Max(maximum, 0);
    AfterTouchesIsPrefix(history, maximum);
    RecencyMembers(history);
    RecencyOrder(history);
    var full := Recency(history);
    var keys := Take(full, n);
    forall k | k in keys ensures k in history {
      assert k in full;
    }
    forall k, d | k in keys && d in history && d !in keys
      ensures LastTouch(history, k) > LastTouch(history, d)
    {
      assert d in full;
      PrefixOutranksRest(full, n, history, k, d);
    }
  }

  /** The most recently touched location is always kept once the bound is at least one. */
  lemma TouchedKeepsNewest(keys: seq<string>, key: string, maximum: int)
    requires maximum >= 1
    ensures key in Touched(keys, key, maximum)
    ensures key !in Evicted(keys, key, maximum) || key in keys
    ensures forall k :: k in keys ==> k in Touched(keys, key, maximum) || k in Evicted(keys, key, maximum)
  {
    WithoutMembers(keys, key);
    if key in keys {
      assert key in [key] + Without(keys, key);
    } else {
      var all := [key] + keys;
      assert Touched(keys, key, maximum)[0] == key;
      assert maximum < |all| ==> all == all[..maximum] + all[maximum..];
      forall k | k in keys ensures k in Touched(keys, key, maximum) || k in Evicted(keys, key, maximum) {
        assert k in all;
      }
      forall i | 0 <= i < |Evicted(keys, key, maximum)|
        ensures Evicted(keys, key, maximum)[i] != key
      {
        assert Evicted(keys, key, maximum)[i] == keys[maximum - 1 + i];
      }
    }
  }
}
