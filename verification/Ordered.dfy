/**
 Finite ordered key sets, read the way Rust's BTreeMap and BTreeSet are read:
 in ascending order, from an exclusive cursor, one bounded page at a time.
 Keys are only ever compared, so `int` stands for any ordered key type.
 */
module Ordered {

  datatype Option<+T> = None | Some(value: T)

  /** Whether `k` lies at or before the exclusive cursor `after`. */
  predicate Passed(after: Option<int>, k: int) {
    after.Some? && k <= after.value
  }

  /** The keys an exclusive range bound leaves. */
  function Beyond(keys: set<int>, after: Option<int>): set<int> {
    set k | k in keys && !Passed(after, k)
  }

  lemma EmptyOrInhabited(keys: set<int>)
    ensures keys == {} || exists k :: k in keys
  {
    if forall k :: k !in keys {
      assert keys == {};
    }
  }

  lemma {:induction false} FindLeast(keys: set<int>) returns (k: int)
    requires keys != {}
    ensures k in keys && forall x :: x in keys ==> k <= x
    decreases |keys|
  {
    EmptyOrInhabited(keys);
    k :| k in keys;
    var rest := keys - {k};
    if rest != {} {
      var m := FindLeast(rest);
      assert forall x :: x in keys ==> x == k || x in rest;
      k := if k < m then k else m;
    } else {
      assert keys == {k};
    }
  }

  lemma LeastExists(keys: set<int>)
    requires keys != {}
    ensures exists k :: k in keys && forall x :: x in keys ==> k <= x
  {
    var k := FindLeast(keys);
  }

  /** The first key in order. */
  function Least(keys: set<int>): (k: int)
    requires keys != {}
    ensures k in keys && forall x :: x in keys ==> k <= x
  {
    LeastExists(keys);
    var k :| k in keys && forall x :: x in keys ==> k <= x;
    k
  }

  ghost predicate Increasing(s: seq<int>) {
    forall i, j :: 0 <= i < j < |s| ==> s[i] < s[j]
  }

  /** Every key once, in ascending order. */
  function Ascending(keys: set<int>): (s: seq<int>)
    ensures Increasing(s)
    ensures forall k :: k in s <==> k in keys
    ensures |s| == |keys|
    decreases |keys|
  {
    if keys == {} then [] else
      var k := Least(keys);
      [k] + Ascending(keys - {k})
  }

  /** One page: at most `max` keys after the cursor, in order. */
  function Page(keys: set<int>, after: Option<int>, max: nat): (page: seq<int>) {
    var all := Ascending(Beyond(keys, after));
    if |all| <= max then all else all[..max]
  }

  /** A page skips no key: it holds every remaining key up to its last one, and all of them when it is short. */
  lemma PageProperties(keys: set<int>, after: Option<int>, max: nat)
    ensures var page := Page(keys, after, max);
            && |page| <= max && Increasing(page)
            && (forall i :: 0 <= i < |page| ==> page[i] in keys && !Passed(after, page[i]))
            && (forall k, i :: 0 <= i < |page| && k in keys && !Passed(after, k) && k <= page[i] ==> k in page)
            && (|page| < max ==> forall k :: k in keys && !Passed(after, k) ==> k in page)
            && |page| == (if |Beyond(keys, after)| <= max then |Beyond(keys, after)| else max)
  {
    var all := Ascending(Beyond(keys, after));
    var page := Page(keys, after, max);
    forall i | 0 <= i < |page| ensures page[i] in keys && !Passed(after, page[i]) {
      assert page[i] == all[i] && all[i] in all;
    }
    forall k, i | 0 <= i < |page| && k in keys && !Passed(after, k) && k <= page[i] ensures k in page {
      assert k in Beyond(keys, after);
      assert k in all;
      var j :| 0 <= j < |all| && all[j] == k;
      assert j <= i;
      assert page[j] == k;
    }
  }

  /** Two ascending listings of the same keys are the same listing. */
  lemma {:induction false} SameListing(s: seq<int>, t: seq<int>)
    requires Increasing(s) && Increasing(t)
    requires forall k :: k in s <==> k in t
    ensures s == t
    decreases |s|
  {
    if s == [] {
      assert forall i :: 0 <= i < |t| ==> t[i] in t;
    } else {
      assert s[0] in s && s[0] in t;
      assert t[0] in t && t[0] in s;
      assert s[0] == t[0];
      assert s == [s[0]] + s[1..] && t == [t[0]] + t[1..];
      forall k ensures k in s[1..] <==> k in t[1..] {
        if k in s[1..] { assert k in t && k > s[0]; }
        if k in t[1..] { assert k in s && k > t[0]; }
      }
      SameListing(s[1..], t[1..]);
    }
  }
}
