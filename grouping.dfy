/**
 * Collection grouping done when the wallet loads: one pass over the tracked
 * tokens builds the list of distinct collection names in first-seen order and
 * a map from each name to its trackers in input order.
 */
module Grouping {
  import opened Wrappers
  import opened Tokens

  /** The grouping key, `tracker.token?.collection` when it is truthy. */
  function CollectionKey(t: TokenTracker): Option<string> {
    if t.token.Some? && t.token.value.collection.Some? && t.token.value.collection.value != "" then
      Some(t.token.value.collection.value)
    else
      None
  }

  /** Distinct collection names of `ts`, each at the position where it first occurs. */
  function FirstSeen(ts: seq<TokenTracker>): seq<string>
    decreases |ts|
  {
    if ts == [] then []
    else
      var seen := FirstSeen(ts[..|ts| - 1]);
      match CollectionKey(ts[|ts| - 1])
      case Some(c) => if c in seen then seen else seen + [c]
      case None => seen
  }

  /** The trackers of `ts` whose key is `c`, in input order. */
  function Members(ts: seq<TokenTracker>, c: string): seq<TokenTracker>
    decreases |ts|
  {
    if ts == [] then []
    else
      var rest := Members(ts[..|ts| - 1], c);
      if CollectionKey(ts[|ts| - 1]) == Some(c) then rest + [ts[|ts| - 1]] else rest
  }

  /** How many trackers of `ts` have a truthy collection. */
  function GroupedCount(ts: seq<TokenTracker>): nat
    decreases |ts|
  {
    if ts == [] then 0
    else GroupedCount(ts[..|ts| - 1]) + if CollectionKey(ts[|ts| - 1]).Some? then 1 else 0
  }

  predicate NoDuplicates(s: seq<string>) {
    forall i, j :: 0 <= i < j < |s| ==> s[i] != s[j]
  }

  /** Total length of the groups named in `cs`. */
  function SumOfSizes(cs: seq<string>, groups: map<string, seq<TokenTracker>>): nat
    decreases |cs|
  {
    if cs == [] then 0
    else
      var c := cs[|cs| - 1];
      SumOfSizes(cs[..|cs| - 1], groups) + if c in groups then |groups[c]| else 0
  }

  /** `a` is `b` with some elements removed, the rest kept in order. */
  predicate IsSubsequence<T(==)>(a: seq<T>, b: seq<T>)
    decreases |b|
  {
    if a == [] then true
    else if b == [] then false
    else
      (a[|a| - 1] == b[|b| - 1] && IsSubsequence(a[..|a| - 1], b[..|b| - 1]))
      || IsSubsequence(a, b[..|b| - 1])
  }

  /**
   * The grouping loop of `loadWallet`: skip trackers without a truthy
   * collection; on a collection's first tracker, open an empty group and
   * append the name to `collections`; then append the tracker to its group.
   */
  method GroupTrackers(tracked: seq<TokenTracker>)
    returns (collections: seq<string>, groups: map<string, seq<TokenTracker>>)
    ensures collections == FirstSeen(tracked)
    ensures NoDuplicates(collections)
    ensures forall c :: c in groups <==> c in collections
    ensures forall c :: c in groups ==> groups[c] == Members(tracked, c)
    ensures SumOfSizes(collections, groups) == GroupedCount(tracked)
    ensures tracked == [] ==> collections == [] && groups == map[]
  {
    collections := [];
    groups := map[];
    for i := 0 to |tracked|
      invariant collections == FirstSeen(tracked[..i])
      invariant NoDuplicates(collections)
      invariant forall c :: c in groups <==> c in collections
      invariant forall c :: c in groups ==> groups[c] == Members(tracked[..i], c)
      invariant SumOfSizes(collections, groups) == GroupedCount(tracked[..i])
    {
      assert tracked[..i + 1][..i] == tracked[..i];
      var tracker := tracked[i];
      var coll := CollectionKey(tracker);
      if coll.Some? {
        var c := coll.value;
        if c !in groups {
          SeenIffNonEmpty(tracked[..i], c);
          SumUpdateOther(collections, groups, c, []);
          groups := groups[c := []];
          collections := collections + [c];
        }
        SumUpdateOnce(collections, groups, c, groups[c] + [tracker]);
        groups := groups[c := groups[c] + [tracker]];
      }
    }
    assert tracked[..|tracked|] == tracked;
  }

  /** Updating a key not named in `cs` leaves their total size alone. */
  lemma {:induction false} SumUpdateOther(
    cs: seq<string>, groups: map<string, seq<TokenTracker>>, c: string, v: seq<TokenTracker>)
    requires c !in cs
    ensures SumOfSizes(cs, groups[c := v]) == SumOfSizes(cs, groups)
    decreases |cs|
  {
    if cs != [] {
      assert cs[|cs| - 1] != c;
      SumUpdateOther(cs[..|cs| - 1], groups, c, v);
    }
  }

  /** Replacing the group of a key named exactly once in `cs` changes the total by the length difference. */
  lemma {:induction false} SumUpdateOnce(
    cs: seq<string>, groups: map<string, seq<TokenTracker>>, c: string, v: seq<TokenTracker>)
    requires NoDuplicates(cs) && c in cs && c in groups
    ensures SumOfSizes(cs, groups[c := v]) == SumOfSizes(cs, groups) - |groups[c]| + |v|
    decreases |cs|
  {
    var init := cs[..|cs| - 1];
    if cs[|cs| - 1] == c {
      assert c !in init;
      SumUpdateOther(init, groups, c, v);
    } else {
      assert c in init;
      SumUpdateOnce(init, groups, c, v);
    }
  }

  /** A name is listed exactly when its group is non-empty. */
  lemma {:induction false} SeenIffNonEmpty(ts: seq<TokenTracker>, c: string)
    ensures c in FirstSeen(ts) <==> Members(ts, c) != []
    decreases |ts|
  {
    if ts != [] {
      SeenIffNonEmpty(ts[..|ts| - 1], c);
    }
  }

  /** `collections` has no duplicates. */
  lemma {:induction false} FirstSeenNoDuplicates(ts: seq<TokenTracker>)
    ensures NoDuplicates(FirstSeen(ts))
    decreases |ts|
  {
    if ts != [] {
      FirstSeenNoDuplicates(ts[..|ts| - 1]);
    }
  }

  /** A name is listed exactly when some tracker carries it as a truthy collection. */
  lemma {:induction false} FirstSeenMembership(ts: seq<TokenTracker>, c: string)
    ensures c in FirstSeen(ts) <==> exists i :: 0 <= i < |ts| && CollectionKey(ts[i]) == Some(c)
    decreases |ts|
  {
    if ts != [] {
      var init := ts[..|ts| - 1];
      FirstSeenMembership(init, c);
      if exists i :: 0 <= i < |ts| && CollectionKey(ts[i]) == Some(c) {
        var i :| 0 <= i < |ts| && CollectionKey(ts[i]) == Some(c);
        if i < |init| {
          assert CollectionKey(init[i]) == Some(c);
        }
      }
      if c in FirstSeen(init) {
        var i :| 0 <= i < |init| && CollectionKey(init[i]) == Some(c);
        assert CollectionKey(ts[i]) == Some(c);
      }
    }
  }

  /**
   * First-seen order: the names listed for any prefix of the input are a
   * prefix of the names listed for the whole input, so a name whose first
   * tracker comes earlier is listed earlier.
   */
  lemma {:induction false} FirstSeenPrefix(ts: seq<TokenTracker>, k: nat)
    requires k <= |ts|
    ensures FirstSeen(ts[..k]) <= FirstSeen(ts)
    decreases |ts|
  {
    if k < |ts| {
      var init := ts[..|ts| - 1];
      assert init[..k] == ts[..k];
      FirstSeenPrefix(init, k);
    } else {
      assert ts[..k] == ts;
    }
  }

  /**
   * First-occurrence order stated directly: if a later-listed name occurs at
   * index `k` of the input, an earlier-listed name occurs before `k`.
   */
  lemma FirstSeenOrder(ts: seq<TokenTracker>, i: nat, j: nat, k: nat)
    requires i < j < |FirstSeen(ts)| && k < |ts|
    requires CollectionKey(ts[k]) == Some(FirstSeen(ts)[j])
    ensures exists k0 :: 0 <= k0 < k && CollectionKey(ts[k0]) == Some(FirstSeen(ts)[i])
  {
    var cs := FirstSeen(ts);
    var pre := ts[..k + 1];
    var p := FirstSeen(pre);
    FirstSeenPrefix(ts, k + 1);
    FirstSeenNoDuplicates(ts);
    assert pre[k] == ts[k];
    FirstSeenMembership(pre, cs[j]);
    var m :| 0 <= m < |p| && p[m] == cs[j];
    assert m == j;
    FirstSeenMembership(pre, cs[i]);
    assert p[i] == cs[i];
    var k0 :| 0 <= k0 < |pre| && CollectionKey(pre[k0]) == Some(cs[i]);
    assert cs[i] != cs[j];
    assert k0 != k;
    assert CollectionKey(ts[k0]) == Some(cs[i]);
  }

  /** Every tracker of a group has that group's collection. */
  lemma {:induction false} MembersHaveKey(ts: seq<TokenTracker>, c: string)
    ensures forall t :: t in Members(ts, c) ==> CollectionKey(t) == Some(c)
    decreases |ts|
  {
    if ts != [] {
      MembersHaveKey(ts[..|ts| - 1], c);
    }
  }

  /** A group keeps every tracker of its collection, as often as the input holds it. */
  lemma {:induction false} MembersKeepAll(ts: seq<TokenTracker>, c: string, t: TokenTracker)
    requires CollectionKey(t) == Some(c)
    ensures multiset(Members(ts, c))[t] == multiset(ts)[t]
    decreases |ts|
  {
    if ts != [] {
      var init := ts[..|ts| - 1];
      MembersKeepAll(init, c, t);
      assert ts == init + [ts[|ts| - 1]];
    }
  }

  /** A group keeps the input's relative order. */
  lemma {:induction false} MembersInInputOrder(ts: seq<TokenTracker>, c: string)
    ensures IsSubsequence(Members(ts, c), ts)
    decreases |ts|
  {
    if ts != [] {
      var init := ts[..|ts| - 1];
      var last := ts[|ts| - 1];
      MembersInInputOrder(init, c);
      var m := Members(init, c);
      if CollectionKey(last) == Some(c) {
        assert (m + [last])[..|m|] == m;
      } else if m != [] {
        assert IsSubsequence(m, ts);
      }
    }
  }

  /**
   * A tracker with a truthy collection lands in the group of exactly that
   * collection and in no other; a tracker without one lands in no group.
   */
  lemma ExactlyOneGroup(ts: seq<TokenTracker>, t: TokenTracker, d: string)
    requires t in ts
    ensures CollectionKey(t).Some? ==>
      CollectionKey(t).value in FirstSeen(ts) && t in Members(ts, CollectionKey(t).value)
    ensures CollectionKey(t) != Some(d) ==> t !in Members(ts, d)
  {
    MembersHaveKey(ts, d);
    if CollectionKey(t).Some? {
      var c := CollectionKey(t).value;
      MembersKeepAll(ts, c, t);
      assert t in multiset(Members(ts, c));
      SeenIffNonEmpty(ts, c);
    }
  }
}
