/**
 * The state of the wallet manager page: the collection list, the grouped
 * trackers, the untracked NFTs, the tracking types offered, and the per-id
 * "saving" flags, with the three operations that change it.
 */
module WalletPage {
  import opened Wrappers
  import opened Tokens
  import opened Grouping
  import opened Replace
  import opened AlertValidation

  /** The request `saveTokenTracker` sends: the alert settings of the edited tracker. */
  function UpdateOf(t: TokenTracker): TrackerUpdate {
    TrackerUpdate(t.id, t.active, t.tokenTrackerType, t.above, t.below)
  }

  /** The group slots as JavaScript values: `None` is an `undefined` slot. */
  function Slots(g: seq<TokenTracker>): (r: seq<Option<TokenTracker>>)
    ensures |r| == |g|
    ensures forall i :: 0 <= i < |g| ==> r[i] == Some(g[i])
  {
    seq(|g|, i requires 0 <= i < |g| => Some(g[i]))
  }

  /**
   * The save tail as written: the endpoint's reply is spliced into the slot
   * of the edited tracker whatever it is, including the `undefined` the
   * service returns when the request fails.
   */
  function ApplySaveReplyAsWritten(g: seq<TokenTracker>, id: string, reply: Option<TokenTracker>): (r: seq<Option<TokenTracker>>)
    ensures FindIndex(g, id) >= 0 ==>
      |r| == |g| && r[FindIndex(g, id)] == reply &&
      forall j :: 0 <= j < |g| && j != FindIndex(g, id) ==> r[j] == Some(g[j])
  {
    Splice(Slots(g), FindIndex(g, id), reply)
  }

  /** As written, a failed save leaves an `undefined` hole where the edited tracker was. */
  lemma SaveFailureAsWrittenLosesTracker(g: seq<TokenTracker>, id: string)
    requires FindIndex(g, id) >= 0
    ensures var r := ApplySaveReplyAsWritten(g, id, None);
      |r| == |g| && r[FindIndex(g, id)] == None && None in r
  {
  }

  /**
   * The save tail as intended: a reply replaces the edited tracker's slot;
   * a failed save keeps the group, and the local edit in it, as it was.
   */
  function ApplySaveReply(g: seq<TokenTracker>, id: string, reply: Option<TokenTracker>): (r: seq<TokenTracker>)
    ensures reply.None? ==> r == g
    ensures reply.Some? && FindIndex(g, id) >= 0 ==> r == g[FindIndex(g, id) := reply.value]
  {
    match reply
    case Some(u) => ReplaceById(g, id, u)
    case None => g
  }

  /** On a successful save the intended and the written tail agree slot for slot. */
  lemma ApplySaveReplyAgrees(g: seq<TokenTracker>, id: string, u: TokenTracker)
    ensures Slots(ApplySaveReply(g, id, Some(u))) == ApplySaveReplyAsWritten(g, id, Some(u))
  {
    var i := FindIndex(g, id);
    var s := Slots(g);
    if i >= 0 {
      assert Slots(g[i := u]) == s[i := Some(u)];
    } else if g == [] {
      assert Slots([u]) == [Some(u)];
    } else {
      var n := |g|;
      var r := g[..n - 1] + [u] + g;
      var w := s[..n - 1] + [Some(u)] + s;
      assert |Slots(r)| == |w|;
      forall k | 0 <= k < |w|
        ensures Slots(r)[k] == w[k]
      {
        if k < n - 1 {
          assert r[k] == g[k];
        } else if k > n - 1 {
          assert r[k] == g[k - n];
        }
      }
    }
  }

  /** No two entries of `collections` coincide and they are exactly the keys of `groups`. */
  ghost predicate ListMatchesKeys(collections: seq<string>, groups: map<string, seq<TokenTracker>>) {
    NoDuplicates(collections) && forall c :: c in groups <==> c in collections
  }

  class WalletManager {
    var walletLoaded: bool
    var collections: seq<string>
    var groups: map<string, seq<TokenTracker>>
    var untrackedNfts: seq<Nft>
    var trackerTypes: seq<string>
    var saving: map<string, bool>

    ghost predicate Valid()
      reads this
    {
      ListMatchesKeys(collections, groups)
    }

    /** The page's initial state: nothing loaded, nothing saving. */
    constructor ()
      ensures Valid()
      ensures !walletLoaded && collections == [] && groups == map[]
      ensures untrackedNfts == [] && trackerTypes == [] && saving == map[]
    {
      walletLoaded := false;
      collections := [];
      groups := map[];
      untrackedNfts := [];
      trackerTypes := [];
      saving := map[];
    }

    /**
     * `loadWallet` after the fetch: `None` is a failed fetch and changes
     * nothing; otherwise the trackers are grouped and the page is loaded.
     */
    method LoadWallet(resp: Option<WalletData>)
      modifies this
      ensures resp.None? ==> unchanged(this)
      ensures resp.Some? ==>
        && Valid()
        && collections == FirstSeen(resp.value.tracked)
        && (forall c :: c in groups ==> groups[c] == Members(resp.value.tracked, c))
        && SumOfSizes(collections, groups) == GroupedCount(resp.value.tracked)
        && untrackedNfts == resp.value.untracked
        && trackerTypes == resp.value.tokenTrackingTypes
        && walletLoaded
        && saving == old(saving)
    {
      if resp.Some? {
        var cs, gs := GroupTrackers(resp.value.tracked);
        collections := cs;
        groups := gs;
        untrackedNfts := resp.value.untracked;
        trackerTypes := resp.value.tokenTrackingTypes;
        walletLoaded := true;
      }
    }

    /**
     * `updateTracker`: put an edited copy of `tracker` into its slot of group
     * `coll`. A `coll` with no group makes `trackers.findIndex` throw; then
     * nothing changes and `thrown` is true.
     */
    method UpdateTracker(coll: string, tracker: TokenTracker) returns (thrown: bool)
      requires Valid()
      modifies this`groups
      ensures Valid()
      ensures thrown <==> coll !in old(groups)
      ensures groups.Keys == old(groups).Keys
      ensures !thrown ==> groups == old(groups)[coll := ReplaceById(old(groups)[coll], tracker.id, tracker)]
      ensures thrown ==> groups == old(groups)
    {
      if coll !in groups {
        return true;
      }
      var trackers := groups[coll];
      var idx := FindIndex(trackers, tracker.id);
      groups := groups[coll := Splice(trackers, idx, tracker)];
      thrown := false;
    }

    /**
     * `saveTokenTracker` up to the `await`: validate; on success mark the
     * tracker as saving and return the request to send. On a rejection
     * nothing changes and no request is made.
     */
    method BeginSave(tracker: TokenTracker) returns (verdict: Verdict, request: Option<TrackerUpdate>)
      modifies this`saving
      ensures verdict == Validate(tracker)
      ensures verdict != Accepted ==> request.None? && saving == old(saving)
      ensures verdict == Accepted ==>
        && request == Some(TrackerUpdate(tracker.id, tracker.active, tracker.tokenTrackerType, tracker.above, tracker.below))
        && saving == old(saving)[tracker.id := true]
    {
      verdict := Validate(tracker);
      if verdict != Accepted {
        return verdict, None;
      }
      saving := saving[tracker.id := true];
      request := Some(UpdateOf(tracker));
    }

    /**
     * `saveTokenTracker` after the `await`: put the reply into the edited
     * tracker's slot of group `coll` and clear its saving flag. A `coll`
     * with no group throws before either happens, so the flag stays set.
     */
    method FinishSave(coll: string, tracker: TokenTracker, reply: Option<TokenTracker>) returns (thrown: bool)
      requires Valid()
      modifies this`groups, this`saving
      ensures Valid()
      ensures thrown <==> coll !in old(groups)
      ensures groups.Keys == old(groups).Keys
      ensures thrown ==> groups == old(groups) && saving == old(saving)
      ensures !thrown ==>
        && groups == old(groups)[coll := ApplySaveReply(old(groups)[coll], tracker.id, reply)]
        && saving == old(saving)[tracker.id := false]
    {
      if coll !in groups {
        return true;
      }
      var trackers := groups[coll];
      groups := groups[coll := ApplySaveReply(trackers, tracker.id, reply)];
      saving := saving[tracker.id := false];
      thrown := false;
    }

    /**
     * The whole of `saveTokenTracker`, with the save endpoint as `endpoint`
     * (`None` is its failure result). `request` is what was sent, `None`
     * when validation stopped the save before the call.
     */
    method SaveTokenTracker(coll: string, tracker: TokenTracker, endpoint: TrackerUpdate -> Option<TokenTracker>)
      returns (verdict: Verdict, request: Option<TrackerUpdate>, thrown: bool)
      requires Valid()
      modifies this`groups, this`saving
      ensures Valid()
      ensures verdict == Validate(tracker)
      ensures verdict != Accepted ==>
        request.None? && !thrown && groups == old(groups) && saving == old(saving)
      ensures verdict == Accepted ==>
        && request == Some(UpdateOf(tracker))
        && (thrown <==> coll !in old(groups))
        && saving == old(saving)[tracker.id := thrown]
        && groups == if thrown then old(groups)
                     else old(groups)[coll := ApplySaveReply(old(groups)[coll], tracker.id, endpoint(request.value))]
    {
      verdict, request := BeginSave(tracker);
      thrown := false;
      if request.Some? {
        var reply := endpoint(request.value);
        thrown := FinishSave(coll, tracker, reply);
      }
    }
  }

  /** `updateTracker` applied twice with the same tracker equals applying it once; other collections' groups are untouched. */
  lemma UpdateGroupsTwice(groups: map<string, seq<TokenTracker>>, coll: string, t: TokenTracker)
    requires coll in groups
    ensures var once := groups[coll := ReplaceById(groups[coll], t.id, t)];
      once[coll := ReplaceById(once[coll], t.id, t)] == once
      && forall d :: d in groups && d != coll ==> once[d] == groups[d]
  {
    ReplaceByIdIdempotent(groups[coll], t);
  }
}
