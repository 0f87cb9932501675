/**
 * Positional replace-by-id, shared by `updateTracker` and the tail of
 * `saveTokenTracker`: find the first tracker of a group with a given id
 * (`Array.prototype.findIndex`, -1 when there is none) and splice a new value
 * into that slot with `slice(0, idx) ++ [value] ++ slice(idx + 1, length)`.
 */
module Replace {
  import opened Tokens

  /** A `slice` bound as JavaScript reads it: negative counts from the end, then clamped to [0, n]. */
  function ClampIndex(i: int, n: nat): (r: nat)
    ensures r <= n
    ensures 0 <= i <= n ==> r == i
    ensures i < 0 ==> r == if n + i < 0 then 0 else n + i
  {
    if i < 0 then (if n + i < 0 then 0 else n + i)
    else if i > n then n
    else i
  }

  /** `s.slice(begin, end)`. */
  function Slice<T>(s: seq<T>, begin: int, end: int): seq<T> {
    var b := ClampIndex(begin, |s|);
    var e := ClampIndex(end, |s|);
    if b < e then s[b..e] else []
  }

  /**
   * `[...s.slice(0, idx), x, ...s.slice(idx + 1, s.length)]`. For a found
   * index this overwrites exactly one slot; for findIndex's -1 the negative
   * `slice(0, -1)` keeps all but the last element and `slice(0, length)`
   * keeps all of them.
   */
  function Splice<T>(s: seq<T>, idx: int, x: T): (r: seq<T>)
    ensures 0 <= idx < |s| ==> r == s[idx := x]
    ensures idx == -1 ==> r == if s == [] then [x] else s[..|s| - 1] + [x] + s
  {
    Slice(s, 0, idx) + [x] + Slice(s, idx + 1, |s|)
  }

  /** `g.findIndex(trk => trk.id === id)`. */
  function FindIndex(g: seq<TokenTracker>, id: string): (r: int)
    ensures -1 <= r < |g|
    ensures r >= 0 ==> g[r].id == id && forall j :: 0 <= j < r ==> g[j].id != id
    ensures r == -1 <==> forall j :: 0 <= j < |g| ==> g[j].id != id
  {
    if g == [] then -1
    else if g[0].id == id then 0
    else
      var k := FindIndex(g[1..], id);
      if k < 0 then -1 else k + 1
  }

  /** Splice `x` into the slot of the first tracker of `g` whose id is `id`. */
  function ReplaceById(g: seq<TokenTracker>, id: string, x: TokenTracker): (r: seq<TokenTracker>)
    ensures FindIndex(g, id) >= 0 ==>
      |r| == |g| && r[FindIndex(g, id)] == x &&
      forall j :: 0 <= j < |g| && j != FindIndex(g, id) ==> r[j] == g[j]
  {
    Splice(g, FindIndex(g, id), x)
  }

  /** Overwriting a slot that did not hold `id` with a value that does not carry it leaves the search result alone. */
  lemma FindIndexAfterWrite(g: seq<TokenTracker>, i: nat, v: TokenTracker, id: string)
    requires i < |g| && g[i].id != id && v.id != id
    ensures FindIndex(g[i := v], id) == FindIndex(g, id)
  {
    var g' := g[i := v];
    forall j | 0 <= j < |g|
      ensures g'[j].id == id <==> g[j].id == id
    {
    }
  }

  /** Writing `x` into the slot of its own id keeps that slot the first match. */
  lemma FindIndexAfterReplace(g: seq<TokenTracker>, x: TokenTracker)
    requires FindIndex(g, x.id) >= 0
    ensures FindIndex(ReplaceById(g, x.id, x), x.id) == FindIndex(g, x.id)
  {
    var i := FindIndex(g, x.id);
    var r := ReplaceById(g, x.id, x);
    assert r[i].id == x.id;
    assert forall j :: 0 <= j < i ==> r[j].id != x.id;
  }

  /**
   * `updateTracker` with the same tracker twice is `updateTracker` once. When
   * the id is absent, the first splice leaves `x` as the first match, at
   * index `|g| - 1` (or 0 for an empty group).
   */
  lemma ReplaceByIdIdempotent(g: seq<TokenTracker>, x: TokenTracker)
    ensures ReplaceById(ReplaceById(g, x.id, x), x.id, x) == ReplaceById(g, x.id, x)
  {
    if FindIndex(g, x.id) >= 0 {
      FindIndexAfterReplace(g, x);
    } else if g != [] {
      var n := |g|;
      var r := ReplaceById(g, x.id, x);
      assert r == g[..n - 1] + [x] + g;
      assert r[n - 1] == x;
      assert forall j :: 0 <= j < n - 1 ==> r[j] == g[j];
      assert FindIndex(r, x.id) == n - 1;
    }
  }

  /** Replacing `x` and then `y` in a group where `x` does not carry `y`'s id overwrites both first matches. */
  lemma ReplaceTwo(g: seq<TokenTracker>, x: TokenTracker, y: TokenTracker)
    requires x.id != y.id
    requires FindIndex(g, x.id) >= 0 && FindIndex(g, y.id) >= 0
    ensures ReplaceById(ReplaceById(g, x.id, x), y.id, y) == g[FindIndex(g, x.id) := x][FindIndex(g, y.id) := y]
  {
    var i := FindIndex(g, x.id);
    FindIndexAfterWrite(g, i, x, y.id);
  }

  /** Replacements of two different trackers of a group commute. */
  lemma ReplaceByIdCommutes(g: seq<TokenTracker>, x: TokenTracker, y: TokenTracker)
    requires x.id != y.id
    requires FindIndex(g, x.id) >= 0 && FindIndex(g, y.id) >= 0
    ensures ReplaceById(ReplaceById(g, x.id, x), y.id, y) == ReplaceById(ReplaceById(g, y.id, y), x.id, x)
  {
    ReplaceTwo(g, x, y);
    ReplaceTwo(g, y, x);
    var i, j := FindIndex(g, x.id), FindIndex(g, y.id);
    assert g[i].id != g[j].id;
    UpdatesCommute(g, i, x, j, y);
  }

  lemma UpdatesCommute<T>(s: seq<T>, i: nat, a: T, j: nat, b: T)
    requires i < |s| && j < |s| && i != j
    ensures s[i := a][j := b] == s[j := b][i := a]
  {
  }
}
