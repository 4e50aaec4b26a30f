/**
 * The home feed of `scripts/explore.py`: the script that reads the feed list out
 * of the page state (one level of nesting is flattened), and the loop that
 * scrolls for more until the requested number of notes is reached.
 *
 * What the page state holds and what each extraction returned are inputs; the
 * scrolling itself is only counted.
 */
module Explore {
  import opened Text
  import opened Json

  // ---------------------------------------------------------------------------
  // The extraction script
  // ---------------------------------------------------------------------------

  /** What one element of the feed list contributes: a nested list its items, anything else itself. */
  function Piece(v: Value): seq<Value>
  {
    if v.Arr? then v.items else [v]
  }

  /** The feed list with nested lists spliced in, one level deep, in order. */
  function FlattenOnce(data: seq<Value>): seq<Value>
  {
    if data == [] then [] else FlattenOnce(data[..|data| - 1]) + Piece(data[|data| - 1])
  }

  /** The flattening loop of the script, pushing onto `flat`. */
  method Flatten(data: seq<Value>) returns (flat: seq<Value>)
    ensures flat == FlattenOnce(data)
  {
    flat := [];
    for i := 0 to |data|
      invariant flat == FlattenOnce(data[..i])
    {
      assert data[..i + 1][..i] == data[..i];
      if data[i].Arr? {
        var inner := data[i].items;
        var before := flat;
        for j := 0 to |inner|
          invariant flat == before + inner[..j]
        {
          assert inner[..j + 1] == inner[..j] + [inner[j]];
          flat := flat + [inner[j]];
        }
        assert inner[..|inner|] == inner;
      } else {
        flat := flat + [data[i]];
      }
    }
    assert data[..|data|] == data;
  }

  /** Flattening distributes over concatenation, so order is kept. */
  lemma {:induction false} FlattenOnceAppend(a: seq<Value>, b: seq<Value>)
    ensures FlattenOnce(a + b) == FlattenOnce(a) + FlattenOnce(b)
    decreases |b|
  {
    if b == [] {
      assert a + b == a;
    } else {
      var n := |b| - 1;
      assert (a + b)[..|a + b| - 1] == a + b[..n];
      FlattenOnceAppend(a, b[..n]);
    }
  }

  /** What ends up in the flat list: non-list elements, and the items of list elements. */
  lemma {:induction false} FlattenOnceMembers(data: seq<Value>, v: Value)
    ensures v in FlattenOnce(data) <==>
              exists i :: 0 <= i < |data| && ((data[i] == v && !v.Arr?) || (data[i].Arr? && v in data[i].items))
    decreases |data|
  {
    if data != [] {
      var n := |data| - 1;
      FlattenOnceMembers(data[..n], v);
      if v in FlattenOnce(data[..n]) {
        var i :| 0 <= i < n && ((data[..n][i] == v && !v.Arr?) || (data[..n][i].Arr? && v in data[..n][i].items));
        assert data[i] == data[..n][i];
      }
      if exists i :: 0 <= i < |data| && ((data[i] == v && !v.Arr?) || (data[i].Arr? && v in data[i].items)) {
        var i :| 0 <= i < |data| && ((data[i] == v && !v.Arr?) || (data[i].Arr? && v in data[i].items));
        if i < n {
          assert data[..n][i] == data[i];
        }
      }
    }
  }

  /** A list with nothing nested in it is left as it is. */
  lemma {:induction false} FlattenOnceFlatList(data: seq<Value>)
    requires forall i :: 0 <= i < |data| ==> !data[i].Arr?
    ensures FlattenOnce(data) == data
    decreases |data|
  {
    if data != [] {
      var n := |data| - 1;
      FlattenOnceFlatList(data[..n]);
      assert data[..n] + [data[n]] == data;
    }
  }

  /** JavaScript property access on a parsed value: absent properties read as undefined. */
  function Prop(v: Value, key: string): Value
  {
    if v.Obj? then Get(v.fields, key) else Null
  }

  /**
   * The extraction script: '' unless the state has a truthy `feed.feeds`; that
   * value is unwrapped (`value`, then `_value`) and must be a list, which is
   * flattened one level.
   */
  function FeedsScript(state: Value): (r: ListProbe)
    ensures r.Items? ==> Unwrap(Prop(Prop(state, "feed"), "feeds")).Arr?
                         && r.items == FlattenOnce(Unwrap(Prop(Prop(state, "feed"), "feeds")).items)
    ensures r.Items? <==> JsTruthy(Prop(Prop(state, "feed"), "feeds"))
                          && Unwrap(Prop(Prop(state, "feed"), "feeds")).Arr?
  {
    var feeds := Prop(Prop(state, "feed"), "feeds");
    if !JsTruthy(state) || !JsTruthy(Prop(state, "feed")) || !JsTruthy(feeds) then NoList
    else
      var data := Unwrap(feeds);
      if !JsTruthy(data) || !data.Arr? then NoList
      else Items(FlattenOnce(data.items))
  }

  /** `_extract_feeds`: the decoded list, or [] when the script answered '' or malformed text. */
  function ExtractFeeds(p: ListProbe): (r: seq<Value>)
    ensures !p.Items? ==> r == []
    ensures p.Items? ==> r == p.items
  {
    LoadList(p)
  }

  // ---------------------------------------------------------------------------
  // Scrolling for more
  // ---------------------------------------------------------------------------

  /** The list kept after an extraction: the new one only when it is strictly longer. */
  function Longer(kept: seq<Value>, extracted: seq<Value>): seq<Value>
  {
    if |extracted| > |kept| then extracted else kept
  }

  /**
   * Scrolling from `feeds` with the extractions `later` still to come: scroll
   * while fewer than `limit` notes are kept and extractions remain. Yields the
   * notes kept and the number of scrolls.
   */
  function Scroll(feeds: seq<Value>, later: seq<ListProbe>, limit: int): (seq<Value>, nat)
    decreases |later|
  {
    if |feeds| >= limit || later == [] then (feeds, 0)
    else
      var next := Longer(feeds, ExtractFeeds(later[0]));
      var (kept, n) := Scroll(next, later[1..], limit);
      (kept, n + 1)
  }

  /** Scrolling never loses notes, scrolls at most once per extraction, and stops early only with enough notes. */
  lemma {:induction false} ScrollBounds(feeds: seq<Value>, later: seq<ListProbe>, limit: int)
    ensures |Scroll(feeds, later, limit).0| >= |feeds|
    ensures Scroll(feeds, later, limit).1 <= |later|
    ensures Scroll(feeds, later, limit).1 < |later| ==> |Scroll(feeds, later, limit).0| >= limit
    ensures |feeds| >= limit ==> Scroll(feeds, later, limit) == (feeds, 0)
    decreases |later|
  {
    if !(|feeds| >= limit || later == []) {
      ScrollBounds(Longer(feeds, ExtractFeeds(later[0])), later[1..], limit);
    }
  }

  /** The notes kept are the first extraction or one of the later ones, never a mix. */
  lemma {:induction false} ScrollKeepsOneExtraction(feeds: seq<Value>, later: seq<ListProbe>, limit: int)
    ensures var kept := Scroll(feeds, later, limit).0;
            kept == feeds || exists i :: 0 <= i < |later| && kept == ExtractFeeds(later[i])
    decreases |later|
  {
    if !(|feeds| >= limit || later == []) {
      var next := Longer(feeds, ExtractFeeds(later[0]));
      ScrollKeepsOneExtraction(next, later[1..], limit);
      var kept := Scroll(feeds, later, limit).0;
      if kept != feeds && kept != next {
        var i :| 0 <= i < |later[1..]| && kept == ExtractFeeds(later[1..][i]);
        assert later[1..][i] == later[i + 1];
      } else if kept == next && next != feeds {
        assert kept == ExtractFeeds(later[0]);
      }
    }
  }

  /** The number of later extractions `get_feeds` may make: one per scroll round. */
  const ScrollRounds: nat := 3

  /** `get_feeds`' result. */
  datatype FeedsResult = FeedsResult(count: nat, feeds: seq<Value>)

  /**
   * `get_feeds(limit)` after the page is loaded: extract once; when fewer than
   * `limit` notes came back, scroll up to three times, keeping a new extraction
   * only when it is longer, and stop once `limit` notes are kept; then cut to
   * `limit` (with Python's slice, so a negative limit drops notes from the end).
   */
  method GetFeeds(limit: int, first: ListProbe, later: seq<ListProbe>) returns (r: FeedsResult, scrolls: nat)
    requires |later| == ScrollRounds
    ensures var (kept, n) := Scroll(ExtractFeeds(first), later, limit);
            r.feeds == SliceTo(kept, limit) && scrolls == n
    ensures r.count == |r.feeds|
    ensures limit >= 0 ==> r.count <= limit
    ensures scrolls <= ScrollRounds
    ensures |ExtractFeeds(first)| >= limit ==> scrolls == 0 && r.feeds == SliceTo(ExtractFeeds(first), limit)
  {
    var feeds := ExtractFeeds(first);
    ghost var goal := Scroll(feeds, later, limit);
    ScrollBounds(feeds, later, limit);
    scrolls := 0;
    if |feeds| < limit {
      var round := 0;
      while round < ScrollRounds
        invariant 0 <= round <= ScrollRounds
        invariant Scroll(feeds, later[round..], limit).0 == goal.0
        invariant scrolls + Scroll(feeds, later[round..], limit).1 == goal.1
        invariant scrolls == round
        invariant |feeds| < limit
      {
        assert later[round..][1..] == later[round + 1..];
        scrolls := scrolls + 1;
        var extracted := ExtractFeeds(later[round]);
        if |extracted| > |feeds| {
          feeds := extracted;
        }
        round := round + 1;
        if |feeds| >= limit {
          break;
        }
      }
      if round == ScrollRounds {
        assert later[round..] == [];
      }
      assert Scroll(feeds, later[round..], limit) == (feeds, 0);
    }
    var cut := SliceTo(feeds, limit);
    return FeedsResult(|cut|, cut), scrolls;
  }
}
