/**
 * The decision logic of `scripts/search.py`: the filter option table and its
 * lookup, the collection of filter texts to click, the cut of the extracted
 * results to the requested limit, and the bounded attempt to get rid of the
 * login popup.
 *
 * The page is not modelled: what the page scripts returned and what the popup
 * probes saw are inputs.
 */
module Search {
  import opened Wrappers
  import opened Text
  import opened Json
  import Client

  datatype FilterOption = FilterOption(index: nat, text: string)

  /** `FILTER_OPTIONS_MAP`: sort order, note type, publish time, search scope, distance. */
  const FilterOptionsMap: map<int, seq<FilterOption>> := map[
    1 := [FilterOption(1, "综合"), FilterOption(2, "最新"), FilterOption(3, "最多点赞"),
          FilterOption(4, "最多评论"), FilterOption(5, "最多收藏")],
    2 := [FilterOption(1, "不限"), FilterOption(2, "视频"), FilterOption(3, "图文")],
    3 := [FilterOption(1, "不限"), FilterOption(2, "一天内"), FilterOption(3, "一周内"),
          FilterOption(4, "半年内")],
    4 := [FilterOption(1, "不限"), FilterOption(2, "已看过"), FilterOption(3, "未看过"),
          FilterOption(4, "已关注")],
    5 := [FilterOption(1, "不限"), FilterOption(2, "同城"), FilterOption(3, "附近")]
  ]

  /** The table has the groups 1..5 with 5, 3, 4, 4 and 3 options, numbered from 1, none blank. */
  lemma FilterOptionsShape()
    ensures FilterOptionsMap.Keys == {1, 2, 3, 4, 5}
    ensures |FilterOptionsMap[1]| == 5 && |FilterOptionsMap[2]| == 3 && |FilterOptionsMap[3]| == 4
    ensures |FilterOptionsMap[4]| == 4 && |FilterOptionsMap[5]| == 3
    ensures forall g, i :: g in FilterOptionsMap && 0 <= i < |FilterOptionsMap[g]| ==>
              FilterOptionsMap[g][i].index == i + 1 && FilterOptionsMap[g][i].text != ""
  {
  }

  /** Whether `text` is one of `options`' texts. */
  predicate Offers(options: seq<FilterOption>, text: string)
  {
    exists i :: 0 <= i < |options| && options[i].text == text
  }

  /** The option loop of `_find_filter_text`. */
  function FindIn(options: seq<FilterOption>, text: string): (r: Option<string>)
    ensures r.Some? <==> Offers(options, text)
    ensures r.Some? ==> r.value == text
  {
    if options == [] then None
    else if options[0].text == text then Some(options[0].text)
    else
      var r := FindIn(options[1..], text);
      assert Offers(options[1..], text) ==> Offers(options, text) by {
        if Offers(options[1..], text) {
          var i :| 0 <= i < |options[1..]| && options[1..][i].text == text;
          assert options[i + 1].text == text;
        }
      }
      r
  }

  /**
   * `_find_filter_text(group, text)`: `text` itself when it is an option of the
   * group, else None; an unknown group has no options.
   */
  function FindFilterText(group: int, text: string): (r: Option<string>)
    ensures r.Some? <==> group in FilterOptionsMap && Offers(FilterOptionsMap[group], text)
    ensures r.Some? ==> r.value == text
  {
    FindIn(if group in FilterOptionsMap then FilterOptionsMap[group] else [], text)
  }

  /** The five optional filter arguments of `search`, in group order. */
  datatype Filters = Filters(
    sortBy: Option<string>, noteType: Option<string>, publishTime: Option<string>,
    searchScope: Option<string>, location: Option<string>)

  function Arguments(f: Filters): (args: seq<Option<string>>)
    ensures |args| == 5
  {
    [f.sortBy, f.noteType, f.publishTime, f.searchScope, f.location]
  }

  /** `any([sort_by, note_type, publish_time, search_scope, location])`. */
  predicate AnyGiven(f: Filters)
  {
    Given(f.sortBy) || Given(f.noteType) || Given(f.publishTime) || Given(f.searchScope)
      || Given(f.location)
  }

  /** Argument `a` is given and names an option of group `g`. */
  predicate NamesOption(g: int, a: Option<string>)
  {
    Given(a) && FindFilterText(g, a.value).Some?
  }

  /**
   * The texts collected from the first `|args|` arguments, argument `i` being
   * looked up in group `i + 1`: given arguments that name an option, in order.
   */
  function Collected(args: seq<Option<string>>): (texts: seq<string>)
    ensures |texts| <= |args|
  {
    if args == [] then []
    else
      var n := |args| - 1;
      var a := args[n];
      Collected(args[..n]) +
        (if NamesOption(n + 1, a) then [a.value] else [])
  }

  /** How `_apply_filters` ended. */
  datatype FilterOutcome =
    | NoFilters              // nothing given: the page is not touched
    | PanelFailed            // hovering the filter button or waiting for the panel raised
    | Clicked(texts: seq<string>)  // the panel opened and these option texts were clicked

  /**
   * `_apply_filters`: returns at once when no argument is given; otherwise opens
   * the panel and, when that works, collects the texts of the given arguments
   * that name an option of their group, in the order sort, note type, publish
   * time, scope, distance, and clicks each.
   */
  method ApplyFilters(f: Filters, panelOpens: bool) returns (r: FilterOutcome)
    ensures r.NoFilters? <==> !AnyGiven(f)
    ensures r.PanelFailed? <==> !r.NoFilters? && !panelOpens
    ensures r.Clicked? ==> r.texts == Collected(Arguments(f))
  {
    var args := Arguments(f);
    if !AnyGiven(f) {
      return NoFilters;
    }
    if !panelOpens {
      return PanelFailed;
    }
    var texts: seq<string> := [];
    var group := 1;
    while group <= 5
      invariant 1 <= group <= 6
      invariant texts == Collected(args[..group - 1])
    {
      var a := args[group - 1];
      if Given(a) {
        var text := FindFilterText(group, a.value);
        if text.Some? {
          texts := texts + [text.value];
        }
      }
      assert args[..group] == args[..group - 1] + [a];
      assert args[..group][..group - 1] == args[..group - 1];
      group := group + 1;
    }
    assert args[..5] == args;
    return Clicked(texts);
  }

  /** Every collected text is an option of the group of the argument it came from. */
  lemma {:induction false} CollectedAreOptions(args: seq<Option<string>>, t: string)
    requires t in Collected(args)
    ensures exists g :: 1 <= g <= |args| && args[g - 1] == Some(t) && FindFilterText(g, t) == Some(t)
    decreases |args|
  {
    var n := |args| - 1;
    var a := args[n];
    if t in Collected(args[..n]) {
      CollectedAreOptions(args[..n], t);
      var g :| 1 <= g <= |args[..n]| && args[..n][g - 1] == Some(t) && FindFilterText(g, t) == Some(t);
      assert args[g - 1] == Some(t);
    } else {
      assert a == Some(t) && FindFilterText(n + 1, t) == Some(t);
    }
  }

  /** The texts of the arguments, in order (a missing one as ""). */
  function ArgumentTexts(args: seq<Option<string>>): (texts: seq<string>)
    ensures |texts| == |args|
    ensures forall i :: 0 <= i < |args| ==> args[i].Some? ==> Some(texts[i]) == args[i]
  {
    if args == [] then [] else ArgumentTexts(args[..|args| - 1]) + [args[|args| - 1].GetOr("")]
  }

  /** When every argument names an option of its group, each is clicked, in order. */
  lemma {:induction false} CollectedAllValid(args: seq<Option<string>>)
    requires forall i :: 0 <= i < |args| ==> NamesOption(i + 1, args[i])
    ensures Collected(args) == ArgumentTexts(args)
    decreases |args|
  {
    if args != [] {
      var n := |args| - 1;
      var init := args[..n];
      forall i | 0 <= i < |init| ensures NamesOption(i + 1, init[i]) {
        assert init[i] == args[i];
      }
      CollectedAllValid(init);
      assert NamesOption(n + 1, args[n]);
    }
  }

  /** `_extract_from_state`: the first `limit` results when `limit > 0`, else all of them. */
  function ExtractFromState(p: ListProbe, limit: int): (r: seq<Value>)
    ensures limit > 0 ==> |r| == if |LoadList(p)| < limit then |LoadList(p)| else limit
    ensures r <= LoadList(p)
    ensures limit <= 0 ==> r == LoadList(p)
  {
    var feeds := LoadList(p);
    if limit > 0 && limit < |feeds| then feeds[..limit] else feeds
  }

  /**
   * The result of `search` once the page is loaded: the state's results when
   * there are any, else those read off the page's markup.
   */
  function SearchResults(state: ListProbe, dom: ListProbe, limit: int): (r: seq<Value>)
    ensures ExtractFromState(state, limit) != [] ==> r == ExtractFromState(state, limit)
    ensures ExtractFromState(state, limit) == [] ==> r == LoadList(dom)
    ensures r == [] <==> LoadList(state) == [] && LoadList(dom) == []
    ensures LoadList(state) != [] ==> r <= LoadList(state) && (limit > 0 ==> |r| <= limit)
    ensures LoadList(state) == [] ==> r == LoadList(dom)
  {
    var feeds := ExtractFromState(state, limit);
    if feeds != [] then feeds else LoadList(dom)
  }

  /**
   * What one round of `_dismiss_login_popup` saw: no visible popup, a probe that
   * raised, or a popup that was closed (by its button or by Escape), after which
   * the page was at `url`.
   */
  datatype PopupRound = NoPopup | ProbeRaised | Closed(url: string)

  /**
   * How the popup handling went: rounds run, whether it navigated back to the
   * search page, and the client error that navigation raised, if it did.
   */
  datatype DismissReport = DismissReport(rounds: nat, renavigated: bool, raised: Option<Client.ClientError>)

  /** After a close, the page left the search page although there is one to return to. */
  predicate Redirected(searchUrl: Option<string>, url: string)
  {
    Given(searchUrl) && !Contains(url, "search_result")
  }

  /**
   * `_dismiss_login_popup`: at most two rounds. A round ends the handling when
   * there is no popup or probing raised; after a close, a redirect in the first
   * round navigates back to the search page and runs the second round, anything
   * else ends the handling. `navigation` is what `client.navigate(search_url)`
   * gives when it is called; an error it raises leaves the handling at once.
   */
  method DismissLoginPopup(searchUrl: Option<string>, seen: seq<PopupRound>, navigation: Outcome<Client.ClientError>)
    returns (r: DismissReport)
    requires |seen| == 2
    ensures 1 <= r.rounds <= 2
    ensures r.renavigated <==> seen[0].Closed? && Redirected(searchUrl, seen[0].url)
    ensures r.raised.Some? <==> r.renavigated && navigation.Fail?
    ensures r.raised.Some? ==> r.raised.value == navigation.error && r.rounds == 1
    ensures r.rounds == 2 <==> r.renavigated && navigation.Pass?
  {
    var rounds := 0;
    var renavigated := false;
    for attempt := 0 to 2
      invariant rounds == attempt
      invariant renavigated <==> attempt >= 1 && seen[0].Closed? && Redirected(searchUrl, seen[0].url)
      invariant attempt >= 1 ==> renavigated && navigation.Pass?
    {
      rounds := rounds + 1;
      match seen[attempt]
      case NoPopup =>
        return DismissReport(rounds, renavigated, None);
      case ProbeRaised =>
        return DismissReport(rounds, renavigated, None);
      case Closed(url) =>
        if Redirected(searchUrl, url) {
          if attempt == 0 {
            renavigated := true;
            if navigation.Fail? {
              return DismissReport(rounds, renavigated, Some(navigation.error));
            }
          } else {
            return DismissReport(rounds, renavigated, None);
          }
        } else {
          return DismissReport(rounds, renavigated, None);
        }
    }
    return DismissReport(rounds, renavigated, None);
  }
}
