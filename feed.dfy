/**
 * The note detail of `scripts/feed.py`: the bounded loop that loads more
 * comments until the count stops changing or the wanted number is reached, the
 * extraction of the note from the page state, and the three-try retry around it.
 *
 * What the page reported (comment counts, script answers) is an input; the
 * clicks, scrolls and random pauses around them are left out.
 */
module Feed {
  import opened Wrappers
  import opened Json

  // ---------------------------------------------------------------------------
  // Loading comments
  // ---------------------------------------------------------------------------

  /** Rounds without a change in the comment count after which loading gives up. */
  const StagnantLimit: nat := 5

  /** `max_attempts`: 50 when all comments are wanted (0), else three rounds per wanted comment. */
  function MaxAttempts(maxItems: int): int
  {
    if maxItems == 0 then 50 else maxItems * 3
  }

  /** The rounds `range(max_attempts)` actually runs: none for a negative bound. */
  function RoundBound(maxItems: int): (n: nat)
    ensures maxItems == 0 ==> n == 50
    ensures maxItems > 0 ==> n == 3 * maxItems
    ensures maxItems < 0 ==> n == 0
  {
    if MaxAttempts(maxItems) > 0 then MaxAttempts(maxItems) else 0
  }

  /** The comment count seen in round `j`; a probe that raised reads as 0. */
  function CountAt(counts: seq<Option<nat>>, j: nat): nat
    requires j < |counts|
  {
    counts[j].GetOr(0)
  }

  /** The count round `j` compares against: the previous round's, 0 before the first. */
  function PrevCount(counts: seq<Option<nat>>, j: nat): nat
    requires j < |counts|
  {
    if j == 0 then 0 else CountAt(counts, j - 1)
  }

  predicate Unchanged(counts: seq<Option<nat>>, j: nat)
    requires j < |counts|
  {
    CountAt(counts, j) == PrevCount(counts, j)
  }

  /** `stagnant` after `n` rounds: the run of unchanged rounds ending there, reset by any change. */
  function StagnantRun(counts: seq<Option<nat>>, n: nat): nat
    requires n <= |counts|
  {
    if n == 0 then 0
    else if Unchanged(counts, n - 1) then StagnantRun(counts, n - 1) + 1
    else 0
  }

  /** Loading stops after round `n` (counted from 1): five unchanged rounds in a row, or enough comments. */
  predicate StopsAfter(counts: seq<Option<nat>>, n: nat, maxItems: int)
    requires 1 <= n <= |counts|
  {
    StagnantRun(counts, n) >= StagnantLimit || (maxItems > 0 && CountAt(counts, n - 1) >= maxItems)
  }

  /**
   * `_load_comments(max_items)`: runs rounds until one of them stops the loading
   * or the round bound is used up. Returns the rounds run and the last count seen.
   */
  method LoadComments(maxItems: int, counts: seq<Option<nat>>) returns (rounds: nat, lastCount: nat)
    requires |counts| >= RoundBound(maxItems)
    ensures rounds <= RoundBound(maxItems)
    ensures RoundBound(maxItems) > 0 ==> rounds >= 1
    ensures forall n :: 1 <= n < rounds ==> !StopsAfter(counts, n, maxItems)
    ensures 1 <= rounds < RoundBound(maxItems) ==> StopsAfter(counts, rounds, maxItems)
    ensures lastCount == if rounds == 0 then 0 else CountAt(counts, rounds - 1)
  {
    var bound := RoundBound(maxItems);
    lastCount := 0;
    var stagnant := 0;
    rounds := 0;
    while rounds < bound
      invariant rounds <= bound
      invariant stagnant == StagnantRun(counts, rounds)
      invariant lastCount == if rounds == 0 then 0 else CountAt(counts, rounds - 1)
      invariant forall n :: 1 <= n <= rounds ==> !StopsAfter(counts, n, maxItems)
    {
      var current := counts[rounds].GetOr(0);
      rounds := rounds + 1;
      if current == lastCount {
        stagnant := stagnant + 1;
        if stagnant >= StagnantLimit {
          return;
        }
      } else {
        stagnant := 0;
      }
      lastCount := current;
      if maxItems > 0 && current >= maxItems {
        return;
      }
    }
  }

  /** A stagnant run of at least `k` means exactly that the last `k` rounds saw no change. */
  lemma {:induction false} StagnantRunMeaning(counts: seq<Option<nat>>, n: nat, k: nat)
    requires n <= |counts|
    ensures StagnantRun(counts, n) >= k <==> k <= n && forall j :: n - k <= j < n ==> Unchanged(counts, j)
    decreases n
  {
    if n > 0 && k > 0 {
      if Unchanged(counts, n - 1) {
        StagnantRunMeaning(counts, n - 1, k - 1);
      } else {
        assert !Unchanged(counts, n - 1);
      }
    }
  }

  // ---------------------------------------------------------------------------
  // Extracting the note
  // ---------------------------------------------------------------------------

  /** `_extract_feed_detail`: the decoded note, or None for an empty or malformed answer. */
  function ExtractFeedDetail(e: EvalResult): (r: Option<Value>)
    ensures r.None? <==> !e.Decoded?
    ensures e.Decoded? ==> r == Some(e.v)
  {
    Loads(e)
  }

  const DetailTries: nat := 3

  /** The outcome of `get_feed_detail`, with the attempts and pauses it took. */
  datatype DetailRun = DetailRun(detail: Option<Value>, attempts: nat, pauses: nat, commentsLoaded: bool)

  /**
   * `get_feed_detail` after the page is loaded: try the extraction up to three
   * times, pausing only between tries; when a note came back and comments are
   * wanted, load them and extract again, keeping the earlier note when the new
   * extraction yields nothing.
   */
  method GetFeedDetail(loadComments: bool, maxComments: int, tries: seq<EvalResult>,
                       reload: EvalResult, counts: seq<Option<nat>>) returns (r: DetailRun)
    requires |tries| == DetailTries
    requires |counts| >= RoundBound(maxComments)
    ensures 1 <= r.attempts <= DetailTries && r.pauses == r.attempts - 1
    ensures forall i :: 0 <= i < r.attempts - 1 ==> !Present(ExtractFeedDetail(tries[i]))
    ensures r.attempts < DetailTries ==> Present(ExtractFeedDetail(tries[r.attempts - 1]))
    ensures r.detail.Some? <==> exists i :: 0 <= i < DetailTries && Present(ExtractFeedDetail(tries[i]))
    ensures r.detail.Some? ==> Truthy(r.detail.value)
    ensures r.commentsLoaded <==> r.detail.Some? && loadComments
    ensures r.detail.Some? ==>
              r.detail == if r.commentsLoaded && Present(ExtractFeedDetail(reload)) then ExtractFeedDetail(reload)
                          else ExtractFeedDetail(tries[r.attempts - 1])
  {
    var detail: Option<Value> := None;
    var attempts := 0;
    var pauses := 0;
    while attempts < DetailTries
      invariant attempts <= DetailTries
      invariant pauses == if attempts < DetailTries then attempts else DetailTries - 1
      invariant forall i :: 0 <= i < attempts ==> !Present(ExtractFeedDetail(tries[i]))
      invariant attempts > 0 ==> detail == ExtractFeedDetail(tries[attempts - 1])
    {
      detail := ExtractFeedDetail(tries[attempts]);
      attempts := attempts + 1;
      if Present(detail) {
        break;
      }
      if attempts < DetailTries {
        pauses := pauses + 1;
      }
    }
    var found := Present(detail);
    var loaded := false;
    if found && loadComments {
      var _, _ := LoadComments(maxComments, counts);
      loaded := true;
      var again := ExtractFeedDetail(reload);
      if Present(again) {
        detail := again;
      }
    }
    if !Present(detail) {
      return DetailRun(None, attempts, pauses, loaded);
    }
    return DetailRun(detail, attempts, pauses, loaded);
  }
}
