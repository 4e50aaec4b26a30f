/**
 * The session controls of `scripts/client.py`: navigation pacing, captcha
 * detection and reporting, the wait for the page's initial state, and the
 * dotted-path lookup into that state.
 *
 * The browser is not modelled. What the page reports (its URL and title, whether
 * the initial state appeared, what a script returned) is an input, and so is the
 * clock: times are integer milliseconds and a sleep advances the clock by exactly
 * the time slept.
 */
module Client {
  import opened Wrappers
  import opened Text
  import opened Json

  // ---------------------------------------------------------------------------
  // Captcha detection
  // ---------------------------------------------------------------------------

  /** `CAPTCHA_URL_PATTERNS`, compared as written against the lowercased URL. */
  const CaptchaUrlPatterns: seq<string> :=
    ["captcha", "security-verification", "website-login/captcha", "verifyType", "verifyBiz"]

  /** `CAPTCHA_TITLE_PATTERNS`, lowercased before comparison. */
  const CaptchaTitlePatterns: seq<string> := ["安全验证", "验证码", "captcha", "Security Verification"]

  /** What the open page reports: its URL, and its title unless reading it raised. */
  datatype Probe = Probe(url: string, title: Option<string>)

  predicate UrlFlagged(url: string)
  {
    exists p :: p in CaptchaUrlPatterns && Contains(Lower(url), p)
  }

  predicate TitleFlagged(title: string)
  {
    exists p :: p in CaptchaTitlePatterns && Contains(Lower(title), Lower(p))
  }

  /**
   * `_check_captcha`: false without a page; true when a URL pattern occurs in the
   * lowercased URL, else when a lowercased title pattern occurs in the lowercased
   * title; false when reading the title raised.
   */
  function CheckCaptcha(page: Option<Probe>): bool
  {
    match page
    case None => false
    case Some(p) =>
      if AnyUrlPattern(Lower(p.url), CaptchaUrlPatterns) then true
      else match p.title
        case None => false
        case Some(t) => AnyTitlePattern(Lower(t), CaptchaTitlePatterns)
  }

  /** What `_check_captcha` decides, in terms of the two pattern lists. */
  lemma CheckCaptchaMeaning(page: Option<Probe>)
    ensures page.None? ==> !CheckCaptcha(page)
    ensures page.Some? ==>
              (CheckCaptcha(page) <==>
                 (UrlFlagged(page.value.url) || (page.value.title.Some? && TitleFlagged(page.value.title.value))))
  {
    if page.Some? {
      AnyUrlPatternMeaning(Lower(page.value.url), CaptchaUrlPatterns);
      if page.value.title.Some? {
        AnyTitlePatternMeaning(Lower(page.value.title.value), CaptchaTitlePatterns);
      }
    }
  }

  /** The pattern loop over URL patterns. */
  function AnyUrlPattern(url: string, patterns: seq<string>): bool
  {
    if patterns == [] then false
    else if Contains(url, patterns[0]) then true
    else AnyUrlPattern(url, patterns[1..])
  }

  /** The URL loop finds a pattern iff one occurs. */
  lemma {:induction false} AnyUrlPatternMeaning(url: string, patterns: seq<string>)
    ensures AnyUrlPattern(url, patterns) <==> exists p :: p in patterns && Contains(url, p)
  {
    if patterns != [] {
      assert patterns[0] in patterns;
      assert forall p :: p in patterns ==> p == patterns[0] || p in patterns[1..];
      assert forall p :: p in patterns[1..] ==> p in patterns;
      AnyUrlPatternMeaning(url, patterns[1..]);
    }
  }

  /** The pattern loop over title patterns, each lowercased first. */
  function AnyTitlePattern(title: string, patterns: seq<string>): bool
  {
    if patterns == [] then false
    else if Contains(title, Lower(patterns[0])) then true
    else AnyTitlePattern(title, patterns[1..])
  }

  /** The title loop finds a pattern iff one occurs once lowercased. */
  lemma {:induction false} AnyTitlePatternMeaning(title: string, patterns: seq<string>)
    ensures AnyTitlePattern(title, patterns) <==> exists p :: p in patterns && Contains(title, Lower(p))
  {
    if patterns != [] {
      assert patterns[0] in patterns;
      assert forall p :: p in patterns ==> p == patterns[0] || p in patterns[1..];
      assert forall p :: p in patterns[1..] ==> p in patterns;
      AnyTitlePatternMeaning(title, patterns[1..]);
    }
  }

  /**
   * The URL is lowercased but `verifyType` and `verifyBiz` are not, so neither
   * pattern can occur in it: those two patterns never flag a page.
   */
  lemma MixedCasePatternsNeverMatch(url: string)
    ensures !Contains(Lower(url), "verifyType")
    ensures !Contains(Lower(url), "verifyBiz")
  {
    if Contains(Lower(url), "verifyType") {
      ContainsChar(Lower(url), "verifyType", 6);
      assert false;
    }
    if Contains(Lower(url), "verifyBiz") {
      ContainsChar(Lower(url), "verifyBiz", 6);
      assert false;
    }
  }

  /** The error `navigate` and `wait_for_initial_state` report. */
  datatype ClientError =
    | NotStarted
    | Captcha(captchaUrl: string, message: string)

  /** `CaptchaError(url, message)`: an empty message is replaced by one naming the URL. */
  function NewCaptchaError(url: string, message: string): (e: ClientError)
    ensures e.Captcha? && e.captchaUrl == url
    ensures message != "" ==> e.message == message
    ensures message == "" ==> Contains(e.message, url)
  {
    var text := if message != "" then message else "触发安全验证: " + url;
    assert message == "" ==> Contains(text, url) by {
      if message == "" {
        assert IsPrefix(url, url);
        ContainsInSuffix("触发安全验证: ", url, url);
      }
    }
    Captcha(url, text)
  }

  /**
   * `_handle_captcha`: the error names the page's URL ("unknown" without a page)
   * and the session's navigation count.
   */
  function HandleCaptcha(page: Option<Probe>, navigateCount: nat): (e: ClientError)
    ensures e.Captcha?
    ensures e.captchaUrl == (if page.Some? then page.value.url else "unknown")
    ensures Contains(e.message, e.captchaUrl) && Contains(e.message, NatToString(navigateCount))
  {
    var url := if page.Some? then page.value.url else "unknown";
    var head := "触发小红书安全验证！\n  验证页面: " + url + "\n  本次会话已请求 ";
    var count := NatToString(navigateCount);
    var tail := " 次\n  建议: 1) 等待几分钟后重试  2) 用 --headless=false 手动过验证码  3) 重新扫码登录";
    var message := head + count + tail;
    assert IsPrefix(url, url);
    ContainsInSuffix("触发小红书安全验证！\n  验证页面: ", url, url);
    ContainsInPrefix("触发小红书安全验证！\n  验证页面: " + url, "\n  本次会话已请求 ", url);
    ContainsInPrefix(head, count + tail, url);
    assert head + (count + tail) == message;
    assert IsPrefix(count, count);
    ContainsInPrefix(count, tail, count);
    ContainsInSuffix(head, count + tail, count);
    NewCaptchaError(url, message)
  }

  // ---------------------------------------------------------------------------
  // Pacing
  // ---------------------------------------------------------------------------

  const MinInterval: int := 3000
  const MaxInterval: int := 6000
  const BurstThreshold: nat := 5
  const BurstCooldown: int := 10000
  const MaxBurstJitter: int := 3000
  /** The elapsed time assumed before the first navigation (999 seconds). */
  const FirstElapsed: int := 999000

  /** The counter sits on a burst boundary: a positive multiple of 5. */
  predicate AtBurst(count: nat)
  {
    count > 0 && count % BurstThreshold == 0
  }

  /**
   * How long `_throttle` sleeps. `burstJitter` is the `random.uniform(0, 3)` draw
   * and `interval` the `random.uniform(MIN_INTERVAL, MAX_INTERVAL)` draw.
   * Measured from the previous navigation, the next one never comes sooner than
   * the minimum interval, and at a burst boundary never sooner than the burst
   * cooldown.
   */
  function ThrottleWait(last: int, count: nat, now: int, burstJitter: int, interval: int): (wait: int)
    requires 0 <= burstJitter <= MaxBurstJitter && MinInterval <= interval <= MaxInterval
    ensures wait >= 0
    ensures last <= 0 ==> wait == 0
    ensures last > 0 ==> now + wait >= last + MinInterval
    ensures last > 0 && AtBurst(count) ==> now + wait >= last + BurstCooldown
    ensures last > 0 && AtBurst(count) && now - last < BurstCooldown ==> now + wait == last + BurstCooldown + burstJitter
    ensures last > 0 && !AtBurst(count) && now - last >= MinInterval ==> wait == 0
    ensures wait <= (if now < last then last - now else 0) + BurstCooldown + MaxBurstJitter
  {
    var elapsed := if last > 0 then now - last else FirstElapsed;
    if AtBurst(count) then
      var cooldown := BurstCooldown + burstJitter;
      if elapsed < cooldown then cooldown - elapsed else 0
    else if elapsed < MinInterval then
      var w := interval - elapsed;
      if w > 0 then w else 0
    else 0
  }

  /** The outcome of one attempt of `wait_for_initial_state`. */
  datatype StateAttempt = StateAttempt(appeared: bool, afterReload: Probe)

  datatype WaitOutcome =
    | StateReady(attempts: nat, reloads: nat)
    | GaveUp(attempts: nat, reloads: nat)
    | WaitFailed(error: ClientError)

  /** The state did not appear in any of the first `n` attempts. */
  predicate NoneAppeared(outcomes: seq<StateAttempt>, n: nat)
    requires n <= |outcomes|
  {
    forall k :: 0 <= k < n ==> !outcomes[k].appeared
  }

  /** The page shown after `k` reloads: the start page, then each reload's landing page. */
  function PageAt(start: Probe, outcomes: seq<StateAttempt>, k: nat): Probe
    requires k <= |outcomes|
  {
    if k == 0 then start else outcomes[k - 1].afterReload
  }

  /** None of the pages shown before the `n`-th reload is flagged. */
  predicate ClearBelow(start: Probe, outcomes: seq<StateAttempt>, n: nat)
    requires n <= |outcomes|
  {
    forall k :: 0 <= k < n ==> !CheckCaptcha(Some(PageAt(start, outcomes, k)))
  }

  /**
   * The page shown after `j` reloads is checked and is the first flagged one: the
   * `j` reloads all happen (`j <= retries`, the state appeared in none of the
   * attempts before them) and every earlier page passed its check.
   */
  predicate FailsAt(start: Probe, retries: int, outcomes: seq<StateAttempt>, j: nat)
  {
    j <= retries && j < |outcomes| && NoneAppeared(outcomes, j) && ClearBelow(start, outcomes, j)
    && CheckCaptcha(Some(PageAt(start, outcomes, j)))
  }

  /** An outcome of `wait_for_initial_state` with the number of reloads behind the page it leaves. */
  datatype WaitTrace = WaitTrace(outcome: WaitOutcome, shown: nat)

  /**
   * `wait_for_initial_state` from attempt `k` on, on a started page: the check
   * before the attempt, the attempt, and on failure the reload and its check.
   */
  function WaitFrom(start: Probe, retries: int, outcomes: seq<StateAttempt>, count: nat, k: nat): (t: WaitTrace)
    requires |outcomes| >= if retries >= 0 then retries + 1 else 0
    requires k == 0 || k <= retries
    ensures t.shown <= |outcomes|
    decreases retries + 1 - k
  {
    var here := Some(PageAt(start, outcomes, k));
    if k > retries then WaitTrace(GaveUp(k, k), k)
    else if CheckCaptcha(here) then WaitTrace(WaitFailed(HandleCaptcha(here, count)), k)
    else if outcomes[k].appeared then WaitTrace(StateReady(k + 1, k), k)
    else if k < retries then
      var next := Some(PageAt(start, outcomes, k + 1));
      if CheckCaptcha(next) then WaitTrace(WaitFailed(HandleCaptcha(next, count)), k + 1)
      else WaitFrom(start, retries, outcomes, count, k + 1)
    else WaitTrace(GaveUp(k + 1, k), k)
  }

  /** A failed wait is left on the first flagged page it checked, with that page's captcha error. */
  lemma {:induction false} WaitFromFails(start: Probe, retries: int, outcomes: seq<StateAttempt>, count: nat, k: nat)
    requires |outcomes| >= if retries >= 0 then retries + 1 else 0
    requires k == 0 || k <= retries
    requires k <= |outcomes| && NoneAppeared(outcomes, k) && ClearBelow(start, outcomes, k)
    ensures var t := WaitFrom(start, retries, outcomes, count, k);
            t.outcome.WaitFailed? ==>
              FailsAt(start, retries, outcomes, t.shown)
              && t.outcome.error == HandleCaptcha(Some(PageAt(start, outcomes, t.shown)), count)
    decreases retries + 1 - k
  {
    var t := WaitFrom(start, retries, outcomes, count, k);
    var here := Some(PageAt(start, outcomes, k));
    if k <= retries && !CheckCaptcha(here) && !outcomes[k].appeared && k < retries {
      assert ClearBelow(start, outcomes, k + 1);
      assert NoneAppeared(outcomes, k + 1);
      if !CheckCaptcha(Some(PageAt(start, outcomes, k + 1))) {
        assert t == WaitFrom(start, retries, outcomes, count, k + 1);
        assert ClearBelow(start, outcomes, k + 2);
        WaitFromFails(start, retries, outcomes, count, k + 1);
      }
    }
  }

  /**
   * A wait that does not fail checked only clean pages; it is ready at the first
   * attempt that saw the state, or gives up after `retries + 1` attempts and
   * `retries` reloads.
   */
  lemma {:induction false} WaitFromPasses(start: Probe, retries: int, outcomes: seq<StateAttempt>, count: nat, k: nat)
    requires |outcomes| >= if retries >= 0 then retries + 1 else 0
    requires k == 0 || k <= retries
    requires k <= |outcomes| && NoneAppeared(outcomes, k) && ClearBelow(start, outcomes, k)
    ensures var t := WaitFrom(start, retries, outcomes, count, k);
            (t.outcome.StateReady? ==>
               1 <= t.outcome.attempts <= retries + 1 && t.shown == t.outcome.reloads == t.outcome.attempts - 1
               && outcomes[t.shown].appeared && NoneAppeared(outcomes, t.shown)
               && ClearBelow(start, outcomes, t.shown + 1))
            && (t.outcome.GaveUp? ==>
                  t.outcome.attempts == (if retries >= 0 then retries + 1 else 0)
                  && t.shown == t.outcome.reloads == (if retries > 0 then retries else 0)
                  && NoneAppeared(outcomes, t.outcome.attempts)
                  && (retries >= 0 ==> ClearBelow(start, outcomes, t.shown + 1)))
    decreases retries + 1 - k
  {
    var t := WaitFrom(start, retries, outcomes, count, k);
    var here := Some(PageAt(start, outcomes, k));
    if k <= retries && !CheckCaptcha(here) {
      assert ClearBelow(start, outcomes, k + 1);
      if !outcomes[k].appeared {
        assert NoneAppeared(outcomes, k + 1);
        if k < retries && !CheckCaptcha(Some(PageAt(start, outcomes, k + 1))) {
          assert t == WaitFrom(start, retries, outcomes, count, k + 1);
          assert ClearBelow(start, outcomes, k + 2);
          WaitFromPasses(start, retries, outcomes, count, k + 1);
        }
      }
    }
  }

  /**
   * No page fails once the checked pages `0..n` were all clean and the wait
   * stopped after them: the state appeared at attempt `n`, or `n` was the last
   * attempt.
   */
  lemma NoneFails(start: Probe, retries: int, outcomes: seq<StateAttempt>, n: nat)
    requires n < |outcomes| && ClearBelow(start, outcomes, n + 1)
    requires outcomes[n].appeared || n >= retries
    ensures forall j :: !FailsAt(start, retries, outcomes, j)
  {
    forall j: nat ensures !FailsAt(start, retries, outcomes, j) {
      if j <= n {
        assert !CheckCaptcha(Some(PageAt(start, outcomes, j)));
      } else if j < |outcomes| && outcomes[n].appeared {
        assert !(n < j && !outcomes[n].appeared);
      }
    }
  }

  /**
   * What a wait means: it fails exactly when some checked page is flagged, with
   * the captcha error of the first such page, left showing; otherwise every page
   * it checked passed, and it stops at the first attempt that saw the state or
   * after `retries + 1` attempts and `retries` reloads.
   */
  lemma WaitFromMeaning(start: Probe, retries: int, outcomes: seq<StateAttempt>, count: nat)
    requires |outcomes| >= if retries >= 0 then retries + 1 else 0
    ensures var t := WaitFrom(start, retries, outcomes, count, 0);
            (t.outcome.WaitFailed? <==> exists j :: FailsAt(start, retries, outcomes, j))
            && (t.outcome.WaitFailed? ==>
                  FailsAt(start, retries, outcomes, t.shown)
                  && t.outcome.error == HandleCaptcha(Some(PageAt(start, outcomes, t.shown)), count))
            && (t.outcome.StateReady? ==>
                  1 <= t.outcome.attempts <= retries + 1 && t.shown == t.outcome.reloads == t.outcome.attempts - 1
                  && outcomes[t.shown].appeared && NoneAppeared(outcomes, t.shown)
                  && ClearBelow(start, outcomes, t.shown + 1))
            && (t.outcome.GaveUp? ==>
                  t.outcome.attempts == (if retries >= 0 then retries + 1 else 0)
                  && t.shown == t.outcome.reloads == (if retries > 0 then retries else 0)
                  && NoneAppeared(outcomes, t.outcome.attempts)
                  && (retries >= 0 ==> ClearBelow(start, outcomes, t.shown + 1)))
  {
    var t := WaitFrom(start, retries, outcomes, count, 0);
    WaitFromFails(start, retries, outcomes, count, 0);
    WaitFromPasses(start, retries, outcomes, count, 0);
    if t.outcome.StateReady? || (t.outcome.GaveUp? && retries >= 0) {
      NoneFails(start, retries, outcomes, t.shown);
    } else if t.outcome.GaveUp? {
      assert forall j :: !FailsAt(start, retries, outcomes, j);
    }
  }

  /** `XiaohongshuClient`: the browser page (when started) and the pacing counters. */
  class XiaohongshuClient {
    var page: Option<Probe>
    var lastNavigateTime: int
    var navigateCount: nat
    var sessionStart: int
    /** The URLs the page was sent to, oldest first. */
    var visited: seq<string>

    constructor ()
      ensures page.None? && lastNavigateTime == 0 && navigateCount == 0 && sessionStart == 0 && visited == []
    {
      page := None;
      lastNavigateTime := 0;
      navigateCount := 0;
      sessionStart := 0;
      visited := [];
    }

    /** `start`, as far as the model sees it: a page that reports `blank`. */
    method Start(blank: Probe)
      modifies this
      ensures page == Some(blank)
      ensures lastNavigateTime == old(lastNavigateTime) && navigateCount == old(navigateCount)
      ensures sessionStart == old(sessionStart) && visited == old(visited)
    {
      page := Some(blank);
    }

    /**
     * `_throttle`: sleeps `ThrottleWait`, then stamps the navigation with the
     * clock after the sleep and counts it; the session start is set on the first
     * call only.
     */
    method Throttle(now: int, burstJitter: int, interval: int) returns (wait: int)
      requires 0 <= burstJitter <= MaxBurstJitter && MinInterval <= interval <= MaxInterval
      modifies this
      ensures wait == ThrottleWait(old(lastNavigateTime), old(navigateCount), now, burstJitter, interval)
      ensures lastNavigateTime == now + wait
      ensures navigateCount == old(navigateCount) + 1
      ensures sessionStart == (if old(sessionStart) == 0 then now else old(sessionStart))
      ensures page == old(page) && visited == old(visited)
    {
      if sessionStart == 0 {
        sessionStart := now;
      }
      var elapsed := if lastNavigateTime > 0 then now - lastNavigateTime else FirstElapsed;
      wait := 0;
      if navigateCount > 0 && navigateCount % BurstThreshold == 0 {
        var cooldown := BurstCooldown + burstJitter;
        if elapsed < cooldown {
          wait := cooldown - elapsed;
        }
      } else if elapsed < MinInterval {
        var w := interval - elapsed;
        if w > 0 {
          wait := w;
        }
      }
      lastNavigateTime := now + wait;
      navigateCount := navigateCount + 1;
    }

    /**
     * `navigate`: refuses without a page; otherwise paces, sends the page to
     * `url` (where it lands on `landed`), and then reports a captcha if the
     * landing page is flagged.
     */
    method Navigate(url: string, now: int, burstJitter: int, interval: int, landed: Probe)
      returns (r: Outcome<ClientError>)
      requires 0 <= burstJitter <= MaxBurstJitter && MinInterval <= interval <= MaxInterval
      modifies this
      ensures old(page).None? ==> r == Fail(NotStarted) && unchanged(this)
      ensures old(page).Some? ==>
                && navigateCount == old(navigateCount) + 1
                && lastNavigateTime == now + ThrottleWait(old(lastNavigateTime), old(navigateCount), now, burstJitter, interval)
                && visited == old(visited) + [url]
                && page == Some(landed)
                && (r.Fail? <==> CheckCaptcha(Some(landed)))
                && (r.Fail? ==> r.error == HandleCaptcha(Some(landed), navigateCount))
    {
      if page.None? {
        return Fail(NotStarted);
      }
      var _ := Throttle(now, burstJitter, interval);
      visited := visited + [url];
      page := Some(landed);
      r := CheckPage();
    }

    /** `_check_captcha`: the captcha error (raised by the source) when the page is flagged. */
    method CheckPage() returns (r: Outcome<ClientError>)
      ensures r.Fail? <==> CheckCaptcha(page)
      ensures r.Fail? ==> r.error == HandleCaptcha(page, navigateCount) && r.error.Captcha?
    {
      if CheckCaptcha(page) {
        return Fail(HandleCaptcha(page, navigateCount));
      }
      return Pass;
    }

    /**
     * `wait_for_initial_state`: up to `retries + 1` attempts, each preceded by a
     * captcha check; a failed attempt other than the last reloads the page and
     * checks again. Reloads happen only between attempts; attempt `k` finds the
     * state or not as `outcomes[k]` says, and its reload lands on
     * `outcomes[k].afterReload`.
     */
    method WaitForInitialState(retries: int, outcomes: seq<StateAttempt>) returns (r: WaitOutcome)
      requires |outcomes| >= if retries >= 0 then retries + 1 else 0
      modifies this
      ensures old(page).None? ==> r == WaitFailed(NotStarted) && page == old(page)
      ensures old(page).Some? ==>
                var t := WaitFrom(old(page).value, retries, outcomes, navigateCount, 0);
                r == t.outcome && page == Some(PageAt(old(page).value, outcomes, t.shown))
      ensures old(page).Some? ==> (r.WaitFailed? <==> exists j :: FailsAt(old(page).value, retries, outcomes, j))
      ensures r.WaitFailed? && old(page).Some? ==>
                r.error == HandleCaptcha(page, navigateCount) && CheckCaptcha(page) && r.error.Captcha?
      ensures r.StateReady? ==> 1 <= r.attempts <= retries + 1 && r.reloads == r.attempts - 1
                                && outcomes[r.attempts - 1].appeared
                                && NoneAppeared(outcomes, r.attempts - 1)
                                && ClearBelow(old(page).value, outcomes, r.reloads + 1)
                                && page == Some(PageAt(old(page).value, outcomes, r.reloads))
      ensures r.GaveUp? ==> r.attempts == (if retries >= 0 then retries + 1 else 0)
                            && r.reloads == (if retries > 0 then retries else 0)
                            && NoneAppeared(outcomes, r.attempts)
                            && (retries >= 0 ==> ClearBelow(old(page).value, outcomes, r.reloads + 1))
                            && page == Some(PageAt(old(page).value, outcomes, r.reloads))
      ensures navigateCount == old(navigateCount) && lastNavigateTime == old(lastNavigateTime)
      ensures visited == old(visited)
    {
      if page.None? {
        return WaitFailed(NotStarted);
      }
      ghost var start := page.value;
      r := Attempts(retries, outcomes);
      WaitFromMeaning(start, retries, outcomes, navigateCount);
    }

    /** The attempt loop of `wait_for_initial_state`, on a started page. */
    method Attempts(retries: int, outcomes: seq<StateAttempt>) returns (r: WaitOutcome)
      requires |outcomes| >= if retries >= 0 then retries + 1 else 0
      requires page.Some?
      modifies this
      ensures var t := WaitFrom(old(page).value, retries, outcomes, navigateCount, 0);
              r == t.outcome && page == Some(PageAt(old(page).value, outcomes, t.shown))
      ensures navigateCount == old(navigateCount) && lastNavigateTime == old(lastNavigateTime)
      ensures visited == old(visited)
    {
      ghost var start := page.value;
      ghost var goal := WaitFrom(start, retries, outcomes, navigateCount, 0);
      var attempt := 0;
      r := GaveUp(0, 0);
      while attempt < retries + 1
        invariant 0 <= attempt <= |outcomes| && (retries >= 0 ==> attempt <= retries) && (retries < 0 ==> attempt == 0)
        invariant r == GaveUp(attempt, attempt)
        invariant page == Some(PageAt(start, outcomes, attempt))
        invariant WaitFrom(start, retries, outcomes, navigateCount, attempt) == goal
        invariant navigateCount == old(navigateCount) && lastNavigateTime == old(lastNavigateTime)
        invariant visited == old(visited)
      {
        var done;
        done, r := Attempt(start, retries, outcomes, attempt);
        if done {
          break;
        }
        attempt := attempt + 1;
        r := GaveUp(attempt, attempt);
      }
    }

    /**
     * One pass of the loop: the captcha check, the attempt, and on failure
     * before the last attempt the reload and its check. `done` says the loop
     * stops here, with `r` its outcome.
     */
    method Attempt(ghost start: Probe, retries: int, outcomes: seq<StateAttempt>, attempt: nat)
      returns (done: bool, r: WaitOutcome)
      requires |outcomes| >= if retries >= 0 then retries + 1 else 0
      requires attempt <= retries && page == Some(PageAt(start, outcomes, attempt))
      modifies this
      ensures var t := WaitFrom(start, retries, outcomes, navigateCount, attempt);
              done ==> r == t.outcome && page == Some(PageAt(start, outcomes, t.shown))
      ensures !done ==> attempt < retries && page == Some(PageAt(start, outcomes, attempt + 1))
                        && WaitFrom(start, retries, outcomes, navigateCount, attempt + 1)
                           == WaitFrom(start, retries, outcomes, navigateCount, attempt)
      ensures navigateCount == old(navigateCount) && lastNavigateTime == old(lastNavigateTime)
      ensures visited == old(visited)
    {
      var check := CheckPage();
      if check.Fail? {
        return true, WaitFailed(check.error);
      }
      if outcomes[attempt].appeared {
        return true, StateReady(attempt + 1, attempt);
      }
      if attempt < retries {
        page := Some(outcomes[attempt].afterReload);
        check := CheckPage();
        if check.Fail? {
          return true, WaitFailed(check.error);
        }
        return false, GaveUp(attempt + 1, attempt + 1);
      }
      return true, GaveUp(attempt + 1, attempt);
    }
  }

  // ---------------------------------------------------------------------------
  // The initial state and dotted paths into it
  // ---------------------------------------------------------------------------

  /**
   * `get_initial_state` after the script ran: an empty answer is `{}`; anything
   * else goes through `json.loads`, which raises on malformed text.
   */
  function InitialState(e: EvalResult): (r: Result<Value, string>)
    ensures e.Empty? ==> r == Ok(Obj(map[]))
    ensures e.Malformed? ==> r.Err?
    ensures e.Decoded? ==> r == Ok(e.v)
  {
    match e
    case Empty => Ok(Obj(map[]))
    case Malformed => Err("JSONDecodeError")
    case Decoded(v) => Ok(v)
  }

  /**
   * The key loop of `get_data_by_path`: each hop needs a mapping (else None),
   * reads the key (a missing key reads as None), then unwraps.
   */
  function Walk(v: Value, keys: seq<string>): (r: Value)
    ensures keys != [] && !v.Obj? ==> r == Null
    ensures keys == [] ==> r == v
    decreases |keys|
  {
    if keys == [] then v
    else if v.Obj? then Walk(Unwrap(Get(v.fields, keys[0])), keys[1..])
    else Null
  }

  /**
   * `get_data_by_path(path)` on a state: walk the pieces of `path.split('.')`. A
   * state that is not a mapping gives None; a path without a dot is one lookup.
   */
  function GetDataByPath(state: Value, path: string): (r: Value)
    ensures !state.Obj? ==> r == Null
    ensures '.' !in path && state.Obj? ==> r == Unwrap(Get(state.fields, path))
  {
    if '.' !in path then
      SplitWithoutSep(path, '.');
      Walk(state, Split(path, '.'))
    else
      Walk(state, Split(path, '.'))
  }

  /** `get_data_by_path("a.rest")` reads `a` and then follows `rest` from there. */
  lemma GetDataByPathDotted(state: Value, head: string, rest: string)
    requires '.' !in head
    ensures GetDataByPath(state, head + "." + rest) == GetDataByPath(GetDataByPath(state, head), rest)
  {
    SplitAtFirst(head, '.', rest);
    SplitWithoutSep(head, '.');
    WalkConcat(state, [head], Split(rest, '.'));
  }

  /** One hop reads the key and then unwraps; the mapping being walked is never unwrapped. */
  lemma WalkOneHop(fields: map<string, Value>, key: string)
    ensures Walk(Obj(fields), [key]) == Unwrap(Get(fields, key))
    ensures key !in fields ==> Walk(Obj(fields), [key]) == Null
    ensures key in fields && fields[key].Obj? && "value" in fields[key].fields ==>
              Walk(Obj(fields), [key]) == fields[key].fields["value"]
    ensures key in fields && fields[key].Obj? && "value" !in fields[key].fields && "_value" in fields[key].fields ==>
              Walk(Obj(fields), [key]) == fields[key].fields["_value"]
  {
    assert [key][1..] == [];
  }

  /** Walking a path in two pieces is walking it in one. */
  lemma {:induction false} WalkConcat(v: Value, p: seq<string>, q: seq<string>)
    ensures Walk(v, p + q) == Walk(Walk(v, p), q)
    decreases |p|
  {
    if p == [] {
      assert p + q == q;
    } else if v.Obj? {
      assert (p + q)[1..] == p[1..] + q;
      WalkConcat(Unwrap(Get(v.fields, p[0])), p[1..], q);
    } else {
      assert Walk(v, p + q) == Null;
    }
  }

  /** Once a hop fails, every longer path is None too. */
  lemma WalkStaysNull(q: seq<string>)
    ensures Walk(Null, q) == Null
  {
  }
}
