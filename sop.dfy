/**
 * The three standard operating procedures of `scripts/sop.py`. Each one plans
 * rather than acts: it reads the quota ledger, screens the input and returns a
 * plan; only the publishing procedure records anything in the ledger.
 *
 * `SOPEngine` keeps the ledger and the step log it rebuilds on every run. The
 * clock ("today"), the random draws of the exploration plan and the template
 * the publishing procedure generates are inputs.
 */
module Sop {
  import opened Wrappers
  import opened Text
  import opened Strategy
  import Templates

  /** One line of the step log (its free-text detail and timestamp are not modelled). */
  datatype LogEntry = LogEntry(step: string, status: string)

  // ---------------------------------------------------------------------------
  // publish_sop
  // ---------------------------------------------------------------------------

  /** What `generate_template(topic, note_type)` produced for this run; `GenerateTemplate` below builds it. */
  datatype Draft = Draft(titles: seq<string>, hook: string, closing: string, tags: seq<string>)

  /** The steps `publish_sop` logs once the quota gate is passed, up to the validation verdict. */
  const PublishOpening: seq<LogEntry> := [
    LogEntry("配额检查", "开始"), LogEntry("配额检查", "通过"),
    LogEntry("选题分析", "开始"), LogEntry("选题分析", "完成"),
    LogEntry("内容准备", "完成"), LogEntry("内容校验", "开始")]

  /** The plan `publish_sop` returns. */
  datatype PublishPlan =
    | Blocked(used: nat, limit: nat, log: seq<LogEntry>)
    | ValidationError(errors: seq<string>, warnings: seq<string>, log: seq<LogEntry>)
    | Ready(action: string, topic: string, noteType: string, title: string, titleSuggestions: seq<string>,
            content: string, tags: seq<string>, imagePaths: seq<string>, autoPublish: bool,
            validation: Templates.Report, publishRemaining: nat, bestTimes: seq<string>, log: seq<LogEntry>)

  /** `title or template["titles"][0]`: the caller's title unless it is missing or empty. */
  function FinalTitle(title: Option<string>, draft: Draft): (r: string)
    requires |draft.titles| >= 1
    ensures title.Some? && title.value != "" ==> r == title.value
    ensures (title.None? || title.value == "") ==> r == draft.titles[0]
  {
    if title.Some? && title.value != "" then title.value else draft.titles[0]
  }

  /** `content or hook + placeholder + closing`. */
  function FinalContent(content: Option<string>, draft: Draft): (r: string)
    ensures content.Some? && content.value != "" ==> r == content.value
    ensures (content.None? || content.value == "") ==>
              IsPrefix(draft.hook, r) && r == draft.hook + "\n\n（请在此填写正文内容）\n\n" + draft.closing
  {
    if content.Some? && content.value != "" then content.value
    else draft.hook + "\n\n（请在此填写正文内容）\n\n" + draft.closing
  }

  /**
   * `generate_template(topic, note_type)`: five titles in the default style, the
   * note type's hook and closing, and the default six suggested tags. The random
   * draws are inputs; five titles are always drawn, so `titles[0]` exists.
   */
  method GenerateTemplate(topic: string, noteType: string, titlePicks: seq<Templates.TitlePick>,
                          hookPick: nat, closingPick: nat, tagSample: seq<string>)
    returns (draft: Draft)
    requires |titlePicks| == 5
    requires forall p :: p in titlePicks ==> Templates.ValidPick(p, None)
    requires forall i, j :: 0 <= i < j < |titlePicks| ==> titlePicks[i].template != titlePicks[j].template
    requires Templates.SampledTags(tagSample, 6)
    requires hookPick < |Templates.TemplateFor(noteType).hooks|
    requires closingPick < |Templates.TemplateFor(noteType).closings|
    ensures |draft.titles| == 5
    ensures forall i :: 0 <= i < 5 ==> Templates.CutTitle(draft.titles[i], Templates.FillTitle(titlePicks[i], topic))
    ensures draft.hook == Templates.GenerateContent(topic, noteType, hookPick, closingPick).hook
    ensures draft.closing == Templates.GenerateContent(topic, noteType, hookPick, closingPick).closing
    ensures 3 <= |draft.tags| <= 6 && Templates.Distinct(draft.tags)
    ensures var d := Templates.Dedup(Templates.TagCandidates(topic, tagSample));
            draft.tags == d[..Min(6, |d|)]
  {
    assert |Templates.TitleTemplates(None)| == 15;
    var titles := Templates.GenerateTitle(topic, None, 5, titlePicks);
    var body := Templates.GenerateContent(topic, noteType, hookPick, closingPick);
    var tags := Templates.SuggestTags(topic, 6, tagSample);
    draft := Draft(titles.value, body.hook, body.closing, tags);
  }

  // ---------------------------------------------------------------------------
  // comment_sop
  // ---------------------------------------------------------------------------

  /** A queued comment or reply; it is a reply exactly when it carries a `comment_id`. */
  datatype ReplyItem = ReplyItem(feedId: string, xsecToken: string, content: string, commentId: Option<string>)

  datatype Rejection = Rejection(item: ReplyItem, reason: string)

  const MaxReplyLength: nat := 280

  /** Why an item's content is refused, if it is: blank first, then over 280 characters. */
  function RejectReason(content: string): (r: Option<string>)
    ensures r == Some("内容为空") <==> IsBlank(content)
    ensures r == Some("内容超长") <==> !IsBlank(content) && |content| > MaxReplyLength
    ensures r.None? <==> !IsBlank(content) && |content| <= MaxReplyLength
  {
    if IsBlank(content) then Some("内容为空")
    else if |content| > MaxReplyLength then Some("内容超长")
    else None
  }

  /** The items whose content passes, in input order. */
  function Accepted(items: seq<ReplyItem>): (r: seq<ReplyItem>)
    ensures |r| <= |items|
    ensures forall x :: x in r <==> x in items && RejectReason(x.content).None?
  {
    if items == [] then []
    else
      var init := Accepted(items[..|items| - 1]);
      var last := items[|items| - 1];
      assert items == items[..|items| - 1] + [last];
      if RejectReason(last.content).None? then init + [last] else init
  }

  /** The refused items with their reasons, in input order. */
  function Refused(items: seq<ReplyItem>): (r: seq<Rejection>)
    ensures forall x :: x in r ==> x.item in items && RejectReason(x.item.content) == Some(x.reason)
    ensures forall x :: x in items && RejectReason(x.content).Some? ==> Rejection(x, RejectReason(x.content).value) in r
  {
    if items == [] then []
    else
      var init := Refused(items[..|items| - 1]);
      var last := items[|items| - 1];
      assert items == items[..|items| - 1] + [last];
      match RejectReason(last.content)
      case Some(reason) => init + [Rejection(last, reason)]
      case None => init
  }

  /** Every item is either accepted or refused, never both and never neither. */
  lemma {:induction false} ScreeningPartitions(items: seq<ReplyItem>)
    ensures |Accepted(items)| + |Refused(items)| == |items|
  {
    if items != [] {
      ScreeningPartitions(items[..|items| - 1]);
    }
  }

  /** How many items are comments (no `comment_id`). */
  function CountComments(items: seq<ReplyItem>): (n: nat)
    ensures n <= |items|
  {
    if items == [] then 0
    else CountComments(items[..|items| - 1]) + (if items[|items| - 1].commentId.None? then 1 else 0)
  }

  /** `n * (cooldown_min + cooldown_max) / 2`: every item waits the mean cooldown. */
  function MeanCooldownTime(n: nat, cooldownMin: real, cooldownMax: real): real
  {
    (n as real) * (cooldownMin + cooldownMax) / 2.0
  }

  /** The plan `comment_sop` returns. */
  datatype CommentPlan = CommentPlan(
    totalItems: nat, executable: seq<ReplyItem>, rejected: seq<Rejection>, cooldownMin: real, cooldownMax: real,
    estimatedTime: real, commentsUsed: nat, commentsLimit: nat, repliesUsed: nat, repliesLimit: nat)

  /**
   * The budget `comment_sop` truncates to: the comments it could post plus the
   * replies it could post, counted over all items, valid or not.
   */
  function ReplyBudget(items: seq<ReplyItem>, c: Config, today: Day): (n: nat)
    ensures n <= |items|
    ensures n <= CheckLimit(c, "comments", today).remaining + CheckLimit(c, "replies", today).remaining
  {
    var comments := CountComments(items);
    Min(comments, CheckLimit(c, "comments", today).remaining)
      + Min(|items| - comments, CheckLimit(c, "replies", today).remaining)
  }

  /** The screening loop of `comment_sop`: one pass sorting the items into accepted and refused. */
  method Screen(items: seq<ReplyItem>) returns (valid: seq<ReplyItem>, rejected: seq<Rejection>)
    ensures valid == Accepted(items) && rejected == Refused(items)
  {
    valid := [];
    rejected := [];
    for i := 0 to |items|
      invariant valid == Accepted(items[..i])
      invariant rejected == Refused(items[..i])
    {
      assert items[..i + 1][..i] == items[..i];
      var item := items[i];
      if IsBlank(item.content) {
        rejected := rejected + [Rejection(item, "内容为空")];
      } else if |item.content| > MaxReplyLength {
        rejected := rejected + [Rejection(item, "内容超长")];
      } else {
        valid := valid + [item];
      }
    }
    assert items[..|items|] == items;
  }

  /**
   * The planning part of `comment_sop`: screens the items in one pass and keeps
   * the first `ReplyBudget` accepted ones; the time estimate is the mean cooldown
   * per executable item.
   */
  method PlanReplies(items: seq<ReplyItem>, c: Config, today: Day, cooldownMin: real, cooldownMax: real)
    returns (plan: CommentPlan)
    ensures plan.totalItems == |items|
    ensures plan.executable == Accepted(items)[..Min(|Accepted(items)|, ReplyBudget(items, c, today))]
    ensures |plan.executable| <= ReplyBudget(items, c, today)
    ensures forall x :: x in plan.executable ==> x in items && RejectReason(x.content).None?
    ensures plan.rejected == Refused(items)
    ensures |plan.executable| <= |items| - |plan.rejected|
    ensures plan.estimatedTime == MeanCooldownTime(|plan.executable|, cooldownMin, cooldownMax)
    ensures plan.commentsUsed == CheckLimit(c, "comments", today).used
    ensures plan.repliesUsed == CheckLimit(c, "replies", today).used
    ensures plan.commentsLimit == CheckLimit(c, "comments", today).limit
    ensures plan.repliesLimit == CheckLimit(c, "replies", today).limit
    ensures plan.cooldownMin == cooldownMin && plan.cooldownMax == cooldownMax
  {
    var commentLimit := CheckLimit(c, "comments", today);
    var replyLimit := CheckLimit(c, "replies", today);
    var budget := ReplyBudget(items, c, today);
    var valid, rejected := Screen(items);
    var executable := valid[..Min(|valid|, budget)];
    ScreeningPartitions(items);
    forall x | x in executable ensures x in valid { }
    plan := CommentPlan(|items|, executable, rejected, cooldownMin, cooldownMax,
                        MeanCooldownTime(|executable|, cooldownMin, cooldownMax),
                        commentLimit.used, commentLimit.limit, replyLimit.used, replyLimit.limit);
  }

  // ---------------------------------------------------------------------------
  // explore_sop
  // ---------------------------------------------------------------------------

  /** The draws for one note: three `random.random()` values and the rounded interval. */
  datatype FeedDraw = FeedDraw(like: real, collect: real, comment: real, interval: real)

  datatype FeedPlan = FeedPlan(feedIndex: nat, actions: seq<string>, interval: real)

  datatype ExplorePlan = ExplorePlan(
    feedCount: int, items: seq<FeedPlan>, likes: nat, collects: nat, comments: nat,
    estimatedTime: real, likesLeft: int, collectsLeft: int, commentsLeft: int)

  /** The draw for action kind 0 (like), 1 (collect) or 2 (comment). */
  function DrawFor(d: FeedDraw, kind: nat): real
  {
    if kind == 0 then d.like else if kind == 1 then d.collect else d.comment
  }

  /** How many notes wish for an action: the draw falls under its probability. */
  function Wishes(draws: seq<FeedDraw>, kind: nat, p: real): (n: nat)
    ensures n <= |draws|
  {
    if draws == [] then 0
    else Wishes(draws[..|draws| - 1], kind, p) + (if DrawFor(draws[|draws| - 1], kind) < p then 1 else 0)
  }

  /**
   * One more note under the greedy cap: the running total stays the smaller of
   * the quota and the number of wishes.
   */
  lemma GreedyStep(draws: seq<FeedDraw>, i: nat, kind: nat, p: real, quota: nat, total: nat)
    requires i < |draws| && total == Min(quota, Wishes(draws[..i], kind, p))
    ensures var granted := DrawFor(draws[i], kind) < p && total < quota;
            (if granted then total + 1 else total) == Min(quota, Wishes(draws[..i + 1], kind, p))
  {
    assert draws[..i + 1][..i] == draws[..i];
  }

  /**
   * One action of one note in the planning loop: granted when its draw falls
   * under the probability and the quota is not used up; the count follows.
   */
  method Grant(draws: seq<FeedDraw>, i: nat, kind: nat, p: real, quota: nat, total: nat)
    returns (granted: bool, after: nat)
    requires i < |draws| && total == Min(quota, Wishes(draws[..i], kind, p))
    ensures granted <==> DrawFor(draws[i], kind) < p && total < quota
    ensures after == Min(quota, Wishes(draws[..i + 1], kind, p)) && after <= quota
  {
    GreedyStep(draws, i, kind, p, quota, total);
    granted := DrawFor(draws[i], kind) < p && total < quota;
    after := if granted then total + 1 else total;
  }

  function SumIntervals(draws: seq<FeedDraw>): real
  {
    if draws == [] then 0.0 else SumIntervals(draws[..|draws| - 1]) + draws[|draws| - 1].interval
  }

  /** The ordered action list of one note. */
  function ActionList(like: bool, collect: bool, comment: bool): (a: seq<string>)
    ensures |a| <= 3
    ensures "like" in a <==> like
    ensures "collect" in a <==> collect
    ensures "comment" in a <==> comment
  {
    (if like then ["like"] else []) + (if collect then ["collect"] else []) + (if comment then ["comment"] else [])
  }

  /**
   * Note `j` gets the action of `kind`: its draw falls under the probability and
   * the notes before it were granted fewer than `quota` of that action (the
   * running total before note `j` is the smaller of the quota and their wishes).
   */
  predicate Granted(draws: seq<FeedDraw>, j: nat, kind: nat, p: real, quota: nat)
    requires j < |draws|
  {
    DrawFor(draws[j], kind) < p && Wishes(draws[..j], kind, p) < quota
  }

  /**
   * Note j of the plan is numbered j + 1, keeps its interval and lists exactly
   * the actions granted to it, in the order like, collect, comment.
   */
  predicate PlannedNotes(items: seq<FeedPlan>, draws: seq<FeedDraw>, likeP: real, collectP: real, commentP: real,
                         likeQuota: nat, collectQuota: nat, commentQuota: nat)
  {
    && |items| <= |draws|
    && (forall j :: 0 <= j < |items| ==> items[j].feedIndex == j + 1 && items[j].interval == draws[j].interval)
    && (forall j :: 0 <= j < |items| ==>
          items[j].actions == ActionList(Granted(draws, j, 0, likeP, likeQuota),
                                         Granted(draws, j, 1, collectP, collectQuota),
                                         Granted(draws, j, 2, commentP, commentQuota)))
  }

  lemma PlannedNotesExtend(items: seq<FeedPlan>, draws: seq<FeedDraw>, next: FeedPlan,
                           likeP: real, collectP: real, commentP: real,
                           likeQuota: nat, collectQuota: nat, commentQuota: nat)
    requires PlannedNotes(items, draws, likeP, collectP, commentP, likeQuota, collectQuota, commentQuota)
    requires |items| < |draws|
    requires next.feedIndex == |items| + 1 && next.interval == draws[|items|].interval
    requires next.actions == ActionList(Granted(draws, |items|, 0, likeP, likeQuota),
                                        Granted(draws, |items|, 1, collectP, collectQuota),
                                        Granted(draws, |items|, 2, commentP, commentQuota))
    ensures PlannedNotes(items + [next], draws, likeP, collectP, commentP, likeQuota, collectQuota, commentQuota)
  {
  }

  /** How many notes list the action `name`. */
  function Listing(items: seq<FeedPlan>, name: string): (n: nat)
    ensures n <= |items|
  {
    if items == [] then 0
    else Listing(items[..|items| - 1], name) + (if name in items[|items| - 1].actions then 1 else 0)
  }

  /**
   * When note j lists `name` exactly when it is granted the action of `kind`,
   * the first `i` notes list it min(quota, wishes) times: the greedy cap.
   */
  lemma {:induction false} ListingCounts(items: seq<FeedPlan>, draws: seq<FeedDraw>, name: string,
                                         kind: nat, p: real, quota: nat, i: nat)
    requires i <= |items| <= |draws|
    requires forall j :: 0 <= j < |items| ==> (name in items[j].actions <==> Granted(draws, j, kind, p, quota))
    ensures Listing(items[..i], name) == Min(quota, Wishes(draws[..i], kind, p))
  {
    if i > 0 {
      ListingCounts(items, draws, name, kind, p, quota, i - 1);
      assert items[..i][..i - 1] == items[..i - 1];
      GreedyStep(draws, i - 1, kind, p, quota, Listing(items[..i - 1], name));
    }
  }

  /**
   * A whole plan lists each action on as many notes as its total: never more
   * than the remaining quota, and on every note that wished for it while the
   * quota lasted.
   */
  lemma PlannedCounts(items: seq<FeedPlan>, draws: seq<FeedDraw>, likeP: real, collectP: real, commentP: real,
                      likeQuota: nat, collectQuota: nat, commentQuota: nat)
    requires PlannedNotes(items, draws, likeP, collectP, commentP, likeQuota, collectQuota, commentQuota)
    requires |items| == |draws|
    ensures Listing(items, "like") == Min(likeQuota, Wishes(draws, 0, likeP))
    ensures Listing(items, "collect") == Min(collectQuota, Wishes(draws, 1, collectP))
    ensures Listing(items, "comment") == Min(commentQuota, Wishes(draws, 2, commentP))
  {
    assert items[..|items|] == items && draws[..|draws|] == draws;
    ListingCounts(items, draws, "like", 0, likeP, likeQuota, |items|);
    ListingCounts(items, draws, "collect", 1, collectP, collectQuota, |items|);
    ListingCounts(items, draws, "comment", 2, commentP, commentQuota, |items|);
  }

  /** A note that wishes for an action comes after fewer wishes than the whole feed holds. */
  lemma {:induction false} WishesBefore(draws: seq<FeedDraw>, j: nat, kind: nat, p: real)
    requires j < |draws| && DrawFor(draws[j], kind) < p
    ensures Wishes(draws[..j], kind, p) < Wishes(draws, kind, p)
  {
    var init := draws[..|draws| - 1];
    if j < |draws| - 1 {
      assert init[..j] == draws[..j] && init[j] == draws[j];
      WishesBefore(init, j, kind, p);
    } else {
      assert draws[..j] == init;
    }
  }

  /**
   * With a quota no smaller than the number of wishes (a probability of 1 and a
   * quota of at least `feed_count`, say), every note that wished for the action
   * is granted it.
   */
  lemma AmpleQuotaGrantsEveryWish(draws: seq<FeedDraw>, kind: nat, p: real, quota: nat, j: nat)
    requires j < |draws| && DrawFor(draws[j], kind) < p && Wishes(draws, kind, p) <= quota
    ensures Granted(draws, j, kind, p, quota)
  {
    WishesBefore(draws, j, kind, p);
  }

  /**
   * The planning part of `explore_sop`: note i (from 1) gets an action when its
   * draw falls under the probability and the running total is still under the
   * type's remaining quota. So each total is the smaller of the remaining quota
   * and the number of notes that wished for it, and the estimate is the sum of
   * the intervals.
   */
  method PlanExplore(feedCount: int, likeP: real, collectP: real, commentP: real,
                     likeLimit: LimitInfo, collectLimit: LimitInfo, commentLimit: LimitInfo, draws: seq<FeedDraw>)
    returns (plan: ExplorePlan)
    requires |draws| == if feedCount > 0 then feedCount else 0
    ensures plan.feedCount == feedCount && |plan.items| == |draws|
    ensures PlannedNotes(plan.items, draws, likeP, collectP, commentP,
                         likeLimit.remaining, collectLimit.remaining, commentLimit.remaining)
    ensures Listing(plan.items, "like") == plan.likes && Listing(plan.items, "collect") == plan.collects
            && Listing(plan.items, "comment") == plan.comments
    ensures plan.likes == Min(likeLimit.remaining, Wishes(draws, 0, likeP))
    ensures plan.collects == Min(collectLimit.remaining, Wishes(draws, 1, collectP))
    ensures plan.comments == Min(commentLimit.remaining, Wishes(draws, 2, commentP))
    ensures plan.likesLeft >= 0 && plan.collectsLeft >= 0 && plan.commentsLeft >= 0
    ensures plan.likesLeft == likeLimit.remaining - plan.likes
    ensures plan.collectsLeft == collectLimit.remaining - plan.collects
    ensures plan.commentsLeft == commentLimit.remaining - plan.comments
    ensures plan.estimatedTime == SumIntervals(draws)
  {
    var items: seq<FeedPlan> := [];
    var likes, collects, comments := 0, 0, 0;
    for i := 0 to |draws|
      invariant |items| == i
      invariant PlannedNotes(items, draws, likeP, collectP, commentP,
                             likeLimit.remaining, collectLimit.remaining, commentLimit.remaining)
      invariant likes == Min(likeLimit.remaining, Wishes(draws[..i], 0, likeP))
      invariant collects == Min(collectLimit.remaining, Wishes(draws[..i], 1, collectP))
      invariant comments == Min(commentLimit.remaining, Wishes(draws[..i], 2, commentP))
    {
      var item;
      item, likes, collects, comments := PlanNote(draws, i, likeP, collectP, commentP,
        likeLimit.remaining, collectLimit.remaining, commentLimit.remaining, likes, collects, comments);
      PlannedNotesExtend(items, draws, item, likeP, collectP, commentP,
                         likeLimit.remaining, collectLimit.remaining, commentLimit.remaining);
      items := items + [item];
    }
    assert draws[..|draws|] == draws;
    PlannedCounts(items, draws, likeP, collectP, commentP,
                  likeLimit.remaining, collectLimit.remaining, commentLimit.remaining);
    plan := ExplorePlan(feedCount, items, likes, collects, comments, SumIntervals(draws),
                        likeLimit.remaining - likes, collectLimit.remaining - collects,
                        commentLimit.remaining - comments);
  }

  /** One pass of the planning loop: note `i`'s actions, and the three counts after it. */
  method PlanNote(draws: seq<FeedDraw>, i: nat, likeP: real, collectP: real, commentP: real,
                  likeQuota: nat, collectQuota: nat, commentQuota: nat, likes: nat, collects: nat, comments: nat)
    returns (item: FeedPlan, likes': nat, collects': nat, comments': nat)
    requires i < |draws|
    requires likes == Min(likeQuota, Wishes(draws[..i], 0, likeP))
    requires collects == Min(collectQuota, Wishes(draws[..i], 1, collectP))
    requires comments == Min(commentQuota, Wishes(draws[..i], 2, commentP))
    ensures item.feedIndex == i + 1 && item.interval == draws[i].interval
    ensures item.actions == ActionList(Granted(draws, i, 0, likeP, likeQuota),
                                       Granted(draws, i, 1, collectP, collectQuota),
                                       Granted(draws, i, 2, commentP, commentQuota))
    ensures likes' == Min(likeQuota, Wishes(draws[..i + 1], 0, likeP))
    ensures collects' == Min(collectQuota, Wishes(draws[..i + 1], 1, collectP))
    ensures comments' == Min(commentQuota, Wishes(draws[..i + 1], 2, commentP))
  {
    var d := draws[i];
    var like, collect, comment;
    like, likes' := Grant(draws, i, 0, likeP, likeQuota, likes);
    collect, collects' := Grant(draws, i, 1, collectP, collectQuota, collects);
    comment, comments' := Grant(draws, i, 2, commentP, commentQuota, comments);
    var actions := ActionList(like, collect, comment);
    item := FeedPlan(i + 1, actions, d.interval);
  }

  /** `SOPEngine`: a strategy ledger and the step log of the latest run. */
  class SOPEngine {
    const strategy: StrategyManager
    var log: seq<LogEntry>

    constructor (stored: Option<Config>)
      ensures fresh(strategy)
      ensures strategy.config == (if stored.Some? then stored.value else DefaultConfig())
      ensures log == []
    {
      strategy := new StrategyManager(stored);
      log := [];
    }

    /** `_log_step`: appends one entry. */
    method LogStep(step: string, status: string)
      modifies this
      ensures log == old(log) + [LogEntry(step, status)]
    {
      log := log + [LogEntry(step, status)];
    }

    /**
     * `publish_sop`: the publishes quota gate, then the choice of title and body,
     * then validation; only a plan that passes both gates records one
     * `publishes` action, after the plan (and its copy of the log) is built.
     */
    method PublishSop(topic: string, noteType: string, title: Option<string>, content: Option<string>,
                      imagePaths: Option<seq<string>>, autoPublish: bool, today: Day, draft: Draft)
      returns (plan: PublishPlan)
      requires |draft.titles| >= 1
      modifies this, strategy
      ensures var gate := CheckLimit(old(strategy.config), "publishes", today);
              var report := Templates.Validate(FinalTitle(title, draft), FinalContent(content, draft), draft.tags, noteType);
              && (plan.Blocked? <==> !gate.allowed)
              && (plan.Blocked? ==> plan.used == gate.used && plan.limit == gate.limit)
              && (plan.ValidationError? <==> gate.allowed && !report.valid)
              && (plan.ValidationError? ==> plan.errors == report.errors && plan.warnings == report.warnings)
              && (plan.Ready? <==> gate.allowed && report.valid)
              && (plan.Ready? ==> plan.title == FinalTitle(title, draft) && plan.content == FinalContent(content, draft)
                                  && plan.action == "publish_" + noteType && plan.publishRemaining == gate.remaining
                                  && plan.imagePaths == imagePaths.GetOr([]) && plan.validation == report
                                  && plan.topic == topic && plan.noteType == noteType && plan.autoPublish == autoPublish
                                  && plan.titleSuggestions == draft.titles && plan.tags == draft.tags
                                  && plan.bestTimes == old(strategy.config).bestPublishTimes)
      ensures !plan.Ready? ==> strategy.config == old(strategy.config)
      ensures plan.Ready? ==> strategy.config == old(strategy.config).(actionLog :=
                Purged(Incremented(old(strategy.config.actionLog), "publishes", today), today - KeepDays))
      ensures plan.Ready? ==> CountOn(strategy.config.actionLog, today, "publishes")
                                == CountOn(old(strategy.config.actionLog), today, "publishes") + 1
      ensures plan.Blocked? ==> log == [LogEntry("配额检查", "开始"), LogEntry("配额检查", "失败")]
      ensures plan.ValidationError? ==> log == PublishOpening + [LogEntry("内容校验", "失败")]
      ensures plan.Ready? ==> log == PublishOpening + [LogEntry("内容校验", if plan.validation.warnings != [] then "警告" else "通过"),
                                                      LogEntry("发布计划", "生成完成")]
      ensures log == plan.log
    {
      var gate := CheckLimit(strategy.config, "publishes", today);
      if !gate.allowed {
        log := [];
        LogStep("配额检查", "开始");
        LogStep("配额检查", "失败");
        return Blocked(gate.used, gate.limit, log);
      }
      LogOpening();
      var finalTitle := FinalTitle(title, draft);
      var finalContent := FinalContent(content, draft);
      var report := Templates.Validate(finalTitle, finalContent, draft.tags, noteType);
      if !report.valid {
        LogStep("内容校验", "失败");
        return ValidationError(report.errors, report.warnings, log);
      }
      LogStep("内容校验", if report.warnings != [] then "警告" else "通过");
      LogStep("发布计划", "生成完成");
      plan := Ready("publish_" + noteType, topic, noteType, finalTitle, draft.titles, finalContent, draft.tags,
                    imagePaths.GetOr([]), autoPublish, report, gate.remaining, strategy.config.bestPublishTimes, log);
      var _ := strategy.RecordAction("publishes", today);
    }

    /** The steps of `publish_sop` from the quota check up to validation, on a fresh log. */
    method LogOpening()
      modifies this
      ensures log == PublishOpening
    {
      log := [];
      LogStep("配额检查", "开始");
      LogStep("配额检查", "通过");
      LogStep("选题分析", "开始");
      LogStep("选题分析", "完成");
      LogStep("内容准备", "完成");
      LogStep("内容校验", "开始");
    }

    /**
     * `comment_sop`: plans replies within the comments and replies quotas; the
     * ledger is read, never written.
     */
    method CommentSop(items: seq<ReplyItem>, today: Day, cooldownMin: real, cooldownMax: real)
      returns (plan: CommentPlan)
      modifies this
      ensures plan.executable == Accepted(items)[..Min(|Accepted(items)|, ReplyBudget(items, strategy.config, today))]
      ensures plan.rejected == Refused(items)
      ensures plan.estimatedTime == MeanCooldownTime(|plan.executable|, cooldownMin, cooldownMax)
      ensures plan.totalItems == |items| && plan.cooldownMin == cooldownMin && plan.cooldownMax == cooldownMax
      ensures plan.commentsUsed == CheckLimit(strategy.config, "comments", today).used
              && plan.commentsLimit == CheckLimit(strategy.config, "comments", today).limit
      ensures plan.repliesUsed == CheckLimit(strategy.config, "replies", today).used
              && plan.repliesLimit == CheckLimit(strategy.config, "replies", today).limit
      ensures strategy.config == old(strategy.config)
      ensures |log| >= 1 && log[|log| - 1] == LogEntry("执行计划", "生成")
      ensures var warn := LogEntry("配额检查", "警告");
              var comments := CountComments(items);
              log == [LogEntry("配额检查", "开始")]
                     + (if comments > 0 && !CheckLimit(strategy.config, "comments", today).allowed then [warn] else [])
                     + (if |items| - comments > 0 && !CheckLimit(strategy.config, "replies", today).allowed then [warn] else [])
                     + [LogEntry("配额检查", "完成"), LogEntry("内容校验", "开始"),
                        LogEntry("内容校验", "完成"), LogEntry("执行计划", "生成")]
    {
      var commentLimit := CheckLimit(strategy.config, "comments", today);
      var replyLimit := CheckLimit(strategy.config, "replies", today);
      var comments := CountComments(items);
      plan := PlanReplies(items, strategy.config, today, cooldownMin, cooldownMax);
      LogCommentSteps(comments > 0 && !commentLimit.allowed, |items| - comments > 0 && !replyLimit.allowed);
    }

    /**
     * The steps `comment_sop` logs, on a fresh log: a quota warning for each kind
     * of reply wanted beyond its quota, then validation and the plan.
     */
    method LogCommentSteps(warnComments: bool, warnReplies: bool)
      modifies this
      ensures var warn := LogEntry("配额检查", "警告");
              log == [LogEntry("配额检查", "开始")]
                     + (if warnComments then [warn] else []) + (if warnReplies then [warn] else [])
                     + [LogEntry("配额检查", "完成"), LogEntry("内容校验", "开始"),
                        LogEntry("内容校验", "完成"), LogEntry("执行计划", "生成")]
    {
      log := [];
      LogStep("配额检查", "开始");
      if warnComments {
        LogStep("配额检查", "警告");
      }
      if warnReplies {
        LogStep("配额检查", "警告");
      }
      LogStep("配额检查", "完成");
      LogStep("内容校验", "开始");
      LogStep("内容校验", "完成");
      LogStep("执行计划", "生成");
    }

    /**
     * `explore_sop`: plans likes, collects and comments over `feedCount` notes
     * within the remaining quotas; the ledger is read, never written.
     */
    method ExploreSop(feedCount: int, likeP: real, collectP: real, commentP: real, today: Day, draws: seq<FeedDraw>)
      returns (plan: ExplorePlan)
      requires |draws| == if feedCount > 0 then feedCount else 0
      modifies this
      ensures plan.feedCount == feedCount && |plan.items| == |draws|
      ensures PlannedNotes(plan.items, draws, likeP, collectP, commentP,
                           CheckLimit(strategy.config, "likes", today).remaining,
                           CheckLimit(strategy.config, "collects", today).remaining,
                           CheckLimit(strategy.config, "comments", today).remaining)
      ensures Listing(plan.items, "like") == plan.likes && Listing(plan.items, "collect") == plan.collects
              && Listing(plan.items, "comment") == plan.comments
      ensures plan.likes <= CheckLimit(strategy.config, "likes", today).remaining
      ensures plan.collects <= CheckLimit(strategy.config, "collects", today).remaining
      ensures plan.comments <= CheckLimit(strategy.config, "comments", today).remaining
      ensures plan.likes == Min(CheckLimit(strategy.config, "likes", today).remaining, Wishes(draws, 0, likeP))
      ensures plan.collects == Min(CheckLimit(strategy.config, "collects", today).remaining, Wishes(draws, 1, collectP))
      ensures plan.comments == Min(CheckLimit(strategy.config, "comments", today).remaining, Wishes(draws, 2, commentP))
      ensures plan.likesLeft == CheckLimit(strategy.config, "likes", today).remaining - plan.likes >= 0
      ensures plan.collectsLeft == CheckLimit(strategy.config, "collects", today).remaining - plan.collects >= 0
      ensures plan.commentsLeft == CheckLimit(strategy.config, "comments", today).remaining - plan.comments >= 0
      ensures plan.estimatedTime == SumIntervals(draws)
      ensures log == [LogEntry("配额检查", "开始"), LogEntry("配额检查", "完成"),
                      LogEntry("互动计划", "生成中"), LogEntry("互动计划", "完成")]
      ensures strategy.config == old(strategy.config)
    {
      log := [];
      LogStep("配额检查", "开始");
      var likeLimit := CheckLimit(strategy.config, "likes", today);
      var collectLimit := CheckLimit(strategy.config, "collects", today);
      var commentLimit := CheckLimit(strategy.config, "comments", today);
      LogStep("配额检查", "完成");
      LogStep("互动计划", "生成中");
      plan := PlanExplore(feedCount, likeP, collectP, commentP, likeLimit, collectLimit, commentLimit, draws);
      LogStep("互动计划", "完成");
    }
  }
}
