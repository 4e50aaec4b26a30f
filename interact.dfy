/**
 * The like / unlike / collect / uncollect actions of `scripts/interact.py`.
 *
 * Each action opens the note, reads the note's current interaction flags and
 * either stops at once (the note is already in the wanted state) or clicks the
 * like or collect button once. The page is not modelled: what the flag script
 * returned and what the button lookup and click did are inputs.
 */
module Interact {
  import opened Wrappers

  /** What the flag script hands back: nothing, text `json.loads` rejects, or the two flags. */
  datatype StateProbe = NoText | BadText | Flags(liked: bool, collected: bool)

  datatype InteractState = InteractState(liked: bool, collected: bool)

  /** `_get_interact_state`: the flags the page reports, or both false when it reports none. */
  function GetInteractState(p: StateProbe): (s: InteractState)
    ensures p.Flags? ==> s.liked == p.liked && s.collected == p.collected
    ensures !p.Flags? ==> !s.liked && !s.collected
  {
    match p
    case Flags(l, c) => InteractState(l, c)
    case _ => InteractState(false, false)
  }

  /**
   * What looking up and clicking a button did: the lookup (or counting) raised, or
   * it found `count` matches and clicking the first one raised or not.
   */
  datatype ClickProbe = LookupRaised | Located(count: int, clickRaised: bool)

  /** `_click_button`: true exactly when a match was found and clicking it did not raise. */
  function ClickButton(p: ClickProbe): (r: bool)
    ensures r <==> p.Located? && p.count > 0 && !p.clickRaised
  {
    match p
    case LookupRaised => false
    case Located(count, raised) => if count > 0 then !raised else false
  }

  datatype Interaction = Like | Unlike | Collect | Uncollect

  const LikeSelector := ".interact-container .left .like-wrapper"
  const CollectSelector := ".interact-container .left .collect-wrapper"

  function ActionName(k: Interaction): string
  {
    match k
    case Like => "like"
    case Unlike => "unlike"
    case Collect => "collect"
    case Uncollect => "uncollect"
  }

  /** The button an action clicks: like/unlike share one, collect/uncollect the other. */
  function Selector(k: Interaction): string
  {
    if k == Like || k == Unlike then LikeSelector else CollectSelector
  }

  /** The flag an action reads. */
  function Flag(k: Interaction, s: InteractState): bool
  {
    if k == Like || k == Unlike then s.liked else s.collected
  }

  /** The value of that flag the action is meant to reach. */
  function Wanted(k: Interaction): bool
  {
    k == Like || k == Collect
  }

  function AlreadyMessage(k: Interaction): string
  {
    match k
    case Like => "已经点赞过了"
    case Unlike => "尚未点赞，无需取消"
    case Collect => "已经收藏过了"
    case Uncollect => "尚未收藏，无需取消"
  }

  function DoneMessage(k: Interaction, ok: bool): string
  {
    match k
    case Like => if ok then "点赞成功" else "点赞失败"
    case Unlike => if ok then "取消点赞成功" else "取消点赞失败"
    case Collect => if ok then "收藏成功" else "收藏失败"
    case Uncollect => if ok then "取消收藏成功" else "取消收藏失败"
  }

  /**
   * The result dictionary. `already` true stands for the `already_liked`,
   * `already_unliked`, `already_collected` or `already_uncollected` key, whichever
   * the action names, present with value True; `already` false means the
   * dictionary has no such key (the source never writes it as False).
   */
  datatype InteractResult = InteractResult(
    status: string, action: string, feedId: string, already: bool, message: string)

  /** One action on one note: its result, and the selector it clicked if it clicked at all. */
  datatype Performed = Performed(result: InteractResult, clicked: Option<string>)

  /**
   * `like`, `unlike`, `collect` and `uncollect` after the navigation: the action
   * short-circuits with success when the flag already has the wanted value and
   * clicks nothing; otherwise it clicks its button once and reports success
   * exactly when the click went through.
   */
  function Perform(k: Interaction, feedId: string, probe: StateProbe, click: ClickProbe): (r: Performed)
    ensures r.result.action == ActionName(k) && r.result.feedId == feedId
    ensures r.result.already <==> Flag(k, GetInteractState(probe)) == Wanted(k)
    ensures r.clicked.Some? <==> !r.result.already
    ensures r.clicked.Some? ==> r.clicked.value == Selector(k)
    ensures r.result.status in {"success", "error"}
    ensures r.result.status == "success" <==> r.result.already || ClickButton(click)
    ensures r.result.already ==> r.result.message == AlreadyMessage(k)
    ensures !r.result.already ==> r.result.message == DoneMessage(k, ClickButton(click))
  {
    var state := GetInteractState(probe);
    if Flag(k, state) == Wanted(k) then
      Performed(InteractResult("success", ActionName(k), feedId, true, AlreadyMessage(k)), None)
    else
      var ok := ClickButton(click);
      Performed(InteractResult(if ok then "success" else "error", ActionName(k), feedId, false,
                               DoneMessage(k, ok)),
                Some(Selector(k)))
  }

  /** The flags once an action has taken effect: its flag holds the wanted value. */
  function Reached(k: Interaction, s: InteractState): (t: InteractState)
    ensures Flag(k, t) == Wanted(k)
    ensures k == Like || k == Unlike ==> t.collected == s.collected
    ensures k == Collect || k == Uncollect ==> t.liked == s.liked
  {
    if k == Like || k == Unlike then s.(liked := Wanted(k)) else s.(collected := Wanted(k))
  }

  /**
   * Repeating an action is harmless: on a note whose flags show the action's
   * effect, the action reports success without clicking, whatever the button does.
   */
  lemma RepeatDoesNotClick(k: Interaction, feedId: string, s: InteractState, click: ClickProbe)
    ensures var r := Perform(k, feedId, Flags(Reached(k, s).liked, Reached(k, s).collected), click);
            r.result.already && r.clicked.None? && r.result.status == "success"
  {
  }

  /** Of an action and its undo, exactly one clicks on any note. */
  lemma ExactlyOneOfPairClicks(feedId: string, probe: StateProbe, c1: ClickProbe, c2: ClickProbe)
    ensures Perform(Like, feedId, probe, c1).clicked.Some? != Perform(Unlike, feedId, probe, c2).clicked.Some?
    ensures Perform(Collect, feedId, probe, c1).clicked.Some? != Perform(Uncollect, feedId, probe, c2).clicked.Some?
  {
  }

  /** Collecting mirrors liking with the two flags swapped. */
  lemma CollectMirrorsLike(feedId: string, liked: bool, collected: bool, click: ClickProbe)
    ensures Perform(Collect, feedId, Flags(liked, collected), click).result.status
         == Perform(Like, feedId, Flags(collected, liked), click).result.status
    ensures Perform(Collect, feedId, Flags(liked, collected), click).clicked.Some?
         == Perform(Like, feedId, Flags(collected, liked), click).clicked.Some?
    ensures Perform(Uncollect, feedId, Flags(liked, collected), click).result.status
         == Perform(Unlike, feedId, Flags(collected, liked), click).result.status
  {
  }

  /** A page that reports no flags reads as neither liked nor collected. */
  lemma NoFlagsMeansUndoIsNoOp(feedId: string, click: ClickProbe)
    ensures Perform(Unlike, feedId, NoText, click).result.already
    ensures Perform(Uncollect, feedId, BadText, click).result.already
    ensures Perform(Like, feedId, BadText, click).clicked == Some(LikeSelector)
  {
  }
}
