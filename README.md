# xiaohongshu-skill, modelled in Dafny

The model covers the decision logic of the xiaohongshu-skill scripts. They drive
a Xiaohongshu (小红书) web session to search notes, read notes, like and collect
notes, publish notes, and plan interaction work within daily quotas. There is one
module per core file:

- `Strategy` (strategy.dfy): the quota ledger and content calendar. This covers
  the daily ceilings, counting an action and purging old days, scheduling a post,
  and the upcoming-posts window with its date-string ordering. `StrategyManager`
  is a class whose methods update its `config` field in place.
- `Sop` (sop.dfy): the three standard operating procedures. Each one plans rather
  than acts. The publishing procedure is gated on the quota and on validation.
  The comment procedure screens the items and truncates them to the quota. The
  exploration procedure plans actions under the remaining quota using random
  draws. `SOPEngine` is a class holding the ledger and the step log.
- `Templates` (templates.dfy): title suggestions, content skeletons, tag
  suggestions with de-duplication in first-seen order, and the validator.
- `Client` (client.dfy): navigation pacing, captcha detection and reporting, the
  wait for the page's initial state, and the dotted-path lookup into that state.
  `XiaohongshuClient` is a class with the page and the pacing counters.
- `Interact` (interact.dfy): like, unlike, collect and uncollect. Each reads the
  note's flags and either stops at once or clicks exactly one button.
- `Search` (search.dfy): the filter option table, collecting the filter texts to
  click, cutting the results to the requested limit, and dismissing the login
  popup.
- `Explore` (explore.dfy): the feed extraction script (it flattens one level of
  nesting) and the scroll-for-more loop.
- `Feed` (feed.dfy): the bounded comment-loading loop and the three-try
  extraction of a note.
- `Publish` (publish.dfy): cutting a rendered long note into screenshots,
  entering tags, choosing the files to upload, the pre-publish check, and the
  result of a publish call.
- `Cli` (cli.dfy): the command-line entry point. It covers how `--headless` is
  read, what each command prints, its exit code, and how an escaping exception
  becomes an error record.

Helper modules: `Wrappers` provides Option, Result and Outcome. `Text` holds the
string operations: blankness, ASCII lowercasing, substring search, lexicographic
order, decimal rendering, splitting and Python's slice. `Json` holds parsed
values with Python and JavaScript truthiness.

The browser, the file system, the clock and the random number generator are not
part of the model. Everything they produce is a parameter:

- what a page script returned;
- whether a path exists;
- the current day or millisecond;
- each random draw.

Contracts state what holds for every such input.

One place where the code and its description disagree is modelled as the code is
written. The captcha URL patterns `verifyType` and `verifyBiz` are compared
against the *lowercased* URL. Because the patterns themselves are not lowercased,
they can never match. `Client.MixedCasePatternsNeverMatch` proves this.

## Model

| member | source | states |
|---|---|---|
| Strategy.DefaultConfig | scripts/strategy.py:72-85 | a fresh document has the default ceilings, an empty persona, an empty log and an empty calendar |
| Strategy.CheckLimit | scripts/strategy.py:135-159 | `used` is today's count; the limit is the configured ceiling, or 0 for an unknown type; allowed ⇔ used < limit ⇔ remaining > 0; remaining = max(0, limit − used) |
| Strategy.FreshLedgerFullQuota | scripts/strategy.py:72-85 | on a fresh ledger every default action type has its whole ceiling left |
| Strategy.Incremented | scripts/strategy.py:173-179 | exactly today's count of the action goes up by one; every other count on any day is unchanged |
| Strategy.Purged | scripts/strategy.py:265-273 | exactly the days on or after the cutoff are kept, each with its counts intact |
| Strategy.DaysInMonth | scripts/strategy.py:256 | a month has 28 to 31 days |
| Strategy.ParseDate | scripts/strategy.py:256 | a string that parses has 8 to 10 characters, four digits naming a year from 1 on, then a dash |
| Strategy.ParseIsoDate | scripts/strategy.py:256 | every real date written as `%Y-%m-%d` parses back to its own day |
| Strategy.Upcoming | scripts/strategy.py:253-260 | an entry is kept iff it is in the calendar and its date parses to a day within the window |
| Strategy.InsertByDateKeeps | scripts/strategy.py:262 | inserting adds exactly the one entry (multiset) |
| Strategy.InsertByDateSorted | scripts/strategy.py:262 | inserting into a date-ordered list keeps it ordered |
| Strategy.SortByDateSorted | scripts/strategy.py:262 | the sort orders entries by their date strings |
| Strategy.SortByDatePermutes | scripts/strategy.py:262 | the sort is a permutation of its input |
| Strategy.SortByDate | scripts/strategy.py:262 | the sort keeps the number of entries |
| Strategy.InsertByDateStable | scripts/strategy.py:262 | inserting into a sorted list puts the entry after every entry with the same date |
| Strategy.SortByDateStable | scripts/strategy.py:262 | the sort is stable: for every date, the entries with that date come out in their calendar order |
| Strategy.StrategyManager.constructor | scripts/strategy.py:51-63 | the stored document when it could be read, else the defaults |
| Strategy.StrategyManager.InitStrategy | scripts/strategy.py:87-112 | only persona, audience and directions change; missing directions become [] |
| Strategy.StrategyManager.CleanupOldLogs | scripts/strategy.py:265-273 | the loop of key deletions leaves exactly the purged log; nothing else in the document changes |
| Strategy.StrategyManager.RecordAction | scripts/strategy.py:161-192 | today's count of the action rises by exactly one; other counts kept in the window are unchanged; no day before today − 7 survives; the remaining quota reported is the ledger's |
| Strategy.StrategyManager.AddScheduledPost | scripts/strategy.py:194-228 | exactly one "planned" entry is appended; nothing else changes |
| Strategy.StrategyManager.GetUpcomingPosts | scripts/strategy.py:247-263 | the result is the in-window entries sorted by SortByDate: ordered by date string, a permutation of them, stable (entries sharing a date keep their calendar order), and it holds an entry iff it is in the calendar and in the window |
| Sop.FinalTitle | scripts/sop.py:95 | the caller's title unless missing or empty, else the first suggested title |
| Sop.FinalContent | scripts/sop.py:96 | the caller's body unless missing or empty, else hook + placeholder + closing |
| Sop.GenerateTemplate | scripts/templates.py:295-313 | exactly five default-style titles, each its sampled template filled and cut; the note type's hook and closing; the suggested tags exactly as `suggest_tags(topic)` gives them, 3 to 6 distinct ones; so the first title `publish_sop` falls back on always exists |
| Sop.RejectReason | scripts/sop.py:196-202 | "内容为空" iff blank; "内容超长" iff non-blank and over 280; no reason iff acceptable |
| Sop.Accepted | scripts/sop.py:193-202 | an item is kept iff it is in the input and has no rejection reason |
| Sop.Refused | scripts/sop.py:193-202 | an item is refused, with its own rejection reason, iff it is in the input and has a reason to be refused |
| Sop.ScreeningPartitions | scripts/sop.py:193-202 | accepted plus refused is exactly the number of items |
| Sop.CountComments | scripts/sop.py:177-178 | the number of comments is at most the number of items |
| Sop.ReplyBudget | scripts/sop.py:185-186 | the budget is at most the number of items and at most the two remaining quotas combined |
| Sop.Screen | scripts/sop.py:192-201 | the screening loop yields exactly the accepted items and the refused items with their reasons, both in input order |
| Sop.PlanReplies | scripts/sop.py:185-226 | executable = the accepted items cut to the budget, all of them valid inputs; rejected = the refused items; the estimate is the mean cooldown per executable item; the total, the cooldown range and both quotas' used and limit figures |
| Sop.Wishes | scripts/sop.py:286-294 | the number of notes whose draw wishes for an action is at most the number of notes |
| Sop.GreedyStep | scripts/sop.py:286-294 | one more note keeps a running total = min(quota, wishes so far) |
| Sop.Grant | scripts/sop.py:286-294 | an action is granted iff its draw is under its probability and the quota is not yet used up; the total stays min(quota, wishes) |
| Sop.ActionList | scripts/sop.py:283-294 | a note's action list holds like / collect / comment exactly when each is granted, in that order |
| Sop.PlannedNotesExtend | scripts/sop.py:282-300 | appending a note numbered next, with its interval and exactly the granted actions, keeps the plan well formed |
| Sop.ListingCounts | scripts/sop.py:282-294 | when each note lists an action exactly when the greedy rule grants it, the first i notes list it min(quota, wishes among them) times |
| Sop.PlannedCounts | scripts/sop.py:282-300 | in a whole plan the notes listing like, collect and comment number min(remaining quota, wishes) each |
| Sop.WishesBefore | scripts/sop.py:284-294 | a note that wishes for an action is preceded by fewer wishes than the feed holds in all |
| Sop.AmpleQuotaGrantsEveryWish | scripts/sop.py:284-294 | when the quota covers every wish, every note that wished for the action gets it |
| Sop.PlanNote | scripts/sop.py:283-300 | note i is numbered i + 1, keeps its interval, lists like, collect and comment in that order exactly when each is granted (its draw under the probability and the running total under the quota), and updates the three totals |
| Sop.PlanExplore | scripts/sop.py:277-327 | one plan entry per note, listing exactly the actions granted to it; each total = min(remaining quota, wishes) and equals the number of notes listing that action; the remaining quotas never go negative; the estimate is the sum of intervals |
| Sop.SOPEngine.constructor | scripts/sop.py:25-27 | a fresh ledger from the stored or default document and an empty log |
| Sop.SOPEngine.LogStep | scripts/sop.py:29-38 | appends exactly one log entry |
| Sop.SOPEngine.PublishSop | scripts/sop.py:48-143 | blocked ⇔ quota exhausted; validation error ⇔ allowed and invalid (errors and warnings passed through); ready ⇔ allowed and valid, with every field of the ready plan (topic, type, final title and body, the suggested titles and tags, images, auto-publish flag, validation report, remaining quota, best times); only a ready plan records one `publishes` action; the log of each outcome step by step, and the plan carries it |
| Sop.SOPEngine.LogOpening | scripts/sop.py:77-102 | the steps logged from a passed quota check up to the start of validation, in order |
| Sop.SOPEngine.CommentSop | scripts/sop.py:149-231 | the plan from PlanReplies, with the total, cooldown range and today's used and limit figures for comments and replies; the ledger is not written; the full log, with one quota warning for each of comments and replies that is wanted but out of quota |
| Sop.SOPEngine.LogCommentSteps | scripts/sop.py:171-208 | the steps `comment_sop` logs, a warning appearing exactly when its flag is set |
| Sop.SOPEngine.ExploreSop | scripts/sop.py:237-334 | the plan that PlanExplore promises, against the quotas `check_limit` reports today: one entry per note, listing exactly the actions granted to it; each total is min(remaining, wishes), never above the quota, and equals the number of notes listing that action; the leftovers are the quota minus the total and never negative; the estimate is the sum of intervals; the log holds the four steps; the ledger is not written |
| Templates.TopicAfterPlaceholder | scripts/templates.py:169-173 | a `{topic}` in a template is not swallowed by a leading `{count}` or `{n}` |
| Templates.FillKeepsTopic | scripts/templates.py:169-173 | filling a template that has `{topic}` yields a text containing the topic |
| Templates.TitleTemplates | scripts/templates.py:158-164 | a known style gives its own 5 templates; any other gives all 15 |
| Templates.GenerateTitle | scripts/templates.py:144-180 | for picks `random.sample` could draw (valid, pairwise different templates): a negative count raises; otherwise min(count, #templates) titles, each the filled template cut to 20 characters |
| Templates.TemplateFor | scripts/templates.py:193 | a known note type gives its template; an unknown one falls back to 图文 |
| Templates.GenerateContent | scripts/templates.py:182-211 | the note type is echoed back as given; there are 3 structure lines; the chosen hook always contains the topic |
| Templates.EveryHookHasTopic | scripts/templates.py:42-114 | every hook of every note type's template names the topic |
| Templates.ClampTagCount | scripts/templates.py:224 | the tag count is clamped into 3..10 and is unchanged inside that range |
| Templates.FirstIndex | scripts/templates.py:243-248 | the position of an element's first occurrence |
| Templates.Dedup | scripts/templates.py:243-248 | de-duplication keeps exactly the same elements and never lengthens the list |
| Templates.DedupFirstSeenOrder | scripts/templates.py:243-248 | the result has no repeats and lists elements in first-seen order |
| Templates.UniversalTagsDistinct | scripts/templates.py:131 | the universal tags are pairwise different |
| Templates.DedupAtLeast | scripts/templates.py:240-250 | de-duplication keeps at least as many elements as any repeat-free list inside the input |
| Templates.CollectCategoryTags | scripts/templates.py:228-230 | the loop collects the tags of every category matching the topic, in dictionary order |
| Templates.DedupTags | scripts/templates.py:243-248 | the loop with its `seen` set computes the first-seen de-duplication |
| Templates.SuggestTags | scripts/templates.py:213-251 | for a sample `random.sample` could draw from all tags: the first clamp(count) de-duplicated candidates; always 3 to clamp(count) tags, no repeats, all drawn from the candidates |
| Templates.TakeDedup | scripts/templates.py:239-250 | because the universal tags are always appended, at least 3 distinct candidates are available |
| Templates.BodyLimit | scripts/templates.py:271 | the body ceiling is 10000 for 长文 and 1000 otherwise |
| Templates.Validate | scripts/templates.py:253-293 | valid ⇔ no errors ⇔ title and body acceptable; at most one error each for title and body; the short-body warning iff acceptable and under 10; the tag warning iff more than 10 tags |
| Templates.ValidateErrorMessages | scripts/templates.py:264-275 | each error message appears exactly when its own condition holds |
| Templates.TitleErrors | scripts/templates.py:265-268 | no title error ⇔ non-blank and at most 20; the blank error takes precedence over the length error |
| Templates.BodyErrors | scripts/templates.py:271-275 | no body error ⇔ non-blank and within the ceiling; the blank error takes precedence |
| Templates.MessagesDiffer | scripts/templates.py:264-282 | the validator's messages are pairwise different |
| Client.CheckCaptchaMeaning | scripts/client.py:176-199 | no page ⇒ false; otherwise flagged iff a URL pattern occurs in the lowercased URL, or a readable title contains a lowercased title pattern |
| Client.AnyUrlPatternMeaning | scripts/client.py:187-190 | true iff some URL pattern occurs |
| Client.AnyTitlePatternMeaning | scripts/client.py:192-195 | true iff some lowercased title pattern occurs |
| Client.MixedCasePatternsNeverMatch | scripts/client.py:26-41 | `verifyType` and `verifyBiz` can never occur in a lowercased URL |
| Client.NewCaptchaError | scripts/client.py:43-47 | the error keeps its URL; an empty message is replaced by one naming the URL |
| Client.HandleCaptcha | scripts/client.py:201-218 | the error names the page URL ("unknown" without a page) and the navigation count |
| Client.ThrottleWait | scripts/client.py:149-174 | never negative; the next navigation is at least 3 s after the previous one, at least 10 s after it at a burst boundary (exactly 10 s + jitter when sooner); no wait when enough time has passed; bounded above |
| Client.XiaohongshuClient.constructor | scripts/client.py:59-77 | no page, zeroed counters, nothing visited |
| Client.XiaohongshuClient.Start | scripts/client.py:86-105 | a page exists afterwards; the counters are untouched |
| Client.XiaohongshuClient.Throttle | scripts/client.py:149-174 | sleeps ThrottleWait, stamps the navigation after the sleep, counts it, and sets the session start only once |
| Client.XiaohongshuClient.Navigate | scripts/client.py:220-239 | without a page it fails and changes nothing; otherwise it paces, records the URL, and fails iff the landing page is a captcha, with HandleCaptcha's error |
| Client.XiaohongshuClient.CheckPage | scripts/client.py:176-199 | fails iff the current page is flagged, with the captcha error |
| Client.WaitFromFails | scripts/client.py:246-263 | a failed wait stops on the first flagged page it checked, with that page's captcha error |
| Client.WaitFromPasses | scripts/client.py:246-266 | a wait that does not fail checked only clean pages; it is ready at the first attempt that saw the state, or gives up after retries + 1 attempts |
| Client.NoneFails | scripts/client.py:246-266 | once every checked page was clean and the loop stopped, no page can be the failing one |
| Client.WaitFromMeaning | scripts/client.py:241-266 | the wait fails iff some checked page (the start page, or a reload's page before the state appeared) is flagged, with the captcha error of the first such page; otherwise every checked page passed, and the wait is ready at the first attempt that saw the state or gives up after retries + 1 attempts and `retries` reloads |
| Client.XiaohongshuClient.WaitForInitialState | scripts/client.py:241-266 | without a page, fails with "not started"; otherwise the outcome of the wait described by WaitFromMeaning, leaving the page of the last reload shown; a failure carries the captcha error of the page left showing, which is flagged; ready at the first attempt where the state appeared, with one reload per earlier attempt and every checked page clean; gives up after retries + 1 attempts with none appearing; pacing is untouched |
| Client.XiaohongshuClient.Attempts | scripts/client.py:246-266 | the attempt loop ends with the outcome of the wait and the page it leaves shown; pacing is untouched |
| Client.XiaohongshuClient.Attempt | scripts/client.py:247-266 | one pass either ends the wait with its outcome and page, or reloads onto the next page and leaves the rest of the wait to the following attempt |
| Client.InitialState | scripts/client.py:268-291 | an empty answer is {}; malformed text raises; otherwise the decoded value |
| Client.Walk | scripts/client.py:310-322 | an empty path gives the state; a hop from a non-mapping gives None |
| Client.WalkOneHop | scripts/client.py:302-320 | one hop reads the key and unwraps `value` before `_value`; a missing key gives None |
| Client.WalkConcat | scripts/client.py:310-322 | walking p + q is walking p and then q |
| Client.WalkStaysNull | scripts/client.py:314-315 | once a hop gives None, every longer path gives None |
| Client.GetDataByPath | scripts/client.py:293-322 | a state that is not a mapping gives None; a path without a dot is a single lookup with unwrapping |
| Client.GetDataByPathDotted | scripts/client.py:310-322 | reading "a.rest" is reading `a` and then `rest` from there |
| Text.SplitWithoutSep | scripts/client.py:310 | a string without the separator splits into itself alone |
| Text.SplitAtFirst | scripts/client.py:310 | a split cuts at the first separator and splits the rest |
| Interact.GetInteractState | scripts/interact.py:39-72 | the reported flags, or both false when nothing usable came back |
| Interact.ClickButton | scripts/interact.py:74-88 | true iff a match was found and clicking it did not raise |
| Interact.Perform | scripts/interact.py:90-196 | already in the wanted state ⇒ success with no click; otherwise exactly one click on the action's button, with success iff the click went through; messages per action |
| Interact.Reached | scripts/interact.py:90-196 | after an action its flag holds the wanted value and the other flag is unchanged |
| Interact.RepeatDoesNotClick | scripts/interact.py:90-196 | repeating an action on a note already in that state clicks nothing and succeeds |
| Interact.ExactlyOneOfPairClicks | scripts/interact.py:90-196 | of an action and its undo, exactly one clicks on any note |
| Interact.CollectMirrorsLike | scripts/interact.py:90-196 | collect/uncollect behave as like/unlike with the two flags swapped |
| Interact.NoFlagsMeansUndoIsNoOp | scripts/interact.py:39-72 | a page reporting no flags makes undo a no-op and like a click |
| Search.FilterOptionsShape | scripts/search.py:17-47 | groups 1..5 with 5, 3, 4, 4 and 3 options, numbered from 1, none blank |
| Search.FindIn | scripts/search.py:132-138 | finds the text iff some option has it, and returns that text |
| Search.FindFilterText | scripts/search.py:132-138 | the text iff it is an option of a known group, else None |
| Search.Arguments | scripts/search.py:64-130 | the five filter arguments in group order |
| Search.Collected | scripts/search.py:64-130 | never more texts than arguments |
| Search.ApplyFilters | scripts/search.py:64-130 | untouched iff no argument is given; fails iff the panel does not open; otherwise clicks the collected texts in group order |
| Search.CollectedAreOptions | scripts/search.py:64-130 | every clicked text was given for, and is an option of, its own group |
| Search.ArgumentTexts | scripts/search.py:64-130 | the arguments' texts, one per argument, in order |
| Search.CollectedAllValid | scripts/search.py:64-130 | when every argument names an option, all of them are clicked, in order |
| Search.ExtractFromState | scripts/search.py:176-211 | a prefix of the results, of length min(limit, n) for a positive limit, else all of them |
| Search.SearchResults | scripts/search.py:355-365 | the state's results when there are any, a prefix of them within `limit` when it is positive, else the markup's; empty iff both sources are |
| Search.DismissLoginPopup | scripts/search.py:140-174 | one or two rounds; navigates back iff the first round closed a popup and was redirected away from the results page; the client error escapes iff that navigation raised; two rounds iff it navigated back without raising |
| Explore.Flatten | scripts/explore.py:39-46 | the script's push loop computes the one-level flattening |
| Explore.FlattenOnceAppend | scripts/explore.py:39-46 | flattening distributes over concatenation, so order is kept |
| Explore.FlattenOnceMembers | scripts/explore.py:39-46 | an element is in the flat list iff it is a non-list element or an item of a list element |
| Explore.FlattenOnceFlatList | scripts/explore.py:39-46 | a list with no nested lists is unchanged |
| Explore.FeedsScript | scripts/explore.py:27-46 | a list comes back iff `feed.feeds` is truthy and unwraps to a list, and it is that list flattened |
| Explore.ExtractFeeds | scripts/explore.py:23-85 | the decoded list, or [] for an empty or malformed answer |
| Explore.ScrollBounds | scripts/explore.py:87-124 | scrolling never loses notes; it scrolls at most once per extraction and stops early only with enough notes |
| Explore.ScrollKeepsOneExtraction | scripts/explore.py:87-124 | the kept notes are exactly one extraction, never a mix |
| Explore.GetFeeds | scripts/explore.py:87-124 | the kept notes cut with Python's slice to the limit; at most 3 scrolls; no scroll when the first extraction suffices |
| Feed.RoundBound | scripts/feed.py:35-87 | 50 rounds for "all", 3 per wanted comment, none for a negative bound |
| Feed.LoadComments | scripts/feed.py:35-87 | stops at the first round with five unchanged rounds in a row or enough comments, otherwise after the bound; reports the last count |
| Feed.StagnantRunMeaning | scripts/feed.py:35-87 | a stagnant run ≥ k means exactly that the last k rounds saw no change |
| Feed.ExtractFeedDetail | scripts/feed.py:89-115 | the decoded note, or None for an empty or malformed answer |
| Feed.GetFeedDetail | scripts/feed.py:117-170 | stops at the first try with a note, pausing only between tries; a note iff some try gave one; comments are loaded only with a note; a failed re-extraction keeps the earlier note |
| Publish.ImageName | scripts/publish.py:712-721 | every screenshot file is named md_page_… |
| Publish.ImageNamesDistinct | scripts/publish.py:712-721 | different pages go to different files |
| Publish.MdToImages | scripts/publish.py:700-728 | a page up to 3500 high is shot whole; a taller one is cut into consecutive clips of at most 3000, numbered from 1, that tile the whole height; their count is the height / 3000 rounded up |
| Publish.ClipCount | scripts/publish.py:719-728 | the number of clips is the height divided by 3000, rounded up |
| Publish.StripHashes | scripts/publish.py:237 | only leading '#' are removed, and the result does not start with '#' |
| Publish.StripHashesSuffix | scripts/publish.py:237 | the stripped tag is the original with its leading run of '#' cut off |
| Publish.StripHashesIdempotent | scripts/publish.py:237 | stripping twice strips nothing more |
| Publish.StripAll | scripts/publish.py:234-237 | each tag stripped, in order |
| Publish.InputTags | scripts/publish.py:201-259 | nothing for no tags or a failed editor lookup; otherwise the first 10 tags, stripped, in order |
| Publish.ExistingPaths | scripts/publish.py:71-74 | a path is kept iff it is given and exists |
| Publish.ExistingPathsOrdered | scripts/publish.py:71 | the filter keeps relative order |
| Publish.UploadImages | scripts/publish.py:68-103 | error iff no path exists; otherwise one upload per existing path in order, the first on `.upload-input`, waiting for i + 1 previews |
| Publish.UploadVideo | scripts/publish.py:105-137 | error naming the path iff the file is missing |
| Publish.CheckPublishReady | scripts/publish.py:297-317 | the title read back ("" when absent), whether the button shows, and title_ok iff the title is non-empty |
| Publish.ClickPublishButton | scripts/publish.py:280-295 | true iff a button was found and clicking it did not raise |
| Publish.Decide | scripts/publish.py:372-395 | without auto-publish: "ready" with the check; with it: success iff the click went through |
| Publish.PublishImage | scripts/publish.py:319-395 | fails iff no image exists; otherwise reports the title, the number of paths given, the tags and the `schedule_time` key (whose value may be None); ready iff not auto-publishing; published iff auto-publishing and the click worked |
| Publish.PublishVideo | scripts/publish.py:397-469 | fails iff the video is missing; otherwise the same verdict, with the video path reported and no image count, tags or `schedule_time` key |
| Cli.Headless | scripts/__main__.py:34-39 | a boolean is taken as is; text is headless unless it is "false" in any case; missing means headless |
| Cli.HeadlessSpellings | scripts/__main__.py:34-39 | "false", "False" and "FALSE" show the window; "true", "0", "no" and "" do not |
| Cli.FormatOutput | scripts/__main__.py:27-31 | Python None (a missing result or a decoded `null`) prints `{"error": "No data"}`; anything else prints as it is; the printed record is never `null` |
| Cli.QrcodeRun | scripts/__main__.py:61-113 | exit 0 iff logged in or scanned in time; 2 iff the wait timed out; 1 otherwise; two records when a code was shown |
| Cli.CommandRun | scripts/__main__.py:46-268 | login: 0/2/1 by status; read commands: 0 iff data is truthy; write commands: 0 iff status is "success"; others: 0; exit code 2 only from the login commands |
| Cli.ErrorRecord | scripts/__main__.py:393-409 | status "error" with a type and a message; a captcha URL iff the exception is a CaptchaError |
| Cli.Main | scripts/__main__.py:275-409 | no command returns 0; an exception prints its error record and returns 1; otherwise the command's own output and code |
| Cli.ExitCodes | scripts/__main__.py:275-409 | the process exits with 0, 1 or 2; 2 only from `login` or `qrcode`; 1 whenever a command raised |

## Left out

- Playwright itself is not modelled: every click, wait, scroll, keyboard press, screenshot and script evaluation. Only what these calls returned enters the model, as parameters.
- The per-field mapping that the page scripts apply to each note card is left out, as are the internals of the markup fallback `_extract_from_dom` and the first-50 cut inside the search script. This applies to search results, explore cards and note details. The model keeps only whether a list or value came back, and which one.
- Reading and writing the strategy, cookie and image files is left out: `_save_config`, `_load_cookies`, `_save_cookies` and the file dialogs. The `updated_at` and `created_at` timestamps are left out too.
- login.py, comment.py and user.py are not part of this model. The commands that call them appear in `Cli` only through the result they hand back.
- `publish_longform`, `_fill_title`, `_fill_content`, `_set_schedule`, `_click_publish_tab`, `_navigate_to_publish` and the markdown-to-HTML rendering in `md_to_images` are left out. They are page typing and HTML text generation with no decision logic beyond the pagination, which is modelled.
- `show_strategy`, `get_log` and the module-level convenience wrappers other than `generate_template` are left out. They forward to the modelled methods.
- Sop.SOPEngine.LogStep: the free-text detail and the timestamp of each log entry are not kept, only the step and the status.
- Sop.PlanExplore: each interval is taken as already rounded to one decimal. `random.uniform` and `round` are not modelled, and sums are exact reals rather than floats.
- Client.ThrottleWait: times are whole milliseconds, while the source uses float seconds. Clock drift while sleeping is not modelled.
- Strategy.StrategyManager.CleanupOldLogs: log keys are day numbers. The source compares ISO date strings, which agree for every key `record_action` writes. A hand-edited, non-canonical key is not modelled.
- Strategy.ParseDate accepts ASCII digits only. `strptime` also accepts other Unicode digits. Dates near year 9999, where `timedelta` arithmetic overflows, are not modelled either.
- Text.Lower lowercases ASCII letters only. Python's `str.lower` also folds other scripts. This does not change any of the comparisons modelled: "false", the captcha patterns and the ASCII URL patterns.
- Client.XiaohongshuClient.Navigate reads `page.url` and the title through the landing probe. A page whose URL cannot be read is not modelled.
- `client.close()` and the `finally` blocks around the commands are left out.
- Cli.Main models an exception as raised before the command prints anything. `cmd_qrcode` can print a record before a later exception; that interleaving is not modelled.
- argparse and the exact `json.dumps` text are not modelled. A command arrives already parsed, and output is the value before serialisation.
- JSON answers that decode to something other than what the code expects are not modelled. An example is an object where a list is expected.
- Explore.GetFeeds: a negative limit is modelled with Python's slice semantics, so `feeds[:limit]` drops items from the end, as the code does. Search.ExtractFromState guards its slice with `limit > 0`, so there a non-positive limit keeps every result.
