/**
 * The writing helpers of `scripts/templates.py`: title suggestions, content
 * skeletons, tag suggestions and the validator for a note's title, body and tags.
 *
 * The random draws (`random.sample`, `random.choice`) are inputs: the model is
 * handed what the draw returned and states what is promised for every draw.
 */
module Templates {
  import opened Wrappers
  import opened Text

  const MaxTitleLength: nat := 20
  const MaxContentLength: nat := 1000
  const MaxLongformLength: nat := 10000
  const MaxTags: nat := 10

  // ---------------------------------------------------------------------------
  // Built-in data, in the order the dictionaries list it
  // ---------------------------------------------------------------------------

  const NumberHooks: seq<string> := [
    "{count}个{topic}技巧，第{n}个绝了",
    "关于{topic}，这{count}点你一定要知道",
    "{topic}必看！{count}个实用方法分享",
    "收藏！{count}个{topic}的实用建议",
    "{count}步搞定{topic}，新手也能学会"
  ]
  const QuestionHooks: seq<string> := [
    "{topic}到底怎么选？看完不纠结",
    "为什么你的{topic}总是不对？原因在这",
    "{topic}真的有用吗？亲测告诉你",
    "还在纠结{topic}？这篇帮你理清思路",
    "{topic}踩过的坑，希望你别再踩了"
  ]
  const EmotionHooks: seq<string> := [
    "后悔没早知道的{topic}经验",
    "被{topic}惊艳到了！必须分享给你们",
    "这个{topic}方法太绝了！强烈推荐",
    "真心推荐！{topic}的宝藏经验",
    "终于找到最适合的{topic}方法了"
  ]

  /** `TITLE_HOOKS`: the three title styles. */
  const TitleHooks: map<string, seq<string>> :=
    map["数字型" := NumberHooks, "疑问型" := QuestionHooks, "情感型" := EmotionHooks]

  /** One entry of `CONTENT_TEMPLATES`. */
  datatype ContentTemplate = ContentTemplate(
    structure: seq<string>, template: string, hooks: seq<string>, closings: seq<string>)

  /** The opening hooks of the three content templates. */
  const ImageHooks: seq<string> := [
    "姐妹们！这个{topic}真的太好用了，忍不住分享给你们～",
    "关于{topic}，我研究了很久终于找到最优解！",
    "分享一个让我受益匪浅的{topic}经验，建议收藏！"]
  const VideoHooks: seq<string> := [
    "等等！关于{topic}，这个你一定不知道👇",
    "1 分钟教你搞定{topic}！",
    "关于{topic}，千万别踩这些坑！"]
  const LongformHooks: seq<string> := [
    "这篇文章是我关于{topic}的深度分享，希望能给正在了解这方面内容的你一些帮助。",
    "最近研究{topic}有了一些心得，整理成这篇长文分享给大家。"]

  const ImageTemplate: ContentTemplate := ContentTemplate(
    ["【开头钩子】用 1-2 句话抓住读者注意力",
     "【核心内容】分 3-5 个要点展开",
     "【总结互动】总结要点 + 引导互动提问"],
    "{hook}\n\n{point_1}\n\n{point_2}\n\n{point_3}\n\n{closing}",
    ImageHooks,
    ["以上就是我关于{topic}的分享啦～觉得有用的话记得点赞收藏哦！你们有什么好的建议也欢迎在评论区告诉我～",
     "希望这篇{topic}分享对你有帮助！还有什么想了解的，评论区见～",
     "关于{topic}就分享到这里啦！如果你也有好的经验，欢迎在评论区交流！"])

  const VideoTemplate: ContentTemplate := ContentTemplate(
    ["【开头 3 秒】用悬念或痛点抓住注意力",
     "【主体内容】清晰的步骤或故事线",
     "【结尾 CTA】引导点赞关注收藏"],
    "{hook}\n\n今天分享关于{topic}的内容：\n\n1. {point_1}\n2. {point_2}\n3. {point_3}\n\n{closing}",
    VideoHooks,
    ["觉得有用就点个赞吧～关注我获取更多{topic}干货！",
     "喜欢的话记得三连支持一下！还有什么想看的内容评论区告诉我～"])

  const LongformTemplate: ContentTemplate := ContentTemplate(
    ["【引言】背景介绍 + 阅读价值",
     "【正文】分章节深入展开（3-5 节）",
     "【结语】总结 + 互动引导"],
    "# {title}\n\n## 前言\n{hook}\n\n## 一、{section_1_title}\n{section_1}\n\n## 二、{section_2_title}\n{section_2}\n\n## 三、{section_3_title}\n{section_3}\n\n## 总结\n{closing}",
    LongformHooks,
    ["以上就是关于{topic}的全部内容了。如果这篇文章对你有帮助，别忘了点赞收藏，方便以后查看～",
     "关于{topic}的分享就到这里。欢迎在评论区留下你的想法，一起讨论！"])

  /** `CONTENT_TEMPLATES`. */
  const ContentTemplates: map<string, ContentTemplate> :=
    map["图文" := ImageTemplate, "视频" := VideoTemplate, "长文" := LongformTemplate]

  /** `TAG_DATABASE`, as (category, tags) pairs in dictionary order. */
  const TagDatabase: seq<(string, seq<string>)> := [
    ("旅行", ["旅行攻略", "旅行日记", "小众旅行地", "自由行", "旅行穿搭", "打卡", "周末去哪玩", "城市漫步"]),
    ("美食", ["美食分享", "食谱", "探店", "家常菜", "烘焙", "减脂餐", "下午茶", "美食推荐"]),
    ("穿搭", ["穿搭分享", "日常穿搭", "通勤穿搭", "OOTD", "搭配灵感", "显瘦穿搭", "氛围感穿搭", "季节穿搭"]),
    ("护肤", ["护肤心得", "成分党", "敏感肌", "防晒", "抗老", "平价好物", "护肤步骤", "肌肤管理"]),
    ("数码", ["数码好物", "科技分享", "App推荐", "效率工具", "电子产品", "测评", "手机摄影", "数码生活"]),
    ("学习", ["学习方法", "自律打卡", "考试经验", "读书笔记", "成长记录", "知识分享", "高效学习", "自我提升"]),
    ("职场", ["职场经验", "面试技巧", "副业", "自由职业", "职场干货", "升职加薪", "跳槽经验", "行业分析"]),
    ("生活", ["生活记录", "居家好物", "收纳整理", "极简生活", "生活方式", "日常vlog", "独居生活", "幸福感"]),
    ("健身", ["健身打卡", "减脂", "增肌", "瑜伽", "跑步", "健身食谱", "居家健身", "健身入门"]),
    ("母婴", ["育儿经验", "母婴好物", "辅食食谱", "新手妈妈", "亲子活动", "孕期记录", "儿童教育", "宝宝日常"])
  ]

  /** `UNIVERSAL_TAGS`: appended to every suggestion. */
  const UniversalTags: seq<string> := ["干货分享", "经验分享", "好物推荐", "日常", "记录生活", "涨知识"]

  // ---------------------------------------------------------------------------
  // Placeholder filling (`str.format` with the keywords the templates use)
  // ---------------------------------------------------------------------------

  /** Replaces `{topic}`, `{count}` and `{n}`; every other character is kept. */
  function Fill(t: string, topic: string, count: string, n: string): string
    decreases |t|
  {
    if t == [] then []
    else if IsPrefix("{topic}", t) then topic + Fill(t[7..], topic, count, n)
    else if IsPrefix("{count}", t) then count + Fill(t[7..], topic, count, n)
    else if IsPrefix("{n}", t) then n + Fill(t[3..], topic, count, n)
    else [t[0]] + Fill(t[1..], topic, count, n)
  }

  /** An occurrence of "{topic}" cannot start inside a leading "{count}" or "{n}". */
  lemma TopicAfterPlaceholder(t: string, skip: nat)
    requires 1 <= skip <= |t| && forall j :: 1 <= j < skip ==> t[j] != '{'
    requires Contains(t, "{topic}") && !IsPrefix("{topic}", t)
    ensures Contains(t[skip..], "{topic}")
  {
    ContainsAt(t, "{topic}");
    var k :| OccursAt(t, "{topic}", k);
    assert t[k] == t[k..k + 7][0];
    assert k != 0;
    assert t[skip..][k - skip..k - skip + 7] == t[k..k + 7];
    assert OccursAt(t[skip..], "{topic}", k - skip);
    ContainsAt(t[skip..], "{topic}");
  }

  /** A template that holds `{topic}` yields a text that holds the topic. */
  lemma {:induction false} FillKeepsTopic(t: string, topic: string, count: string, n: string)
    requires Contains(t, "{topic}")
    ensures Contains(Fill(t, topic, count, n), topic)
    decreases |t|
  {
    if IsPrefix("{topic}", t) {
      assert IsPrefix(topic, topic);
      ContainsInPrefix(topic, Fill(t[7..], topic, count, n), topic);
    } else if IsPrefix("{count}", t) {
      assert t[..7] == "{count}";
      TopicAfterPlaceholder(t, 7);
      FillKeepsTopic(t[7..], topic, count, n);
      ContainsInSuffix(count, Fill(t[7..], topic, count, n), topic);
    } else if IsPrefix("{n}", t) {
      assert t[..3] == "{n}";
      TopicAfterPlaceholder(t, 3);
      FillKeepsTopic(t[3..], topic, count, n);
      ContainsInSuffix(n, Fill(t[3..], topic, count, n), topic);
    } else {
      TopicAfterPlaceholder(t, 1);
      FillKeepsTopic(t[1..], topic, count, n);
      ContainsInSuffix([t[0]], Fill(t[1..], topic, count, n), topic);
    }
  }

  // ---------------------------------------------------------------------------
  // generate_title
  // ---------------------------------------------------------------------------

  /** The templates a style draws from: the style's own, else all three in order. */
  function TitleTemplates(style: Option<string>): (r: seq<string>)
    ensures |r| == 5 || |r| == 15
    ensures style.Some? && style.value in TitleHooks ==> r == TitleHooks[style.value]
  {
    if style.Some? && style.value in TitleHooks then TitleHooks[style.value]
    else NumberHooks + QuestionHooks + EmotionHooks
  }

  /** One draw of `generate_title`: the sampled template and the two `random.choice` values. */
  datatype TitlePick = TitlePick(template: string, count: nat, n: nat)

  /** A pick `random.sample`/`random.choice` could have produced for `style`. */
  predicate ValidPick(p: TitlePick, style: Option<string>)
  {
    p.template in TitleTemplates(style) && p.count in [3, 5, 6, 7, 8, 10] && p.n in [1, 2, 3]
  }

  function FillTitle(p: TitlePick, topic: string): string
  {
    Fill(p.template, topic, NatToString(p.count), NatToString(p.n))
  }

  /** `title` is `filled` cut to 20 characters: a prefix of it, and all of it unless 20 long. */
  predicate CutTitle(title: string, filled: string)
  {
    |title| <= MaxTitleLength && IsPrefix(title, filled)
    && (|title| == MaxTitleLength || title == filled)
  }

  /**
   * `generate_title`: one title per sampled template, filled and cut to 20
   * characters. A negative count makes `random.sample` raise ValueError.
   */
  method GenerateTitle(topic: string, style: Option<string>, count: int, picks: seq<TitlePick>)
    returns (r: Result<seq<string>, string>)
    requires count >= 0 ==> |picks| == if count < |TitleTemplates(style)| then count else |TitleTemplates(style)|
    requires forall p :: p in picks ==> ValidPick(p, style)
    requires forall i, j :: 0 <= i < j < |picks| ==> picks[i].template != picks[j].template
    ensures r.Err? <==> count < 0
    ensures r.Ok? ==> |r.value| == (if count < |TitleTemplates(style)| then count else |TitleTemplates(style)|)
    ensures r.Ok? ==> forall i :: 0 <= i < |r.value| ==> CutTitle(r.value[i], FillTitle(picks[i], topic))
  {
    if count < 0 {
      return Err("ValueError");
    }
    var titles: seq<string> := [];
    for i := 0 to |picks|
      invariant |titles| == i
      invariant forall j :: 0 <= j < i ==> CutTitle(titles[j], FillTitle(picks[j], topic))
    {
      var title := FillTitle(picks[i], topic);
      if |title| > MaxTitleLength {
        title := title[..MaxTitleLength];
      }
      titles := titles + [title];
    }
    return Ok(titles);
  }

  // ---------------------------------------------------------------------------
  // generate_content
  // ---------------------------------------------------------------------------

  /** The skeleton `generate_content` returns (its `placeholders` echo hook, closing, topic). */
  datatype ContentPlan = ContentPlan(
    noteType: string, topic: string, structure: seq<string>, hook: string, closing: string, template: string)

  /** `CONTENT_TEMPLATES.get(note_type, CONTENT_TEMPLATES["图文"])`. */
  function TemplateFor(noteType: string): (t: ContentTemplate)
    ensures noteType in ContentTemplates ==> t == ContentTemplates[noteType]
    ensures noteType !in ContentTemplates ==> t == ImageTemplate
  {
    if noteType in ContentTemplates then ContentTemplates[noteType] else ImageTemplate
  }

  /**
   * `generate_content`: the note type's skeleton, with the chosen hook and closing
   * filled with the topic; an unknown note type falls back to 图文 but is echoed
   * back as given. `hookPick` and `closingPick` are the `random.choice` positions.
   */
  function GenerateContent(topic: string, noteType: string, hookPick: nat, closingPick: nat): (r: ContentPlan)
    requires hookPick < |TemplateFor(noteType).hooks| && closingPick < |TemplateFor(noteType).closings|
    ensures r.noteType == noteType && r.topic == topic
    ensures noteType !in ContentTemplates ==> r.structure == ImageTemplate.structure && r.template == ImageTemplate.template
    ensures |r.structure| == 3
    ensures Contains(r.hook, topic)
  {
    var tmpl := TemplateFor(noteType);
    var hook := Fill(tmpl.hooks[hookPick], topic, "", "");
    var closing := Fill(tmpl.closings[closingPick], topic, "", "");
    EveryHookHasTopic(noteType, hookPick);
    FillKeepsTopic(tmpl.hooks[hookPick], topic, "", "");
    ContentPlan(noteType, topic, tmpl.structure, hook, closing, tmpl.template)
  }

  /** Finds "{topic}" in a literal by naming its offset. */
  lemma TopicAt(s: string, k: nat)
    requires k + 7 <= |s|
    requires s[k] == '{' && s[k + 1] == 't' && s[k + 2] == 'o' && s[k + 3] == 'p'
    requires s[k + 4] == 'i' && s[k + 5] == 'c' && s[k + 6] == '}'
    ensures Contains(s, "{topic}")
  {
    assert OccursAt(s, "{topic}", k);
    ContainsAt(s, "{topic}");
  }

  lemma ImageHook0HasTopic()
    ensures Contains(ImageHooks[0], "{topic}")
  {
    TopicAt(ImageHooks[0], 6);
  }

  lemma ImageHook1HasTopic()
    ensures Contains(ImageHooks[1], "{topic}")
  {
    TopicAt(ImageHooks[1], 2);
  }

  lemma ImageHook2HasTopic()
    ensures Contains(ImageHooks[2], "{topic}")
  {
    TopicAt(ImageHooks[2], 11);
  }

  lemma ImageHooksHaveTopic(i: nat)
    requires i < |ImageHooks|
    ensures Contains(ImageHooks[i], "{topic}")
  {
    if i == 0 { ImageHook0HasTopic(); } else if i == 1 { ImageHook1HasTopic(); } else { ImageHook2HasTopic(); }
  }

  lemma VideoHook0HasTopic()
    ensures Contains(VideoHooks[0], "{topic}")
  {
    TopicAt(VideoHooks[0], 5);
  }

  lemma VideoHook1HasTopic()
    ensures Contains(VideoHooks[1], "{topic}")
  {
    TopicAt(VideoHooks[1], 8);
  }

  lemma VideoHook2HasTopic()
    ensures Contains(VideoHooks[2], "{topic}")
  {
    TopicAt(VideoHooks[2], 2);
  }

  lemma VideoHooksHaveTopic(i: nat)
    requires i < |VideoHooks|
    ensures Contains(VideoHooks[i], "{topic}")
  {
    if i == 0 { VideoHook0HasTopic(); } else if i == 1 { VideoHook1HasTopic(); } else { VideoHook2HasTopic(); }
  }

  lemma LongformHook0HasTopic()
    ensures Contains(LongformHooks[0], "{topic}")
  {
    TopicAt(LongformHooks[0], 8);
  }

  lemma LongformHook1HasTopic()
    ensures Contains(LongformHooks[1], "{topic}")
  {
    TopicAt(LongformHooks[1], 4);
  }

  lemma LongformHooksHaveTopic(i: nat)
    requires i < |LongformHooks|
    ensures Contains(LongformHooks[i], "{topic}")
  {
    if i == 0 { LongformHook0HasTopic(); } else { LongformHook1HasTopic(); }
  }

  /** Every hook of every note type names the topic (not every closing does). */
  lemma EveryHookHasTopic(noteType: string, i: nat)
    requires i < |TemplateFor(noteType).hooks|
    ensures Contains(TemplateFor(noteType).hooks[i], "{topic}")
  {
    if noteType == "视频" {
      VideoHooksHaveTopic(i);
    } else if noteType == "长文" {
      LongformHooksHaveTopic(i);
    } else {
      assert TemplateFor(noteType) == ImageTemplate;
      ImageHooksHaveTopic(i);
    }
  }

  // ---------------------------------------------------------------------------
  // suggest_tags
  // ---------------------------------------------------------------------------

  /** `max(3, min(count, 10))`. */
  function ClampTagCount(count: int): (r: nat)
    ensures 3 <= r <= 10
    ensures 3 <= count <= 10 ==> r == count
  {
    if count < 3 then 3 else if count > 10 then 10 else count
  }

  /** `category in topic or topic in category`. */
  predicate CategoryMatches(category: string, topic: string)
  {
    Contains(topic, category) || Contains(category, topic)
  }

  /** Every tag of every category, in dictionary order (`all_tags`). */
  function AllTags(db: seq<(string, seq<string>)>): seq<string>
  {
    if db == [] then [] else AllTags(db[..|db| - 1]) + db[|db| - 1].1
  }

  /** A draw `random.sample(all_tags, min(count, len(all_tags)))` could give once `count` is clamped. */
  predicate SampledTags(sample: seq<string>, count: int)
  {
    |sample| == Min(ClampTagCount(count), |AllTags(TagDatabase)|) && Distinct(sample)
    && forall t :: t in sample ==> t in AllTags(TagDatabase)
  }

  /** The tags of every matching category, in dictionary order. */
  function MatchedTags(db: seq<(string, seq<string>)>, topic: string): seq<string>
  {
    if db == [] then []
    else
      var init := MatchedTags(db[..|db| - 1], topic);
      var (category, tags) := db[|db| - 1];
      if CategoryMatches(category, topic) then init + tags else init
  }

  /** The list before de-duplication: the matches (or the sample), then the universal tags. */
  function TagCandidates(topic: string, sample: seq<string>): seq<string>
  {
    var matched := MatchedTags(TagDatabase, topic);
    (if matched == [] then sample else matched) + UniversalTags
  }

  predicate Distinct(s: seq<string>)
  {
    forall i, j :: 0 <= i < j < |s| ==> s[i] != s[j]
  }

  /** The position at which `x` first occurs in `s`. */
  function FirstIndex(s: seq<string>, x: string): (k: nat)
    requires x in s
    ensures k < |s| && s[k] == x
    ensures forall j :: 0 <= j < k ==> s[j] != x
  {
    if x in s[..|s| - 1] then FirstIndex(s[..|s| - 1], x) else |s| - 1
  }

  /** The elements of `s`, each once, where it first occurs. */
  function Dedup(s: seq<string>): (r: seq<string>)
    ensures forall x :: x in r <==> x in s
    ensures |r| <= |s|
  {
    if s == [] then []
    else
      var d := Dedup(s[..|s| - 1]);
      assert s == s[..|s| - 1] + [s[|s| - 1]];
      if s[|s| - 1] in d then d else d + [s[|s| - 1]]
  }

  /** Dedup has no repeats and lists the elements in first-seen order. */
  lemma {:induction false} DedupFirstSeenOrder(s: seq<string>)
    ensures Distinct(Dedup(s))
    ensures forall i, j :: 0 <= i < j < |Dedup(s)| ==> FirstIndex(s, Dedup(s)[i]) < FirstIndex(s, Dedup(s)[j])
  {
    if s != [] {
      var init := s[..|s| - 1];
      var d := Dedup(init);
      DedupFirstSeenOrder(init);
      forall x | x in init ensures FirstIndex(s, x) == FirstIndex(init, x) {
      }
      assert s == init + [s[|s| - 1]];
      forall i | 0 <= i < |d| ensures d[i] in init && FirstIndex(s, d[i]) < |s| - 1 {
        assert d[i] in init;
      }
    }
  }

  lemma UniversalTagsDistinct()
    ensures Distinct(UniversalTags)
  {
  }

  /** A distinct sequence has as many elements as its set. */
  lemma {:induction false} DistinctCard(s: seq<string>)
    requires Distinct(s)
    ensures |set x | x in s| == |s|
  {
    if s != [] {
      var init := s[..|s| - 1];
      DistinctCard(init);
      assert (set x | x in s) == (set x | x in init) + {s[|s| - 1]};
      assert s[|s| - 1] !in init;
    }
  }

  lemma {:induction false} SubsetCard(a: set<string>, b: set<string>)
    requires a <= b
    ensures |a| <= |b|
    decreases a
  {
    if a != {} {
      var x :| x in a;
      SubsetCard(a - {x}, b - {x});
    }
  }

  /** De-duplicating keeps at least as many elements as a repeat-free sequence inside it. */
  lemma DedupAtLeast(s: seq<string>, t: seq<string>)
    requires Distinct(t) && forall x :: x in t ==> x in s
    ensures |Dedup(s)| >= |t|
  {
    DedupFirstSeenOrder(s);
    DistinctCard(t);
    DistinctCard(Dedup(s));
    SubsetCard(set x | x in t, set x | x in Dedup(s));
  }

  /** The category loop of `suggest_tags`: the tags of every matching category, in order. */
  method CollectCategoryTags(topic: string) returns (tags: seq<string>)
    ensures tags == MatchedTags(TagDatabase, topic)
  {
    tags := [];
    for i := 0 to |TagDatabase|
      invariant tags == MatchedTags(TagDatabase[..i], topic)
    {
      assert TagDatabase[..i + 1][..i] == TagDatabase[..i];
      var (category, categoryTags) := TagDatabase[i];
      if Contains(topic, category) || Contains(category, topic) {
        tags := tags + categoryTags;
      }
    }
    assert TagDatabase[..|TagDatabase|] == TagDatabase;
  }

  /** The de-duplication loop of `suggest_tags`, keeping a `seen` set beside the result. */
  method DedupTags(tags: seq<string>) returns (unique: seq<string>)
    ensures unique == Dedup(tags)
  {
    var seen: set<string> := {};
    unique := [];
    for i := 0 to |tags|
      invariant unique == Dedup(tags[..i])
      invariant forall x :: x in seen <==> x in unique
    {
      assert tags[..i + 1][..i] == tags[..i];
      if tags[i] !in seen {
        seen := seen + {tags[i]};
        unique := unique + [tags[i]];
      }
    }
    assert tags[..|tags|] == tags;
  }

  /**
   * `suggest_tags`: the clamped number of tags taken, de-duplicated in first-seen
   * order, from the matching categories' tags (or, when no category matches, the
   * `sample` that `random.sample` drew) followed by the universal tags.
   */
  method SuggestTags(topic: string, count: int, sample: seq<string>) returns (r: seq<string>)
    requires SampledTags(sample, count)
    ensures var d := Dedup(TagCandidates(topic, sample));
            r == d[..if ClampTagCount(count) < |d| then ClampTagCount(count) else |d|]
    ensures 3 <= |r| <= ClampTagCount(count)
    ensures Distinct(r)
    ensures forall t :: t in r ==> t in TagCandidates(topic, sample)
  {
    var n := ClampTagCount(count);
    var tags := CollectCategoryTags(topic);
    if tags == [] {
      tags := sample;
    }
    tags := tags + UniversalTags;
    assert tags == TagCandidates(topic, sample);
    var unique := DedupTags(tags);
    r := if n < |unique| then unique[..n] else unique;
    assert forall x :: x in UniversalTags ==> x in tags;
    TakeDedup(tags, n);
  }

  /** The first `n` (at least 3) de-duplicated candidates are distinct candidates, at least 3 of them. */
  lemma TakeDedup(tags: seq<string>, n: nat)
    requires 3 <= n
    requires forall x :: x in UniversalTags ==> x in tags
    ensures var d := Dedup(tags);
            var r := d[..if n < |d| then n else |d|];
            3 <= |r| <= n && Distinct(r) && forall t :: t in r ==> t in tags
  {
    var d := Dedup(tags);
    DedupFirstSeenOrder(tags);
    UniversalTagsDistinct();
    DedupAtLeast(tags, UniversalTags);
  }

  // ---------------------------------------------------------------------------
  // validate
  // ---------------------------------------------------------------------------

  /** The body ceiling: 10000 for 长文, 1000 for every other note type. */
  function BodyLimit(noteType: string): (n: nat)
    ensures noteType == "长文" ==> n == MaxLongformLength
    ensures noteType != "长文" ==> n == MaxContentLength
  {
    if noteType == "长文" then MaxLongformLength else MaxContentLength
  }

  datatype Report = Report(valid: bool, errors: seq<string>, warnings: seq<string>)

  const EmptyTitle: string := "标题不能为空"
  const EmptyBody: string := "正文不能为空"
  const ShortBody: string := "正文过短，建议至少 10 字"

  function LongTitle(n: nat): string { "标题超长（" + NatToString(n) + "/20 字）" }
  function LongBody(n: nat, limit: nat): string { "正文超长（" + NatToString(n) + "/" + NatToString(limit) + " 字）" }
  function TooManyTags(n: nat): string { "标签过多（" + NatToString(n) + "/10），多余的将被截断" }

  predicate TitleOk(title: string) { !IsBlank(title) && |title| <= MaxTitleLength }
  predicate BodyOk(content: string, noteType: string) { !IsBlank(content) && |content| <= BodyLimit(noteType) }

  /**
   * `validate`: at most one error about the title (blank, or over 20) and one
   * about the body (blank, or over the note type's ceiling); a short but
   * acceptable body and more than 10 tags only warn. The note is valid exactly
   * when there is no error.
   */
  function Validate(title: string, content: string, tags: seq<string>, noteType: string): (r: Report)
    ensures r.valid <==> r.errors == []
    ensures r.valid <==> TitleOk(title) && BodyOk(content, noteType)
    ensures |r.errors| == (if TitleOk(title) then 0 else 1) + (if BodyOk(content, noteType) then 0 else 1)
    ensures r.errors == TitleErrors(title) + BodyErrors(content, BodyLimit(noteType))
    ensures ShortBody in r.warnings <==> BodyOk(content, noteType) && |content| < 10
    ensures TooManyTags(|tags|) in r.warnings <==> |tags| > MaxTags
    ensures |r.warnings| == (if BodyOk(content, noteType) && |content| < 10 then 1 else 0) + (if |tags| > MaxTags then 1 else 0)
  {
    var limit := BodyLimit(noteType);
    var bodyWarnings := if !IsBlank(content) && |content| <= limit && |content| < 10 then [ShortBody] else [];
    var tagWarnings := if |tags| > MaxTags then [TooManyTags(|tags|)] else [];
    var errors := TitleErrors(title) + BodyErrors(content, limit);
    MessagesDiffer(|title|, |content|, limit, |tags|);
    Report(errors == [], errors, bodyWarnings + tagWarnings)
  }

  /** Each error message appears exactly when its condition holds, whatever else is wrong. */
  lemma ValidateErrorMessages(title: string, content: string, tags: seq<string>, noteType: string)
    ensures var errors := Validate(title, content, tags, noteType).errors;
            && (EmptyTitle in errors <==> IsBlank(title))
            && (LongTitle(|title|) in errors <==> !IsBlank(title) && |title| > MaxTitleLength)
            && (EmptyBody in errors <==> IsBlank(content))
            && (LongBody(|content|, BodyLimit(noteType)) in errors <==>
                  !IsBlank(content) && |content| > BodyLimit(noteType))
  {
    var limit := BodyLimit(noteType);
    MessagesDiffer(|title|, |content|, limit, |tags|);
    var te := TitleErrors(title);
    var be := BodyErrors(content, limit);
    assert Validate(title, content, tags, noteType).errors == te + be;
    assert te == [] || te == [EmptyTitle] || te == [LongTitle(|title|)];
    assert be == [] || be == [EmptyBody] || be == [LongBody(|content|, limit)];
    assert forall x :: x in te + be <==> x in te || x in be;
  }

  /** The error about the title: blank, or over 20 characters, or none. */
  function TitleErrors(title: string): (e: seq<string>)
    ensures e == [] <==> TitleOk(title)
    ensures IsBlank(title) ==> e == [EmptyTitle]
    ensures !IsBlank(title) && |title| > MaxTitleLength ==> e == [LongTitle(|title|)]
  {
    if IsBlank(title) then [EmptyTitle]
    else if |title| > MaxTitleLength then [LongTitle(|title|)]
    else []
  }

  /** The error about the body: blank, or over the note type's ceiling, or none. */
  function BodyErrors(content: string, limit: nat): (e: seq<string>)
    ensures e == [] <==> !IsBlank(content) && |content| <= limit
    ensures IsBlank(content) ==> e == [EmptyBody]
    ensures !IsBlank(content) && |content| > limit ==> e == [LongBody(|content|, limit)]
  {
    if IsBlank(content) then [EmptyBody]
    else if |content| > limit then [LongBody(|content|, limit)]
    else []
  }

  lemma MessagesDiffer(t: nat, c: nat, limit: nat, g: nat)
    ensures EmptyTitle != LongTitle(t) && EmptyTitle != EmptyBody && EmptyTitle != LongBody(c, limit)
    ensures LongTitle(t) != EmptyBody && LongTitle(t) != LongBody(c, limit)
    ensures EmptyBody != LongBody(c, limit)
    ensures ShortBody != TooManyTags(g)
  {
    assert EmptyTitle[2] != LongTitle(t)[2];
    assert EmptyTitle[0] != EmptyBody[0];
    assert EmptyTitle[0] != LongBody(c, limit)[0];
    assert LongTitle(t)[0] != EmptyBody[0];
    assert LongTitle(t)[0] != LongBody(c, limit)[0];
    assert EmptyBody[2] != LongBody(c, limit)[2];
    assert ShortBody[0] != TooManyTags(g)[0];
  }
}
