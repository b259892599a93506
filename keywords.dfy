/**
 * The keyword lists the finalization passes test the user's last message,
 * labels and prompts against, and the intents they derive from the user's
 * last message (graph.py:1187-1199, 1266-1269, 1370-1373, 1556-1559).
 */
module Keywords {
  import opened Strings

  /** A request to continue the story (graph.py:1196). */
  const ContinueStoryWords := ["续写", "后续剧情", "接下来", "续作"]
  /** A request for advice or directions (graph.py:1197). */
  const AdviceWords := ["推荐", "方向", "灵感", "怎么写"]
  /** Storyboard or video wording in the user's message (graph.py:1198, 1372). */
  const StoryboardRequestWords := ["九宫格", "分镜", "故事板", "storyboard", "15s"]
  /** The user picks or writes a continuation (graph.py:1267). */
  const ContinuationWords := ["我选择方向", "自定义续写", "续写"]
  /** A created image that is a storyboard grid, by its label or prompt (graph.py:1289, 1397, 1627). */
  const GridHintWords := ["九宫格", "3x3", "分镜", "storyboard"]
  /** A label that names a storyboard rather than a character (graph.py:1297, 1584). */
  const StoryboardLabelWords := ["分镜", "九宫格", "storyboard"]
  /** Canvas images that are not usable as references (graph.py:1431). */
  const NotReferenceWords := ["分镜", "九宫格", "storyboard", "视频", "15s视频"]
  /** Canvas images that are character sheets or key visuals (graph.py:1434). */
  const CharacterSheetWords := ["角色", "设定", "立绘", "主视觉", "character", "design"]
  /** Animal names, matched against the lower-cased label (graph.py:1436). */
  const AnimalWordsLatin := ["fox", "bunny", "rabbit"]
  /** Animal names, matched against the label (graph.py:1437). */
  const AnimalWordsHan := ["狐狸", "兔子"]
  /** The user bases new content on existing results (graph.py:1558). */
  const ReferenceIntentWords := ["基于", "同款", "同风格", "沿用", "续写", "延展", "变体", "参考", "保持一致"]

  /** `is_story_suggestion_request`: asks for continuation directions, without
      asking for a storyboard or a video. */
  predicate IsStorySuggestionRequest(u: string) {
    ContainsAny(u, ContinueStoryWords) && ContainsAny(u, AdviceWords) && !ContainsAny(u, StoryboardRequestWords)
  }

  /** `is_continuation_step`: picks a continuation, and is not itself a request for directions. */
  predicate IsContinuationStep(u: string) {
    ContainsAny(u, ContinuationWords) && !IsStorySuggestionRequest(u)
  }

  /** `wants_storyboard_by_user` */
  predicate WantsStoryboardByUser(u: string) {
    ContainsAny(u, ["分镜", "故事板", "storyboard", "九宫格", "15s"])
  }

  /** `reference_intent` */
  predicate ReferenceIntent(u: string) {
    ContainsAny(u, ReferenceIntentWords)
  }

  /** A text with none of the keywords' first characters names no storyboard grid. */
  lemma NoGridHint(s: string)
    requires forall i :: 0 <= i < |s| ==> s[i] != '九' && s[i] != '3' && s[i] != '分' && s[i] != 's'
    ensures !ContainsAny(s, GridHintWords)
  {
    NotContainsWithoutHead(s, "九宫格");
    NotContainsWithoutHead(s, "3x3");
    NotContainsWithoutHead(s, "分镜");
    NotContainsWithoutHead(s, "storyboard");
    assert GridHintWords[1..][1..][1..][1..] == [];
  }

  /** A request for directions never asks for a storyboard: the two keyword
      lists name the same five words. */
  lemma SuggestionExcludesStoryboard(u: string)
    ensures IsStorySuggestionRequest(u) ==> !WantsStoryboardByUser(u)
  {
    if WantsStoryboardByUser(u) {
      var ws := ["分镜", "故事板", "storyboard", "九宫格", "15s"];
      var k := ContainsAnyWitness(u, ws);
      var j := if k == 0 then 1 else if k == 1 then 2 else if k == 2 then 3 else if k == 3 then 0 else 4;
      assert StoryboardRequestWords[j] == ws[k];
      ContainsAnyOf(u, StoryboardRequestWords, j);
    }
  }

  /** Every request to continue the story by "续写" is a continuation step,
      unless it asks for directions, and it also shows a reference intent. */
  lemma ContinuationImpliesReferenceIntent(u: string)
    requires Contains(u, "续写")
    ensures ReferenceIntent(u)
    ensures !IsStorySuggestionRequest(u) ==> IsContinuationStep(u)
  {
    assert ReferenceIntentWords[4] == "续写";
    ContainsAnyOf(u, ReferenceIntentWords, 4);
    assert ContinuationWords[2] == "续写";
    ContainsAnyOf(u, ContinuationWords, 2);
  }
}
