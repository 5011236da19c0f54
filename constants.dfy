/** The stage catalog `WOOP_INFO.steps`: a constant object keyed by the
  * string value of four of the five stages. */
module Constants {
  import opened Wrappers
  import opened JsBuiltins
  import opened Types

  /** One catalog entry: the header title, the opening prompt that seeds the
    * transcript, and the stage goal sent to the coach service. */
  datatype StepInfo = StepInfo(title: string, prompt: string, coachInstruction: string)

  const Catalog: map<string, StepInfo> := map[
    "WISH" := StepInfo(
      "愿望 (Wish)",
      "在未来的四周内，你最想实现的一个既具挑战性又可行的愿望是什么？",
      "回应愿望的价值。首先确认愿望是否发自内心，然后在一个新的回复中再引导用户将其缩减至3-6个词。记住，分步进行。"),
    "OUTCOME" := StepInfo(
      "结果 (Outcome)",
      "实现这个愿望后，你体验到的最佳、最令人满意的结果是什么？请闭上眼睛感受那一刻。",
      "先肯定用户描述的愿景。然后只询问一个感官细节（如：你当时看到了什么？或者听到了什么？），不要同时问。"),
    "OBSTACLE" := StepInfo(
      "障碍 (Obstacle)",
      "阻碍你实现愿望的那个最关键的“内部障碍”是什么？（例如习惯、情绪或信念）",
      "对用户的诚实表示共情。如果用户提到的是外部障碍，温和地引导他寻找对应的“内部”心理阻碍。一次只挖掘一个根源。"),
    "PLAN" := StepInfo(
      "计划 (Plan)",
      "如果障碍再次出现，你将采取哪一个具体的行动或想法来应对？",
      "确认行动的有效性。引导用户将回复格式化为简洁的‘如果...那么...’。确保行动是可以在压力下瞬间执行的微小动作。")
  ]

  /** `WOOP_INFO.steps[step]`: present for the four interview stages, absent
    * for SUMMARY; every present entry has non-empty title, prompt and
    * coach instruction. */
  function Lookup(s: Step): (r: Option<StepInfo>)
    ensures r.None? <==> s == SUMMARY
    ensures r.Some? ==> r.value.title != "" && r.value.prompt != "" && r.value.coachInstruction != ""
  {
    var key := Name(s);
    if key in Catalog then Some(Catalog[key]) else None
  }

  /** The catalog has exactly four entries, keyed by the values of WISH,
    * OUTCOME, OBSTACLE and PLAN. */
  lemma CatalogKeys()
    ensures |Catalog| == 4
    ensures Catalog.Keys == {Name(WISH), Name(OUTCOME), Name(OBSTACLE), Name(PLAN)}
  {
    assert Catalog.Keys == {"WISH", "OUTCOME", "OBSTACLE", "PLAN"};
  }

  /** The English stage name that each title carries in parentheses. */
  function EnglishName(s: Step): string {
    match s
    case WISH => "Wish"
    case OUTCOME => "Outcome"
    case OBSTACLE => "Obstacle"
    case PLAN => "Plan"
    case SUMMARY => "Summary"
  }

  /** Each entry's title contains its English stage name in parentheses,
    * e.g. `愿望 (Wish)`. */
  lemma TitleNamesStage(s: Step)
    requires s != SUMMARY
    ensures Contains(Lookup(s).value.title, "(" + EnglishName(s) + ")")
  {
    ContainsSuffix(Lookup(s).value.title, 3, "(" + EnglishName(s) + ")");
  }

  /** `WOOP_INFO.steps[step]?.coachInstruction || ""`, the stage goal sent to
    * the coach service: empty exactly for SUMMARY. */
  function InstructionFor(s: Step): (r: string)
    ensures r == "" <==> s == SUMMARY
    ensures s != SUMMARY ==> r == Lookup(s).value.coachInstruction
  {
    match Lookup(s)
    case Some(info) => if info.coachInstruction != "" then info.coachInstruction else ""
    case None => ""
  }
}
