/** The five-step story overlay shown before the game starts. */
module Intro {
  /** A step's picture: an emoji, or the lightning icon component. */
  datatype Icon = Emoji(glyph: string) | ZapIcon

  datatype IntroStep = IntroStep(text: string, icon: Icon)

  const IntroSteps: seq<IntroStep> := [
    IntroStep("큰일 났어! 이번 달 관리비 고지서 봤어?", Emoji("🧾")),
    IntroStep("전기 요금이 평소보다 2배나 많이 나왔어...", Emoji("💸")),
    IntroStep("하지만 걱정 마! 우리에겐 SmartThings가 있잖아!", Emoji("🏠")),
    IntroStep("집 안의 기기들을 연결하면 에너지를 아낄 수 있어.", ZapIcon),
    IntroStep("나랑 같이 집 안을 돌아다니며 기기들을 찾아보자!", Emoji("🏃"))
  ]

  class IntroOverlay {
    var step: nat

    ghost predicate Valid()
      reads this
    {
      step < |IntroSteps|
    }

    constructor()
      ensures Valid() && step == 0
    {
      step := 0;
    }

    /** The step on screen. */
    function Current(): (r: IntroStep)
      requires Valid()
      reads this
      ensures r == IntroSteps[step]
    {
      IntroSteps[step]
    }

    /**
     * `handleNext`: advances to the next step, or, on the last one, reports
     * completion (the parent's `onComplete`) and stays where it is.
     */
    method Next() returns (completed: bool)
      requires Valid()
      modifies this
      ensures Valid()
      ensures completed <==> old(step) == |IntroSteps| - 1
      ensures step == if completed then old(step) else old(step) + 1
    {
      if step < |IntroSteps| - 1 {
        step := step + 1;
        completed := false;
      } else {
        completed := true;
      }
    }
  }

  /**
   * Clicking a fresh overlay once per step: the first four clicks advance,
   * the fifth completes the introduction, and the texts are shown in order.
   */
  method RunIntro() returns (completions: seq<bool>, shown: seq<string>)
    ensures completions == [false, false, false, false, true]
    ensures |shown| == |IntroSteps| && forall i :: 0 <= i < |shown| ==> shown[i] == IntroSteps[i].text
  {
    var o := new IntroOverlay();
    completions := [];
    shown := [];
    var done := false;
    while !done
      invariant o.Valid()
      invariant done ==> |completions| == |IntroSteps| && o.step == |IntroSteps| - 1
      invariant !done ==> |completions| == o.step
      invariant forall i :: 0 <= i < |completions| ==> completions[i] == (i == |IntroSteps| - 1)
      invariant |shown| == |completions|
      invariant forall i :: 0 <= i < |shown| ==> shown[i] == IntroSteps[i].text
      decreases |IntroSteps| - |completions|
    {
      shown := shown + [o.Current().text];
      done := o.Next();
      completions := completions + [done];
    }
  }
}
