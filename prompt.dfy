/**
 * The system prompt the plugin injects before each generation: empty when
 * the plugin is disabled, otherwise the fixed template filled with one phase
 * block, one strategy block, the optional caution and core-principle blocks,
 * the trimmed current and next scenes and the final-check text.
 */
module Prompt {
  import opened Text
  import FixedTexts
  import opened Scene

  /**
   * The fixed texts of the prompt: the three phase blocks, the two strategy
   * blocks and the fixed parts of the template, in template order. The
   * lemmas below hold for any texts (the phase and strategy choices for any
   * distinct ones), so they hold for the plugin's own texts, Standard.
   */
  datatype Template = Template(
    protocolReady: string,
    protocolAction: string,
    protocolMontage: string,
    strategyDefault: string,
    strategyMontage: string,
    head: string,
    afterPhase: string,
    afterCaution: string,
    afterCurrentScene: string,
    afterNextScene: string,
    afterStrategy: string,
    afterCorePrinciple: string,
    tail: string)

  /** The plugin's own texts. */
  const Standard: Template := Template(
    FixedTexts.ProtocolReady, FixedTexts.ProtocolAction, FixedTexts.ProtocolMontage,
    FixedTexts.StrategyDefault, FixedTexts.StrategyMontage,
    FixedTexts.PromptHead, FixedTexts.AfterPhase, FixedTexts.AfterCaution, FixedTexts.AfterCurrentScene,
    FixedTexts.AfterNextScene, FixedTexts.AfterStrategy, FixedTexts.AfterCorePrinciple, FixedTexts.PromptTail)

  /** The three phase texts differ, the two strategy texts differ, and the template opens with text. */
  predicate Distinct(t: Template) {
    && t.protocolReady != t.protocolAction
    && t.protocolReady != t.protocolMontage
    && t.protocolAction != t.protocolMontage
    && t.strategyDefault != t.strategyMontage
    && t.head != ""
  }

  /**
   * The phase block: MONTAGE over READY over ACTION. For distinct texts,
   * each block is chosen exactly in its own case.
   */
  function PhaseBlock(t: Template, c: Chat): (r: string)
    ensures Distinct(t) ==> (r == t.protocolMontage <==> c.montage)
    ensures Distinct(t) ==> (r == t.protocolReady <==> !c.montage && c.status == Ready)
    ensures Distinct(t) ==> (r == t.protocolAction <==> !c.montage && c.status == Action)
  {
    if c.montage then t.protocolMontage
    else if c.status == Ready then t.protocolReady
    else assert c.status.Action?; t.protocolAction
  }

  /** The strategy block: for distinct texts, the montage strategy exactly when montage is on. */
  function StrategyBlock(t: Template, c: Chat): (r: string)
    ensures Distinct(t) ==> (r == t.strategyMontage <==> c.montage)
    ensures Distinct(t) ==> (r == t.strategyDefault <==> !c.montage)
  {
    if c.montage then t.strategyMontage else t.strategyDefault
  }

  /** The opening and closing lines of the caution block. */
  const CautionOpen: string := "<Caution>\n"
  const CautionClose: string := "\n</Caution>"

  /** The heading of the core-principle block. */
  const CoreHeader: string :=
    "**[Core Principle]**\n" +
    "*The following is the Director's guiding philosophy for this narrative:*\n"

  /** The caution block, left out when the trimmed caution is empty. */
  function CautionBlock(caution: string): (r: string)
    ensures r == "" <==> Trim(caution) == ""
  {
    var t := Trim(caution);
    if t != "" then CautionOpen + t + CautionClose else ""
  }

  /** The core-principle block, left out when the trimmed principle is empty. */
  function CorePrincipleBlock(principle: string): (r: string)
    ensures r == "" <==> Trim(principle) == ""
  {
    var t := Trim(principle);
    if t != "" then CoreHeader + t else ""
  }

  /** The values put into the slots of the template, in template order. */
  datatype Slots = Slots(
    phase: string,
    caution: string,
    currentScene: string,
    nextScene: string,
    strategy: string,
    corePrinciple: string,
    finalCheck: string)

  /** What generatePrompt puts into each slot. */
  function SlotsOf(t: Template, c: Chat, settings: Settings): Slots {
    Slots(PhaseBlock(t, c), CautionBlock(c.caution), Trim(c.currentScene), Trim(c.nextScene),
          StrategyBlock(t, c), CorePrincipleBlock(c.corePrinciple), settings.finalCheckPrompt)
  }

  /** The template up to the current scene: role, protocol, phase, caution. */
  function RenderHead(t: Template, s: Slots): string {
    t.head + s.phase + t.afterPhase + s.caution + t.afterCaution
  }

  /** The template from the end of the current scene to the core principle. */
  function RenderAfterCurrent(t: Template, s: Slots): string {
    t.afterCurrentScene + s.nextScene + t.afterNextScene + s.strategy + t.afterStrategy
      + s.corePrinciple
  }

  /** The final check and the closing warning. */
  function RenderTail(t: Template, s: Slots): string {
    t.afterCorePrinciple + s.finalCheck + t.tail
  }

  /** The template with its slots filled. */
  function Render(t: Template, s: Slots): (r: string)
    ensures |r| >= |t.head| + |t.tail|
  {
    RenderHead(t, s) + (s.currentScene + RenderAfterCurrent(t, s)) + RenderTail(t, s)
  }

  /** The prompt built from the texts t: nothing when disabled, otherwise the filled template. */
  function Compose(t: Template, c: Chat, settings: Settings): (r: string)
    ensures t.head != "" ==> (r == "" <==> !settings.enabled)
  {
    if !settings.enabled then "" else Render(t, SlotsOf(t, c, settings))
  }

  /**
   * generatePrompt: the prompt built from the plugin's own texts, empty
   * exactly when the plugin is disabled. The lemmas below about Compose hold
   * for it, since Standard is Distinct (StandardDistinct).
   */
  function GeneratePrompt(c: Chat, settings: Settings): (r: string)
    ensures r == "" <==> !settings.enabled
  {
    StandardHeadNotEmpty();
    Compose(Standard, c, settings)
  }

  /** The plugin's template opens with text. */
  lemma StandardHeadNotEmpty()
    ensures Standard.head != ""
  {
    FixedTexts.HeadNotEmpty();
  }

  /** The plugin's texts are distinct, so every lemma below about Compose holds for GeneratePrompt. */
  lemma StandardDistinct()
    ensures Distinct(Standard)
  {
    FixedTexts.PhaseTextsDiffer();
    FixedTexts.StrategyTextsDiffer();
    FixedTexts.HeadNotEmpty();
  }

  /** With the settings the plugin starts with, every record gets a prompt. */
  lemma {:induction false} DefaultSettingsPrompt(c: Chat)
    ensures GeneratePrompt(c, DefaultSettings) != ""
  {
  }

  /**
   * A non-blank caution is wrapped, trimmed, in the caution tags; the
   * core-principle block is the heading followed by the trimmed principle.
   */
  lemma {:induction false} OptionalBlocks(caution: string, principle: string)
    ensures !IsBlank(caution) ==> CautionBlock(caution) == CautionOpen + Trim(caution) + CautionClose
    ensures IsBlank(caution) ==> CautionBlock(caution) == ""
    ensures !IsBlank(principle) ==> CorePrincipleBlock(principle) == CoreHeader + Trim(principle)
    ensures IsBlank(principle) ==> CorePrincipleBlock(principle) == ""
  {
    TrimEmptyIffBlank(caution);
    TrimEmptyIffBlank(principle);
  }

  /*
   * Head and Tail are RenderHead and RenderTail with the slots written out:
   * Head depends on the record only and Tail on the settings only, so the
   * layout lemmas can name them without building the whole Slots value.
   */

  /** The part of an enabled prompt before the current scene. */
  function Head(t: Template, c: Chat): string {
    t.head + PhaseBlock(t, c) + t.afterPhase + CautionBlock(c.caution) + t.afterCaution
  }

  /** The part of an enabled prompt after the core principle. */
  function Tail(t: Template, settings: Settings): string {
    t.afterCorePrinciple + settings.finalCheckPrompt + t.tail
  }

  /**
   * An enabled prompt is the template around the record's contents: it opens
   * with the fixed head, the chosen phase block and the caution block, shows
   * the trimmed current scene right after them, and closes with the
   * final-check text verbatim and the fixed warning.
   */
  lemma {:induction false} PromptLayout(t: Template, c: Chat, settings: Settings)
    requires settings.enabled
    ensures |Head(t, c)| + |Tail(t, settings)| <= |Compose(t, c, settings)|
    ensures Compose(t, c, settings)[..|Head(t, c)|] == Head(t, c)
    ensures var r := Compose(t, c, settings);
      r[|r| - |Tail(t, settings)|..] == Tail(t, settings)
    ensures OccursAt(Compose(t, c, settings), Trim(c.currentScene), |Head(t, c)|)
  {
    var slots := SlotsOf(t, c, settings);
    Framed(Compose(t, c, settings), Head(t, c), Trim(c.currentScene),
           RenderAfterCurrent(t, slots), Tail(t, settings));
  }

  /** The parts of r = h + (x + y) + tl sit where they were put. */
  lemma {:induction false} Framed(r: string, h: string, x: string, y: string, tl: string)
    requires r == h + (x + y) + tl
    ensures |h| + |tl| <= |r|
    ensures r[..|h|] == h
    ensures r[|r| - |tl|..] == tl
    ensures OccursAt(r, x, |h|)
    ensures OccursAt(r, y, |h| + |x|)
  {
  }

  /**
   * After the current scene an enabled prompt shows, in template order, the
   * trimmed next scene, the chosen strategy block and the core-principle
   * block, each right after the fixed text that precedes it.
   */
  lemma {:induction false} PromptMiddle(t: Template, c: Chat, settings: Settings)
    requires settings.enabled
    ensures var r := Compose(t, c, settings);
      var next := |Head(t, c)| + |Trim(c.currentScene)| + |t.afterCurrentScene|;
      var strategy := next + |Trim(c.nextScene)| + |t.afterNextScene|;
      var core := strategy + |StrategyBlock(t, c)| + |t.afterStrategy|;
      && OccursAt(r, Trim(c.nextScene), next)
      && OccursAt(r, StrategyBlock(t, c), strategy)
      && OccursAt(r, CorePrincipleBlock(c.corePrinciple), core)
  {
    var slots := SlotsOf(t, c, settings);
    MiddleFramed(Compose(t, c, settings), Head(t, c), Trim(c.currentScene),
                 t.afterCurrentScene, Trim(c.nextScene), t.afterNextScene,
                 StrategyBlock(t, c), t.afterStrategy, CorePrincipleBlock(c.corePrinciple),
                 Tail(t, settings));
  }

  /** The pieces of r = h + (x + (a1 + n + a2 + st + a3 + cp)) + tl after x sit where they were put. */
  lemma {:induction false} MiddleFramed(r: string, h: string, x: string, a1: string, n: string,
                                        a2: string, st: string, a3: string, cp: string, tl: string)
    requires r == h + (x + (a1 + n + a2 + st + a3 + cp)) + tl
    ensures OccursAt(r, n, |h| + |x| + |a1|)
    ensures OccursAt(r, st, |h| + |x| + |a1| + |n| + |a2|)
    ensures OccursAt(r, cp, |h| + |x| + |a1| + |n| + |a2| + |st| + |a3|)
  {
    var y := a1 + n + a2 + st + a3 + cp;
    Framed(r, h, x, y, tl);
    Pieces(y, a1, n, a2, st, a3, cp);
    var p := |h| + |x|;
    OccursWithin(r, y, n, p, |a1|);
    OccursWithin(r, y, st, p, |a1| + |n| + |a2|);
    OccursWithin(r, y, cp, p, |a1| + |n| + |a2| + |st| + |a3|);
  }

  /** The pieces of y = a1 + n + a2 + st + a3 + cp sit where they were put. */
  lemma {:induction false} Pieces(y: string, a1: string, n: string, a2: string, st: string, a3: string, cp: string)
    requires y == a1 + n + a2 + st + a3 + cp
    ensures OccursAt(y, n, |a1|)
    ensures OccursAt(y, st, |a1| + |n| + |a2|)
    ensures OccursAt(y, cp, |a1| + |n| + |a2| + |st| + |a3|)
  {
    var i := |a1| + |n| + |a2|;
    var j := i + |st| + |a3|;
    assert y[|a1|..|a1| + |n|] == n;
    assert y[i..i + |st|] == st;
    assert y[j..j + |cp|] == cp;
  }

  /** What occurs in y occurs in whatever y occurs in, shifted by y's position. */
  lemma {:induction false} OccursWithin(r: string, y: string, z: string, p: int, q: int)
    requires OccursAt(r, y, p) && OccursAt(y, z, q)
    ensures OccursAt(r, z, p + q)
  {
    forall k | 0 <= k < |z| ensures r[p + q + k] == z[k] {
      assert z[k] == y[q + k] == r[p + q + k];
    }
  }

  /**
   * The prompt depends only on what it shows: records that agree on the
   * phase, montage and the trimmed caution, scenes and principle give the
   * same prompt.
   */
  lemma {:induction false} PromptDependsOnTrimmedFields(t: Template, c: Chat, d: Chat, settings: Settings)
    requires c.status == d.status && c.montage == d.montage
    requires Trim(c.caution) == Trim(d.caution) && Trim(c.corePrinciple) == Trim(d.corePrinciple)
    requires Trim(c.currentScene) == Trim(d.currentScene) && Trim(c.nextScene) == Trim(d.nextScene)
    ensures Compose(t, c, settings) == Compose(t, d, settings)
  {
    assert PhaseBlock(t, c) == PhaseBlock(t, d) && StrategyBlock(t, c) == StrategyBlock(t, d);
    assert CautionBlock(c.caution) == CautionBlock(d.caution);
    assert CorePrincipleBlock(c.corePrinciple) == CorePrincipleBlock(d.corePrinciple);
    assert SlotsOf(t, c, settings) == SlotsOf(t, d, settings);
  }

  /**
   * Whitespace around the scene texts never reaches the prompt: blank text
   * before and after the current scene, or before and after the next scene,
   * gives the same prompt.
   */
  lemma {:induction false} PaddingIgnored(t: Template, c: Chat, settings: Settings, pre: string, post: string)
    requires IsBlank(pre) && IsBlank(post)
    ensures Compose(t, c.(currentScene := pre + c.currentScene + post), settings)
         == Compose(t, c, settings)
    ensures Compose(t, c.(nextScene := pre + c.nextScene + post), settings)
         == Compose(t, c, settings)
  {
    TrimIgnoresPadding(c.currentScene, pre, post);
    TrimIgnoresPadding(c.nextScene, pre, post);
    PromptDependsOnTrimmedFields(t, c.(currentScene := pre + c.currentScene + post), c, settings);
    PromptDependsOnTrimmedFields(t, c.(nextScene := pre + c.nextScene + post), c, settings);
  }
}
