/**
 * The prompt composer of the generation service: `getShadingPrompt`,
 * `getStylePrompt` and the section assembly of `generateVectorImage`.
 *
 * The prose of every instruction is a short English paraphrase held in a
 * named constant; what the model keeps exactly is which pieces appear, where the
 * user's values are interpolated, the order of the sections and how they
 * are joined.
 */
module Prompt {
  import opened Types
  import opened JsText

  // ---------------------------------------------------------------- shading

  const ShadingNoneText := "Clean lines, no shading."
  const ShadingLightText := "Light, subtle shading for depth."
  const ShadingMediumText := "Moderate shading and cross-hatching."
  const ShadingHeavyText := "Heavy, dramatic shading, deep shadows."

  /** `getShadingPrompt`: one fixed sentence per level; every level has one. */
  function ShadingPrompt(level: ShadingLevel): (r: string)
    ensures r != ""
  {
    match level
    case NONE => ShadingNoneText
    case LIGHT => ShadingLightText
    case MEDIUM => ShadingMediumText
    case HEAVY => ShadingHeavyText
  }

  /** The four shading sentences are pairwise different. */
  lemma ShadingPromptInjective(l1: ShadingLevel, l2: ShadingLevel)
    requires l1 != l2
    ensures ShadingPrompt(l1) != ShadingPrompt(l2)
  {
    assert |ShadingNoneText| == 24 && |ShadingLightText| == 32;
    assert |ShadingMediumText| == 36 && |ShadingHeavyText| == 38;
  }

  // ------------------------------------------------------------- background

  const KeepBackgroundText := "Restyle the whole image, background too."
  const ColorBackgroundLead := "Replace the background with the colour ("
  const ColorBackgroundMiddle := "); fill a transparent background with "
  const ColorBackgroundTail := "."

  /** The background instruction of `getStylePrompt`; the colour appears in it only for COLOR. */
  function BackgroundInstruction(background: BackgroundStyle, color: string): (r: string)
    ensures background == ORIGINAL ==> r == KeepBackgroundText
    ensures background == COLOR ==> OccursAt(r, color, |ColorBackgroundLead|)
  {
    if background == COLOR then
      var r := ColorBackgroundLead + color + ColorBackgroundMiddle + color + ColorBackgroundTail;
      assert r[|ColorBackgroundLead|..|ColorBackgroundLead| + |color|] == color;
      r
    else
      KeepBackgroundText
  }

  // ------------------------------------------------------------------ style

  const GhibliText := "A Studio Ghibli animation scene."
  const PixarText := "Pixar-style 3D character art."
  const SketchText := "A clean black-and-white line sketch."
  const IllustrationText := "A flat, minimal vector illustration."
  const DefaultStyleText := "A vector-style image."

  /**
   * What `getStylePrompt` puts before the background instruction: the
   * style's own text and, for SKETCH only, the shading sentence. Styles
   * without a case of their own take the default text.
   */
  function StyleLead(style: VectorStyle, shading: ShadingLevel): string
  {
    match style
    case GHIBLI => GhibliText
    case PIXAR => PixarText
    case SKETCH => SketchText + " " + ShadingPrompt(shading)
    case ILLUSTRATION => IllustrationText
    case _ => DefaultStyleText
  }

  /**
   * `getStylePrompt`: every case ends with a space and the background
   * instruction; only the SKETCH case carries the shading sentence.
   */
  function StylePrompt(style: VectorStyle, shading: ShadingLevel, background: BackgroundStyle, color: string): (r: string)
    ensures EndsWith(r, " " + BackgroundInstruction(background, color))
    ensures style == SKETCH ==> OccursAt(r, ShadingPrompt(shading), |SketchText| + 1)
  {
    var lead := StyleLead(style, shading);
    var tail := " " + BackgroundInstruction(background, color);
    var r := lead + tail;
    assert r[|lead|..] == tail;
    if style == SKETCH then
      var s := ShadingPrompt(shading);
      assert r == SketchText + " " + s + tail;
      assert r[|SketchText| + 1..|SketchText| + 1 + |s|] == s;
      r
    else
      r
  }

  /** Inserting two different strings between the same context gives different strings. */
  lemma InfixDiffers(a: string, x: string, y: string, b: string)
    requires x != y
    ensures a + x + b != a + y + b
  {
    if |x| == |y| {
      var i :| 0 <= i < |x| && x[i] != y[i];
      assert (a + x + b)[|a| + i] == x[i];
      assert (a + y + b)[|a| + i] == y[i];
    } else {
      assert |a + x + b| != |a + y + b|;
    }
  }

  /** Appending two different strings to the same prefix gives different strings. */
  lemma PrefixDiffers(a: string, x: string, y: string)
    requires x != y
    ensures a + x != a + y
  {
    assert (a + x)[|a|..] == x;
    assert (a + y)[|a|..] == y;
  }

  /** The shading level changes the style prompt exactly when the style is SKETCH. */
  lemma ShadingMattersOnlyForSketch(style: VectorStyle, l1: ShadingLevel, l2: ShadingLevel, background: BackgroundStyle, color: string)
    requires l1 != l2
    ensures StylePrompt(style, l1, background, color) != StylePrompt(style, l2, background, color) <==> style == SKETCH
  {
    if style == SKETCH {
      ShadingPromptInjective(l1, l2);
      var tail := " " + BackgroundInstruction(background, color);
      InfixDiffers(SketchText + " ", ShadingPrompt(l1), ShadingPrompt(l2), tail);
    }
  }

  /** Two different colours give different COLOR instructions. */
  lemma ColorInstructionInjective(c1: string, c2: string)
    requires c1 != c2
    ensures BackgroundInstruction(COLOR, c1) != BackgroundInstruction(COLOR, c2)
  {
    var b1 := BackgroundInstruction(COLOR, c1);
    var b2 := BackgroundInstruction(COLOR, c2);
    if |c1| == |c2| {
      var i :| 0 <= i < |c1| && c1[i] != c2[i];
      assert b1[|ColorBackgroundLead| + i] == c1[i];
      assert b2[|ColorBackgroundLead| + i] == c2[i];
    } else {
      assert |b1| != |b2|;
    }
  }

  /** The background colour changes the style prompt exactly when the background style is COLOR. */
  lemma ColorMattersOnlyForColorBackground(style: VectorStyle, shading: ShadingLevel, background: BackgroundStyle, c1: string, c2: string)
    requires c1 != c2
    ensures StylePrompt(style, shading, background, c1) != StylePrompt(style, shading, background, c2) <==> background == COLOR
  {
    if background == COLOR {
      ColorInstructionInjective(c1, c2);
      var lead := StyleLead(style, shading);
      var t1 := " " + BackgroundInstruction(COLOR, c1);
      var t2 := " " + BackgroundInstruction(COLOR, c2);
      PrefixDiffers(" ", BackgroundInstruction(COLOR, c1), BackgroundInstruction(COLOR, c2));
      PrefixDiffers(lead, t1, t2);
    }
  }

  // --------------------------------------------------------------- sections

  const Intro := "주어진 이미지를 다음 지침에 따라 변환하세요."
  const StyleHeader := "### **스타일 지침**\n"
  const LineThicknessHeader := "### **선 두께 지침**\n"
  const LineThicknessBody := "중간 두께의 선을 사용하세요."
  const ExclusionHeader := "### **제외할 스타일**\n"
  const ExclusionBody := "사진이나 3D 렌더링이어서는 안 됩니다."
  const OutputRules := [
    "-   **중요**: 이미지만 포함하세요.",
    "-   어떤 텍스트도 포함하지 마세요.",
    "-   오직 이미지 데이터만 반환하세요."
  ]
  const OutputHeader := "### 출력 규칙 ###\n"
  const SectionSeparator := "\n\n"

  const LineThicknessSection := LineThicknessHeader + LineThicknessBody
  const ExclusionSection := ExclusionHeader + ExclusionBody

  function StyleSection(styleInstruction: string): string
  {
    StyleHeader + styleInstruction
  }

  function OutputSection(): string
  {
    OutputHeader + Join(OutputRules, "\n")
  }

  /** The sections of the prompt for a given style instruction, in the order they are pushed. */
  function Sections(style: VectorStyle, styleInstruction: string): seq<string>
  {
    var opening := [Intro, StyleSection(styleInstruction)];
    var withThickness := if style != SKETCH then opening + [LineThicknessSection] else opening;
    var withExclusion := if style == GHIBLI || style == PIXAR then withThickness + [ExclusionSection] else withThickness;
    withExclusion + [OutputSection()]
  }

  /** The sections of the prompt built from the settings. */
  function PromptSections(style: VectorStyle, shading: ShadingLevel, background: BackgroundStyle, color: string): seq<string>
  {
    Sections(style, StylePrompt(style, shading, background, color))
  }

  /** The prompt sent with every call: the sections joined by blank lines, trimmed. */
  function PromptText(style: VectorStyle, shading: ShadingLevel, background: BackgroundStyle, color: string): string
  {
    Trim(Join(PromptSections(style, shading, background, color), SectionSeparator))
  }

  /** The prompt assembly of `generateVectorImage`, pushing sections onto a list as the source does. */
  method ComposePrompt(style: VectorStyle, shading: ShadingLevel, background: BackgroundStyle, color: string)
    returns (prompt: string)
    ensures prompt == PromptText(style, shading, background, color)
  {
    var styleInstruction := StylePrompt(style, shading, background, color);
    var sections := [Intro, StyleSection(styleInstruction)];
    if style != SKETCH {
      sections := sections + [LineThicknessSection];
    }
    if style == GHIBLI || style == PIXAR {
      sections := sections + [ExclusionSection];
    }
    sections := sections + [OutputSection()];
    prompt := Trim(Join(sections, SectionSeparator));
  }

  /** The fixed sections differ from each other and from every style section. */
  lemma SectionsDistinct(styleInstruction: string)
    ensures LineThicknessSection != Intro && ExclusionSection != Intro && OutputSection() != Intro
    ensures LineThicknessSection != StyleSection(styleInstruction)
    ensures ExclusionSection != StyleSection(styleInstruction)
    ensures Intro != StyleSection(styleInstruction) && OutputSection() != StyleSection(styleInstruction)
    ensures LineThicknessSection != ExclusionSection
    ensures LineThicknessSection != OutputSection() && ExclusionSection != OutputSection()
  {
    assert Intro[0] == '주';
    assert LineThicknessSection[0] == LineThicknessHeader[0] == '#';
    assert ExclusionSection[0] == ExclusionHeader[0] == '#';
    assert OutputSection()[0] == OutputHeader[0] == '#';
    assert StyleSection(styleInstruction)[0] == StyleHeader[0] == '#';
    assert StyleSection(styleInstruction)[4] == StyleHeader[4] == '*';
    assert StyleSection(styleInstruction)[6] == StyleHeader[6] == '스';
    assert LineThicknessSection[6] == LineThicknessHeader[6] == '선';
    assert ExclusionSection[6] == ExclusionHeader[6] == '제';
    assert LineThicknessSection[4] == LineThicknessHeader[4] == '*';
    assert ExclusionSection[4] == ExclusionHeader[4] == '*';
    assert OutputSection()[4] == OutputHeader[4] == '출';
  }

  /**
   * The layout of the sections: the intro, then the style section, then the
   * line-thickness section exactly when the style is not SKETCH, the
   * exclusion section exactly when the style is GHIBLI or PIXAR, and the
   * output rules always last.
   */
  lemma SectionLayout(style: VectorStyle, styleInstruction: string)
    ensures var sections := Sections(style, styleInstruction);
      && |sections| == 3 + (if style != SKETCH then 1 else 0) + (if style == GHIBLI || style == PIXAR then 1 else 0)
      && sections[0] == Intro
      && sections[1] == StyleSection(styleInstruction)
      && sections[|sections| - 1] == OutputSection()
      && (LineThicknessSection in sections <==> style != SKETCH)
      && (ExclusionSection in sections <==> style == GHIBLI || style == PIXAR)
      && (style != SKETCH ==> sections[2] == LineThicknessSection)
  {
    SectionsDistinct(styleInstruction);
  }

  /** The output-rules section ends with the full stop of its last rule. */
  lemma OutputSectionEnd()
    ensures |OutputSection()| > 0 && OutputSection()[|OutputSection()| - 1] == '.'
  {
    var rules := Join(OutputRules, "\n");
    JoinEndpoints(OutputRules, "\n");
    assert rules[|rules| - 1] == '.';
    assert OutputSection()[|OutputSection()| - 1] == rules[|rules| - 1];
  }

  /**
   * The trim at the end changes nothing, and the prompt begins with the
   * intro and the style section and ends with the output rules.
   */
  lemma PromptShape(style: VectorStyle, styleInstruction: string)
    ensures var sections := Sections(style, styleInstruction);
      var joined := Join(sections, SectionSeparator);
      && Trim(joined) == joined
      && StartsWith(joined, Intro + SectionSeparator + StyleSection(styleInstruction))
      && EndsWith(joined, SectionSeparator + OutputSection())
  {
    var sections := Sections(style, styleInstruction);
    var joined := Join(sections, SectionSeparator);
    assert sections[0] == Intro && sections[1] == StyleSection(styleInstruction);
    assert sections[|sections| - 1] == OutputSection();
    JoinStartsWith(sections, SectionSeparator);
    JoinEndsWith(sections, SectionSeparator);
    OutputSectionEnd();
    assert Intro[0] == '주';
    JoinTrimUntouched(sections, SectionSeparator);
  }
}
