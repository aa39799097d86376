/** `lib/prompt.ts`: the instruction sent to the image models with the
    uploaded drawing: a fixed description of the wanted character, then the
    chosen palette. */
module Prompt {
  import opened Common

  /** `BASE_PROMPT` */
  const BasePrompt := "かわいい日本のゆるキャラとして仕上げてください。\n- シンプルな形、温かい色\n- 3DCG風の立体的な質感、ソフトな陰影\n- 背景は必ず真っ白(#FFFFFF)にしてください。影や模様は描かないでください。\n- 指定の3色パレットを優先\n- かわいく親しみやすい表情"

  /** What stands between the base text and the palette. */
  const PaletteLead := "\nパレット: "
  const PaletteSeparator := ", "

  /** `buildPrompt(palette)`. It takes only the palette: the mood both
      generators also pass is ignored. */
  function BuildPrompt(palette: seq<string>): (prompt: string)
    ensures StartsWith(prompt, BasePrompt + "\n")
    ensures |prompt| == |BasePrompt + PaletteLead| + |Join(palette, PaletteSeparator)|
    ensures prompt[|BasePrompt + PaletteLead|..] == Join(palette, PaletteSeparator)
  {
    var prompt := BasePrompt + PaletteLead + Join(palette, PaletteSeparator);
    assert prompt[..|BasePrompt + "\n"|] == BasePrompt + "\n";
    prompt
  }

  /** An empty palette leaves the text ending in `パレット: `. */
  lemma EmptyPalette()
    ensures BuildPrompt([]) == BasePrompt + PaletteLead
    ensures EndsWith(BuildPrompt([]), "パレット: ")
  {
    var p := BuildPrompt([]);
    assert p[|p| - |"パレット: "|..] == "パレット: ";
  }

  /** Each entry after the first, as it appears between commas. */
  function Spaced(entries: seq<string>): (r: seq<string>)
    ensures |r| == |entries| && forall k :: 0 <= k < |r| ==> r[k] == " " + entries[k]
  {
    seq(|entries|, k requires 0 <= k < |entries| => " " + entries[k])
  }

  /** The palette reads back in its order: cut at the commas, the palette
      part of the text gives the first entry and then each later entry
      behind its space, when no entry holds a comma. */
  lemma {:induction false} PaletteInOrder(palette: seq<string>)
    requires |palette| >= 1 && forall k :: 0 <= k < |palette| ==> ',' !in palette[k]
    ensures Split(Join(palette, PaletteSeparator), ',') == [palette[0]] + Spaced(palette[1..])
  {
    if |palette| > 1 {
      var rest := palette[1..];
      var joined := Join(rest, PaletteSeparator);
      PaletteInOrder(rest);
      var fields := Split(joined, ',');
      SplitPrefixed(' ', joined, ',');
      SplitCons(palette[0], ',', [' '] + joined, [[' '] + fields[0]] + fields[1..]);
      JoinStep(palette, joined);
      SpacedStep(rest, fields);
    }
  }

  lemma JoinStep(palette: seq<string>, joined: string)
    requires |palette| > 1 && joined == Join(palette[1..], PaletteSeparator)
    ensures Join(palette, PaletteSeparator) == palette[0] + [','] + ([' '] + joined)
  {
  }

  lemma SpacedStep(rest: seq<string>, fields: seq<string>)
    requires |rest| >= 1 && fields == [rest[0]] + Spaced(rest[1..])
    ensures [[' '] + fields[0]] + fields[1..] == Spaced(rest)
  {
    assert fields[1..] == Spaced(rest[1..]);
  }
}
