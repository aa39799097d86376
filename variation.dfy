/** `lib/variation.ts`: how far a generated character may stray from the
    drawing. `subtle` keeps the drawing's features, `standard` and `bold`
    ask for one or two extra features drawn at random from a fixed list;
    the values `Math.random()` returns are the parameter `draws`. */
module Variation {
  import opened Common

  /** `VariationOption`; `caption` is its `label`. */
  datatype VariationOption = VariationOption(id: string, caption: string, prompt: string)

  const SubtleId := "subtle"
  const StandardId := "standard"
  const BoldId := "bold"

  /** `VARIATION_OPTIONS` */
  const VariationOptions: seq<VariationOption> := [
    VariationOption("subtle", "控えめ", "シルエットと主要な特徴は忠実に保ち、細部だけ少し変える。"),
    VariationOption("standard", "ふつう", "シルエットは維持しつつ、模様・表情・質感を変えて個性を出す。"),
    VariationOption("bold", "大きく", "シルエットを保ちながら大胆にアレンジし、独自の小物や特徴を追加。")
  ]

  /** `EXTRA_FEATURES` */
  const ExtraFeatures: seq<string> := [
    "帽子やヘアアクセ",
    "小さなバッグや道具",
    "模様やストライプ",
    "耳やしっぽの形",
    "目の形やハイライト",
    "素材感(フェルト/クレイ/布)",
    "服のシルエット"
  ]

  const ExtrasLead := " 追加要素: "
  const ExtrasSeparator := "、"
  const ExtrasEnd := "。"

  /** `VARIATION_MAP.get(id)`: a `Map` built from the list, so a later entry
      with the same id would win. */
  function Lookup(options: seq<VariationOption>, id: string): (r: Option<VariationOption>)
    ensures r.Some? ==> r.value in options && r.value.id == id
    ensures r.None? <==> forall k :: 0 <= k < |options| ==> options[k].id != id
  {
    if options == [] then None
    else if options[|options| - 1].id == id then Some(options[|options| - 1])
    else
      var r := Lookup(options[..|options| - 1], id);
      assert forall k :: 0 <= k < |options| - 1 ==> options[..|options| - 1][k] == options[k];
      r
  }

  /** `resolveVariation(id)`: an empty or missing id, or one not in the
      map, gives `standard`. */
  function ResolveVariation(id: Option<string>): (o: VariationOption)
    ensures o in VariationOptions
    ensures id.Some? && id.value != "" && Lookup(VariationOptions, id.value).Some? ==> o.id == id.value
    ensures id.None? || id.value == "" || Lookup(VariationOptions, id.value).None? ==> o == VariationOptions[1]
  {
    var option := if id.Some? && id.value != "" then Lookup(VariationOptions, id.value) else None;
    if option.Some? then option.value
    else
      var standard := Lookup(VariationOptions, StandardId);
      assert standard == Some(VariationOptions[1]);
      standard.value
  }

  /** Each listed variation is found by its id. */
  lemma VariationChosen(k: nat)
    requires k < |VariationOptions|
    ensures ResolveVariation(Some(VariationOptions[k].id)) == VariationOptions[k]
  {
    var options := VariationOptions;
    assert Lookup(options, options[k].id) == Some(options[k]);
  }

  /** The elements of a list are pairwise different. */
  predicate Distinct(s: seq<string>)
  {
    forall a, b :: 0 <= a < b < |s| ==> s[a] != s[b]
  }

  lemma ExtraFeaturesDistinct()
    ensures Distinct(ExtraFeatures)
  {
  }

  /** `pool.splice(idx, 1)`: what is left of the pool. */
  function RemoveAt(pool: seq<string>, idx: nat): (rest: seq<string>)
    requires idx < |pool|
    ensures |rest| == |pool| - 1
    ensures forall b :: 0 <= b < idx ==> rest[b] == pool[b]
    ensures forall b :: idx <= b < |rest| ==> rest[b] == pool[b + 1]
    ensures multiset(rest) + multiset{pool[idx]} == multiset(pool)
  {
    assert pool == pool[..idx] + [pool[idx]] + pool[idx + 1..];
    pool[..idx] + pool[idx + 1..]
  }

  /** Every value `Math.random()` returns lies in [0, 1). */
  ghost predicate RandomValues(draws: nat -> real)
  {
    forall i: nat :: 0.0 <= draws(i) < 1.0
  }

  /** The extras `pickExtras` takes from `pool` when `count` more are
      wanted and the next value of `Math.random()` is `draws(i)`. */
  function PicksFrom(pool: seq<string>, count: int, draws: nat -> real, i: nat): seq<string>
    requires RandomValues(draws)
    decreases |pool|
  {
    if count <= 0 || pool == [] then []
    else
      var idx := RandomIndex(draws(i), |pool|);
      [pool[idx]] + PicksFrom(RemoveAt(pool, idx), count - 1, draws, i + 1)
  }

  /** No element of `a` is in `b`. */
  predicate Disjoint(a: seq<string>, b: seq<string>)
  {
    forall i, j :: 0 <= i < |a| && 0 <= j < |b| ==> a[i] != b[j]
  }

  /** The picked features and the pool split the source between them,
      with no repeats. */
  predicate Apart(source: seq<string>, picked: seq<string>, pool: seq<string>)
  {
    && multiset(picked) + multiset(pool) == multiset(source)
    && Distinct(picked) && Distinct(pool) && Disjoint(picked, pool)
  }

  /** Moving one element of the pool to the picked ones keeps them apart. */
  lemma PickStep(source: seq<string>, picked: seq<string>, pool: seq<string>, idx: nat)
    requires idx < |pool| && Apart(source, picked, pool)
    ensures Apart(source, picked + [pool[idx]], RemoveAt(pool, idx))
  {
    var x := pool[idx];
    var rest := RemoveAt(pool, idx);
    var next := picked + [x];
    assert forall j :: 0 <= j < |rest| ==> rest[j] != x;
    assert forall i :: 0 <= i < |picked| ==> picked[i] != x;
    forall i, j | 0 <= i < |next| && 0 <= j < |rest| ensures next[i] != rest[j] {
      if i < |picked| {
        assert next[i] == picked[i];
      }
    }
    assert multiset(next) + multiset(rest) == multiset(picked) + multiset(pool);
  }

  /** After each round of `pickExtras`'s loop, picking on from the pool
      finishes the draws from the source. */
  ghost predicate Drawn(source: seq<string>, count: int, draws: nat -> real, picked: seq<string>, pool: seq<string>)
    requires RandomValues(draws)
  {
    && |picked| + |pool| == |source|
    && picked + PicksFrom(pool, count - |picked|, draws, |picked|) == PicksFrom(source, count, draws, 0)
  }

  /** One round of the loop keeps `Drawn`. */
  lemma DrawnStep(source: seq<string>, count: int, draws: nat -> real, picked: seq<string>, pool: seq<string>)
    requires RandomValues(draws) && Drawn(source, count, draws, picked, pool)
    requires |picked| < count && pool != []
    ensures var idx := RandomIndex(draws(|picked|), |pool|);
      Drawn(source, count, draws, picked + [pool[idx]], RemoveAt(pool, idx))
  {
    var i := |picked|;
    var n := count - i;
    var idx := RandomIndex(draws(i), |pool|);
    var x := pool[idx];
    var nextPicked, nextPool := picked + [x], RemoveAt(pool, idx);
    var tail := PicksFrom(nextPool, n - 1, draws, i + 1);
    assert PicksFrom(pool, n, draws, i) == [x] + tail;
    assert |nextPicked| == i + 1 && count - |nextPicked| == n - 1;
    ConcatAssoc(picked, [x], tail);
    assert nextPicked + PicksFrom(nextPool, count - |nextPicked|, draws, |nextPicked|) == picked + ([x] + tail);
  }

  /** When the loop stops, the draws are complete. */
  lemma PickDone(source: seq<string>, count: int, draws: nat -> real, picked: seq<string>, pool: seq<string>)
    requires RandomValues(draws) && Drawn(source, count, draws, picked, pool) && Apart(source, picked, pool)
    requires |picked| == 0 || |picked| <= count
    requires count <= |picked| || pool == []
    ensures picked == PicksFrom(source, count, draws, 0)
    ensures |picked| == MaxInt(0, MinInt(count, |source|))
    ensures multiset(picked) <= multiset(source)
  {
    assert PicksFrom(pool, count - |picked|, draws, |picked|) == [];
  }

  /** The loop of `pickExtras` over any pool without repeats: `count` draws
      without replacement. */
  method PickFrom(source: seq<string>, count: int, draws: nat -> real) returns (picked: seq<string>)
    requires RandomValues(draws) && Distinct(source)
    ensures picked == PicksFrom(source, count, draws, 0)
    ensures |picked| == MaxInt(0, MinInt(count, |source|))
    ensures multiset(picked) <= multiset(source)
    ensures Distinct(picked)
  {
    var pool := source;
    picked := [];
    var i := 0;
    assert Apart(source, picked, pool);
    while i < count && |pool| > 0
      invariant i == |picked| && (i == 0 || i <= count)
      invariant Drawn(source, count, draws, picked, pool)
      invariant Apart(source, picked, pool)
      decreases |pool|
    {
      var idx := RandomIndex(draws(i), |pool|);
      DrawnStep(source, count, draws, picked, pool);
      PickStep(source, picked, pool, idx);
      picked := picked + [pool[idx]];
      pool := RemoveAt(pool, idx);
      i := i + 1;
    }
    PickDone(source, count, draws, picked, pool);
  }

  /** `pickExtras(count)`: draws without replacement from a copy of the
      list, so the result has `min(count, 7)` different features of the
      list and the list itself is never changed. */
  method PickExtras(count: int, draws: nat -> real) returns (picked: seq<string>)
    requires RandomValues(draws)
    ensures picked == PicksFrom(ExtraFeatures, count, draws, 0)
    ensures |picked| == MaxInt(0, MinInt(count, |ExtraFeatures|))
    ensures multiset(picked) <= multiset(ExtraFeatures)
    ensures Distinct(picked)
  {
    ExtraFeaturesDistinct();
    picked := PickFrom(ExtraFeatures, count, draws);
  }

  /** The text appended for the extras, and the prompt that carries it. */
  function Decorate(prompt: string, extras: seq<string>): (text: string)
    ensures StartsWith(text, prompt + ExtrasLead) && EndsWith(text, ExtrasEnd)
  {
    var text := prompt + ExtrasLead + Join(extras, ExtrasSeparator) + ExtrasEnd;
    assert text[..|prompt + ExtrasLead|] == prompt + ExtrasLead;
    text
  }

  /** How many extras a variation asks for. */
  function ExtraCount(option: VariationOption): nat
  {
    if option.id == BoldId then 2 else 1
  }

  /** `buildVariationPrompt(option)`: `subtle` keeps its prompt and draws
      nothing; `bold` asks for two extras and any other variation for one,
      named after the prompt. */
  method BuildVariationPrompt(option: VariationOption, draws: nat -> real) returns (text: string, extras: seq<string>)
    requires RandomValues(draws)
    ensures option.id == SubtleId ==> text == option.prompt && extras == []
    ensures option.id != SubtleId ==>
      && |extras| == ExtraCount(option)
      && Distinct(extras) && multiset(extras) <= multiset(ExtraFeatures)
      && text == Decorate(option.prompt, extras)
  {
    if option.id == SubtleId {
      return option.prompt, [];
    }
    extras := PickExtras(if option.id == BoldId then 2 else 1, draws);
    text := if |extras| > 0 then Decorate(option.prompt, extras) else option.prompt;
  }
}
