/** `lib/mood.ts`: the style moods a visitor can pick. `random` (and no
    choice, or an unknown one) draws one of the six real moods; `Math.random()`
    is the parameter `r` in [0, 1). */
module Mood {
  import opened Common

  /** `MoodOption`; `caption` is its `label`. */
  datatype MoodOption = MoodOption(id: string, caption: string, prompt: string)

  const RandomId := "random"

  /** `MOOD_OPTIONS` */
  const MoodOptions: seq<MoodOption> := [
    MoodOption("random", "おまかせ (毎回ランダム)", ""),
    MoodOption("pastel", "パステル・ふんわり", "淡いパステル調。柔らかい陰影でふんわりした質感。"),
    MoodOption("vivid", "ビビッド・ポップ", "彩度高めでポップ。コントラストは少し強め。"),
    MoodOption("retro", "レトロ・くすみ", "くすみカラーでレトロ感。少しざらっとした質感。"),
    MoodOption("clay", "クレイ・マット", "粘土のようなマット質感。影は柔らかく控えめ。"),
    MoodOption("paper", "紙・イラスト", "紙に描いたような風合い。粒子感を少しだけ。"),
    MoodOption("neon", "ネオン・サイバー", "発色強めのネオン感。色の輪郭をくっきり。")
  ]

  /** `MOOD_MAP.get(id)`: a `Map` built from the list, so a later entry
      with the same id would win. */
  function Lookup(options: seq<MoodOption>, id: string): (r: Option<MoodOption>)
    ensures r.Some? ==> r.value in options && r.value.id == id
    ensures r.None? <==> forall k :: 0 <= k < |options| ==> options[k].id != id
  {
    if options == [] then None
    else if options[|options| - 1].id == id then Some(options[|options| - 1])
    else
      var r := Lookup(options[..|options| - 1], id);
      assert forall k :: 0 <= k < |options| - 1 ==> options[..|options| - 1][k] == options[k];
      r
  }

  /** `MOOD_OPTIONS.filter(mood => mood.id !== 'random')` */
  function WithoutRandom(options: seq<MoodOption>): (r: seq<MoodOption>)
    ensures forall k :: 0 <= k < |r| ==> r[k].id != RandomId && r[k] in options
    ensures forall k :: 0 <= k < |options| && options[k].id != RandomId ==> options[k] in r
  {
    if options == [] then []
    else
      var rest := WithoutRandom(options[1..]);
      assert forall k :: 1 <= k < |options| ==> options[k] == options[1..][k - 1];
      if options[0].id != RandomId then [options[0]] + rest else rest
  }

  /** The pool a random mood is drawn from: the six moods after `random`. */
  lemma PoolIsTheSixMoods()
    ensures WithoutRandom(MoodOptions) == MoodOptions[1..]
    ensures |WithoutRandom(MoodOptions)| == 6
  {
    var options := MoodOptions;
    assert options[0].id == RandomId;
    assert forall k :: 1 <= k < |options| ==> options[k].id != RandomId;
    NothingToFilter(options[1..]);
  }

  /** Filtering a list without `random` keeps it as it is. */
  lemma {:induction false} NothingToFilter(options: seq<MoodOption>)
    requires forall k :: 0 <= k < |options| ==> options[k].id != RandomId
    ensures WithoutRandom(options) == options
  {
    if options != [] {
      NothingToFilter(options[1..]);
    }
  }

  /** The ids of a list are pairwise different. */
  predicate DistinctIds(options: seq<MoodOption>)
  {
    forall i, j :: 0 <= i < j < |options| ==> options[i].id != options[j].id
  }

  lemma MoodIdsDistinct()
    ensures DistinctIds(MoodOptions)
  {
  }

  /** With distinct ids, looking up an option's id finds that option. */
  lemma {:induction false} LookupFindsOption(options: seq<MoodOption>, k: nat)
    requires DistinctIds(options) && k < |options|
    ensures Lookup(options, options[k].id) == Some(options[k])
  {
    var n := |options| - 1;
    if k < n {
      var init := options[..n];
      assert init[k] == options[k];
      assert DistinctIds(init) by {
        forall i, j | 0 <= i < j < |init| ensures init[i].id != init[j].id {
          assert init[i] == options[i] && init[j] == options[j];
        }
      }
      LookupFindsOption(init, k);
    }
  }

  /** `resolveMood` over a list of options whose pool is not empty. */
  function ResolveFrom(options: seq<MoodOption>, id: Option<string>, r: real): (m: MoodOption)
    requires 0.0 <= r < 1.0 && |WithoutRandom(options)| > 0
    ensures m.id != RandomId && m in options
  {
    var option := if id.Some? && id.value != "" then Lookup(options, id.value) else None;
    if option.Some? && option.value.id != RandomId then option.value
    else
      var pool := WithoutRandom(options);
      pool[RandomIndex(r, |pool|)]
  }

  /** `resolveMood(id)` with `Math.random()` returning `r`. */
  function ResolveMood(id: Option<string>, r: real): (m: MoodOption)
    requires 0.0 <= r < 1.0
    ensures m.id != RandomId && m in MoodOptions
  {
    PoolIsTheSixMoods();
    ResolveFrom(MoodOptions, id, r)
  }

  /** A listed mood other than `random`, looked up by its id, is chosen. */
  lemma KnownChosenFrom(options: seq<MoodOption>, k: nat, r: real)
    requires 0.0 <= r < 1.0 && |WithoutRandom(options)| > 0
    requires DistinctIds(options) && k < |options| && options[k].id != RandomId && options[k].id != ""
    ensures ResolveFrom(options, Some(options[k].id), r) == options[k]
  {
    LookupFindsOption(options, k);
  }

  /** Without a usable id the mood is drawn from the pool. */
  lemma DrawnFrom(options: seq<MoodOption>, id: Option<string>, r: real)
    requires 0.0 <= r < 1.0 && |WithoutRandom(options)| > 0
    requires id.None? || id.value == "" || id.value == RandomId || Lookup(options, id.value).None?
    ensures ResolveFrom(options, id, r) == WithoutRandom(options)[RandomIndex(r, |WithoutRandom(options)|)]
  {
  }

  lemma DrawnFromSix(options: seq<MoodOption>, id: Option<string>, r: real)
    requires 0.0 <= r < 1.0 && |options| == 7 && WithoutRandom(options) == options[1..]
    requires id.None? || id.value == "" || id.value == RandomId || Lookup(options, id.value).None?
    ensures ResolveFrom(options, id, r) == options[1 + RandomIndex(r, 6)]
  {
    DrawnFrom(options, id, r);
  }

  lemma RealMoodIds(k: nat)
    requires 0 < k < |MoodOptions|
    ensures MoodOptions[k].id != RandomId && MoodOptions[k].id != ""
  {
  }

  /** A real mood's id gives that mood, whatever `r` is. */
  lemma KnownMoodChosen(k: nat, r: real)
    requires 0 < k < |MoodOptions| && 0.0 <= r < 1.0
    ensures ResolveMood(Some(MoodOptions[k].id), r) == MoodOptions[k]
  {
    var options := MoodOptions;
    MoodIdsDistinct();
    PoolIsTheSixMoods();
    RealMoodIds(k);
    KnownChosenFrom(options, k, r);
  }

  /** `random`, no id and an unknown id all draw the mood at index
      `floor(6 r)` among the six, after `random`. */
  lemma OtherwiseDrawn(id: Option<string>, r: real)
    requires 0.0 <= r < 1.0
    requires id.None? || id.value == "" || id.value == RandomId || Lookup(MoodOptions, id.value).None?
    ensures ResolveMood(id, r) == MoodOptions[1 + RandomIndex(r, 6)]
  {
    PoolIsTheSixMoods();
    DrawnFromSix(MoodOptions, id, r);
  }
}
