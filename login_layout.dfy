/**
 * The tables and gating rules of src/LoginScene.ts: where the stage buttons
 * go, which textures they use, which of them `createStageGUI` builds, and
 * which title and separator sprites `createTitle` adds for a save stage.
 */
module LoginLayout {
  import Numerals

  /** `STAGE_GUI_X` and `STAGE_GUI_Y`: the positions of the thirteen stage buttons. */
  const StageX: seq<int> := [220, 310, 400, 490, 140, 225, 310, 395, 480, 565, 175, 420, 330]
  const StageY: seq<int> := [95, 95, 95, 95, 250, 250, 250, 250, 250, 250, 310, 310, 455]

  /** Both position tables cover the stages 1 .. 13. */
  lemma StageTables()
    ensures |StageX| == |StageY| == 13
    ensures forall i :: 0 <= i < 4 ==> StageY[i] == 95
    ensures forall i :: 4 <= i < 10 ==> StageY[i] == 250
    ensures StageY[10] == StageY[11] == 310 && StageY[12] == 455
  {
  }

  /** How many stage buttons `for (i = 0; i <= stage; i++)` attempts: none for a negative stage. */
  function StageCount(stage: int): nat
  {
    if stage < 0 then 0 else stage + 1
  }

  /** The texture key prefix of stage button `i`: `stage${i + 1}_` (the state digit follows). */
  function StagePrefix(i: nat): string
  {
    "stage" + Numerals.NatToString(i + 1) + "_"
  }

  /** The indices `k` with `present[k]`, in increasing order: the stage buttons that get built. */
  function StagePlan(present: seq<bool>): seq<nat>
    decreases |present|
  {
    if present == [] then []
    else
      var n := |present| - 1;
      StagePlan(present[..n]) + (if present[n] then [n] else [])
  }

  /** One more attempted stage adds its index exactly when its textures are present. */
  lemma StagePlanStep(present: seq<bool>, i: nat)
    requires i < |present|
    ensures StagePlan(present[..i + 1]) == StagePlan(present[..i]) + (if present[i] then [i] else [])
  {
    assert present[..i + 1][..i] == present[..i];
  }

  /**
   * The skip rule: a stage is built exactly when its three textures are present, the built
   * stages keep their order (strictly increasing), and no more than the attempted ones are built.
   */
  lemma {:induction false} StagePlanSkipRule(present: seq<bool>)
    ensures forall k :: k in StagePlan(present) <==> 0 <= k < |present| && present[k]
    ensures forall a, b :: 0 <= a < b < |StagePlan(present)| ==> StagePlan(present)[a] < StagePlan(present)[b]
    ensures |StagePlan(present)| <= |present|
    decreases |present|
  {
    if present != [] {
      var n := |present| - 1;
      StagePlanSkipRule(present[..n]);
      var p := StagePlan(present[..n]);
      forall k | 0 <= k < n
        ensures present[..n][k] == present[k]
      {
      }
      forall a | 0 <= a < |p|
        ensures p[a] < n
      {
        assert p[a] in p;
      }
    }
  }

  /** With every stage's textures present, the stages `0 .. |present| - 1` are all built, in order. */
  lemma {:induction false} StagePlanAllPresent(present: seq<bool>)
    requires forall k :: 0 <= k < |present| ==> present[k]
    ensures StagePlan(present) == seq(|present|, k => k)
    decreases |present|
  {
    if present != [] {
      var n := |present| - 1;
      StagePlanAllPresent(present[..n]);
    }
  }

  /** A title or separator sprite of `createTitle`: its key in the `Title` group and its position. */
  datatype Placed = Placed(name: string, x: real, y: real)

  /** Titles are centred for a width of 100 (`(800 - 100) / 2`), separators for 575 (`(800 - 575) / 2`). */
  const TitleX: real := (800.0 - 100.0) / 2.0
  const LineX: real := (800.0 - 575.0) / 2.0

  /** The sprites `createTitle` adds for save stage `stage`, in the order it adds them. */
  function TitlePlan(stage: int): seq<Placed>
  {
    [Placed("1", TitleX, 30.0)]
    + (if stage > 3 then [Placed("2", TitleX, 190.0)] else [])
    + (if stage > 11 then [Placed("3", TitleX, 405.0)] else [])
    + (if stage > 3 then [Placed("Line", LineX, 145.0)] else [])
    + (if stage > 11 then [Placed("Line", LineX, 350.0)] else [])
    + [Placed("Line", LineX, 500.0)]
  }

  /** A sprite of `createTitle` that is added only when `cond` holds. */
  function Gate(cond: bool, e: Placed): seq<Placed>
  {
    if cond then [e] else []
  }

  /** The three headings `createTitle` tries first, as its gated steps add them. */
  function Headings(stage: int): seq<Placed>
  {
    Gate(true, Placed("1", TitleX, 30.0)) + Gate(stage > 3, Placed("2", TitleX, 190.0)) + Gate(stage > 11, Placed("3", TitleX, 405.0))
  }

  /** The three separators `createTitle` tries after the headings. */
  function Separators(stage: int): seq<Placed>
  {
    Gate(stage > 3, Placed("Line", LineX, 145.0)) + Gate(stage > 11, Placed("Line", LineX, 350.0)) + Gate(true, Placed("Line", LineX, 500.0))
  }

  /** `TitlePlan` is the headings followed by the separators. */
  lemma TitlePlanParts(stage: int)
    ensures TitlePlan(stage) == Headings(stage) + Separators(stage)
  {
  }

  /**
   * The gating of `createTitle`: title 1 and the bottom separator always, title 2 and the first
   * separator exactly when the stage is above 3, title 3 and the second separator exactly when it
   * is above 11.
   */
  lemma TitleGating(stage: int)
    ensures Placed("1", 350.0, 30.0) in TitlePlan(stage) && Placed("Line", 112.5, 500.0) in TitlePlan(stage)
    ensures Placed("2", 350.0, 190.0) in TitlePlan(stage) <==> stage > 3
    ensures Placed("Line", 112.5, 145.0) in TitlePlan(stage) <==> stage > 3
    ensures Placed("3", 350.0, 405.0) in TitlePlan(stage) <==> stage > 11
    ensures Placed("Line", 112.5, 350.0) in TitlePlan(stage) <==> stage > 11
  {
  }

  /** `createTitle` adds 2, 4 or 6 sprites; titles sit at x = 350 and separators at x = 112.5. */
  lemma TitleCountAndColumns(stage: int)
    ensures |TitlePlan(stage)| == if stage > 11 then 6 else if stage > 3 then 4 else 2
    ensures forall e :: e in TitlePlan(stage) ==> (e.name == "Line" <==> e.x == 112.5) && (e.name != "Line" ==> e.x == 350.0)
  {
  }
}
