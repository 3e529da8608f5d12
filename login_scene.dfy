/**
 * The state of src/LoginScene.ts that its construction steps change: the
 * scene's own child list (titles and separators), the `gui` container and
 * the stage buttons with the stage index each button's listener passes on,
 * and the scene swap of the back button.
 */
module Login {
  import opened Options
  import opened Assets
  import opened Buttons
  import opened Display
  import opened LoginLayout
  import ChildList
  import Resources
  import Stage
  import Welcome

  /** For each attempted stage `0 .. stage`, whether its three `StageSelect` textures load. */
  ghost function StagePresence(rm: Resources.ResourceManager, resolve: Path -> Option<Texture>, stage: int): (r: seq<bool>)
    reads rm
  {
    seq(StageCount(stage), i requires 0 <= i reads rm => Welcome.TexturesPresent(rm, resolve, "StageSelect", StagePrefix(i)))
  }

  /** The three texture paths stage button `i` requests: `stage${i + 1}_0`, `_1`, `_2`. */
  function StagePaths(rm: Resources.ResourceManager, i: nat): (r: seq<Path>)
    reads rm
    ensures |r| == 3
  {
    [rm.GetSpritePath("StageSelect", StagePrefix(i) + "0"),
     rm.GetSpritePath("StageSelect", StagePrefix(i) + "1"),
     rm.GetSpritePath("StageSelect", StagePrefix(i) + "2")]
  }

  /** The paths requested by the stages `0 .. n - 1`, in order: three per stage, built or not. */
  function StagesRequested(rm: Resources.ResourceManager, n: nat): (r: seq<Path>)
    reads rm
    ensures |r| == 3 * n
    decreases n
  {
    if n == 0 then [] else StagesRequested(rm, n - 1) + StagePaths(rm, n - 1)
  }

  /** Stage `i`'s three paths sit at positions `3i`, `3i + 1`, `3i + 2` of the requests of stages `0 .. n - 1`. */
  lemma {:induction false} StagesRequestedAt(rm: Resources.ResourceManager, n: nat, i: nat)
    requires i < n
    ensures 3 * i + 3 <= |StagesRequested(rm, n)|
    ensures StagesRequested(rm, n)[3 * i .. 3 * i + 3] == StagePaths(rm, i)
    decreases n
  {
    var prev := StagesRequested(rm, n - 1);
    if i < n - 1 {
      StagesRequestedAt(rm, n - 1, i);
      assert StagesRequested(rm, n)[3 * i .. 3 * i + 3] == prev[3 * i .. 3 * i + 3];
    } else {
      assert StagesRequested(rm, n)[3 * i .. 3 * i + 3] == StagePaths(rm, n - 1);
    }
  }

  /**
   * The requests of `createStageGUI` for save stage `stage`: three per stage `0 .. stage`, none
   * for a negative stage, and stage `i`'s keys `stage{i+1}_0/1/2` at positions `3i .. 3i + 2`.
   */
  lemma StageRequestsForSave(rm: Resources.ResourceManager, stage: int, i: int)
    ensures |StagesRequested(rm, StageCount(stage))| == if stage < 0 then 0 else 3 * (stage + 1)
    ensures 0 <= i <= stage ==> StagesRequested(rm, StageCount(stage))[3 * i .. 3 * i + 3] == StagePaths(rm, i)
  {
    if 0 <= i <= stage {
      StagesRequestedAt(rm, StageCount(stage), i);
    }
  }

  /** The sprite path of each title or separator of `plan`, in order. */
  function TitlesRequested(rm: Resources.ResourceManager, plan: seq<Placed>): seq<Path>
    reads rm
  {
    seq(|plan|, k requires 0 <= k < |plan| reads rm => rm.GetSpritePath("Title", plan[k].name))
  }

  /**
   * The requests of `createTitle` for save stage `stage`: title 1, title 2 above stage 3, title 3
   * above stage 11, then a separator above stage 3, one above stage 11, and the bottom one.
   */
  lemma TitlesRequestedByStage(rm: Resources.ResourceManager, stage: int)
    ensures TitlesRequested(rm, TitlePlan(stage)) ==
      [rm.GetSpritePath("Title", "1")]
      + (if stage > 3 then [rm.GetSpritePath("Title", "2")] else [])
      + (if stage > 11 then [rm.GetSpritePath("Title", "3")] else [])
      + (if stage > 3 then [rm.GetSpritePath("Title", "Line")] else [])
      + (if stage > 11 then [rm.GetSpritePath("Title", "Line")] else [])
      + [rm.GetSpritePath("Title", "Line")]
    ensures |TitlesRequested(rm, TitlePlan(stage))| == if stage > 11 then 6 else if stage > 3 then 4 else 2
  {
  }

  /** A title or separator sprite as `createTitle` leaves it: shown, at its place, with its `Title` texture. */
  ghost predicate TitleSpritePlaced(s: Sprite, e: Placed, rm: Resources.ResourceManager, resolve: Path -> Option<Texture>)
    reads s, rm
  {
    s.visible && s.x == e.x && s.y == e.y && s.texture == resolve(rm.GetSpritePath("Title", e.name))
  }

  /** A stage button as `createStageGUI` leaves it: unpressed, at `(STAGE_GUI_X[i], STAGE_GUI_Y[i])`, with its textures. */
  ghost predicate StageButtonPlaced(b: Button, i: int, rm: Resources.ResourceManager, resolve: Path -> Option<Texture>)
    reads b, rm
  {
    && 0 <= i < |StageX|
    && b.Valid() && b.View() == Initial
    && b.x == StageX[i] as real && b.y == StageY[i] as real
    && b.normalTexture == resolve(rm.GetSpritePath("StageSelect", StagePrefix(i) + "0"))
    && b.hoverTexture == resolve(rm.GetSpritePath("StageSelect", StagePrefix(i) + "1"))
    && b.pressedTexture == resolve(rm.GetSpritePath("StageSelect", StagePrefix(i) + "2"))
  }

  class LoginScene {
    /** The scene's own child list (a scene is a container). */
    var children: seq<Child>
    var gui: Container
    var stageButtons: seq<Button>
    /** `stageButtons[k]`'s `buttonClicked` listener calls `onStageSelect(stageIndices[k])`. */
    var stageIndices: seq<int>

    /** The constructor: a new, empty `gui`, added to the scene. */
    constructor ()
      ensures fresh(gui) && gui.children == [] && children == [ContainerChild(gui)]
      ensures stageButtons == [] && stageIndices == []
    {
      var g := new Container();
      gui := g;
      children := ChildList.AddChild([], ContainerChild(g));
      stageButtons, stageIndices := [], [];
    }

    /** The children from index `o` on are the sprites of `plan`, in order, each placed as planned. */
    ghost predicate TitlesFrom(o: int, plan: seq<Placed>, rm: Resources.ResourceManager, resolve: Path -> Option<Texture>)
      reads this`children, set k | 0 <= k < |children| && children[k].SpriteChild? :: children[k].sprite, rm
    {
      && 0 <= o && |children| == o + |plan|
      && forall k :: o <= k < |children| ==>
           children[k].SpriteChild? && TitleSpritePlaced(children[k].sprite, plan[k - o], rm, resolve)
    }

    /**
     * `createTitle` for save stage `stage`: the sprites of `TitlePlan(stage)` are added to the
     * scene in that order, each loaded from its `Title` key and placed; since `createSprite`
     * always yields a sprite, none is skipped.
     */
    method CreateTitle(stage: int, rm: Resources.ResourceManager, loader: AssetLoader)
      modifies this`children, loader
      ensures |old(children)| <= |children| && children[..|old(children)|] == old(children)
      ensures TitlesFrom(|old(children)|, TitlePlan(stage), rm, loader.resolve)
      ensures loader.requested == old(loader.requested) + TitlesRequested(rm, TitlePlan(stage))
    {
      ghost var before := children;
      ghost var plan := AddHeadings(stage, rm, loader, before, []);
      assert plan == Headings(stage);
      plan := AddSeparators(stage, rm, loader, before, plan);
      TitlePlanParts(stage);
    }

    /** The first half of `createTitle`: title 1, then title 2 above stage 3, then title 3 above stage 11. */
    method AddHeadings(stage: int, rm: Resources.ResourceManager, loader: AssetLoader,
                       ghost before: seq<Child>, ghost plan: seq<Placed>) returns (ghost plan': seq<Placed>)
      requires TitlesFrom(|before|, plan, rm, loader.resolve) && children[..|before|] == before
      modifies this`children, loader
      ensures plan' == plan + Headings(stage) && TitlesFrom(|before|, plan', rm, loader.resolve)
      ensures children[..|before|] == before
      ensures loader.requested == old(loader.requested) + TitlesRequested(rm, Headings(stage))
    {
      plan' := AddTitleIf(true, Placed("1", TitleX, 30.0), rm, loader, before, plan);
      plan' := AddTitleIf(stage > 3, Placed("2", TitleX, 190.0), rm, loader, before, plan');
      plan' := AddTitleIf(stage > 11, Placed("3", TitleX, 405.0), rm, loader, before, plan');
    }

    /** The second half of `createTitle`: a separator above stage 3, one above stage 11, and the bottom one. */
    method AddSeparators(stage: int, rm: Resources.ResourceManager, loader: AssetLoader,
                         ghost before: seq<Child>, ghost plan: seq<Placed>) returns (ghost plan': seq<Placed>)
      requires TitlesFrom(|before|, plan, rm, loader.resolve) && children[..|before|] == before
      modifies this`children, loader
      ensures plan' == plan + Separators(stage) && TitlesFrom(|before|, plan', rm, loader.resolve)
      ensures children[..|before|] == before
      ensures loader.requested == old(loader.requested) + TitlesRequested(rm, Separators(stage))
    {
      plan' := AddTitleIf(stage > 3, Placed("Line", LineX, 145.0), rm, loader, before, plan);
      plan' := AddTitleIf(stage > 11, Placed("Line", LineX, 350.0), rm, loader, before, plan');
      plan' := AddTitleIf(true, Placed("Line", LineX, 500.0), rm, loader, before, plan');
    }

    /** One gated step of `createTitle`: when `cond` holds, the sprite of `e`, loaded, placed and added to the scene. */
    method AddTitleIf(cond: bool, e: Placed, rm: Resources.ResourceManager, loader: AssetLoader,
                      ghost before: seq<Child>, ghost plan: seq<Placed>) returns (ghost plan': seq<Placed>)
      requires TitlesFrom(|before|, plan, rm, loader.resolve) && children[..|before|] == before
      modifies this`children, loader
      ensures plan' == plan + Gate(cond, e) && TitlesFrom(|before|, plan', rm, loader.resolve)
      ensures children[..|before|] == before
      ensures loader.requested == old(loader.requested) + TitlesRequested(rm, Gate(cond, e))
    {
      plan' := plan;
      if cond {
        var sprite := rm.CreateSprite(loader, "Title", e.name);
        sprite.SetPosition(e.x, e.y);
        assert SpriteChild(sprite) !in children;
        children := ChildList.AddChild(children, SpriteChild(sprite));
        plan' := plan + [e];
      }
    }

    /**
     * The stage buttons from index `o` on are the built stages of `plan`, in order: each is
     * placed for its stage, is on `gui`, and its listener passes its stage index on.
     */
    ghost predicate StageButtonsFrom(o: int, plan: seq<nat>, rm: Resources.ResourceManager, resolve: Path -> Option<Texture>)
      reads this`stageButtons, this`stageIndices, this`gui, gui`children, stageButtons, rm
    {
      && 0 <= o && |stageButtons| == o + |plan| && |stageIndices| == |stageButtons|
      && forall k :: o <= k < |stageButtons| ==>
           && stageIndices[k] == plan[k - o]
           && StageButtonPlaced(stageButtons[k], plan[k - o], rm, resolve)
           && ButtonChild(stageButtons[k]) in gui.children
    }

    /**
     * `createStageGUI` for save stage `stage` (at most 12, the last entry of the position tables):
     * for every `i` in `0 .. stage` the three textures of stage `i + 1` are requested, and a
     * button is built, placed and put on `gui` exactly when all three loaded.
     */
    method CreateStageGUI(stage: int, rm: Resources.ResourceManager, loader: AssetLoader)
      requires stage <= 12 && |stageIndices| == |stageButtons|
      modifies this`stageButtons, this`stageIndices, gui`children, loader
      ensures StageButtonsFrom(|old(stageButtons)|, StagePlan(StagePresence(rm, loader.resolve, stage)), rm, loader.resolve)
      ensures |old(stageButtons)| <= |stageButtons|
      ensures stageButtons[..|old(stageButtons)|] == old(stageButtons) && stageIndices[..|old(stageButtons)|] == old(stageIndices)
      ensures loader.requested == old(loader.requested) + StagesRequested(rm, StageCount(stage))
      ensures gui.children == old(gui.children) + Welcome.ButtonChildren(stageButtons[|old(stageButtons)|..])
    {
      ghost var o := |stageButtons|;
      ghost var present := StagePresence(rm, loader.resolve, stage);
      ghost var plan: seq<nat> := [];
      var i := 0;
      while i <= stage
        invariant 0 <= i <= StageCount(stage)
        invariant plan == StagePlan(present[..i]) && StageButtonsFrom(o, plan, rm, loader.resolve)
        invariant stageButtons[..o] == old(stageButtons) && stageIndices[..o] == old(stageIndices)
        invariant loader.requested == old(loader.requested) + StagesRequested(rm, i)
        invariant gui.children == old(gui.children) + Welcome.ButtonChildren(stageButtons[o..])
      {
        ghost var before := stageButtons;
        ghost var added;
        plan, added := StageRound(i, present, rm, loader, o, plan);
        Welcome.ButtonChildrenSince(old(gui.children), before, added, o);
        i := i + 1;
      }
      assert present[..i] == present;
    }

    /** Round `i` of `createStageGUI`'s loop: it keeps the loop's invariant from `i` to `i + 1`. */
    method StageRound(i: nat, ghost present: seq<bool>, rm: Resources.ResourceManager, loader: AssetLoader,
                      ghost o: int, ghost plan: seq<nat>) returns (ghost plan': seq<nat>, ghost added: seq<Button>)
      requires i < |present| <= |StageX| && forall k :: 0 <= k < |present| ==> present[k] == Welcome.TexturesPresent(rm, loader.resolve, "StageSelect", StagePrefix(k))
      requires plan == StagePlan(present[..i]) && StageButtonsFrom(o, plan, rm, loader.resolve)
      modifies this`stageButtons, this`stageIndices, gui`children, loader
      ensures plan' == StagePlan(present[..i + 1]) && StageButtonsFrom(o, plan', rm, loader.resolve)
      ensures stageButtons == old(stageButtons) + added && |added| <= 1
      ensures stageIndices[..|old(stageButtons)|] == old(stageIndices)
      ensures gui.children == old(gui.children) + Welcome.ButtonChildren(added)
      ensures loader.requested == old(loader.requested) + StagePaths(rm, i)
    {
      var button := CreateStageButton(i, rm, loader);
      StagePlanStep(present, i);
      plan', added := plan, [];
      if button != null {
        assert ButtonChild(button) !in gui.children;
        PushStageButton(button, i, o, plan, rm, loader.resolve);
        plan', added := plan + [i], [button];
      }
    }

    /** Record a built stage button with its listener's argument and put it on `gui`. */
    method PushStageButton(button: Button, i: nat, ghost o: int, ghost plan: seq<nat>,
                           ghost rm: Resources.ResourceManager, ghost resolve: Path -> Option<Texture>)
      requires StageButtonsFrom(o, plan, rm, resolve) && StageButtonPlaced(button, i, rm, resolve)
      requires ButtonChild(button) !in gui.children
      modifies this`stageButtons, this`stageIndices, gui`children
      ensures StageButtonsFrom(o, plan + [i], rm, resolve)
      ensures stageButtons == old(stageButtons) + [button] && stageIndices == old(stageIndices) + [i]
      ensures gui.children == old(gui.children) + [ButtonChild(button)]
    {
      stageButtons := stageButtons + [button];
      stageIndices := stageIndices + [i];
      gui.AddChild(ButtonChild(button));
    }

    /** One round of `createStageGUI`: three texture loads, then a placed button when all three loaded. */
    static method CreateStageButton(i: nat, rm: Resources.ResourceManager, loader: AssetLoader) returns (button: Button?)
      requires i < |StageX|
      modifies loader
      ensures (button != null) == Welcome.TexturesPresent(rm, loader.resolve, "StageSelect", StagePrefix(i))
      ensures button != null ==> fresh(button) && StageButtonPlaced(button, i, rm, loader.resolve)
      ensures loader.requested == old(loader.requested) + StagePaths(rm, i)
    {
      var normalTexture := rm.CreateTexture(loader, "StageSelect", StagePrefix(i) + "0");
      var hoverTexture := rm.CreateTexture(loader, "StageSelect", StagePrefix(i) + "1");
      var pressedTexture := rm.CreateTexture(loader, "StageSelect", StagePrefix(i) + "2");
      button := null;
      if normalTexture.Some? && hoverTexture.Some? && pressedTexture.Some? {
        button := new Button(normalTexture, hoverTexture, pressedTexture);
        button.SetPosition(StageX[i] as real, StageY[i] as real);
      }
    }

    /** `onBackButtonClick`: a new welcome scene becomes the game's scene through `setScene`. */
    method OnBackButtonClick(game: Stage.Game) returns (welcome: Welcome.WelcomeScene)
      requires game.Valid()
      modifies game
      ensures fresh(welcome) && welcome.cgPages == [] && welcome.buttons == [] && welcome.cgPage == 0
      ensures game.Valid() && game.currentScene == welcome
      ensures game.stageChildren == Stage.SwapScene(old(game.stageChildren), old(game.Current()), welcome)
    {
      welcome := new Welcome.WelcomeScene();
      game.SetScene(welcome);
    }
  }
}
