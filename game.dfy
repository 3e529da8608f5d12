/**
 * The scene host of src/Game.ts: `currentScene` and the stage's child list,
 * changed by `setScene` (remove the current scene, if any, then add the
 * new one).  The stage's other children are whatever else was attached.
 */
module Stage {
  import opened Options
  import opened ChildList

  /** What `setScene(scene)` does to the stage's child list. */
  function SwapScene<T(==)>(children: seq<T>, current: Option<T>, scene: T): seq<T>
  {
    var kept := if current.Some? then RemoveChild(children, current.value) else children;
    AddChild(kept, scene)
  }

  /** `s` without the elements of `drop`, order kept. */
  function Without<T(==)>(s: seq<T>, drop: set<T>): seq<T>
    decreases |s|
  {
    if s == [] then []
    else (if s[0] in drop then [] else [s[0]]) + Without(s[1..], drop)
  }

  lemma {:induction false} WithoutConcat<T>(a: seq<T>, b: seq<T>, drop: set<T>)
    ensures Without(a + b, drop) == Without(a, drop) + Without(b, drop)
    decreases |a|
  {
    if a == [] {
      assert a + b == b;
    } else {
      assert (a + b)[0] == a[0];
      assert (a + b)[1..] == a[1..] + b;
      WithoutConcat(a[1..], b, drop);
    }
  }

  /** Removing a dropped element does not change what is left after dropping. */
  lemma RemoveChildWithout<T>(s: seq<T>, x: T, drop: set<T>)
    requires x in drop
    ensures Without(RemoveChild(s, x), drop) == Without(s, drop)
  {
    if x in s {
      var i := IndexOf(s, x);
      assert s == s[..i] + ([x] + s[i + 1..]);
      WithoutConcat(s[..i], [x] + s[i + 1..], drop);
      WithoutConcat([x], s[i + 1..], drop);
      WithoutConcat(s[..i], s[i + 1..], drop);
    }
  }

  /**
   * `setScene(scene)` keeps the stage free of duplicates, puts `scene` last, and takes off only the
   * previous scene (unless it is `scene` itself).
   */
  lemma SwapSceneMembers<T>(children: seq<T>, current: Option<T>, scene: T)
    requires NoDuplicates(children)
    ensures var r := SwapScene(children, current, scene);
      && NoDuplicates(r)
      && r[|r| - 1] == scene
      && (forall y :: y in r <==> y == scene || (y in children && current != Some(y)))
  {
    var kept := if current.Some? then RemoveChild(children, current.value) else children;
    if current.Some? {
      RemoveChildNoDuplicates(children, current.value);
    }
    AddChildNoDuplicates(kept, scene);
  }

  /** One child's membership after `setScene(scene)`. */
  lemma SwapSceneMember<T>(children: seq<T>, current: Option<T>, scene: T, y: T)
    requires NoDuplicates(children)
    ensures y in SwapScene(children, current, scene) <==> y == scene || (y in children && current != Some(y))
  {
    SwapSceneMembers(children, current, scene);
  }

  /** `setScene(scene)` leaves every child other than `scene` and the previous scene where it was, in its order. */
  lemma SwapSceneKeepsOthers<T>(children: seq<T>, current: Option<T>, scene: T)
    ensures var drop := {scene} + (if current.Some? then {current.value} else {});
      Without(SwapScene(children, current, scene), drop) == Without(children, drop)
  {
    var drop := {scene} + (if current.Some? then {current.value} else {});
    var kept := if current.Some? then RemoveChild(children, current.value) else children;
    if current.Some? {
      RemoveChildWithout(children, current.value, drop);
    }
    RemoveChildWithout(kept, scene, drop);
    WithoutConcat(RemoveChild(kept, scene), [scene], drop);
  }

  /** With no current scene, `setScene` only appends (a scene not yet on the stage). */
  lemma SwapSceneFromNone<T>(children: seq<T>, scene: T)
    requires scene !in children
    ensures SwapScene(children, None, scene) == children + [scene]
  {
  }

  /** On the stage, the only child that is a scene is the current one, and it is there. */
  ghost predicate ScenesOnStage<T>(children: seq<T>, current: Option<T>, scenes: set<T>)
  {
    && (forall k :: 0 <= k < |children| && children[k] in scenes ==> current == Some(children[k]))
    && (current.Some? ==> current.value in children && current.value in scenes)
  }

  /** The stage and current scene after `setScene(ss[0])`, …, `setScene(ss[|ss|-1])`. */
  function SetScenes<T(==)>(children: seq<T>, current: Option<T>, ss: seq<T>): (seq<T>, Option<T>)
    decreases |ss|
  {
    if ss == [] then (children, current) else SetScenes(SwapScene(children, current, ss[0]), Some(ss[0]), ss[1..])
  }

  lemma SwapKeepsScenesOnStage<T>(children: seq<T>, current: Option<T>, scenes: set<T>, scene: T)
    requires NoDuplicates(children) && ScenesOnStage(children, current, scenes)
    ensures ScenesOnStage(SwapScene(children, current, scene), Some(scene), scenes + {scene})
  {
    var r := SwapScene(children, current, scene);
    SwapSceneMember(children, current, scene, scene);
    forall k | 0 <= k < |r|
      ensures r[k] in scenes + {scene} ==> r[k] == scene
    {
      var y := r[k];
      SwapSceneMember(children, current, scene, y);
      if y != scene {
        var q :| 0 <= q < |children| && children[q] == y;
      }
    }
  }

  /**
   * When scenes reach the stage only through `setScene`, after any sequence of calls the
   * stage holds exactly one scene, the last one set, which is current.
   */
  lemma {:induction false} SetScenesKeepsOneScene<T>(children: seq<T>, current: Option<T>, scenes: set<T>, ss: seq<T>)
    requires NoDuplicates(children) && ScenesOnStage(children, current, scenes)
    requires forall k :: 0 <= k < |ss| ==> ss[k] in scenes
    ensures NoDuplicates(SetScenes(children, current, ss).0)
    ensures ScenesOnStage(SetScenes(children, current, ss).0, SetScenes(children, current, ss).1, scenes)
    ensures ss != [] ==> SetScenes(children, current, ss).1 == Some(ss[|ss| - 1])
    decreases |ss|
  {
    if ss != [] {
      var next := SwapScene(children, current, ss[0]);
      SwapSceneMembers(children, current, ss[0]);
      SwapKeepsScenesOnStage(children, current, scenes, ss[0]);
      assert scenes + {ss[0]} == scenes;
      SetScenesKeepsOneScene(next, Some(ss[0]), scenes, ss[1..]);
      if |ss| > 1 {
        assert ss[1..][|ss[1..]| - 1] == ss[|ss| - 1];
      }
    }
  }

  class Game {
    var currentScene: object?
    var stageChildren: seq<object>
    /** Every scene ever passed to `setScene`. */
    ghost var scenes: set<object>

    function Current(): Option<object>
      reads this
    {
      if currentScene == null then None else Some(currentScene)
    }

    ghost predicate Valid()
      reads this
    {
      NoDuplicates(stageChildren) && ScenesOnStage(stageChildren, Current(), scenes)
    }

    constructor ()
      ensures Valid() && currentScene == null && stageChildren == [] && scenes == {}
    {
      currentScene := null;
      stageChildren := [];
      scenes := {};
    }

    method SetScene(scene: object)
      requires Valid()
      modifies this
      ensures Valid()
      ensures currentScene == scene
      ensures stageChildren == SwapScene(old(stageChildren), old(Current()), scene)
      ensures scenes == old(scenes) + {scene}
    {
      ghost var before, previous := stageChildren, Current();
      SwapKeepsScenesOnStage(before, previous, scenes, scene);
      SwapSceneMembers(before, previous, scene);
      var previousScene := currentScene;
      if previousScene != null {
        stageChildren := RemoveChild<object>(stageChildren, previousScene);
      }
      currentScene := scene;
      stageChildren := AddChild<object>(stageChildren, scene);
      assert stageChildren == SwapScene(before, previous, scene);
      scenes := scenes + {scene};
    }
  }
}
