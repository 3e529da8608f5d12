/**
 * The state of src/WelcomeScene.ts that its handlers change: the CG
 * gallery (board, pages, current page), the CG viewer (black backdrop and
 * show container), the background's `eventMode`, and the buttons built by
 * `createButtons` and `createCGBoard` together with the argument each
 * button's `pointerup` listener passes on.
 */
module Welcome {
  import opened Options
  import opened Assets
  import opened Buttons
  import opened Display
  import opened WelcomeLayout
  import ChildList
  import Numerals
  import Resources

  /** No sprite appears twice among `cs`. */
  ghost predicate SpritesDistinct(cs: seq<Child>)
  {
    forall a, b :: 0 <= a < b < |cs| && cs[a].SpriteChild? && cs[b].SpriteChild? ==> cs[a].sprite != cs[b].sprite
  }

  /** The three textures `prefix0`, `prefix1`, `prefix2` of `kind` all load. */
  ghost predicate TexturesPresent(rm: Resources.ResourceManager, resolve: Path -> Option<Texture>, kind: string, prefix: string)
    reads rm
  {
    && resolve(rm.GetSpritePath(kind, prefix + "0")).Some?
    && resolve(rm.GetSpritePath(kind, prefix + "1")).Some?
    && resolve(rm.GetSpritePath(kind, prefix + "2")).Some?
  }

  /** For each menu entry, whether its three GUI textures load. */
  ghost function Presence(rm: Resources.ResourceManager, resolve: Path -> Option<Texture>, entries: seq<MenuEntry>): (r: seq<bool>)
    reads rm
  {
    seq(|entries|, k requires 0 <= k < |entries| reads rm => TexturesPresent(rm, resolve, "GUI", entries[k].name))
  }

  /** For each main-menu entry, whether its textures load. */
  ghost function MenuPresence(rm: Resources.ResourceManager, resolve: Path -> Option<Texture>): (r: seq<bool>)
    reads rm
    ensures |r| == |MenuEntries|
  {
    Presence(rm, resolve, MenuEntries)
  }

  /** The key of a gallery button texture: `btn${id}${state}`. */
  function CgButtonKey(id: nat, state: string): string
  {
    "btn" + Numerals.NatToString(id) + state
  }

  /** A gallery button for CG `id`: unpressed, on its grid cell, with the textures `btn{id}0/1/2` as loaded. */
  ghost predicate CgButtonPlaced(b: Button, id: int, rm: Resources.ResourceManager, resolve: Path -> Option<Texture>)
    reads b, rm
  {
    && 0 <= id
    && b.Valid() && b.View() == Initial
    && b.x == GridX(id % PerPage) as real && b.y == GridY(id % PerPage) as real
    && b.normalTexture == resolve(rm.GetSpritePath("CG", CgButtonKey(id, "0")))
    && b.hoverTexture == resolve(rm.GetSpritePath("CG", CgButtonKey(id, "1")))
    && b.pressedTexture == resolve(rm.GetSpritePath("CG", CgButtonKey(id, "2")))
  }

  /** A menu button for `data`: unpressed, at (50, y), with the textures `{name}0/1/2` as loaded. */
  ghost predicate MenuButtonPlaced(b: Button, data: MenuEntry, rm: Resources.ResourceManager, resolve: Path -> Option<Texture>)
    reads b, rm
  {
    && b.Valid() && b.View() == Initial
    && b.x == MenuX as real && b.y == data.y as real
    && b.normalTexture == resolve(rm.GetSpritePath("GUI", data.name + "0"))
    && b.hoverTexture == resolve(rm.GetSpritePath("GUI", data.name + "1"))
    && b.pressedTexture == resolve(rm.GetSpritePath("GUI", data.name + "2"))
  }

  /** The child list of a container holding exactly the buttons `bs`, in order. */
  function ButtonChildren(bs: seq<Button>): seq<Child>
  {
    seq(|bs|, j requires 0 <= j < |bs| => ButtonChild(bs[j]))
  }

  /** The children the buttons of `a` and then those of `b` make, in order. */
  lemma ButtonChildrenConcat(a: seq<Button>, b: seq<Button>)
    ensures ButtonChildren(a + b) == ButtonChildren(a) + ButtonChildren(b)
  {
  }

  /** A loop that appends the children of the buttons it adds keeps the children of all buttons added since `o`. */
  lemma ButtonChildrenSince(c: seq<Child>, bs: seq<Button>, added: seq<Button>, o: int)
    requires 0 <= o <= |bs|
    ensures c + ButtonChildren(bs[o..]) + ButtonChildren(added) == c + ButtonChildren((bs + added)[o..])
  {
    assert (bs + added)[o..] == bs[o..] + added;
    ButtonChildrenConcat(bs[o..], added);
  }

  /** The child list of the pages `ps`, in order. */
  function PageChildren(ps: seq<Container>): seq<Child>
  {
    seq(|ps|, k requires 0 <= k < |ps| => ContainerChild(ps[k]))
  }

  /** A loop that appends each page it adds keeps the children of all pages added since `o`. */
  lemma PageChildrenSince(c: seq<Child>, ps: seq<Container>, p: Container, o: int)
    requires 0 <= o <= |ps|
    ensures c + PageChildren(ps[o..]) + [ContainerChild(p)] == c + PageChildren((ps + [p])[o..])
  {
    assert (ps + [p])[o..] == ps[o..] + [p];
  }

  /** Adding a button that is not yet there appends it: Pixi's re-parenting removes nothing. */
  lemma ButtonChildrenAppend(bs: seq<Button>, b: Button)
    requires b !in bs
    ensures ChildList.AddChild(ButtonChildren(bs), ButtonChild(b)) == ButtonChildren(bs + [b])
  {
    assert ButtonChild(b) !in ButtonChildren(bs);
  }

  /** The buttons `bs` are the first buttons of page `i`, each placed for its id `i * 12 + j`. */
  ghost predicate PagePlaced(bs: seq<Button>, i: nat, rm: Resources.ResourceManager, resolve: Path -> Option<Texture>)
    reads bs, rm
  {
    forall j :: 0 <= j < |bs| ==> CgButtonPlaced(bs[j], CgId(i, j), rm, resolve)
  }

  /**
   * The gallery buttons from index `b0` on: the `k`-th carries CG id `k - b0` in `ids` and is placed
   * for that id.
   */
  ghost predicate ButtonsPlaced(buttons: seq<Button>, ids: seq<int>, b0: int, rm: Resources.ResourceManager, resolve: Path -> Option<Texture>)
    reads buttons, rm
  {
    && 0 <= b0 <= |buttons| == |ids|
    && forall k :: b0 <= k < |buttons| ==> ids[k] == k - b0 && CgButtonPlaced(buttons[k], k - b0, rm, resolve)
  }

  /** The `k`-th page from `p0`, for `k < n`, with `|pages| <= p0 + n` cut off. */
  ghost function PagesBetween(pages: seq<Container>, p0: int, n: nat): set<Container>
  {
    set k | 0 <= k < |pages| && p0 <= k < p0 + n :: pages[k]
  }

  /** Page `p0 + q`, for `q < n`, holds exactly the buttons `b0 + PagesEnd(q) .. b0 + PagesEnd(q + 1) - 1`. */
  ghost predicate PagesHold(pages: seq<Container>, buttons: seq<Button>, p0: int, b0: int, n: nat)
    reads PagesBetween(pages, p0, n)`children
  {
    && 0 <= p0 && p0 + n <= |pages|
    && 0 <= b0 && b0 + PagesEnd(n) <= |buttons|
    && forall q :: 0 <= q < n ==> pages[p0 + q].children == ButtonChildren(buttons[b0 + PagesEnd(q) .. b0 + PagesEnd(q + 1)])
  }

  /** The buttons of page `i` carry the next ids and keep the earlier buttons placed. */
  lemma ButtonsPlacedStep(before: seq<Button>, ids: seq<int>, bs: seq<Button>, b0: int, i: nat,
                          rm: Resources.ResourceManager, resolve: Path -> Option<Texture>)
    requires ButtonsPlaced(before, ids, b0, rm, resolve) && |before| == b0 + PagesEnd(i)
    requires |bs| == PageSize(i) && PagePlaced(bs, i, rm, resolve)
    ensures ButtonsPlaced(before + bs, ids + PageIds(i, |bs|), b0, rm, resolve)
  {
    PageRange(i, 0);
    forall k | b0 <= k < |before| + |bs|
      ensures (ids + PageIds(i, |bs|))[k] == k - b0 && CgButtonPlaced((before + bs)[k], k - b0, rm, resolve)
    {
      if k < |before| {
        assert (before + bs)[k] == before[k] && (ids + PageIds(i, |bs|))[k] == ids[k];
      } else {
        var j := k - |before|;
        PageRange(i, j);
        assert (before + bs)[k] == bs[j] && (ids + PageIds(i, |bs|))[k] == CgId(i, j);
      }
    }
  }

  /** Page `p0 + i` holding `bs` extends the pages that hold their buttons by one. */
  lemma PagesHoldStep(pages: seq<Container>, before: seq<Button>, bs: seq<Button>, p0: int, b0: int, i: nat)
    requires PagesHold(pages, before, p0, b0, i) && |before| == b0 + PagesEnd(i) && p0 + i < |pages|
    requires |bs| == PageSize(i) && pages[p0 + i].children == ButtonChildren(bs)
    ensures PagesHold(pages, before + bs, p0, b0, i + 1)
  {
    PageRange(i, 0);
    forall q | 0 <= q < i + 1
      ensures pages[p0 + q].children == ButtonChildren((before + bs)[b0 + PagesEnd(q) .. b0 + PagesEnd(q + 1)])
    {
      if q < i {
        PageRange(q, 0);
        assert (before + bs)[b0 + PagesEnd(q) .. b0 + PagesEnd(q + 1)] == before[b0 + PagesEnd(q) .. b0 + PagesEnd(q + 1)];
      } else {
        assert (before + bs)[b0 + PagesEnd(q) .. b0 + PagesEnd(q + 1)] == bs;
      }
    }
  }

  /** A page's next button, placed for the next id, extends the placed prefix. */
  lemma PagePlacedAppend(bs: seq<Button>, b: Button, i: nat, rm: Resources.ResourceManager, resolve: Path -> Option<Texture>)
    requires PagePlaced(bs, i, rm, resolve) && CgButtonPlaced(b, CgId(i, |bs|), rm, resolve)
    ensures PagePlaced(bs + [b], i, rm, resolve)
  {
    forall j | 0 <= j < |bs| + 1
      ensures CgButtonPlaced((bs + [b])[j], CgId(i, j), rm, resolve)
    {
      if j < |bs| {
        assert (bs + [b])[j] == bs[j];
      }
    }
  }

  class WelcomeScene {
    /** The scene's own child list (a scene is a container). */
    var children: seq<Child>
    var backgroundContainer: Container
    var buttons: seq<Button>
    /** `buttons[k]`'s pointerup calls `onButtonClick(buttonNames[k])`. */
    var buttonNames: seq<string>
    var cgBoard: Container?
    var cgShowContainer: Container?
    var cgBlackBackground: Sprite?
    var cgButtons: seq<Button>
    /** `cgButtons[k]`'s pointerup calls `showCG(cgButtonIds[k])`. */
    var cgButtonIds: seq<int>
    var cgPages: seq<Container>
    var cgPage: int

    ghost function PageSet(): set<Container>
      reads this`cgPages
    {
      set k | 0 <= k < |cgPages| :: cgPages[k]
    }

    /** The gallery board, the show container and the black backdrop, as frames (empty when absent). */
    ghost function Board(): set<Container>
      reads this`cgBoard
    {
      if cgBoard == null then {} else {cgBoard}
    }

    ghost function Show(): set<Container>
      reads this`cgShowContainer
    {
      if cgShowContainer == null then {} else {cgShowContainer}
    }

    ghost function Black(): set<Sprite>
      reads this`cgBlackBackground
    {
      if cgBlackBackground == null then {} else {cgBlackBackground}
    }

    /** The sprites among the show container's children: the CG images. */
    ghost function ShowSprites(): set<Sprite>
      reads this`cgShowContainer, Show()`children
    {
      if cgShowContainer == null then {}
      else set k | 0 <= k < |cgShowContainer.children| && cgShowContainer.children[k].SpriteChild? :: cgShowContainer.children[k].sprite
    }

    /**
     * The scene invariant: the current page index is in range once there is a page, the
     * containers the handlers flip are distinct objects, and no CG image is shown twice.
     */
    ghost predicate Valid()
      reads this`cgPage, this`cgPages, this`cgBoard, this`cgShowContainer, this`cgBlackBackground, this`backgroundContainer
      reads Show()`children
    {
      && 0 <= cgPage && (cgPages == [] ==> cgPage == 0) && (cgPages != [] ==> cgPage < |cgPages|)
      && ChildList.NoDuplicates(cgPages)
      && (cgBoard != null ==> cgBoard !in PageSet() && cgBoard != cgShowContainer)
      && (cgShowContainer != null ==> cgShowContainer !in PageSet() && cgShowContainer != backgroundContainer)
      && (cgShowContainer != null ==> SpritesDistinct(cgShowContainer.children))
      && (cgBlackBackground != null ==> cgBlackBackground !in ShowSprites())
    }

    /** Each button list runs parallel to the list of arguments its buttons' listeners pass on. */
    ghost predicate Parallel()
      reads this`buttons, this`buttonNames, this`cgButtons, this`cgButtonIds
    {
      |buttons| == |buttonNames| && |cgButtons| == |cgButtonIds|
    }

    constructor ()
      ensures Valid() && Parallel() && fresh(backgroundContainer)
      ensures children == [] && buttons == [] && buttonNames == [] && cgButtons == [] && cgButtonIds == [] && cgPages == []
      ensures cgBoard == null && cgShowContainer == null && cgBlackBackground == null
      ensures cgPage == 0
    {
      children := [];
      backgroundContainer := new Container();
      buttons, buttonNames := [], [];
      cgBoard, cgShowContainer, cgBlackBackground := null, null, null;
      cgButtons, cgButtonIds, cgPages := [], [], [];
      cgPage := 0;
    }

    /** `showCGBoard`: with a board, show it and stop the background taking pointer events. */
    method ShowCGBoard()
      requires Valid()
      modifies Board()`visible, backgroundContainer`eventMode
      ensures Valid()
      ensures cgBoard != null ==> cgBoard.visible && backgroundContainer.eventMode == NoEvents
      ensures cgBoard == null ==> backgroundContainer.eventMode == old(backgroundContainer.eventMode)
    {
      if cgBoard != null {
        cgBoard.visible := true;
        backgroundContainer.eventMode := NoEvents;
      }
    }

    /** `closeCGBoard`: with a board, hide it and let the background take pointer events again. */
    method CloseCGBoard()
      requires Valid()
      modifies Board()`visible, backgroundContainer`eventMode
      ensures Valid()
      ensures cgBoard != null ==> !cgBoard.visible && backgroundContainer.eventMode == Auto
      ensures cgBoard == null ==> backgroundContainer.eventMode == old(backgroundContainer.eventMode)
    {
      if cgBoard != null {
        cgBoard.visible := false;
        backgroundContainer.eventMode := Auto;
      }
    }

    /** `updateCGPageVisibility`: exactly the page at index `cgPage` is shown. */
    method UpdateCGPageVisibility()
      requires ChildList.NoDuplicates(cgPages)
      modifies PageSet()`visible
      ensures forall k :: 0 <= k < |cgPages| ==> cgPages[k].visible == (k == cgPage)
    {
      var k := 0;
      while k < |cgPages|
        invariant 0 <= k <= |cgPages|
        invariant forall q :: 0 <= q < k ==> cgPages[q].visible == (q == cgPage)
      {
        cgPages[k].visible := k == cgPage;
        k := k + 1;
      }
    }

    /**
     * `changeCGPage(direction)`: turn to `cgPage + direction` when that is a page index, and then
     * show exactly that page; otherwise change nothing.
     */
    method ChangeCGPage(direction: int)
      requires Valid()
      modifies this`cgPage, PageSet()`visible
      ensures Valid()
      ensures cgPage == NextPage(old(cgPage), direction, |cgPages|)
      ensures 0 <= old(cgPage) + direction < |cgPages| ==>
        forall k :: 0 <= k < |cgPages| ==> cgPages[k].visible == (k == cgPage)
      ensures !(0 <= old(cgPage) + direction < |cgPages|) ==>
        forall k :: 0 <= k < |cgPages| ==> cgPages[k].visible == old(cgPages[k].visible)
    {
      var newPage := cgPage + direction;
      if 0 <= newPage < |cgPages| {
        cgPage := newPage;
        UpdateCGPageVisibility();
      }
    }

    /**
     * `showCG(id)`: with board, show container and backdrop all present, show the backdrop and
     * the show container, hide the board, and among the show container's sprites show only the
     * one at child index `id` (the close button is not a sprite and is left alone). In every
     * case the background stops taking pointer events.
     */
    method ShowCG(id: int)
      requires Valid()
      modifies Black()`visible, Show()`visible, Board()`visible, backgroundContainer`eventMode
      modifies ShowSprites()`visible
      ensures Valid()
      ensures backgroundContainer.eventMode == NoEvents
      ensures cgShowContainer != null && cgBoard != null && cgBlackBackground != null ==>
        && cgBlackBackground.visible && cgShowContainer.visible && !cgBoard.visible
        && forall k :: 0 <= k < |cgShowContainer.children| && cgShowContainer.children[k].SpriteChild? ==>
             cgShowContainer.children[k].sprite.visible == (k == id)
      ensures !(cgShowContainer != null && cgBoard != null && cgBlackBackground != null) ==>
        && (forall s :: s in ShowSprites() ==> s.visible == old(s.visible))
        && (cgBlackBackground != null ==> cgBlackBackground.visible == old(cgBlackBackground.visible))
        && (cgShowContainer != null ==> cgShowContainer.visible == old(cgShowContainer.visible))
        && (cgBoard != null ==> cgBoard.visible == old(cgBoard.visible))
    {
      if cgShowContainer != null && cgBoard != null && cgBlackBackground != null {
        cgBlackBackground.visible := true;
        cgShowContainer.visible := true;
        cgBoard.visible := false;
        var shown := cgShowContainer.children;
        var k := 0;
        while k < |shown|
          invariant 0 <= k <= |shown|
          invariant forall q :: 0 <= q < k && shown[q].SpriteChild? ==> shown[q].sprite.visible == (q == id)
          invariant cgBlackBackground.visible && cgShowContainer.visible && !cgBoard.visible
        {
          if shown[k].SpriteChild? {
            shown[k].sprite.visible := k == id;
          }
          k := k + 1;
        }
      }
      backgroundContainer.eventMode := NoEvents;
    }

    /** `closeCGShow`: hide the show container and the backdrop, show the board, re-enable the background. */
    method CloseCGShow()
      requires Valid()
      modifies Black()`visible, Show()`visible, Board()`visible, backgroundContainer`eventMode
      ensures cgShowContainer != null ==> !cgShowContainer.visible
      ensures cgBlackBackground != null ==> !cgBlackBackground.visible
      ensures Valid()
      ensures cgBoard != null ==> cgBoard.visible
      ensures backgroundContainer.eventMode == Auto
    {
      if cgShowContainer != null {
        cgShowContainer.visible := false;
      }
      if cgBoard != null {
        cgBoard.visible := true;
      }
      if cgBlackBackground != null {
        cgBlackBackground.visible := false;
      }
      backgroundContainer.eventMode := Auto;
    }

    /** `onButtonClick(name)`: 'CG' opens the gallery board; every other name only logs. */
    method OnButtonClick(name: string)
      requires Valid()
      modifies Board()`visible, backgroundContainer`eventMode
      ensures Valid()
      ensures name == "CG" && cgBoard != null ==> cgBoard.visible && backgroundContainer.eventMode == NoEvents
      ensures name != "CG" || cgBoard == null ==>
        backgroundContainer.eventMode == old(backgroundContainer.eventMode) && (cgBoard != null ==> cgBoard.visible == old(cgBoard.visible))
    {
      if name == "CG" {
        ShowCGBoard();
      }
    }
  
    /**
     * The buttons from index `o` on are the menu buttons of `plan`, in order: each shows its
     * normal sprite, sits at (50, y), holds its entry's three textures, passes its entry's name
     * to `onButtonClick` and is on the background.
     */
    ghost predicate MenuButtonsFrom(o: int, plan: seq<MenuEntry>, rm: Resources.ResourceManager, resolve: Path -> Option<Texture>)
      reads this`buttons, this`buttonNames, this`backgroundContainer, backgroundContainer`children, buttons, rm
    {
      && 0 <= o && |buttons| == o + |plan| && |buttonNames| == |buttons|
      && forall k :: o <= k < |buttons| ==>
           && buttonNames[k] == plan[k - o].name
           && MenuButtonPlaced(buttons[k], plan[k - o], rm, resolve)
           && ButtonChild(buttons[k]) in backgroundContainer.children
    }

    /**
     * `createButtons`: for Start, CG, Settings and Exit in turn, load the three GUI textures and
     * build a button at (50, y) only when all three loaded; a skipped entry does not stop the rest.
     */
    method CreateButtons(rm: Resources.ResourceManager, loader: AssetLoader)
      requires Valid() && Parallel()
      modifies this`buttons, this`buttonNames, backgroundContainer`children, loader
      ensures Valid()
      ensures MenuButtonsFrom(|old(buttons)|, MenuBuilt(MenuEntries, MenuPresence(rm, loader.resolve)), rm, loader.resolve)
      ensures |old(buttons)| <= |buttons| && buttons[..|old(buttons)|] == old(buttons) && buttonNames[..|old(buttons)|] == old(buttonNames)
      ensures backgroundContainer.children == old(backgroundContainer.children) + ButtonChildren(buttons[|old(buttons)|..])
      ensures forall k :: |old(buttons)| <= k < |buttons| ==> fresh(buttons[k])
    {
      CreateMenu(MenuEntries, rm, loader);
    }

    /** The loop of `createButtons` over its table of entries. */
    method CreateMenu(entries: seq<MenuEntry>, rm: Resources.ResourceManager, loader: AssetLoader)
      requires Valid() && Parallel()
      modifies this`buttons, this`buttonNames, backgroundContainer`children, loader
      ensures Valid()
      ensures MenuButtonsFrom(|old(buttons)|, MenuBuilt(entries, Presence(rm, loader.resolve, entries)), rm, loader.resolve)
      ensures |old(buttons)| <= |buttons| && buttons[..|old(buttons)|] == old(buttons) && buttonNames[..|old(buttons)|] == old(buttonNames)
      ensures backgroundContainer.children == old(backgroundContainer.children) + ButtonChildren(buttons[|old(buttons)|..])
      ensures forall k :: |old(buttons)| <= k < |buttons| ==> fresh(buttons[k])
    {
      ghost var o := |buttons|;
      ghost var present := Presence(rm, loader.resolve, entries);
      ghost var plan: seq<MenuEntry> := [];
      var i := 0;
      while i < |entries|
        invariant 0 <= i <= |entries|
        invariant plan == MenuBuilt(entries[..i], present[..i])
        invariant MenuButtonsFrom(o, plan, rm, loader.resolve)
        invariant buttons[..o] == old(buttons) && buttonNames[..o] == old(buttonNames)
        invariant forall k :: o <= k < |buttons| ==> fresh(buttons[k])
        invariant backgroundContainer.children == old(backgroundContainer.children) + ButtonChildren(buttons[o..])
      {
        ghost var before := buttons;
        ghost var added;
        plan, added := MenuRound(entries, i, present, rm, loader, o, plan);
        ButtonChildrenSince(old(backgroundContainer.children), before, added, o);
        i := i + 1;
      }
      assert entries[..i] == entries && present[..i] == present;
    }

    /** Round `i` of the loop of `createButtons`: it keeps the loop's invariant from `i` to `i + 1`. */
    method MenuRound(entries: seq<MenuEntry>, i: int, ghost present: seq<bool>, rm: Resources.ResourceManager, loader: AssetLoader,
                     ghost o: int, ghost plan: seq<MenuEntry>) returns (ghost plan': seq<MenuEntry>, ghost added: seq<Button>)
      requires 0 <= i < |entries| && present == Presence(rm, loader.resolve, entries)
      requires plan == MenuBuilt(entries[..i], present[..i]) && MenuButtonsFrom(o, plan, rm, loader.resolve)
      modifies this`buttons, this`buttonNames, backgroundContainer`children, loader
      ensures plan' == MenuBuilt(entries[..i + 1], present[..i + 1]) && MenuButtonsFrom(o, plan', rm, loader.resolve)
      ensures buttons == old(buttons) + added && |added| <= 1 && buttonNames[..|old(buttons)|] == old(buttonNames)
      ensures forall k :: |old(buttons)| <= k < |buttons| ==> fresh(buttons[k])
      ensures backgroundContainer.children == old(backgroundContainer.children) + ButtonChildren(added)
    {
      var data := entries[i];
      var button := CreateMenuButton(data, rm, loader);
      MenuBuiltStep(entries, present, i);
      plan', added := plan, [];
      if button != null {
        assert ButtonChild(button) !in backgroundContainer.children;
        PushMenuButton(button, data, o, plan, rm, loader.resolve);
        plan', added := plan + [data], [button];
      }
    }

    /** Record a built menu button with its click argument and put it on the background. */
    method PushMenuButton(button: Button, data: MenuEntry, ghost o: int, ghost plan: seq<MenuEntry>,
                          ghost rm: Resources.ResourceManager, ghost resolve: Path -> Option<Texture>)
      requires MenuButtonsFrom(o, plan, rm, resolve) && MenuButtonPlaced(button, data, rm, resolve)
      requires ButtonChild(button) !in backgroundContainer.children
      modifies this`buttons, this`buttonNames, backgroundContainer`children
      ensures MenuButtonsFrom(o, plan + [data], rm, resolve)
      ensures buttons == old(buttons) + [button] && buttonNames == old(buttonNames) + [data.name]
      ensures backgroundContainer.children == old(backgroundContainer.children) + [ButtonChild(button)]
    {
      buttons := buttons + [button];
      buttonNames := buttonNames + [data.name];
      backgroundContainer.AddChild(ButtonChild(button));
    }

    /** One round of `createButtons`: three texture loads, then a positioned button when all three loaded. */
    static method CreateMenuButton(data: MenuEntry, rm: Resources.ResourceManager, loader: AssetLoader) returns (button: Button?)
      modifies loader
      ensures (button != null) == TexturesPresent(rm, loader.resolve, "GUI", data.name)
      ensures button != null ==> fresh(button) && MenuButtonPlaced(button, data, rm, loader.resolve)
      ensures loader.requested == old(loader.requested)
        + [rm.GetSpritePath("GUI", data.name + "0"), rm.GetSpritePath("GUI", data.name + "1"), rm.GetSpritePath("GUI", data.name + "2")]
    {
      var normalTexture := rm.CreateTexture(loader, "GUI", data.name + "0");
      var hoverTexture := rm.CreateTexture(loader, "GUI", data.name + "1");
      var pressedTexture := rm.CreateTexture(loader, "GUI", data.name + "2");
      button := null;
      if normalTexture.Some? && hoverTexture.Some? && pressedTexture.Some? {
        button := new Button(normalTexture, hoverTexture, pressedTexture);
        button.SetPosition(MenuX as real, data.y as real);
      }
    }
  
    /**
     * The gallery pages from index `p0` on: only the first is visible, and each is a child of
     * the board image.
     */
    ghost predicate PagesFrom(p0: int, board: Sprite)
      reads this`cgPages, PageSet()`visible, board`children
    {
      && 0 <= p0 <= |cgPages|
      && forall q :: p0 <= q < |cgPages| ==> cgPages[q].visible == (q == p0) && ContainerChild(cgPages[q]) in board.children
    }

    /**
     * The gallery built from page index `p0` and button index `b0` on, `n` pages so far: the
     * `k`-th button carries CG id `k` and sits on that id's grid cell with that id's textures,
     * and page `q` holds exactly the buttons of the ids `PagesEnd(q) .. PagesEnd(q + 1) - 1`.
     */
    ghost predicate GalleryFrom(p0: int, b0: int, n: nat, rm: Resources.ResourceManager, resolve: Path -> Option<Texture>)
      reads this`cgPages, this`cgButtons, this`cgButtonIds, PageSet()`children, cgButtons, rm
    {
      && p0 + n <= |cgPages| && |cgButtons| == b0 + PagesEnd(n)
      && ButtonsPlaced(cgButtons, cgButtonIds, b0, rm, resolve)
      && PagesHold(cgPages, cgButtons, p0, b0, n)
    }

    /**
     * `createCGButtons(board)`: two pages, the first visible, each put on the board; on page `i`
     * the buttons `j < 12` with `i * 12 + j < 19`, for CG `i * 12 + j`, at column `j % 4` and
     * row `j / 4` of the grid.
     */
    method CreateCGButtons(board: Sprite, rm: Resources.ResourceManager, loader: AssetLoader)
      requires Valid() && Parallel()
      modifies this`cgPages, this`cgButtons, this`cgButtonIds, board`children, loader
      ensures Valid() && PagesFrom(|old(cgPages)|, board) && cgPages[..|old(cgPages)|] == old(cgPages)
      ensures GalleryFrom(|old(cgPages)|, |old(cgButtons)|, PageCount, rm, loader.resolve) && |cgPages| == |old(cgPages)| + PageCount
      ensures cgButtons[..|old(cgButtons)|] == old(cgButtons) && cgButtonIds[..|old(cgButtons)|] == old(cgButtonIds)
      ensures board.children == old(board.children) + PageChildren(cgPages[|old(cgPages)|..])
    {
      ghost var p0, b0 := |cgPages|, |cgButtons|;
      var i := 0;
      while i < PageCount
        invariant 0 <= i <= PageCount
        invariant Valid() && PagesFrom(p0, board) && GalleryFrom(p0, b0, i, rm, loader.resolve) && |cgPages| == p0 + i
        invariant cgPages[..p0] == old(cgPages)
        invariant cgButtons[..b0] == old(cgButtons) && cgButtonIds[..b0] == old(cgButtonIds)
        invariant board.children == old(board.children) + PageChildren(cgPages[p0..])
      {
        ghost var before := cgPages;
        CGPageRound(i, board, rm, loader, p0, b0);
        PageChildrenSince(old(board.children), before, cgPages[|cgPages| - 1], p0);
        i := i + 1;
      }
    }

    /** Round `i` of `createCGButtons`' outer loop: a new page, shown only when `i` is 0, filled with its buttons. */
    method CGPageRound(i: nat, board: Sprite, rm: Resources.ResourceManager, loader: AssetLoader, ghost p0: int, ghost b0: int)
      requires Valid() && PagesFrom(p0, board) && GalleryFrom(p0, b0, i, rm, loader.resolve) && |cgPages| == p0 + i
      modifies this`cgPages, this`cgButtons, this`cgButtonIds, board`children, loader
      ensures Valid() && PagesFrom(p0, board) && GalleryFrom(p0, b0, i + 1, rm, loader.resolve)
      ensures cgPages == old(cgPages) + [cgPages[|cgPages| - 1]]
      ensures board.children == old(board.children) + [ContainerChild(cgPages[|cgPages| - 1])]
      ensures cgButtons[..|old(cgButtons)|] == old(cgButtons) && cgButtonIds[..|old(cgButtons)|] == old(cgButtonIds)
    {
      var page := NewPage(i, board, p0, b0, rm, loader.resolve);
      PageButtons(page, i, rm, loader, p0, b0);
    }

    /** The page of round `i`: a new container, visible only when `i` is 0, put on the board and at the end of `cgPages`. */
    method NewPage(i: nat, board: Sprite, ghost p0: int, ghost b0: int, ghost rm: Resources.ResourceManager, ghost resolve: Path -> Option<Texture>)
      returns (page: Container)
      requires Valid() && PagesFrom(p0, board) && GalleryFrom(p0, b0, i, rm, resolve) && |cgPages| == p0 + i
      modifies this`cgPages, board`children
      ensures fresh(page) && page.children == [] && page !in Show()
      ensures Valid() && PagesFrom(p0, board) && cgPages == old(cgPages) + [page]
      ensures board.children == old(board.children) + [ContainerChild(page)]
      ensures GalleryFrom(p0, b0, i, rm, resolve)
    {
      page := new Container();
      page.visible := i == 0;
      assert ContainerChild(page) !in board.children;
      AddPage(page, board, p0);
    }

    /** The inner loop of round `i` on its page, with each button recorded in `cgButtons` beside its CG id. */
    method PageButtons(page: Container, i: nat, rm: Resources.ResourceManager, loader: AssetLoader, ghost p0: int, ghost b0: int)
      requires GalleryFrom(p0, b0, i, rm, loader.resolve) && |cgPages| == p0 + i + 1 && cgPages[p0 + i] == page
      requires ChildList.NoDuplicates(cgPages) && page.children == []
      modifies page`children, this`cgButtons, this`cgButtonIds, loader
      ensures GalleryFrom(p0, b0, i + 1, rm, loader.resolve)
      ensures cgButtons[..|old(cgButtons)|] == old(cgButtons) && cgButtonIds[..|old(cgButtons)|] == old(cgButtonIds)
    {
      var bs := FillPage(page, i, rm, loader);
      ghost var before := cgButtons;
      cgButtons := cgButtons + bs;
      cgButtonIds := cgButtonIds + PageIds(i, |bs|);
      ButtonsPlacedStep(before, old(cgButtonIds), bs, b0, i, rm, loader.resolve);
      PagesHoldStep(cgPages, before, bs, p0, b0, i);
    }

    /** The new page goes on the board and at the end of `cgPages`. */
    method AddPage(page: Container, board: Sprite, ghost p0: int)
      requires Valid() && PagesFrom(p0, board) && page.visible == (|cgPages| == p0)
      requires page !in cgPages && page != cgBoard && page != cgShowContainer
      requires ContainerChild(page) !in board.children
      modifies this`cgPages, board`children
      ensures Valid() && PagesFrom(p0, board) && cgPages == old(cgPages) + [page]
      ensures board.children == old(board.children) + [ContainerChild(page)]
    {
      board.AddChild(ContainerChild(page));
      assert ChildList.NoDuplicates(cgPages + [page]);
      cgPages := cgPages + [page];
    }

    /**
     * The inner loop of `createCGButtons` on the page just made: the buttons for CG `i * 12 + j`
     * while `j < 12 && i * 12 + j < 19`, each placed and put on the page.
     */
    static method FillPage(page: Container, i: nat, rm: Resources.ResourceManager, loader: AssetLoader) returns (bs: seq<Button>)
      requires page.children == []
      modifies page`children, loader
      ensures |bs| == PageSize(i) && page.children == ButtonChildren(bs)
      ensures PagePlaced(bs, i, rm, loader.resolve)
    {
      bs := [];
      var j := 0;
      PageGuard(i, j);
      while j < PerPage && CgId(i, j) < CgCount
        invariant 0 <= j <= PageSize(i) && |bs| == j && page.children == ButtonChildren(bs)
        invariant PagePlaced(bs, i, rm, loader.resolve)
      {
        bs := FillRound(page, i, j, bs, rm, loader);
        j := j + 1;
        PageGuard(i, j);
      }
    }

    /** One pass of the inner loop: the button for CG `i * 12 + j`, placed on its cell and put on the page. */
    static method FillRound(page: Container, i: nat, j: nat, bs: seq<Button>, rm: Resources.ResourceManager, loader: AssetLoader)
      returns (bs': seq<Button>)
      requires j < PerPage && |bs| == j && page.children == ButtonChildren(bs) && PagePlaced(bs, i, rm, loader.resolve)
      modifies page`children, loader
      ensures |bs'| == j + 1 && bs'[..j] == bs && page.children == ButtonChildren(bs') && PagePlaced(bs', i, rm, loader.resolve)
    {
      var id := CgId(i, j);
      CgIdDivMod(i, j);
      var button := CreateCGButton(id, GridX(j) as real, GridY(j) as real, rm, loader);
      PagePlacedAppend(bs, button, i, rm, loader.resolve);
      bs' := bs + [button];
      PutOnPage(page, bs, button);
    }

    /** `page.addChild(button.getContainer())` for a button not yet on the page: it is appended. */
    static method PutOnPage(page: Container, ghost bs: seq<Button>, button: Button)
      requires page.children == ButtonChildren(bs) && button !in bs
      modifies page`children
      ensures page.children == ButtonChildren(bs + [button])
    {
      ButtonChildrenAppend(bs, button);
      page.AddChild(ButtonChild(button));
    }

    /** The button of CG `id`: its three `btn{id}` textures loaded, then placed at (x, y). */
    static method CreateCGButton(id: nat, x: real, y: real, rm: Resources.ResourceManager, loader: AssetLoader) returns (button: Button)
      requires x == GridX(id % PerPage) as real && y == GridY(id % PerPage) as real
      modifies loader
      ensures fresh(button) && CgButtonPlaced(button, id, rm, loader.resolve)
      ensures loader.requested == old(loader.requested)
        + [rm.GetSpritePath("CG", CgButtonKey(id, "0")), rm.GetSpritePath("CG", CgButtonKey(id, "1")), rm.GetSpritePath("CG", CgButtonKey(id, "2"))]
    {
      var normalTexture := rm.CreateTexture(loader, "CG", CgButtonKey(id, "0"));
      var hoverTexture := rm.CreateTexture(loader, "CG", CgButtonKey(id, "1"));
      var pressedTexture := rm.CreateTexture(loader, "CG", CgButtonKey(id, "2"));
      button := new Button(normalTexture, hoverTexture, pressedTexture);
      button.SetPosition(x, y);
    }
  }
}
