# paralines-web core, modelled in Dafny

This project models the state and table logic under the PixiJS front end
of paralines-web:

- the three-sprite `Button` and its four pointer handlers (`src/Button.ts`);
- the two-sprite `CustomCursor` with its lazily created instance
  (`src/CustomCursor.ts`);
- the `type -> name -> path` table of `ResourceManager`: how `loadXML` fills
  it, how the paths are looked up, and which path `createTexture`,
  `createSprite` and `createSound` ask for (`src/ResourceManager.ts`);
- the scene swap of `Game.setScene` on the stage's child list (`src/Game.ts`);
- from `WelcomeScene`: the menu buttons, the CG gallery's pages and grid,
  the page turn, and the handlers that show and hide the board, the CG show
  container and the black backdrop (`src/WelcomeScene.ts`);
- from `LoginScene`: the gating and placement of the title and separator
  sprites, the stage buttons built for a save stage, and the back button's
  scene swap (`src/LoginScene.ts`).

Each source class whose methods change fields is a Dafny `class` with those
fields. Its methods carry `modifies` clauses, with field-level frames such
as `modifies this`cgPage`.

Each loop of the source is a `while` loop. The loops that create buttons and
pages have their body in a "round" method, whose contract is the loop
invariant at `i` and at `i + 1`. The other loops are written inline: the
nested loops of `LoadInformation`, and the `forEach` loops of
`UpdateCGPageVisibility` and `ShowCG`. What a creation loop builds is stated
against a pure function of the inputs:

- `MenuBuilt` for the menu;
- `PagesEnd` and `PageSize` for the gallery;
- `StagePlan` for the stage buttons;
- `TitlePlan` for the titles.

Each of these functions has its own lemmas: the skip rules, the page sizes,
the id coverage and the gating thresholds.

Pixi's display objects are reduced to what the core changes:

- a `Sprite` has a texture, a `visible` flag, a position and children;
- a `Container` has a `visible` flag, an `eventMode` and an ordered child list.

`addChild` and `removeChild` follow Pixi. `removeChild` splices out the
first occurrence of the child. `addChild` first detaches the child if it is
already there, then appends it.

Asset loading is an `AssetLoader` object:

- Its constant `resolve` says what each path loads to. `None` stands for a
  falsy result.
- It keeps a log `requested` of every path asked for. The contracts of the
  cursor, of `ResourceManager`, of `LoginScene` and of the methods that
  create one button state exactly which loads they make, and in what order.

The XML manifest is taken as already parsed into `Manifest`: the sprite
groups, then the sound groups, each with an optional `type` and entries
with an optional `name` and optional text.

The save stage that `LoginScene` reads through
`Game.getInstance().getSaveData().stage` is an `int` parameter. Neither
method exists in `src/Game.ts`.

## Model

| member | source | states |
|---|---|---|
| Buttons.Button.constructor | src/Button.ts:9-30 | A new button has only its normal sprite visible (hover and pressed hidden), keeps the three textures it was given, and has handled no events. |
| Buttons.Button.OnPointerOver | src/Button.ts:32-37 | The flags become `PointerOver` of the old flags (hover alone unless pressed is shown); the event is logged and the position is unchanged. |
| Buttons.Button.OnPointerOut | src/Button.ts:39-43 | The flags become `PointerOut` of the old ones (normal only); the position is unchanged. |
| Buttons.Button.OnPointerDown | src/Button.ts:45-48 | The flags become `PointerDown` of the old ones (hover hidden, pressed shown, normal kept); the position is unchanged. |
| Buttons.Button.OnPointerUp | src/Button.ts:50-55 | The flags become `PointerUp` of the old ones (pressed traded for hover when shown, else unchanged); the position is unchanged. |
| Buttons.Button.SetPosition | src/Button.ts:61-63 | Only the position changes; no visibility flag changes. |
| Buttons.StepKeepsInv | src/Button.ts:32-55 | Every handler keeps "hover and pressed not both shown, and some sprite shown". |
| Buttons.RunKeepsInv | src/Button.ts:32-55 | Any sequence of handler calls keeps that invariant. |
| Buttons.HoverPressedExclusive | src/Button.ts:32-55 | From a new button, after any event sequence, hover and pressed are never both visible. |
| Buttons.SomeSpriteVisible | src/Button.ts:32-55 | From a new button, after any event sequence, at least one sprite is visible. |
| Buttons.ReachableIffInv | src/Button.ts:9-55 | A flag combination is reachable from a new button exactly when it satisfies the invariant (5 of the 8 combinations). |
| Buttons.PressShowsTwoSprites | src/Button.ts:45-55 | Pressing a new button shows normal and pressed together; releasing then shows normal and hover together. |
| Buttons.PointerOutRestores | src/Button.ts:39-43 | pointerout restores the initial flags from every state and is idempotent. |
| Buttons.PointerOverEffect | src/Button.ts:32-37 | pointerover is a no-op while pressed is shown and otherwise yields hover alone. |
| Buttons.PointerUpEffect | src/Button.ts:50-55 | pointerup is a no-op unless pressed is shown; then pressed is hidden, hover shown, normal kept. |
| Buttons.PointerDownEffect | src/Button.ts:45-48 | pointerdown hides hover, shows pressed, keeps normal; from a new button normal and pressed both show. |
| Cursor.CustomCursor.constructor | src/CustomCursor.ts:10-18 | Two distinct new sprites, both children in order; the default one is current and visible, the button one hidden. |
| Cursor.CustomCursor.LoadTextures | src/CustomCursor.ts:28-35 | Requests the `Cursor`/`Pointer` then `Cursor`/`Button` paths; each sprite's texture is replaced only when its load gave a texture, otherwise kept; visibility and the current sprite are unchanged. |
| Cursor.CustomCursor.UpdatePosition | src/CustomCursor.ts:37-39 | Only the position changes (the frame excludes the current sprite and the visibility flags). |
| Cursor.CustomCursor.SetDefaultCursor | src/CustomCursor.ts:41-45 | The default sprite becomes current and the only visible one, from either state; textures unchanged. |
| Cursor.CustomCursor.SetButtonCursor | src/CustomCursor.ts:47-51 | The button sprite becomes current and the only visible one, from either state; textures unchanged. |
| Cursor.CursorSingleton.constructor | src/CustomCursor.ts:5 | No instance exists yet. |
| Cursor.CursorSingleton.GetInstance | src/CustomCursor.ts:20-26 | The first call constructs one cursor, requests its two textures and gives each sprite what its path loaded to; every later call returns the same instance and requests nothing; at most one construction ever. |
| Cursor.GetInstanceTwice | src/CustomCursor.ts:20-26 | Two calls return the same new cursor, holding the loaded cursor textures, and request the two cursor textures only once. |
| Resources.ResourceManager.constructor | src/ResourceManager.ts:11 | The table starts empty. |
| Resources.ResourceManager.LoadInformation | src/ResourceManager.ts:19-28 | One loop of `loadXML`: the table becomes `LoadGroups` of the old table, each group resetting its type to `{}` and filling it entry by entry. |
| Resources.ResourceManager.LoadXML | src/ResourceManager.ts:13-41 | The table becomes `Load` of the old table: sprite groups first, then sound groups. |
| Resources.ResourceManager.GetSpritePath | src/ResourceManager.ts:43-45 | The stored path when the type's dictionary has the name, `""` for a missing type or name; after `loadXML` this is the path of `Resources.LookupAfterLoad`. |
| Resources.ResourceManager.GetSoundPath | src/ResourceManager.ts:47-49 | The same read of the same table as `getSpritePath`. |
| Resources.ResourceManager.CreateTexture | src/ResourceManager.ts:62-65 | Requests exactly `getSpritePath(type, name)` and returns what it loads to. |
| Resources.ResourceManager.CreateSprite | src/ResourceManager.ts:51-55 | Requests exactly `getSpritePath(type, name)` and returns a new visible sprite at the origin with that texture. |
| Resources.ResourceManager.CreateSound | src/ResourceManager.ts:57-60 | The sound is made from exactly `getSoundPath(type, name)`. |
| Resources.FillEntriesAt | src/ResourceManager.ts:23-27 | A dictionary filled from entries maps a listed name to the path of its last entry, and leaves unlisted names as they were. |
| Resources.LoadGroupsAt | src/ResourceManager.ts:19-28 | After loading groups, a listed type holds exactly the dictionary of its last group; an unlisted type is as before. |
| Resources.LoadIsSequential | src/ResourceManager.ts:18-40 | The sound loop runs after the sprite loop, as one sequence of groups. |
| Resources.GroupTypeMapsToItsEntries | src/ResourceManager.ts:18-40 | Each listed type maps to exactly the names of its last group, none other, each to the path of its last entry with that name. |
| Resources.LookupAfterLoad | src/ResourceManager.ts:43-49 | After `loadXML`, `getSpritePath`/`getSoundPath` give the last entry's path, `""` when the type's last group lacks the name, and the earlier answer for an unlisted type. |
| Resources.UnlistedTypesKept | src/ResourceManager.ts:13-41 | A type the manifest does not name keeps its dictionary, so successive loads merge at type granularity. |
| Resources.SoundGroupReplacesEarlierGroups | src/ResourceManager.ts:22-34 | A sound group reusing a sprite group's type discards the sprite entries: the type holds the sound group's entries only. |
| Resources.LoadGroupsOverrides | src/ResourceManager.ts:19-40 | Loading over a table equals the table overridden by what the groups alone build. |
| Resources.LoadIdempotent | src/ResourceManager.ts:13-41 | Loading the same manifest twice equals loading it once. |
| Resources.MissingAttributesReadEmpty | src/ResourceManager.ts:20-37 | In any manifest, a group without `type` whose entry without `name` is the last of both kinds makes `getSpritePath("", "")` give that entry's text, or `""` when it has none. |
| Resources.MissingTextReadsEmpty | src/ResourceManager.ts:25-26 | In any manifest, a name whose last entry in its type's last group has no text reads back as `""`. |
| ChildList.RemoveChildContents | src/Game.ts:24 | `removeChild` takes away one occurrence of the child when there is one, and nothing otherwise. |
| ChildList.RemoveChildNoDuplicates | src/Game.ts:24 | On a duplicate-free list, `removeChild(x)` keeps it duplicate-free and removes exactly `x`. |
| ChildList.AddChildNoDuplicates | src/Game.ts:27 | `addChild(x)` keeps a list duplicate-free, puts `x` last, and keeps the other members. |
| ChildList.AddChildKeeps | src/WelcomeScene.ts:97 | `addChild` never loses a child already on the list. |
| Stage.Game.constructor | src/Game.ts:6 | No current scene and an empty stage. |
| Stage.Game.SetScene | src/Game.ts:22-28 | `currentScene` becomes the scene; the stage becomes `SwapScene` of the old one (previous scene removed if any, new scene added last); the stage stays duplicate-free with only the current scene on it. |
| Stage.SwapSceneMembers | src/Game.ts:22-28 | After the swap the new scene is last, and the children are exactly the new scene and the old children other than the previous scene. |
| Stage.SwapSceneKeepsOthers | src/Game.ts:22-28 | Children other than the old and the new scene stay, in their order. |
| Stage.SwapSceneFromNone | src/Game.ts:23-27 | With no current scene, the swap only appends. |
| Stage.SwapKeepsScenesOnStage | src/Game.ts:22-28 | If only the current scene was on the stage, afterwards only the new scene is. |
| Stage.SetScenesKeepsOneScene | src/Game.ts:22-28 | After any sequence of `setScene` calls the only scene on the stage is the current one, the last one set. |
| WelcomeLayout.PageRange | src/WelcomeScene.ts:245-251 | Page `i` holds the ids `PagesEnd(i) .. PagesEnd(i + 1) - 1`, and its `j`-th id is `PagesEnd(i) + j`. |
| WelcomeLayout.IdsOfPagesConsecutive | src/WelcomeScene.ts:239-251 | The ids of the first `n` pages are `0 .. PagesEnd(n) - 1`, in order. |
| WelcomeLayout.PageGuard | src/WelcomeScene.ts:245 | The inner loop guard `j < 12 && i * 12 + j < 19` holds exactly below the page size. |
| WelcomeLayout.CgIdDivMod | src/WelcomeScene.ts:246-251 | A button's id gives back its page (`id div 12`) and position (`id mod 12`). |
| WelcomeLayout.PageSizes | src/WelcomeScene.ts:237-245 | The two pages hold 12 and 7 buttons, `min(12, 19 - 12i)`. |
| WelcomeLayout.GalleryIdsCoverAll | src/WelcomeScene.ts:237-251 | The gallery ids are 0 .. 18, each once, in order. |
| WelcomeLayout.GridCellsDisjointInsideBoard | src/WelcomeScene.ts:246-249 | Two different buttons' 122 × 92 cells do not overlap, and each lies inside the 548 × 383 board. |
| WelcomeLayout.GridRowMajor | src/WelcomeScene.ts:246-249 | The next button is 132 to the right, or starts the next row 97 lower at x = 15. |
| WelcomeLayout.NextPageEffect | src/WelcomeScene.ts:308-314 | A page turn moves by exactly the direction when the target is a page index, and else not at all; it never leaves the page range. |
| WelcomeLayout.TurnPagesInRange | src/WelcomeScene.ts:308-314 | From a page in range, any sequence of turns stays in range. |
| WelcomeLayout.MenuBuiltSkipRule | src/WelcomeScene.ts:87-101 | An entry gets a menu button exactly when its three textures are present; nothing else is built. |
| WelcomeLayout.MenuBuiltUniform | src/WelcomeScene.ts:87-101 | With every texture present the whole table is built in order; with none, nothing. |
| WelcomeLayout.MenuOrder | src/WelcomeScene.ts:80-85 | The menu is Start, CG, Settings, Exit at y = 320 + 45k. |
| Welcome.WelcomeScene.constructor | src/WelcomeScene.ts:10-28 | Empty lists, page 0, no board, show container or backdrop, and a new background container. |
| Welcome.WelcomeScene.ShowCGBoard | src/WelcomeScene.ts:294-299 | With a board: board shown and background `eventMode` `'none'`; without: nothing changes. |
| Welcome.WelcomeScene.CloseCGBoard | src/WelcomeScene.ts:301-306 | With a board: board hidden and background `eventMode` `'auto'`; without: nothing changes. |
| Welcome.WelcomeScene.UpdateCGPageVisibility | src/WelcomeScene.ts:316-320 | Exactly the page at index `cgPage` is visible. |
| Welcome.WelcomeScene.ChangeCGPage | src/WelcomeScene.ts:308-314 | `cgPage` becomes `NextPage(cgPage, direction)`; on a valid turn only the new page is visible, otherwise no page changes. |
| Welcome.WelcomeScene.ShowCG | src/WelcomeScene.ts:322-346 | With board, show container and backdrop all present: backdrop and container shown, board hidden, only the sprite child at index `id` visible, non-sprite children untouched; otherwise no CG, board, container or backdrop visibility changes; `eventMode` `'none'` in every case. |
| Welcome.WelcomeScene.CloseCGShow | src/WelcomeScene.ts:375-386 | Show container and backdrop hidden, board shown (each when present), `eventMode` `'auto'`. |
| Welcome.WelcomeScene.OnButtonClick | src/WelcomeScene.ts:348-366 | `'CG'` opens the board; any other name changes nothing. |
| Welcome.WelcomeScene.CreateButtons | src/WelcomeScene.ts:79-102 | The new buttons are `MenuBuilt` of the four entries: each at (50, y), unpressed, holding its `{name}0/1/2` textures as loaded, on the background, passing its name to `onButtonClick`; earlier buttons kept; the background's children are its old ones followed by the new buttons, in order. |
| Welcome.WelcomeScene.CreateMenu | src/WelcomeScene.ts:87-101 | The loop over a table of entries builds exactly `MenuBuilt(entries, present)`, in order, each button holding its entry's three textures, and appends exactly those buttons to the background's children. |
| Welcome.WelcomeScene.MenuRound | src/WelcomeScene.ts:88-100 | One loop pass extends the built prefix by the entry exactly when its textures are present, appending at most that one button to the background. |
| Welcome.WelcomeScene.PushMenuButton | src/WelcomeScene.ts:95-97 | The button and its name are appended, and the button, not yet there, is appended to the background's children. |
| Welcome.WelcomeScene.CreateMenuButton | src/WelcomeScene.ts:88-94 | Requests `{name}0/1/2` from `GUI`; returns a button exactly when all three loaded, at (50, y), with the `0`, `1` and `2` textures as its normal, hover and pressed sprites. |
| Welcome.WelcomeScene.CreateCGButtons | src/WelcomeScene.ts:234-263 | Two pages appended, only the first visible, both on the board; button `k` carries CG id `k` with its `btn{k}` textures at its grid cell; page `q` holds exactly the ids `PagesEnd(q) ..`; earlier lists kept; the board's children are its old ones followed by the new pages, in order. |
| Welcome.WelcomeScene.CGPageRound | src/WelcomeScene.ts:240-261 | One pass of the outer loop adds one page and its buttons, keeping the gallery invariant, and appends that page to the board's children. |
| Welcome.WelcomeScene.NewPage | src/WelcomeScene.ts:240-243 | A new empty container, visible only for page 0, appended to the board's children and to `cgPages`. |
| Welcome.WelcomeScene.PageButtons | src/WelcomeScene.ts:245-261 | The page's buttons are appended to `cgButtons` beside their ids, and the page holds exactly them. |
| Welcome.WelcomeScene.AddPage | src/WelcomeScene.ts:242-243 | A page not yet on the board is appended to its children and to `cgPages`; the scene invariant is kept. |
| Welcome.WelcomeScene.FillPage | src/WelcomeScene.ts:245-261 | The inner loop makes `PageSize(i)` buttons, each placed for its id, and the page's children are exactly those buttons. |
| Welcome.WelcomeScene.FillRound | src/WelcomeScene.ts:246-260 | One pass of the inner loop appends the button for id `i * 12 + j` on its grid cell. |
| Welcome.WelcomeScene.PutOnPage | src/WelcomeScene.ts:260 | A button not yet on the page is appended to its children. |
| Welcome.WelcomeScene.CreateCGButton | src/WelcomeScene.ts:251-257 | Requests `btn{id}0/1/2` from `CG` and places the new button at the given cell. |
| LoginLayout.StageTables | src/LoginScene.ts:10-11 | Both position tables have 13 entries; rows at y = 95, 250, 310 and 455. |
| LoginLayout.StagePlanSkipRule | src/LoginScene.ts:92-106 | A stage is built exactly when its textures are present; built stages keep increasing order; no more are built than attempted. |
| LoginLayout.StagePlanAllPresent | src/LoginScene.ts:92-106 | With every texture present, all attempted stages are built, in order. |
| LoginLayout.TitlePlanParts | src/LoginScene.ts:43-88 | The title plan is the three gated headings followed by the three gated separators. |
| LoginLayout.TitleGating | src/LoginScene.ts:44-87 | Title 1 and the bottom line always; title 2 and the first line exactly when stage > 3; title 3 and the second line exactly when stage > 11. |
| LoginLayout.TitleCountAndColumns | src/LoginScene.ts:46-85 | 2, 4 or 6 sprites; titles at x = 350, separators at x = 112.5. |
| Login.StagesRequested | src/LoginScene.ts:92-95 | Three requested paths per attempted stage, built or not. |
| Login.StagesRequestedAt | src/LoginScene.ts:92-95 | Stage `i`'s `stage{i+1}_0/1/2` paths sit at positions `3i .. 3i + 2` of the log. |
| Login.StageRequestsForSave | src/LoginScene.ts:92-95 | For save stage `stage` the log holds `3 (stage + 1)` paths, none when negative, with stage `i`'s three at `3i` for every `i` in `0 .. stage`. |
| Login.TitlesRequestedByStage | src/LoginScene.ts:43-88 | `createTitle` requests title 1, title 2 when stage > 3, title 3 when stage > 11, then the gated separators and the bottom one: 2, 4 or 6 `Title` paths. |
| Login.LoginScene.constructor | src/LoginScene.ts:16-20 | A new empty `gui` is the scene's only child; no stage buttons. |
| Login.LoginScene.CreateTitle | src/LoginScene.ts:43-88 | The scene's new children are the sprites of `TitlePlan(stage)`, each with its `Title` texture at its place; exactly their paths are requested; the old children are kept. |
| Login.LoginScene.AddHeadings | src/LoginScene.ts:44-64 | The first three gated steps add exactly `Headings(stage)`. |
| Login.LoginScene.AddSeparators | src/LoginScene.ts:66-87 | The last three gated steps add exactly `Separators(stage)`. |
| Login.LoginScene.AddTitleIf | src/LoginScene.ts:50-56 | A gated step adds its placed sprite exactly when its condition holds, and requests only then. |
| Login.LoginScene.CreateStageGUI | src/LoginScene.ts:90-107 | Requests `stage{i+1}_0/1/2` for every `i` in `0 .. stage`; the new buttons are `StagePlan` of the presence flags, each at `(STAGE_GUI_X[i], STAGE_GUI_Y[i])` on `gui` with listener argument `i`; earlier buttons kept; `gui`'s children are its old ones followed by the new buttons, in order. |
| Login.LoginScene.StageRound | src/LoginScene.ts:93-105 | One loop pass requests the stage's three paths and extends the plan exactly when they all loaded, appending at most that one button to `gui`. |
| Login.LoginScene.PushStageButton | src/LoginScene.ts:100-102 | The button and its index are appended, and the button, not yet there, is appended to `gui`'s children. |
| Login.LoginScene.CreateStageButton | src/LoginScene.ts:93-99 | Requests the three `StageSelect` keys; returns a placed button exactly when all three loaded. |
| Login.LoginScene.OnBackButtonClick | src/LoginScene.ts:132-135 | A new, empty welcome scene becomes the game's current scene through `setScene`. |

## Left out

- XML parsing with `DOMParser` and the `Assets.load` of the manifest file (src/ResourceManager.ts:14-16): the manifest is an already parsed `Manifest` value.
- Rendering, and Pixi objects beyond child lists, visibility, position, texture and `eventMode`.
- Audio: `createBGM`, the autoplay check and its one-shot click listener, and `createAudioPrompt`. `createSound` is kept only as the path it is made from.
- The particle emitter and `update(deltaTime)`: floating-point animation with no state of the core.
- Async interleaving of the `await` chains: each creation step runs sequentially, in source order.
- `createBackground` and `createLogo` of `WelcomeScene`, and `createBackground` and `createBackButton` of `LoginScene`: fixed sprite additions with no logic.
- `createCGBoard` and `createCGShowImages` build the board, the close button, the `TextButton` pager, the backdrop and the CG sprites. They are not modelled: the handlers take whatever board, show container and backdrop the scene holds, possibly none. As written, `createCGBoard` makes one show container that is never added to the scene, and `createCGShowImages` then replaces it. The centring of each CG sprite on its measured size is left out with them.
- `createSceneElements`, `init` and `setCurrentSet`: plumbing, or calls into code that is not part of this model.
- `TextButton` (a `Button` plus a label), `DialogueSystem`, `Scene` and `index.ts`.
- Button activation: `Button` never emits `'buttonClicked'`, so the stage buttons' and back button's listeners are never called by it. `stageIndices` records the argument each stage button's listener would pass, and `buttonNames` and `cgButtonIds` do the same for the menu and gallery buttons. `onStageSelect` only logs.
- `Game.getInstance` and `getSaveData` are not in `src/Game.ts`: the save stage is a parameter. `Scene`'s constructor takes the game, but the scenes call `super()` without one; `OnBackButtonClick` takes the game explicitly.
- Login.LoginScene.CreateStageGUI: requires `stage <= 12`, because `STAGE_GUI_X` and `STAGE_GUI_Y` have 13 entries and for a larger stage `position.set(undefined, undefined)` leaves its buttons at Pixi's default position (0, 0).
- Login.LoginScene.CreateTitle: `createSprite` always returns a sprite object, so the `if (title…)` checks always pass and are not modelled as branches.
- Welcome.WelcomeScene.CreateCGButtons: the loader log is not stated. The model also appends each page's buttons to `cgButtons` after the page is filled, where the source pushes them one by one; the final lists are the same.
- Welcome.WelcomeScene.CreateButtons: the loader log of the three texture requests per entry is stated per round (`CreateMenuButton`) but not for the whole loop.
- Login.LoginScene.OnBackButtonClick: returns the new scene, so that its contract can name it; the source discards it.
- Resources.ResourceManager.LoadXML, Resources.ResourceManager.LoadInformation and Resources.LookupAfterLoad: model each dictionary as a `map`, so a type or name that is a property of JavaScript's `Object.prototype` (`"constructor"`, `"toString"`, `"__proto__"`) is treated like any other string; in the source, `this.paths[type]` and `dictionary[name]` read or assign that inherited property instead.
- Loads never fail: `resolve` gives a texture or `None` for every path. In the source a rejected `Assets.load` throws, ends the `await` chain of the operation that made it, and leaves every later step of that chain undone. Welcome.WelcomeScene.CreateCGButtons, Welcome.WelcomeScene.CreateButtons, Login.LoginScene.CreateStageGUI, Login.LoginScene.CreateTitle and Cursor.CustomCursor.LoadTextures are stated only for loads that resolve.
- Welcome.WelcomeScene.CreateCGButton, Welcome.WelcomeScene.CreateCGButtons and Buttons.Button.constructor: a `btn{id}` texture that loads to nothing gives a button sprite with no texture. In the source the `Button` constructor passes it to `Sprite.from` (src/Button.ts:12-14), which throws, so `createCGButtons` stops at that id and every later page and button of the gallery stays unbuilt.
- Resources.ResourceManager.CreateSprite: a path that resolves to nothing gives a sprite with no texture. The source passes the empty load result to `new Sprite(texture)`, and what Pixi does with it (an empty texture, or an error) is not captured.
## Notes on the code

- A button can show two sprites at once: `onPointerDown` shows the pressed sprite but leaves the normal one shown (src/Button.ts:45-48). `Buttons.PressShowsTwoSprites` gives the two-sprite states, and `Buttons.ReachableIffInv` characterises the five reachable ones.
- `Game.setScene` does not reset the cursor when it swaps scenes, and a scene whose creation steps are still pending when it is swapped out goes on adding sprites to its own container, which is no longer on the stage; nothing of it reaches the stage (src/Game.ts:22-28).
