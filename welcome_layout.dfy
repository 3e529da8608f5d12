/**
 * The arithmetic of src/WelcomeScene.ts: the CG gallery's pages and grid,
 * the page-turn rule, and the main-menu table with its skip rule.
 */
module WelcomeLayout {

  /** Number of CG images (`cgCount`). */
  const CgCount: nat := 19
  /** Gallery pages built by `createCGButtons` (`for i < 2`). */
  const PageCount: nat := 2
  /** Buttons per page (`j < 12`) and per row (`j % 4`). */
  const PerPage: nat := 12
  const Columns: nat := 4
  /** A gallery button's cell: 122 × 92 with gaps of 10 and 5 (`10 + 122`, `5 + 92`). */
  const CellWidth: int := 122
  const CellHeight: int := 92
  /** The gallery board image, 548 × 383 (`(800 - 548) / 2`, `(600 - 383) / 2`). */
  const BoardWidth: int := 548
  const BoardHeight: int := 383

  /** Buttons on page `i`: the inner loop runs while `j < 12 && i * 12 + j < 19`. */
  function PageSize(i: nat): nat
  {
    if PerPage * i >= CgCount then 0
    else if CgCount - PerPage * i < PerPage then CgCount - PerPage * i
    else PerPage
  }

  /** Grid position of the `j`-th button of a page: row `j / 4`, column `j % 4`. */
  function GridX(j: nat): int { 15 + (j % Columns) * (10 + CellWidth) }
  function GridY(j: nat): int { 80 + (j / Columns) * (5 + CellHeight) }

  /** The CG id bound to button `j` of page `i`. */
  function CgId(i: nat, j: int): int { i * PerPage + j }

  /** The ids of the first `n` buttons of page `i`. */
  function PageIds(i: nat, n: nat): seq<int>
  {
    seq(n, j => CgId(i, j))
  }

  /** The ids of pages `0 .. n-1`, in creation order. */
  function IdsOfPages(n: nat): seq<int>
  {
    if n == 0 then [] else IdsOfPages(n - 1) + PageIds(n - 1, PageSize(n - 1))
  }

  /** How many buttons pages `0 .. n-1` hold together: full pages of 12 until the 19 images run out. */
  function PagesEnd(n: nat): nat
  {
    if PerPage * n >= CgCount then CgCount else PerPage * n
  }

  /** Page `i` holds the ids from `PagesEnd(i)` up to `PagesEnd(i + 1)`, and its `j`-th id is `PagesEnd(i) + j`. */
  lemma PageRange(i: nat, j: nat)
    ensures PagesEnd(i) + PageSize(i) == PagesEnd(i + 1) && PagesEnd(i) <= CgCount
    ensures j < PageSize(i) ==> CgId(i, j) == PagesEnd(i) + j
  {
  }

  /** The gallery's ids are consecutive: pages `0 .. n-1` carry exactly `0 .. PagesEnd(n) - 1`, in order. */
  lemma {:induction false} IdsOfPagesConsecutive(n: nat)
    ensures IdsOfPages(n) == seq(PagesEnd(n), k => k)
  {
    if n > 0 {
      var m := n - 1;
      IdsOfPagesConsecutive(m);
      PageRange(m, 0);
      forall j | 0 <= j < PageSize(m)
        ensures PageIds(m, PageSize(m))[j] == PagesEnd(m) + j
      {
        PageRange(m, j);
      }
    }
  }

  /** One more button on page `i` carries the next id. */
  lemma PageIdsStep(i: nat, n: nat)
    ensures PageIds(i, n + 1) == PageIds(i, n) + [CgId(i, n)]
  {
  }

  /** The inner loop's guard `j < 12 && i * 12 + j < 19` holds exactly below the page size. */
  lemma PageGuard(i: nat, j: nat)
    ensures (j < PerPage && CgId(i, j) < CgCount) <==> j < PageSize(i)
  {
  }

  /** Button `j` of page `i` finds its page and its grid cell again from its id. */
  lemma CgIdDivMod(i: nat, j: nat)
    requires j < PerPage
    ensures 0 <= CgId(i, j) && CgId(i, j) / PerPage == i && CgId(i, j) % PerPage == j
  {
  }

  /** The two pages hold 12 and 7 buttons, that is `min(12, 19 - 12 i)`. */
  lemma PageSizes()
    ensures PageSize(0) == 12 && PageSize(1) == 7
    ensures forall i: nat :: i < PageCount ==> PageSize(i) == if CgCount - PerPage * i < PerPage then CgCount - PerPage * i else PerPage
  {
  }

  /** The gallery's buttons carry the ids 0 .. 18, each exactly once, in order. */
  lemma GalleryIdsCoverAll()
    ensures IdsOfPages(PageCount) == seq(CgCount, k => k)
    ensures forall id :: 0 <= id < CgCount <==> id in IdsOfPages(PageCount)
  {
    IdsOfPagesConsecutive(PageCount);
    forall id | 0 <= id < CgCount
      ensures id in IdsOfPages(PageCount)
    {
      assert IdsOfPages(PageCount)[id] == id;
    }
  }

  /**
   * The grid of a page: the cells of two different buttons do not overlap, and every cell
   * lies inside the board image.
   */
  lemma GridCellsDisjointInsideBoard(j: nat, k: nat)
    requires j < PerPage && k < PerPage
    ensures 0 <= GridX(j) && GridX(j) + CellWidth <= BoardWidth
    ensures 0 <= GridY(j) && GridY(j) + CellHeight <= BoardHeight
    ensures j != k ==> GridX(j) + CellWidth <= GridX(k) || GridX(k) + CellWidth <= GridX(j)
                       || GridY(j) + CellHeight <= GridY(k) || GridY(k) + CellHeight <= GridY(j)
  {
    assert j % Columns == j - (j / Columns) * Columns && 0 <= j / Columns < 3;
    assert k % Columns == k - (k / Columns) * Columns && 0 <= k / Columns < 3;
  }

  /** The grid is filled row by row: the next button is one column right, or starts the next row. */
  lemma GridRowMajor(j: nat)
    requires j + 1 < PerPage
    ensures j % Columns < Columns - 1 ==> GridX(j + 1) == GridX(j) + 132 && GridY(j + 1) == GridY(j)
    ensures j % Columns == Columns - 1 ==> GridX(j + 1) == 15 && GridY(j + 1) == GridY(j) + 97
  {
  }

  /** `changeCGPage(direction)`: the new page if it is a valid index, else the old one. */
  function NextPage(page: int, direction: int, count: nat): int
  {
    if 0 <= page + direction < count then page + direction else page
  }

  /** A page turn moves by exactly `direction` or not at all, and never leaves `[0, count)`. */
  lemma NextPageEffect(page: int, direction: int, count: nat)
    ensures 0 <= page < count ==> 0 <= NextPage(page, direction, count) < count
    ensures NextPage(page, direction, count) == page + direction <==> (0 <= page + direction < count || direction == 0)
    ensures NextPage(page, direction, count) != page + direction ==> NextPage(page, direction, count) == page
  {
  }

  /** The page after a sequence of page turns. */
  function TurnPages(page: int, directions: seq<int>, count: nat): int
    decreases |directions|
  {
    if directions == [] then page else TurnPages(NextPage(page, directions[0], count), directions[1..], count)
  }

  /** From page 0 of a gallery with at least one page, any sequence of turns stays in range. */
  lemma {:induction false} TurnPagesInRange(page: int, directions: seq<int>, count: nat)
    requires 0 <= page < count
    ensures 0 <= TurnPages(page, directions, count) < count
    decreases |directions|
  {
    if directions != [] {
      NextPageEffect(page, directions[0], count);
      TurnPagesInRange(NextPage(page, directions[0], count), directions[1..], count);
    }
  }

  /** One main-menu button: its name (the texture prefix and the click argument) and its y. */
  datatype MenuEntry = MenuEntry(name: string, y: int)

  /** `buttonData`, all at x = 50. */
  const MenuEntries: seq<MenuEntry> := [MenuEntry("Start", 320), MenuEntry("CG", 365), MenuEntry("Settings", 410), MenuEntry("Exit", 455)]
  const MenuX: int := 50

  /** The entries that get a button: those whose three textures all loaded, in order. */
  function MenuBuilt(entries: seq<MenuEntry>, present: seq<bool>): seq<MenuEntry>
    requires |present| == |entries|
    decreases |entries|
  {
    if entries == [] then []
    else
      var n := |entries| - 1;
      MenuBuilt(entries[..n], present[..n]) + (if present[n] then [entries[n]] else [])
  }

  /** Building one more entry appends its button exactly when its textures are present. */
  lemma MenuBuiltStep(entries: seq<MenuEntry>, present: seq<bool>, i: nat)
    requires |present| == |entries| && i < |entries|
    ensures MenuBuilt(entries[..i + 1], present[..i + 1])
      == MenuBuilt(entries[..i], present[..i]) + (if present[i] then [entries[i]] else [])
  {
    assert entries[..i + 1][..i] == entries[..i] && present[..i + 1][..i] == present[..i];
  }

  /** The skip rule: an entry gets a button exactly when its textures are present; the order is kept. */
  lemma {:induction false} MenuBuiltSkipRule(entries: seq<MenuEntry>, present: seq<bool>)
    requires |present| == |entries|
    requires forall a, b :: 0 <= a < b < |entries| ==> entries[a] != entries[b]
    ensures forall k :: 0 <= k < |entries| ==> (entries[k] in MenuBuilt(entries, present) <==> present[k])
    ensures forall e :: e in MenuBuilt(entries, present) ==> e in entries
    ensures |MenuBuilt(entries, present)| <= |entries|
    decreases |entries|
  {
    if entries != [] {
      var n := |entries| - 1;
      MenuBuiltSkipRule(entries[..n], present[..n]);
      forall k | 0 <= k < |entries|
        ensures entries[k] in MenuBuilt(entries, present) <==> present[k]
      {
        if k < n {
          assert entries[..n][k] == entries[k];
          assert entries[k] != entries[n];
        } else {
          assert entries[n] !in entries[..n];
        }
      }
    }
  }

  /** With every entry's textures present the whole menu is built; with none, nothing is. */
  lemma {:induction false} MenuBuiltUniform(entries: seq<MenuEntry>, present: seq<bool>, b: bool)
    requires |present| == |entries|
    requires forall k :: 0 <= k < |present| ==> present[k] == b
    ensures MenuBuilt(entries, present) == if b then entries else []
    decreases |entries|
  {
    if entries != [] {
      var n := |entries| - 1;
      MenuBuiltUniform(entries[..n], present[..n], b);
      assert entries[..n] + [entries[n]] == entries;
    }
  }

  /** The four menu entries are the menu that is always built when every texture loads. */
  lemma MenuOrder()
    ensures MenuBuilt(MenuEntries, [true, true, true, true]) == MenuEntries
    ensures MenuBuilt(MenuEntries, [false, false, false, false]) == []
    ensures forall k :: 0 <= k < |MenuEntries| ==> MenuEntries[k].y == 320 + 45 * k
  {
    MenuBuiltUniform(MenuEntries, [true, true, true, true], true);
    MenuBuiltUniform(MenuEntries, [false, false, false, false], false);
  }
}
