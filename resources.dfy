/**
 * The resource table of src/ResourceManager.ts: a two-level dictionary
 * type -> name -> path, filled from a manifest and looked up with "" as
 * the default.  The manifest is taken already parsed: the document's
 * `SpriteInformation` groups in document order, then its
 * `SoundInformation` groups, each with an optional `type` attribute and
 * its entries, each with an optional `name` attribute and optional text.
 */
module Resources {
  import opened Options
  import opened Assets
  import Display

  type Table = map<string, map<string, Path>>

  /** One `<Sprite name="…">path</Sprite>` or `<Sound …>` element. */
  datatype Entry = Entry(name: Option<string>, text: Option<string>)

  /** One `<SpriteInformation type="…">` or `<SoundInformation type="…">` element. */
  datatype Group = Group(kind: Option<string>, entries: seq<Entry>)

  datatype Manifest = Manifest(spriteGroups: seq<Group>, soundGroups: seq<Group>)

  /** A missing attribute or missing text reads as "" (`… || ""`). */
  function GroupType(g: Group): string { g.kind.GetOr("") }
  function EntryName(e: Entry): string { e.name.GetOr("") }
  function EntryPath(e: Entry): Path { e.text.GetOr("") }

  /** The inner loop: each entry in turn sets its name's path. */
  function FillEntries(m: map<string, Path>, es: seq<Entry>): map<string, Path>
    decreases |es|
  {
    if es == [] then m else FillEntries(m[EntryName(es[0]) := EntryPath(es[0])], es[1..])
  }

  /** The dictionary a group's type is given: a fresh `{}` filled with its entries. */
  function GroupTable(g: Group): map<string, Path>
  {
    FillEntries(map[], g.entries)
  }

  /** The outer loop: each group in turn replaces its type's dictionary. */
  function LoadGroups(t: Table, gs: seq<Group>): Table
    decreases |gs|
  {
    if gs == [] then t else LoadGroups(t[GroupType(gs[0]) := GroupTable(gs[0])], gs[1..])
  }

  /** `loadXML`: the sprite groups, then the sound groups, over the current table. */
  function Load(t: Table, m: Manifest): Table
  {
    LoadGroups(LoadGroups(t, m.spriteGroups), m.soundGroups)
  }

  /** `resources[type]?.[name] || ""`. */
  function Lookup(t: Table, kind: string, name: string): Path
  {
    if kind in t && name in t[kind] then t[kind][name] else ""
  }

  /** Entry `j` is the last one in `es` named `n`. */
  ghost predicate LastEntryNamed(es: seq<Entry>, n: string, j: int)
  {
    0 <= j < |es| && EntryName(es[j]) == n && forall k :: j < k < |es| ==> EntryName(es[k]) != n
  }

  /** Group `i` is the last one in `gs` with type `ty`. */
  ghost predicate LastGroupTyped(gs: seq<Group>, ty: string, i: int)
  {
    0 <= i < |gs| && GroupType(gs[i]) == ty && forall k :: i < k < |gs| ==> GroupType(gs[k]) != ty
  }

  ghost predicate NameListed(es: seq<Entry>, n: string)
  {
    exists j :: 0 <= j < |es| && EntryName(es[j]) == n
  }

  ghost predicate TypeListed(gs: seq<Group>, ty: string)
  {
    exists i :: 0 <= i < |gs| && GroupType(gs[i]) == ty
  }

  /** All groups of a manifest, in the order `loadXML` applies them. */
  function AllGroups(m: Manifest): seq<Group>
  {
    m.spriteGroups + m.soundGroups
  }

  /**
   * Filling a dictionary: a listed name holds the path of the LAST entry with that
   * name (later entries overwrite earlier ones); an unlisted name is as before.
   */
  lemma {:induction false} FillEntriesAt(m: map<string, Path>, es: seq<Entry>, n: string)
    ensures forall j :: LastEntryNamed(es, n, j) ==> n in FillEntries(m, es) && FillEntries(m, es)[n] == EntryPath(es[j])
    ensures NameListed(es, n) ==> n in FillEntries(m, es)
    ensures !NameListed(es, n) ==> (n in FillEntries(m, es) <==> n in m)
    ensures !NameListed(es, n) && n in m ==> FillEntries(m, es)[n] == m[n]
    decreases |es|
  {
    if es != [] {
      var m' := m[EntryName(es[0]) := EntryPath(es[0])];
      FillEntriesAt(m', es[1..], n);
      forall j | LastEntryNamed(es, n, j)
        ensures n in FillEntries(m, es) && FillEntries(m, es)[n] == EntryPath(es[j])
      {
        if j > 0 {
          assert LastEntryNamed(es[1..], n, j - 1);
        } else {
          assert !NameListed(es[1..], n);
        }
      }
      if NameListed(es, n) && EntryName(es[0]) != n {
        var j :| 0 <= j < |es| && EntryName(es[j]) == n;
        assert NameListed(es[1..], n) by { assert EntryName(es[1..][j - 1]) == n; }
      }
      if !NameListed(es, n) {
        assert EntryName(es[0]) != n;
      }
    }
  }

  /**
   * Loading groups: a listed type holds exactly the dictionary of the LAST group with
   * that type (earlier groups of that type are discarded); an unlisted type is as before.
   */
  lemma {:induction false} LoadGroupsAt(t: Table, gs: seq<Group>, ty: string)
    ensures forall i :: LastGroupTyped(gs, ty, i) ==> ty in LoadGroups(t, gs) && LoadGroups(t, gs)[ty] == GroupTable(gs[i])
    ensures TypeListed(gs, ty) ==> ty in LoadGroups(t, gs)
    ensures !TypeListed(gs, ty) ==> (ty in LoadGroups(t, gs) <==> ty in t)
    ensures !TypeListed(gs, ty) && ty in t ==> LoadGroups(t, gs)[ty] == t[ty]
    decreases |gs|
  {
    if gs != [] {
      var t' := t[GroupType(gs[0]) := GroupTable(gs[0])];
      LoadGroupsAt(t', gs[1..], ty);
      forall i | LastGroupTyped(gs, ty, i)
        ensures ty in LoadGroups(t, gs) && LoadGroups(t, gs)[ty] == GroupTable(gs[i])
      {
        if i > 0 {
          assert LastGroupTyped(gs[1..], ty, i - 1);
        } else {
          assert !TypeListed(gs[1..], ty);
        }
      }
      if TypeListed(gs, ty) && GroupType(gs[0]) != ty {
        var i :| 0 <= i < |gs| && GroupType(gs[i]) == ty;
        assert TypeListed(gs[1..], ty) by { assert GroupType(gs[1..][i - 1]) == ty; }
      }
      if !TypeListed(gs, ty) {
        assert GroupType(gs[0]) != ty;
      }
    }
  }

  lemma {:induction false} LoadGroupsAppend(t: Table, gs: seq<Group>, hs: seq<Group>)
    ensures LoadGroups(LoadGroups(t, gs), hs) == LoadGroups(t, gs + hs)
    decreases |gs|
  {
    if gs != [] {
      assert (gs + hs)[0] == gs[0];
      assert (gs + hs)[1..] == gs[1..] + hs;
      LoadGroupsAppend(t[GroupType(gs[0]) := GroupTable(gs[0])], gs[1..], hs);
    } else {
      assert gs + hs == hs;
    }
  }

  /** `loadXML` applies the sound groups after the sprite groups, as one sequence. */
  lemma LoadIsSequential(t: Table, m: Manifest)
    ensures Load(t, m) == LoadGroups(t, AllGroups(m))
  {
    LoadGroupsAppend(t, m.spriteGroups, m.soundGroups);
  }

  /**
   * Each type of the manifest maps to exactly the entries of its last group: those
   * names and no others, each to the path of its last entry.
   */
  lemma GroupTypeMapsToItsEntries(t: Table, m: Manifest, ty: string, i: int)
    requires LastGroupTyped(AllGroups(m), ty, i)
    ensures ty in Load(t, m)
    ensures forall n :: n in Load(t, m)[ty] <==> NameListed(AllGroups(m)[i].entries, n)
    ensures forall n, j :: LastEntryNamed(AllGroups(m)[i].entries, n, j) ==> n in Load(t, m)[ty] && Load(t, m)[ty][n] == EntryPath(AllGroups(m)[i].entries[j])
  {
    LoadIsSequential(t, m);
    LoadGroupsAt(t, AllGroups(m), ty);
    var es := AllGroups(m)[i].entries;
    forall n
      ensures n in Load(t, m)[ty] <==> NameListed(es, n)
    {
      FillEntriesAt(map[], es, n);
    }
    forall n, j | LastEntryNamed(es, n, j)
      ensures n in Load(t, m)[ty] && Load(t, m)[ty][n] == EntryPath(es[j])
    {
      FillEntriesAt(map[], es, n);
    }
  }


  /**
   * `getSpritePath`/`getSoundPath` after `loadXML`: the path of the last entry with that
   * name in the last group with that type; "" when that group has no such entry; and the
   * earlier answer when the manifest does not mention the type at all.
   */
  lemma LookupAfterLoad(t: Table, m: Manifest, ty: string, n: string)
    ensures !TypeListed(AllGroups(m), ty) ==> Lookup(Load(t, m), ty, n) == Lookup(t, ty, n)
    ensures forall i, j :: LastGroupTyped(AllGroups(m), ty, i) && LastEntryNamed(AllGroups(m)[i].entries, n, j) ==>
      Lookup(Load(t, m), ty, n) == EntryPath(AllGroups(m)[i].entries[j])
    ensures forall i :: LastGroupTyped(AllGroups(m), ty, i) && !NameListed(AllGroups(m)[i].entries, n) ==>
      Lookup(Load(t, m), ty, n) == ""
  {
    LoadIsSequential(t, m);
    LoadGroupsAt(t, AllGroups(m), ty);
    forall i | LastGroupTyped(AllGroups(m), ty, i)
      ensures ty in Load(t, m) && Load(t, m)[ty] == GroupTable(AllGroups(m)[i])
    {
    }
    forall i | LastGroupTyped(AllGroups(m), ty, i)
      ensures NameListed(AllGroups(m)[i].entries, n) <==> n in Load(t, m)[ty]
    {
      GroupTypeMapsToItsEntries(t, m, ty, i);
    }
    forall i, j | LastGroupTyped(AllGroups(m), ty, i) && LastEntryNamed(AllGroups(m)[i].entries, n, j)
      ensures Lookup(Load(t, m), ty, n) == EntryPath(AllGroups(m)[i].entries[j])
    {
      GroupTypeMapsToItsEntries(t, m, ty, i);
    }
  }

  /** Successive loads merge at type granularity: a type the manifest does not name keeps its dictionary. */
  lemma UnlistedTypesKept(t: Table, m: Manifest, ty: string)
    requires !TypeListed(AllGroups(m), ty)
    ensures ty in Load(t, m) <==> ty in t
    ensures ty in t ==> Load(t, m)[ty] == t[ty]
  {
    LoadIsSequential(t, m);
    LoadGroupsAt(t, AllGroups(m), ty);
  }

  /**
   * A sound group whose type repeats an earlier group's (sprite or sound) wins: the type
   * holds that sound group's entries only.
   */
  lemma SoundGroupReplacesEarlierGroups(t: Table, m: Manifest, ty: string, i: int)
    requires LastGroupTyped(m.soundGroups, ty, i)
    ensures ty in Load(t, m) && Load(t, m)[ty] == GroupTable(m.soundGroups[i])
  {
    var all := AllGroups(m);
    var k := |m.spriteGroups| + i;
    assert all[k] == m.soundGroups[i];
    forall q | k < q < |all|
      ensures GroupType(all[q]) != ty
    {
      assert all[q] == m.soundGroups[q - |m.spriteGroups|];
    }
    assert LastGroupTyped(all, ty, k);
    LoadIsSequential(t, m);
    LoadGroupsAt(t, all, ty);
  }

  /** Loading over a table is the table overridden by what the groups alone build. */
  lemma {:induction false} LoadGroupsOverrides(t: Table, gs: seq<Group>)
    ensures LoadGroups(t, gs) == t + LoadGroups(map[], gs)
    decreases |gs|
  {
    if gs != [] {
      var ty, d := GroupType(gs[0]), GroupTable(gs[0]);
      LoadGroupsOverrides(t[ty := d], gs[1..]);
      LoadGroupsOverrides(map[ty := d], gs[1..]);
      var o := LoadGroups(map[], gs[1..]);
      assert t[ty := d] + o == t + (map[ty := d] + o);
    }
  }

  /** Loading the same manifest twice gives the table that loading it once gives. */
  lemma LoadIdempotent(t: Table, m: Manifest)
    ensures Load(Load(t, m), m) == Load(t, m)
  {
    var gs := AllGroups(m);
    var o := LoadGroups(map[], gs);
    LoadIsSequential(t, m);
    LoadIsSequential(Load(t, m), m);
    LoadGroupsOverrides(t, gs);
    LoadGroupsOverrides(t + o, gs);
    assert (t + o) + o == t + o;
  }

  /**
   * A group without a `type` attribute fills the type "", and an entry without a `name`
   * attribute fills the name "": when they are the last of their kind, looking up ("", "")
   * after `loadXML` gives that entry's text, or "" when it has no text.
   */
  lemma MissingAttributesReadEmpty(t: Table, m: Manifest, i: int, j: int)
    requires 0 <= i < |AllGroups(m)| && AllGroups(m)[i].kind == None
    requires forall k :: i < k < |AllGroups(m)| ==> GroupType(AllGroups(m)[k]) != ""
    requires 0 <= j < |AllGroups(m)[i].entries| && AllGroups(m)[i].entries[j].name == None
    requires forall k :: j < k < |AllGroups(m)[i].entries| ==> EntryName(AllGroups(m)[i].entries[k]) != ""
    ensures "" in Load(t, m) && "" in Load(t, m)[""]
    ensures AllGroups(m)[i].entries[j].text.Some? ==> Lookup(Load(t, m), "", "") == AllGroups(m)[i].entries[j].text.value
    ensures AllGroups(m)[i].entries[j].text.None? ==> Lookup(Load(t, m), "", "") == ""
  {
    assert LastGroupTyped(AllGroups(m), "", i);
    assert LastEntryNamed(AllGroups(m)[i].entries, "", j);
    GroupTypeMapsToItsEntries(t, m, "", i);
  }

  /** An entry without text is stored as "": when it is the last with its name in the last group of its type, the lookup gives "". */
  lemma MissingTextReadsEmpty(t: Table, m: Manifest, ty: string, i: int, j: int)
    requires LastGroupTyped(AllGroups(m), ty, i)
    requires 0 <= j < |AllGroups(m)[i].entries| && AllGroups(m)[i].entries[j].text == None
    requires forall k :: j < k < |AllGroups(m)[i].entries| ==> EntryName(AllGroups(m)[i].entries[k]) != EntryName(AllGroups(m)[i].entries[j])
    ensures Lookup(Load(t, m), ty, EntryName(AllGroups(m)[i].entries[j])) == ""
  {
    var n := EntryName(AllGroups(m)[i].entries[j]);
    assert LastEntryNamed(AllGroups(m)[i].entries, n, j);
    LookupAfterLoad(t, m, ty, n);
  }

  class ResourceManager {
    var resources: Table

    constructor ()
      ensures resources == map[]
    {
      resources := map[];
    }

    /** One of the two loops of `loadXML`: every group resets its type to `{}` and fills it. */
    method LoadInformation(groups: seq<Group>)
      modifies this
      ensures resources == LoadGroups(old(resources), groups)
    {
      var i := 0;
      while i < |groups|
        invariant 0 <= i <= |groups|
        invariant LoadGroups(old(resources), groups) == LoadGroups(resources, groups[i..])
      {
        var group := groups[i];
        var kind := GroupType(group);
        ghost var before := resources;
        resources := resources[kind := map[]];
        var j := 0;
        while j < |group.entries|
          invariant 0 <= j <= |group.entries|
          invariant kind in resources
          invariant resources == before[kind := resources[kind]]
          invariant FillEntries(resources[kind], group.entries[j..]) == GroupTable(group)
        {
          var entry := group.entries[j];
          assert group.entries[j..][1..] == group.entries[j + 1..];
          resources := resources[kind := resources[kind][EntryName(entry) := EntryPath(entry)]];
          j := j + 1;
        }
        assert resources == before[kind := GroupTable(group)];
        assert groups[i..][1..] == groups[i + 1..];
        i := i + 1;
      }
    }

    /** `loadXML` on an already parsed document. */
    method LoadXML(m: Manifest)
      modifies this
      ensures resources == Load(old(resources), m)
    {
      LoadInformation(m.spriteGroups);
      LoadInformation(m.soundGroups);
    }

    /** `getSpritePath`: the stored path when the type's dictionary has the name, and `""` otherwise. */
    function GetSpritePath(kind: string, name: string): (p: Path)
      reads this
      ensures kind in resources && name in resources[kind] ==> p == resources[kind][name]
      ensures !(kind in resources && name in resources[kind]) ==> p == ""
    {
      Lookup(resources, kind, name)
    }

    /** `getSoundPath`: reads the same table as `getSpritePath`. */
    function GetSoundPath(kind: string, name: string): (p: Path)
      reads this
      ensures kind in resources && name in resources[kind] ==> p == resources[kind][name]
      ensures !(kind in resources && name in resources[kind]) ==> p == ""
    {
      Lookup(resources, kind, name)
    }

    /** `createTexture`: loads exactly the sprite path of (kind, name). */
    method CreateTexture(loader: AssetLoader, kind: string, name: string) returns (t: Option<Texture>)
      modifies loader
      ensures t == loader.resolve(GetSpritePath(kind, name))
      ensures loader.requested == old(loader.requested) + [GetSpritePath(kind, name)]
    {
      var path := GetSpritePath(kind, name);
      t := loader.Load(path);
    }

    /** `createSprite`: loads exactly the sprite path of (kind, name) and wraps the result in a new sprite. */
    method CreateSprite(loader: AssetLoader, kind: string, name: string) returns (s: Display.Sprite)
      modifies loader
      ensures fresh(s)
      ensures s.texture == loader.resolve(GetSpritePath(kind, name)) && s.visible
      ensures s.x == 0.0 && s.y == 0.0
      ensures loader.requested == old(loader.requested) + [GetSpritePath(kind, name)]
    {
      var path := GetSpritePath(kind, name);
      var texture := loader.Load(path);
      s := new Display.Sprite(texture);
    }

    /** `createSound`: a sound made from exactly the sound path of (kind, name). */
    method CreateSound(kind: string, name: string) returns (s: Sound)
      ensures s.source == GetSoundPath(kind, name)
    {
      s := Sound(GetSoundPath(kind, name));
    }
  }
}
