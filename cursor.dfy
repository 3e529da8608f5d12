/**
 * The custom cursor of src/CustomCursor.ts: a container holding a default
 * sprite and a button sprite, a `currentCursor` reference to one of them,
 * and a lazily created process-wide instance.
 */
module Cursor {
  import opened Options
  import opened Assets
  import opened Display
  import Resources

  class CustomCursor {
    const defaultCursor: Sprite
    const buttonCursor: Sprite
    var currentCursor: Sprite
    var children: seq<Child>
    var x: real
    var y: real

    /** The sprite that is not current. */
    function Other(): Sprite
      reads this
    {
      if currentCursor == defaultCursor then buttonCursor else defaultCursor
    }

    /** `currentCursor` is one of the two sprites, it is shown and the other is hidden. */
    ghost predicate Valid()
      reads this, defaultCursor, buttonCursor
    {
      && defaultCursor != buttonCursor
      && (currentCursor == defaultCursor || currentCursor == buttonCursor)
      && currentCursor.visible
      && !Other().visible
    }

    constructor ()
      ensures Valid() && fresh(defaultCursor) && fresh(buttonCursor)
      ensures currentCursor == defaultCursor
      ensures defaultCursor.visible && !buttonCursor.visible
      ensures defaultCursor.texture == None && buttonCursor.texture == None
      ensures children == [SpriteChild(defaultCursor), SpriteChild(buttonCursor)]
      ensures x == 0.0 && y == 0.0
    {
      var normal := new Sprite(None);
      var button := new Sprite(None);
      defaultCursor, buttonCursor := normal, button;
      children := [SpriteChild(normal), SpriteChild(button)];
      currentCursor := normal;
      x, y := 0.0, 0.0;
      new;
      buttonCursor.visible := false;
    }

    /**
     * `loadTextures`: requests the 'Cursor'/'Pointer' and 'Cursor'/'Button' sprite paths, in
     * that order, and gives each sprite its texture only when one came back.
     */
    method LoadTextures(rm: Resources.ResourceManager, loader: AssetLoader)
      requires Valid()
      modifies loader, defaultCursor`texture, buttonCursor`texture
      ensures Valid() && currentCursor == old(currentCursor)
      ensures defaultCursor.visible == old(defaultCursor.visible) && buttonCursor.visible == old(buttonCursor.visible)
      ensures loader.requested == old(loader.requested) + [rm.GetSpritePath("Cursor", "Pointer"), rm.GetSpritePath("Cursor", "Button")]
      ensures var t := loader.resolve(rm.GetSpritePath("Cursor", "Pointer"));
        defaultCursor.texture == if t.Some? then t else old(defaultCursor.texture)
      ensures var t := loader.resolve(rm.GetSpritePath("Cursor", "Button"));
        buttonCursor.texture == if t.Some? then t else old(buttonCursor.texture)
    {
      var defaultTexture := rm.CreateTexture(loader, "Cursor", "Pointer");
      var buttonTexture := rm.CreateTexture(loader, "Cursor", "Button");
      if defaultTexture.Some? {
        defaultCursor.texture := defaultTexture;
      }
      if buttonTexture.Some? {
        buttonCursor.texture := buttonTexture;
      }
    }

    /** Moves the cursor; which sprite is current and which are shown stays as it was. */
    method UpdatePosition(x: real, y: real)
      modifies this`x, this`y
      ensures this.x == x && this.y == y
    {
      this.x, this.y := x, y;
    }

    /** Hides the current sprite, makes the default sprite current and shows it. */
    method SetDefaultCursor()
      requires Valid()
      modifies this`currentCursor, defaultCursor`visible, buttonCursor`visible
      ensures Valid()
      ensures currentCursor == defaultCursor && defaultCursor.visible && !buttonCursor.visible
      ensures defaultCursor.texture == old(defaultCursor.texture) && buttonCursor.texture == old(buttonCursor.texture)
    {
      currentCursor.visible := false;
      currentCursor := defaultCursor;
      currentCursor.visible := true;
    }

    /** Hides the current sprite, makes the button sprite current and shows it. */
    method SetButtonCursor()
      requires Valid()
      modifies this`currentCursor, defaultCursor`visible, buttonCursor`visible
      ensures Valid()
      ensures currentCursor == buttonCursor && buttonCursor.visible && !defaultCursor.visible
      ensures defaultCursor.texture == old(defaultCursor.texture) && buttonCursor.texture == old(buttonCursor.texture)
    {
      currentCursor.visible := false;
      currentCursor := buttonCursor;
      currentCursor.visible := true;
    }
  }

  /** Holder of the static `CustomCursor.instance` field. */
  class CursorSingleton {
    var instance: CustomCursor?
    /** How many instances `getInstance` has constructed and loaded. */
    ghost var constructions: nat

    ghost predicate Valid()
      reads this
    {
      constructions == if instance == null then 0 else 1
    }

    constructor ()
      ensures Valid() && instance == null
    {
      instance := null;
      constructions := 0;
    }

    /**
     * `getInstance`: the first call constructs the cursor and loads its textures; every later
     * call returns that same instance and requests nothing.
     */
    method GetInstance(rm: Resources.ResourceManager, loader: AssetLoader) returns (c: CustomCursor)
      requires Valid()
      modifies this, loader
      ensures Valid() && instance == c && constructions <= 1
      ensures old(instance) != null ==> c == old(instance) && loader.requested == old(loader.requested)
      ensures old(instance) == null ==>
        && fresh(c) && c.Valid() && c.currentCursor == c.defaultCursor
        && loader.requested == old(loader.requested) + [rm.GetSpritePath("Cursor", "Pointer"), rm.GetSpritePath("Cursor", "Button")]
        && c.defaultCursor.texture == loader.resolve(rm.GetSpritePath("Cursor", "Pointer"))
        && c.buttonCursor.texture == loader.resolve(rm.GetSpritePath("Cursor", "Button"))
    {
      if instance == null {
        instance := new CustomCursor();
        constructions := constructions + 1;
        instance.LoadTextures(rm, loader);
      }
      c := instance;
    }
  }

  /**
   * Two calls in a row on a fresh holder: one construction, the two cursor textures requested
   * once, and the same instance both times.
   */
  method GetInstanceTwice(rm: Resources.ResourceManager, loader: AssetLoader) returns (a: CustomCursor, b: CustomCursor)
    modifies loader
    ensures a == b && fresh(a) && a.Valid() && a.currentCursor == a.defaultCursor
    ensures loader.requested == old(loader.requested) + [rm.GetSpritePath("Cursor", "Pointer"), rm.GetSpritePath("Cursor", "Button")]
    ensures a.defaultCursor.texture == loader.resolve(rm.GetSpritePath("Cursor", "Pointer"))
    ensures a.buttonCursor.texture == loader.resolve(rm.GetSpritePath("Cursor", "Button"))
  {
    var holder := new CursorSingleton();
    a := holder.GetInstance(rm, loader);
    b := holder.GetInstance(rm, loader);
  }
}
