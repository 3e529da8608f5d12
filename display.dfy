/**
 * The few Pixi display objects the scenes change: sprites and containers
 * with a `visible` flag, a position, an `eventMode` and a child list.
 * Drawing itself is not modelled.
 */
module Display {
  import opened Options
  import opened Assets
  import opened Buttons
  import ChildList

  /** Pixi's `eventMode` values the repository uses; `Passive` is a new container's. */
  datatype EventMode = Passive | Auto | NoEvents | Static

  class Sprite {
    var texture: Option<Texture>
    var visible: bool
    var x: real
    var y: real
    /** A Pixi sprite is itself a container. */
    var children: seq<Child>

    /** `new Sprite(texture)`: visible, at the origin, without children. */
    constructor (texture: Option<Texture>)
      ensures this.texture == texture && visible
      ensures x == 0.0 && y == 0.0 && children == []
    {
      this.texture := texture;
      visible := true;
      x, y := 0.0, 0.0;
      children := [];
    }

    method SetPosition(x: real, y: real)
      modifies this`x, this`y
      ensures this.x == x && this.y == y
    {
      this.x, this.y := x, y;
    }

    method AddChild(c: Child)
      modifies this`children
      ensures children == ChildList.AddChild(old(children), c)
    {
      children := ChildList.AddChild(children, c);
    }
  }

  /** What a container can hold: a sprite, a button's container, or another container. */
  datatype Child = SpriteChild(sprite: Sprite) | ButtonChild(button: Button) | ContainerChild(container: Container)

  class Container {
    var visible: bool
    var eventMode: EventMode
    var children: seq<Child>

    constructor ()
      ensures visible && eventMode == Passive && children == []
    {
      visible := true;
      eventMode := Passive;
      children := [];
    }

    method AddChild(c: Child)
      modifies this`children
      ensures children == ChildList.AddChild(old(children), c)
    {
      children := ChildList.AddChild(children, c);
    }
  }
}
