/**
 * The asset loader the repository calls through Pixi's `Assets.load` and
 * `Sound.from`. Which path yields which texture is an input (`resolve`);
 * the loader keeps a log of every path requested so that callers can state
 * exactly which loads an operation performs.
 */
module Assets {
  import opened Options

  type Path = string

  /** A loaded texture; only its identity matters to the model. */
  datatype Texture = Texture(id: nat)

  /** A sound handle made by `Sound.from(path)`: it remembers its source path. */
  datatype Sound = Sound(source: Path)

  class AssetLoader {
    /** What `Assets.load(path)` resolves to: `None` stands for a falsy result. */
    const resolve: Path -> Option<Texture>
    /** Every path requested so far, in order. */
    var requested: seq<Path>

    constructor (resolve: Path -> Option<Texture>)
      ensures this.resolve == resolve
      ensures requested == []
    {
      this.resolve := resolve;
      requested := [];
    }

    /** `Assets.load(path)`. */
    method Load(path: Path) returns (t: Option<Texture>)
      modifies this
      ensures t == resolve(path)
      ensures requested == old(requested) + [path]
    {
      t := resolve(path);
      requested := requested + [path];
    }
  }
}
