/** The per-type configuration table of flyables: static arrays indexed by
    the collectable type, filled by `Flyable::init` and read by every
    instance constructed afterwards. */
module Config {
  import opened Values

  const DefaultSpeed: real := 25.0
  const DefaultMaxHeight: real := 1.0
  const DefaultMinHeight: real := 3.0
  const DefaultForceUpDown: real := 15.0

  const SpeedKey: string := "speed"
  const MinHeightKey: string := "min-height"
  const MaxHeightKey: string := "max-height"
  const ForceUpDownKey: string := "force-updown"

  /** The keys of the Lisp configuration node that carry a number. */
  type ConfigSource = map<string, real>

  /** Handle of a scene-graph model (ssgEntity*); `NoModel` is NULL. */
  datatype SceneModel = NoModel | Model(id: nat)

  /** The axis-aligned bounds of a model, as MinMax reports them. */
  datatype Bounds = Bounds(xMin: real, xMax: real, yMin: real, yMax: real, zMin: real, zMax: real)

  predicate WellFormed(b: Bounds) {
    b.xMin <= b.xMax && b.yMin <= b.yMax && b.zMin <= b.zMax
  }

  /** One row of the table. */
  datatype TypeConfig = TypeConfig(speed: real, minHeight: real, maxHeight: real,
                                   forceUpDown: real, extent: Vec3, model: SceneModel)

  /** The value `lisp->get(key, v)` leaves in `v`: the configured value when
      the key is present, otherwise what `v` held already. */
  function Configured(src: ConfigSource, key: string, current: real): real {
    if key in src then src[key] else current
  }

  /** The bounding extent: the span of the bounds on each axis. Adding it to
      the minimum corner gives the maximum corner, and it has no negative
      component when the bounds are well formed. */
  function Span(b: Bounds): (e: Vec3)
    ensures b.xMin + e.x == b.xMax && b.yMin + e.y == b.yMax && b.zMin + e.z == b.zMax
    ensures WellFormed(b) ==> e.x >= 0.0 && e.y >= 0.0 && e.z >= 0.0
  {
    Vec3(b.xMax - b.xMin, b.yMax - b.yMin, b.zMax - b.zMin)
  }

  /** The row `init` writes for type data `src`, model `m` and bounds `b`. */
  function InitialEntry(src: ConfigSource, m: SceneModel, b: Bounds): TypeConfig {
    TypeConfig(Configured(src, SpeedKey, DefaultSpeed),
               Configured(src, MinHeightKey, DefaultMinHeight),
               Configured(src, MaxHeightKey, DefaultMaxHeight),
               Configured(src, ForceUpDownKey, DefaultForceUpDown),
               Span(b), m)
  }

  /** With no key present, `init` writes the defaults verbatim; in particular
      the minimum height (3) is above the maximum height (1). */
  lemma DefaultsWithoutOverrides(m: SceneModel, b: Bounds)
    ensures InitialEntry(map[], m, b) == TypeConfig(25.0, 3.0, 1.0, 15.0, Span(b), m)
    ensures InitialEntry(map[], m, b).minHeight > InitialEntry(map[], m, b).maxHeight
  {
  }

  /** The static arrays m_st_speed, m_st_min_height, m_st_max_height,
      m_st_force_updown, m_st_extend and m_st_model, each of length
      COLLECT_MAX (`size`). */
  class TypeTable {
    const size: nat
    const speed: array<real>
    const minHeight: array<real>
    const maxHeight: array<real>
    const forceUpDown: array<real>
    const extent: array<Vec3>
    const model: array<SceneModel>

    ghost predicate Valid()
      reads this
    {
      && speed.Length == size && minHeight.Length == size && maxHeight.Length == size
      && forceUpDown.Length == size && extent.Length == size && model.Length == size
      && speed != minHeight && speed != maxHeight && speed != forceUpDown
      && minHeight != maxHeight && minHeight != forceUpDown && maxHeight != forceUpDown
    }

    /** Row `t` of the table. */
    function Entry(t: nat): TypeConfig
      requires Valid() && t < size
      reads this, speed, minHeight, maxHeight, forceUpDown, extent, model
    {
      TypeConfig(speed[t], minHeight[t], maxHeight[t], forceUpDown[t], extent[t], model[t])
    }

    /** Static storage starts zeroed: every number 0 and every model NULL. */
    constructor (size: nat)
      ensures Valid() && this.size == size
      ensures fresh(speed) && fresh(minHeight) && fresh(maxHeight) && fresh(forceUpDown)
      ensures fresh(extent) && fresh(model)
      ensures forall t :: 0 <= t < size ==> Entry(t) == TypeConfig(0.0, 0.0, 0.0, 0.0, Origin, NoModel)
    {
      this.size := size;
      speed := new real[size](_ => 0.0);
      minHeight := new real[size](_ => 0.0);
      maxHeight := new real[size](_ => 0.0);
      forceUpDown := new real[size](_ => 0.0);
      extent := new Vec3[size](_ => Origin);
      model := new SceneModel[size](_ => NoModel);
    }

    /** Flyable::init: write the defaults for type `t`, let the keys present
        in `src` override them, and store the extent and the model. Every
        other type's row is left as it was. */
    method Init(src: ConfigSource, m: SceneModel, b: Bounds, t: nat)
      requires Valid() && t < size
      modifies speed, minHeight, maxHeight, forceUpDown, extent, model
      ensures Valid()
      ensures Entry(t) == InitialEntry(src, m, b)
      ensures forall u :: 0 <= u < size && u != t ==> Entry(u) == old(Entry(u))
    {
      speed[t] := DefaultSpeed;
      maxHeight[t] := DefaultMaxHeight;
      minHeight[t] := DefaultMinHeight;
      forceUpDown[t] := DefaultForceUpDown;
      if SpeedKey in src { speed[t] := src[SpeedKey]; }
      if MinHeightKey in src { minHeight[t] := src[MinHeightKey]; }
      if MaxHeightKey in src { maxHeight[t] := src[MaxHeightKey]; }
      if ForceUpDownKey in src { forceUpDown[t] := src[ForceUpDownKey]; }
      extent[t] := Span(b);
      model[t] := m;
    }
  }
}
