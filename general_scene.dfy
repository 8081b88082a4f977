/**
 * The scene-description interpreter. A `GeneralScene` receives one method
 * call per directive of the input stream and updates its state in place:
 * the API state, the two-slot current transform and its selection mask, the
 * scoped graphics state, four parallel save stacks, append-only entity
 * lists, named registries and the open object definition.
 *
 * The member variables of pbrt's `GeneralScene` are kept, grouped by role into three
 * records: `setup` (options-block settings, camera, named coordinate
 * systems), `scope` (everything the nesting directives save and restore)
 * and `entities` (what is handed to the renderer).
 *
 * An `ErrorExit` in the C++ code ends the process; here it sets `fatal`,
 * and every directive requires `fatal.None?`: nothing can follow an abort.
 * `Error` and `Warning` reports are appended to `diagnostics`.
 */
module GenScene {
  import opened Util
  import opened SceneTypes
  import opened Interning

  /** The options-block settings, the camera and the named coordinate systems. */
  datatype SetupState<T> = SetupState(
    apiState: APIState,
    namedCoordinateSystems: map<string, TransformSet<T>>,
    transformStartTime: real,
    transformEndTime: real,
    cameraFromWorldT: TransformSet<T>,
    camera: CameraSceneEntity,
    film: SceneEntity,
    sampler: SceneEntity,
    filter: SceneEntity,
    integrator: SceneEntity,
    accelerator: SceneEntity)

  /**
   * A graphics state's material selection: an index below `n`, or -1 for
   * selection by name; a selection by index leaves the name empty.
   */
  ghost predicate MaterialSelection(gs: GraphicsState, n: int) {
    && -1 <= gs.currentMaterialIndex < n
    && (gs.currentMaterialIndex >= 0 ==> gs.currentMaterialName == "")
  }

  /** The scoped state: current transform, graphics state, save stacks, open definition. */
  datatype ScopeState<T> = ScopeState(
    curTransform: TransformSet<T>,
    activeTransformBits: bv32,
    graphicsState: GraphicsState,
    pushedGraphicsStates: seq<GraphicsState>,
    pushedTransforms: seq<TransformSet<T>>,
    pushedActiveTransformBits: seq<bv32>,
    pushStack: seq<PushedScope>,
    currentInstance: Option<string>)
  {
    /**
     * The transform and mask stacks move with the nesting stack; every
     * attribute or object entry has its saved graphics state; an object
     * entry is on the stack exactly while a definition is open.
     */
    ghost predicate StacksConsistent() {
      && |pushedTransforms| == |pushStack|
      && |pushedActiveTransformBits| == |pushStack|
      && |pushedGraphicsStates| == ScopedCount(pushStack)
      && ObjectCount(pushStack) == (if currentInstance.Some? then 1 else 0)
    }

    /**
     * The current graphics state and every saved one select a material by an
     * index among the first `n` materials, or no material by index (-1).
     */
    ghost predicate MaterialsSelected(n: int) {
      && MaterialSelection(graphicsState, n)
      && forall i :: 0 <= i < |pushedGraphicsStates| ==> MaterialSelection(pushedGraphicsStates[i], n)
    }

    /**
     * The scope after `AttributeBegin` or `ObjectBegin` saves the graphics
     * state, the transform and the mask and records the nesting entry: the
     * saved values are on top of their stacks, above the old stacks.
     */
    function Saved(kind: NestingKind, loc: FileLoc): (r: ScopeState<T>)
      ensures kind != TransformScope && StacksConsistent() ==>
        && |r.pushedTransforms| == |r.pushStack|
        && |r.pushedActiveTransformBits| == |r.pushStack|
        && |r.pushedGraphicsStates| == ScopedCount(r.pushStack)
        && ObjectCount(r.pushStack) == ObjectCount(pushStack) + (if kind == ObjectScope then 1 else 0)
    {
      CountsPush(pushStack, PushedScope(kind, loc));
      this.(
        pushedGraphicsStates := pushedGraphicsStates + [graphicsState],
        pushedTransforms := pushedTransforms + [curTransform],
        pushedActiveTransformBits := pushedActiveTransformBits + [activeTransformBits],
        pushStack := pushStack + [PushedScope(kind, loc)])
    }
  }

  /** What the scene has accumulated for the renderer. */
  datatype EntityState = EntityState(
    materials: seq<SceneEntity>,
    namedMaterials: map<string, SceneEntity>,
    media: map<string, TransformedSceneEntity>,
    floatTextures: seq<(string, TransformedSceneEntity)>,
    spectrumTextures: seq<(string, TransformedSceneEntity)>,
    lights: seq<LightSceneEntity>,
    areaLights: seq<SceneEntity>,
    shapes: seq<ShapeSceneEntity>,
    animatedShapes: seq<AnimatedShapeSceneEntity>,
    instances: seq<InstanceSceneEntity>,
    instanceDefinitions: map<string, InstanceDefinition>,
    haveScatteringMedia: bool)
  {
    /** The lists after `e` is appended to the open definition `ci`, or to the scene when none is open. */
    function WithShape(ci: Option<string>, e: ShapeSceneEntity): (r: EntityState)
      requires ci.Some? ==> ci.value in instanceDefinitions
      ensures r.instanceDefinitions.Keys == instanceDefinitions.Keys
      ensures ci.None? ==> r.shapes == shapes + [e] && r.(shapes := shapes) == this
      ensures ci.Some? ==>
        && r.(instanceDefinitions := instanceDefinitions) == this
        && r.instanceDefinitions[ci.value].shapes == instanceDefinitions[ci.value].shapes + [e]
        && r.instanceDefinitions[ci.value].animatedShapes == instanceDefinitions[ci.value].animatedShapes
        && forall n :: n in instanceDefinitions && n != ci.value ==> r.instanceDefinitions[n] == instanceDefinitions[n]
    {
      if ci.None? then this.(shapes := shapes + [e])
      else
        var d := instanceDefinitions[ci.value];
        this.(instanceDefinitions := instanceDefinitions[ci.value := d.(shapes := d.shapes + [e])])
    }

    /** As `WithShape`, for a shape under an animated transform. */
    function WithAnimatedShape(ci: Option<string>, e: AnimatedShapeSceneEntity): (r: EntityState)
      requires ci.Some? ==> ci.value in instanceDefinitions
      ensures r.instanceDefinitions.Keys == instanceDefinitions.Keys
      ensures ci.None? ==> r.animatedShapes == animatedShapes + [e] && r.(animatedShapes := animatedShapes) == this
      ensures ci.Some? ==>
        && r.(instanceDefinitions := instanceDefinitions) == this
        && r.instanceDefinitions[ci.value].animatedShapes == instanceDefinitions[ci.value].animatedShapes + [e]
        && r.instanceDefinitions[ci.value].shapes == instanceDefinitions[ci.value].shapes
        && forall n :: n in instanceDefinitions && n != ci.value ==> r.instanceDefinitions[n] == instanceDefinitions[n]
    {
      if ci.None? then this.(animatedShapes := animatedShapes + [e])
      else
        var d := instanceDefinitions[ci.value];
        this.(instanceDefinitions := instanceDefinitions[ci.value := d.(animatedShapes := d.animatedShapes + [e])])
    }
  }

  /** Every field of a scene, as one value; the cache contributes its storage. */
  datatype SceneState<T> = SceneState(
    setup: SetupState<T>,
    scope: ScopeState<T>,
    entities: EntityState,
    transforms: seq<T>,
    diagnostics: seq<Diagnostic>,
    fatal: Option<Diagnostic>)

  /** The state a directive leaves when it only reports `d` and is ignored. */
  ghost function Logged<T>(s: SceneState<T>, d: Diagnostic): SceneState<T> {
    s.(diagnostics := s.diagnostics + [d])
  }

  /** The state a directive leaves when it aborts with `d` and changes nothing else. */
  ghost function Aborted<T>(s: SceneState<T>, d: Diagnostic): SceneState<T> {
    s.(fatal := Some(d))
  }

  /** The state of a freshly constructed scene. */
  ghost function InitialState<T>(ops: TransformOps<T>): SceneState<T> {
    var id := TransformSet(ops.identity, ops.identity);
    SceneState(
      SetupState(OptionsBlock, map[], 0.0, 1.0, id,
        CameraSceneEntity("", EmptyDictionary, NoLoc, NoTransform, ""),
        SceneEntity("rgb", EmptyDictionary, NoLoc),
        SceneEntity("", EmptyDictionary, NoLoc),
        SceneEntity("gaussian", EmptyDictionary, NoLoc),
        SceneEntity("", EmptyDictionary, NoLoc),
        SceneEntity("", EmptyDictionary, NoLoc)),
      ScopeState(id, AllTransformsBits, InitialGraphicsState, [], [], [], [], None),
      EntityState([SceneEntity("diffuse", ParameterDictionary([], [], Some(SRGB)), NoLoc)],
        map[], map[], [], [], [], [], [], [], [], map[], false),
      [], [], None)
  }

  /** The two time samples of `ct`, frozen as handles into `stored`. */
  function Frozen<T(==)>(stored: seq<T>, ct: TransformSet<T>, startTime: real, endTime: real): AnimatedTransform
    requires ct.start in stored && ct.end in stored
  {
    AnimatedTransform(IndexOf(stored, ct.start), startTime, IndexOf(stored, ct.end), endTime)
  }

  /** Interning a further value leaves a frozen transform as it was. */
  lemma FrozenKept<T>(stored: seq<T>, t: T, ct: TransformSet<T>, startTime: real, endTime: real)
    requires ct.start in stored && ct.end in stored
    ensures ct.start in Interned(stored, t) && ct.end in Interned(stored, t)
    ensures Frozen(Interned(stored, t), ct, startTime, endTime) == Frozen(stored, ct, startTime, endTime)
  {
    InternedKeepsHandles(stored, t, ct.start);
    InternedKeepsHandles(stored, t, ct.end);
  }

  /** Every selected slot of `after` is `t`; the others are as in `before`. */
  ghost predicate SlotsReplaced<T>(before: TransformSet<T>, after: TransformSet<T>, bits: bv32, t: T) {
    forall i :: 0 <= i < MaxTransforms ==> after.At(i) == if Selected(bits, i) then t else before.At(i)
  }

  /** Every selected slot of `after` is that of `before` post-multiplied by `m`. */
  ghost predicate SlotsPostMultiplied<T>(before: TransformSet<T>, after: TransformSet<T>, bits: bv32,
                                        compose: (T, T) -> T, m: T) {
    forall i :: 0 <= i < MaxTransforms ==>
      after.At(i) == if Selected(bits, i) then compose(before.At(i), m) else before.At(i)
  }

  /** `FOR_ACTIVE_TRANSFORMS`: applies `f` to the slots selected by `bits`, in slot order. */
  method ForActiveTransforms<T>(ts: TransformSet<T>, bits: bv32, f: T -> T) returns (r: TransformSet<T>)
    ensures forall i :: 0 <= i < MaxTransforms ==> r.At(i) == if Selected(bits, i) then f(ts.At(i)) else ts.At(i)
  {
    r := ts;
    for i := 0 to MaxTransforms
      invariant forall j :: 0 <= j < i ==> r.At(j) == if Selected(bits, j) then f(ts.At(j)) else ts.At(j)
      invariant forall j :: i <= j < MaxTransforms ==> r.At(j) == ts.At(j)
    {
      if Selected(bits, i) {
        r := r.With(i, f(r.At(i)));
      }
    }
  }

  /** Parameters as an `Attribute` directive stores them. */
  function MarkedInherited(attrib: seq<ParsedParameter>, cs: string): seq<ParsedParameter> {
    seq(|attrib|, k requires 0 <= k < |attrib| => attrib[k].(mayBeUnused := true, colorSpace := Some(cs)))
  }

  /**
   * The loop of `Attribute`: every parameter is marked as possibly unused,
   * tagged with the colour space in force and appended to the list.
   */
  method AppendAttributes(current: seq<ParsedParameter>, attrib: seq<ParsedParameter>, cs: string)
    returns (r: seq<ParsedParameter>)
    ensures |r| == |current| + |attrib| && r[..|current|] == current
    ensures forall k :: 0 <= k < |attrib| ==>
      r[|current| + k] == attrib[k].(mayBeUnused := true, colorSpace := Some(cs))
    ensures r == current + MarkedInherited(attrib, cs)
  {
    r := current;
    for k := 0 to |attrib|
      invariant |r| == |current| + k && r[..|current|] == current
      invariant forall j :: 0 <= j < k ==>
        r[|current| + j] == attrib[j].(mayBeUnused := true, colorSpace := Some(cs))
    {
      r := r + [attrib[k].(mayBeUnused := true, colorSpace := Some(cs))];
    }
    assert r == current + MarkedInherited(attrib, cs);
  }

  /** Some entry of the list is a texture called `name`. */
  ghost predicate HasTexture(textures: seq<(string, TransformedSceneEntity)>, name: string) {
    exists k :: 0 <= k < |textures| && textures[k].0 == name
  }

  /** Whether a texture called `name` is already in the list. */
  method TextureDefined(textures: seq<(string, TransformedSceneEntity)>, name: string) returns (b: bool)
    ensures b <==> HasTexture(textures, name)
  {
    for k := 0 to |textures|
      invariant forall j :: 0 <= j < k ==> textures[j].0 != name
    {
      if textures[k].0 == name {
        return true;
      }
    }
    return false;
  }

  /**
   * The entities after a shape claims the pending area light of `gs`: a
   * copy of it becomes a new area-light entity.
   */
  function ShapeLights(en: EntityState, gs: GraphicsState): (r: EntityState)
    ensures |r.areaLights| == |en.areaLights| + (if gs.areaLightName == "" then 0 else 1)
    ensures r.areaLights[..|en.areaLights|] == en.areaLights
    ensures gs.areaLightName != "" ==>
      Last(r.areaLights) == SceneEntity(gs.areaLightName, gs.areaLightParams, gs.areaLightLoc)
    ensures r.(areaLights := en.areaLights) == en
  {
    if gs.areaLightName == "" then en
    else en.(areaLights := en.areaLights + [SceneEntity(gs.areaLightName, gs.areaLightParams, gs.areaLightLoc)])
  }

  /** The area light a shape links to: the new entry, or -1 with none pending. */
  function ShapeLightIndex(en: EntityState, gs: GraphicsState): (i: int)
    ensures gs.areaLightName == "" <==> i == -1
    ensures i != -1 ==>
              0 <= i < |ShapeLights(en, gs).areaLights| &&
              ShapeLights(en, gs).areaLights[i] == SceneEntity(gs.areaLightName, gs.areaLightParams, gs.areaLightLoc)
  {
    if gs.areaLightName == "" then -1 else |en.areaLights|
  }

  class GeneralScene<T(==)> {
    /**
     * The transform algebra, and `RGBColorSpace::GetNamed`: the colour space
     * a name resolves to, identified by its canonical name, if there is one.
     */
    const ops: TransformOps<T>
    const namedColorSpace: string -> Option<string>
    const cache: TransformCache<T>

    var setup: SetupState<T>
    var scope: ScopeState<T>
    var entities: EntityState
    var diagnostics: seq<Diagnostic>
    var fatal: Option<Diagnostic>

    ghost function Snapshot(): SceneState<T>
      reads this, cache
    {
      SceneState(setup, scope, entities, cache.stored, diagnostics, fatal)
    }

    ghost predicate Valid()
      reads this, cache
    {
      && setup.apiState != Uninitialized
      && cache.Valid()
      && (scope.currentInstance.Some? ==> scope.currentInstance.value in entities.instanceDefinitions)
      && (fatal.None? ==> scope.StacksConsistent())
      && scope.MaterialsSelected(|entities.materials|)
    }

    /** Pointwise inverse of a transform set. */
    function Inverted(ts: TransformSet<T>): TransformSet<T> {
      TransformSet(ops.inverse(ts.start), ops.inverse(ts.end))
    }

    /**
     * The entity `Shape` records under a static transform: the handles of
     * the start slot and of its inverse, and the shape's graphics state.
     */
    function StaticShape(stored: seq<T>, ct: TransformSet<T>, gs: GraphicsState, name: string,
                         dict: ParameterDictionary, loc: FileLoc, lightIndex: int): (e: ShapeSceneEntity)
      requires ct.start in stored && ops.inverse(ct.start) in stored
      ensures e.worldFromObject < |stored| && stored[e.worldFromObject] == ct.start
      ensures e.objectFromWorld < |stored| && stored[e.objectFromWorld] == ops.inverse(ct.start)
    {
      ShapeSceneEntity(name, dict, loc, IndexOf(stored, ct.start), IndexOf(stored, ops.inverse(ct.start)),
        gs.reverseOrientation, gs.currentMaterialIndex, gs.currentMaterialName, lightIndex,
        gs.currentInsideMedium, gs.currentOutsideMedium)
    }

    /**
     * The entity `Shape` records under an animated transform: both slots
     * frozen with the transform times, and the handle of the identity.
     */
    function AnimatedShape(stored: seq<T>, ct: TransformSet<T>, startTime: real, endTime: real,
                           gs: GraphicsState, name: string, dict: ParameterDictionary, loc: FileLoc,
                           lightIndex: int): (e: AnimatedShapeSceneEntity)
      requires ct.start in stored && ct.end in stored && ops.identity in stored
      ensures e.worldFromObject.AnimatedTransform?
      ensures e.worldFromObject.startTransform < |stored| && stored[e.worldFromObject.startTransform] == ct.start
      ensures e.worldFromObject.endTransform < |stored| && stored[e.worldFromObject.endTransform] == ct.end
      ensures e.worldFromObject.startTime == startTime && e.worldFromObject.endTime == endTime
      ensures e.identity < |stored| && stored[e.identity] == ops.identity
    {
      AnimatedShapeSceneEntity(name, dict, loc, Frozen(stored, ct, startTime, endTime), IndexOf(stored, ops.identity),
        gs.reverseOrientation, gs.currentMaterialIndex, gs.currentMaterialName, lightIndex,
        gs.currentInsideMedium, gs.currentOutsideMedium)
    }

    constructor (ops: TransformOps<T>, namedColorSpace: string -> Option<string>)
      requires namedColorSpace(SRGB) == Some(SRGB)
      ensures Valid() && fresh(cache)
      ensures this.ops == ops && this.namedColorSpace == namedColorSpace
      ensures Snapshot() == InitialState(ops)
    {
      this.ops := ops;
      this.namedColorSpace := namedColorSpace;
      cache := new TransformCache();
      var id := TransformSet(ops.identity, ops.identity);
      setup := SetupState(OptionsBlock, map[], 0.0, 1.0, id,
        CameraSceneEntity("", EmptyDictionary, NoLoc, NoTransform, ""),
        SceneEntity("rgb", EmptyDictionary, NoLoc),
        SceneEntity("", EmptyDictionary, NoLoc),
        SceneEntity("gaussian", EmptyDictionary, NoLoc),
        SceneEntity("", EmptyDictionary, NoLoc),
        SceneEntity("", EmptyDictionary, NoLoc));
      scope := ScopeState(id, AllTransformsBits, InitialGraphicsState, [], [], [], [], None);
      entities := EntityState([SceneEntity("diffuse", ParameterDictionary([], [], Some(SRGB)), NoLoc)],
        map[], map[], [], [], [], [], [], [], [], map[], false);
      diagnostics, fatal := [], None;
    }

    /** Interns both slots of a transform set, start slot first. */
    method Freeze(ts: TransformSet<T>) returns (at: AnimatedTransform)
      requires cache.Valid()
      modifies cache
      ensures cache.Valid()
      ensures cache.stored == Interned(Interned(old(cache.stored), ts.start), ts.end)
      ensures at == Frozen(cache.stored, ts, setup.transformStartTime, setup.transformEndTime)
    {
      ghost var s0 := cache.stored;
      var h0 := cache.Lookup(ts.start);
      var h1 := cache.Lookup(ts.end);
      InternedKeepsHandles(Interned(s0, ts.start), ts.end, ts.start);
      at := AnimatedTransform(h0, setup.transformStartTime, h1, setup.transformEndTime);
    }

    // ---------------------------------------------------------------------
    // Transform directives. They are guarded only by VERIFY_INITIALIZED,
    // which never rejects because construction leaves the Uninitialized
    // state behind, so they act in both blocks.

    /** Every selected slot becomes the identity. */
    method Identity(loc: FileLoc)
      requires Valid() && fatal.None?
      modifies this
      ensures Valid()
      ensures SlotsReplaced(old(scope.curTransform), scope.curTransform, old(scope.activeTransformBits), ops.identity)
      ensures Snapshot() == old(Snapshot()).(scope := old(scope).(curTransform := scope.curTransform))
    {
      var id := ops.identity;
      var ct := ForActiveTransforms(scope.curTransform, scope.activeTransformBits, _ => id);
      scope := scope.(curTransform := ct);
    }

    /** Every selected slot is post-multiplied by a translation. */
    method Translate(dx: real, dy: real, dz: real, loc: FileLoc)
      requires Valid() && fatal.None?
      modifies this
      ensures Valid()
      ensures SlotsPostMultiplied(old(scope.curTransform), scope.curTransform, old(scope.activeTransformBits),
                                  ops.compose, ops.translate(Vector3(dx, dy, dz)))
      ensures Snapshot() == old(Snapshot()).(scope := old(scope).(curTransform := scope.curTransform))
    {
      var compose, m := ops.compose, ops.translate(Vector3(dx, dy, dz));
      var ct := ForActiveTransforms(scope.curTransform, scope.activeTransformBits, t => compose(t, m));
      scope := scope.(curTransform := ct);
    }

    /** Every selected slot is replaced by the (transposed) given matrix. */
    method Transform(tr: seq<real>, loc: FileLoc)
      requires Valid() && fatal.None?
      requires |tr| == 16
      modifies this
      ensures Valid()
      ensures SlotsReplaced(old(scope.curTransform), scope.curTransform, old(scope.activeTransformBits),
                            ops.fromMatrix(tr))
      ensures Snapshot() == old(Snapshot()).(scope := old(scope).(curTransform := scope.curTransform))
    {
      var m := ops.fromMatrix(tr);
      var ct := ForActiveTransforms(scope.curTransform, scope.activeTransformBits, _ => m);
      scope := scope.(curTransform := ct);
    }

    /** Every selected slot is post-multiplied by the (transposed) given matrix. */
    method ConcatTransform(tr: seq<real>, loc: FileLoc)
      requires Valid() && fatal.None?
      requires |tr| == 16
      modifies this
      ensures Valid()
      ensures SlotsPostMultiplied(old(scope.curTransform), scope.curTransform, old(scope.activeTransformBits),
                                  ops.compose, ops.fromMatrix(tr))
      ensures Snapshot() == old(Snapshot()).(scope := old(scope).(curTransform := scope.curTransform))
    {
      var compose, m := ops.compose, ops.fromMatrix(tr);
      var ct := ForActiveTransforms(scope.curTransform, scope.activeTransformBits, t => compose(t, m));
      scope := scope.(curTransform := ct);
    }

    /** Every selected slot is post-multiplied by a rotation. */
    method Rotate(angle: real, dx: real, dy: real, dz: real, loc: FileLoc)
      requires Valid() && fatal.None?
      modifies this
      ensures Valid()
      ensures SlotsPostMultiplied(old(scope.curTransform), scope.curTransform, old(scope.activeTransformBits),
                                  ops.compose, ops.rotate(angle, Vector3(dx, dy, dz)))
      ensures Snapshot() == old(Snapshot()).(scope := old(scope).(curTransform := scope.curTransform))
    {
      var compose, m := ops.compose, ops.rotate(angle, Vector3(dx, dy, dz));
      var ct := ForActiveTransforms(scope.curTransform, scope.activeTransformBits, t => compose(t, m));
      scope := scope.(curTransform := ct);
    }

    /** Every selected slot is post-multiplied by a scale. */
    method Scale(sx: real, sy: real, sz: real, loc: FileLoc)
      requires Valid() && fatal.None?
      modifies this
      ensures Valid()
      ensures SlotsPostMultiplied(old(scope.curTransform), scope.curTransform, old(scope.activeTransformBits),
                                  ops.compose, ops.scale(Vector3(sx, sy, sz)))
      ensures Snapshot() == old(Snapshot()).(scope := old(scope).(curTransform := scope.curTransform))
    {
      var compose, m := ops.compose, ops.scale(Vector3(sx, sy, sz));
      var ct := ForActiveTransforms(scope.curTransform, scope.activeTransformBits, t => compose(t, m));
      scope := scope.(curTransform := ct);
    }

    /** Every selected slot is post-multiplied by one look-at transform. */
    method LookAt(ex: real, ey: real, ez: real, lx: real, ly: real, lz: real,
                  ux: real, uy: real, uz: real, loc: FileLoc)
      requires Valid() && fatal.None?
      modifies this
      ensures Valid()
      ensures SlotsPostMultiplied(old(scope.curTransform), scope.curTransform, old(scope.activeTransformBits),
                                  ops.compose,
                                  ops.lookAt(Vector3(ex, ey, ez), Vector3(lx, ly, lz), Vector3(ux, uy, uz)))
      ensures Snapshot() == old(Snapshot()).(scope := old(scope).(curTransform := scope.curTransform))
    {
      var lookAt := ops.lookAt(Vector3(ex, ey, ez), Vector3(lx, ly, lz), Vector3(ux, uy, uz));
      var compose := ops.compose;
      var ct := ForActiveTransforms(scope.curTransform, scope.activeTransformBits, t => compose(t, lookAt));
      scope := scope.(curTransform := ct);
    }

    /** Saves the current transform set under `name`, replacing any earlier entry. */
    method CoordinateSystem(name: string, loc: FileLoc)
      requires Valid() && fatal.None?
      modifies this
      ensures Valid()
      ensures Snapshot() == old(Snapshot()).(setup := old(setup).(
        namedCoordinateSystems := old(setup.namedCoordinateSystems)[name := old(scope.curTransform)]))
    {
      setup := setup.(namedCoordinateSystems := setup.namedCoordinateSystems[name := scope.curTransform]);
    }

    /** Restores a saved transform set; an unknown name only draws a warning. */
    method CoordSysTransform(name: string, loc: FileLoc)
      requires Valid() && fatal.None?
      modifies this
      ensures Valid()
      ensures name in old(setup.namedCoordinateSystems) ==>
        Snapshot() == old(Snapshot()).(scope := old(scope).(
          curTransform := old(setup.namedCoordinateSystems)[name]))
      ensures name !in old(setup.namedCoordinateSystems) ==>
        Snapshot() == Logged(old(Snapshot()), WarningAt(loc, UnknownCoordinateSystem(name)))
    {
      if name in setup.namedCoordinateSystems {
        scope := scope.(curTransform := setup.namedCoordinateSystems[name]);
      } else {
        diagnostics := diagnostics + [WarningAt(loc, UnknownCoordinateSystem(name))];
      }
    }

    // The ActiveTransform directives are not gated at all.

    method ActiveTransformAll(loc: FileLoc)
      requires Valid() && fatal.None?
      modifies this
      ensures Valid()
      ensures Snapshot() == old(Snapshot()).(scope := old(scope).(activeTransformBits := AllTransformsBits))
    {
      scope := scope.(activeTransformBits := AllTransformsBits);
    }

    method ActiveTransformEndTime(loc: FileLoc)
      requires Valid() && fatal.None?
      modifies this
      ensures Valid()
      ensures Snapshot() == old(Snapshot()).(scope := old(scope).(activeTransformBits := EndTransformBits))
    {
      scope := scope.(activeTransformBits := EndTransformBits);
    }

    method ActiveTransformStartTime(loc: FileLoc)
      requires Valid() && fatal.None?
      modifies this
      ensures Valid()
      ensures Snapshot() == old(Snapshot()).(scope := old(scope).(activeTransformBits := StartTransformBits))
    {
      scope := scope.(activeTransformBits := StartTransformBits);
    }

    // ---------------------------------------------------------------------
    // Options-block directives (VERIFY_OPTIONS): ignored with an error in
    // the world block.

    method TransformTimes(start: real, end: real, loc: FileLoc)
      requires Valid() && fatal.None?
      modifies this
      ensures Valid()
      ensures old(setup.apiState) == WorldBlock ==>
        Snapshot() == Logged(old(Snapshot()), ErrorAt(loc, OptionsInWorldBlock("TransformTimes")))
      ensures old(setup.apiState) == OptionsBlock ==>
        Snapshot() == old(Snapshot()).(setup := old(setup).(transformStartTime := start, transformEndTime := end))
    {
      if setup.apiState == WorldBlock {
        diagnostics := diagnostics + [ErrorAt(loc, OptionsInWorldBlock("TransformTimes"))];
        return;
      }
      setup := setup.(transformStartTime := start, transformEndTime := end);
    }

    /** Sets the colour space of later dictionaries; an unknown name is an error and is ignored. */
    method ColorSpace(n: string, loc: FileLoc)
      requires Valid() && fatal.None?
      modifies this
      ensures Valid()
      ensures namedColorSpace(n).Some? ==>
        Snapshot() == old(Snapshot()).(scope := old(scope).(
          graphicsState := old(scope.graphicsState).(colorSpace := namedColorSpace(n).value)))
      ensures namedColorSpace(n).None? ==>
        Snapshot() == Logged(old(Snapshot()), ErrorAt(loc, UnknownColorSpace(n)))
    {
      var cs := namedColorSpace(n);
      if cs.Some? {
        scope := scope.(graphicsState := scope.graphicsState.(colorSpace := cs.value));
      } else {
        diagnostics := diagnostics + [ErrorAt(loc, UnknownColorSpace(n))];
      }
    }

    method PixelFilter(name: string, params: seq<ParsedParameter>, loc: FileLoc)
      requires Valid() && fatal.None?
      modifies this
      ensures Valid()
      ensures old(setup.apiState) == WorldBlock ==>
        Snapshot() == Logged(old(Snapshot()), ErrorAt(loc, OptionsInWorldBlock("PixelFilter")))
      ensures old(setup.apiState) == OptionsBlock ==>
        Snapshot() == old(Snapshot()).(setup := old(setup).(filter := SceneEntity(name,
          ParameterDictionary(params, [], Some(old(scope.graphicsState.colorSpace))), loc)))
    {
      var dict := ParameterDictionary(params, [], Some(scope.graphicsState.colorSpace));
      if setup.apiState == WorldBlock {
        diagnostics := diagnostics + [ErrorAt(loc, OptionsInWorldBlock("PixelFilter"))];
        return;
      }
      setup := setup.(filter := SceneEntity(name, dict, loc));
    }

    method Film(filmType: string, params: seq<ParsedParameter>, loc: FileLoc)
      requires Valid() && fatal.None?
      modifies this
      ensures Valid()
      ensures old(setup.apiState) == WorldBlock ==>
        Snapshot() == Logged(old(Snapshot()), ErrorAt(loc, OptionsInWorldBlock("Film")))
      ensures old(setup.apiState) == OptionsBlock ==>
        Snapshot() == old(Snapshot()).(setup := old(setup).(film := SceneEntity(filmType,
          ParameterDictionary(params, [], Some(old(scope.graphicsState.colorSpace))), loc)))
    {
      var dict := ParameterDictionary(params, [], Some(scope.graphicsState.colorSpace));
      if setup.apiState == WorldBlock {
        diagnostics := diagnostics + [ErrorAt(loc, OptionsInWorldBlock("Film"))];
        return;
      }
      setup := setup.(film := SceneEntity(filmType, dict, loc));
    }

    method Sampler(name: string, params: seq<ParsedParameter>, loc: FileLoc)
      requires Valid() && fatal.None?
      modifies this
      ensures Valid()
      ensures old(setup.apiState) == WorldBlock ==>
        Snapshot() == Logged(old(Snapshot()), ErrorAt(loc, OptionsInWorldBlock("Sampler")))
      ensures old(setup.apiState) == OptionsBlock ==>
        Snapshot() == old(Snapshot()).(setup := old(setup).(sampler := SceneEntity(name,
          ParameterDictionary(params, [], Some(old(scope.graphicsState.colorSpace))), loc)))
    {
      var dict := ParameterDictionary(params, [], Some(scope.graphicsState.colorSpace));
      if setup.apiState == WorldBlock {
        diagnostics := diagnostics + [ErrorAt(loc, OptionsInWorldBlock("Sampler"))];
        return;
      }
      setup := setup.(sampler := SceneEntity(name, dict, loc));
    }

    method Accelerator(name: string, params: seq<ParsedParameter>, loc: FileLoc)
      requires Valid() && fatal.None?
      modifies this
      ensures Valid()
      ensures old(setup.apiState) == WorldBlock ==>
        Snapshot() == Logged(old(Snapshot()), ErrorAt(loc, OptionsInWorldBlock("Accelerator")))
      ensures old(setup.apiState) == OptionsBlock ==>
        Snapshot() == old(Snapshot()).(setup := old(setup).(accelerator := SceneEntity(name,
          ParameterDictionary(params, [], Some(old(scope.graphicsState.colorSpace))), loc)))
    {
      var dict := ParameterDictionary(params, [], Some(scope.graphicsState.colorSpace));
      if setup.apiState == WorldBlock {
        diagnostics := diagnostics + [ErrorAt(loc, OptionsInWorldBlock("Accelerator"))];
        return;
      }
      setup := setup.(accelerator := SceneEntity(name, dict, loc));
    }

    method Integrator(name: string, params: seq<ParsedParameter>, loc: FileLoc)
      requires Valid() && fatal.None?
      modifies this
      ensures Valid()
      ensures old(setup.apiState) == WorldBlock ==>
        Snapshot() == Logged(old(Snapshot()), ErrorAt(loc, OptionsInWorldBlock("Integrator")))
      ensures old(setup.apiState) == OptionsBlock ==>
        Snapshot() == old(Snapshot()).(setup := old(setup).(integrator := SceneEntity(name,
          ParameterDictionary(params, [], Some(old(scope.graphicsState.colorSpace))), loc)))
    {
      var dict := ParameterDictionary(params, [], Some(scope.graphicsState.colorSpace));
      if setup.apiState == WorldBlock {
        diagnostics := diagnostics + [ErrorAt(loc, OptionsInWorldBlock("Integrator"))];
        return;
      }
      setup := setup.(integrator := SceneEntity(name, dict, loc));
    }

    /**
     * Records the camera: the camera-relative translation of each slot,
     * the "camera" coordinate system (world from camera) and the camera
     * entity, whose transforms are the world-from-camera transforms with
     * that translation factored out. The current transform is left as is.
     */
    method Camera(name: string, params: seq<ParsedParameter>, loc: FileLoc)
      requires Valid() && fatal.None?
      modifies this, cache
      ensures Valid()
      ensures old(setup.apiState) == WorldBlock ==>
        Snapshot() == Logged(old(Snapshot()), ErrorAt(loc, OptionsInWorldBlock("Camera")))
      ensures old(setup.apiState) == OptionsBlock ==>
        var ct := old(scope.curTransform);
        var cft := TransformSet(ops.cameraTranslation(ops.inverse(ct.start)),
                                ops.cameraTranslation(ops.inverse(ct.end)));
        var w := TransformSet(ops.inverse(ops.compose(ct.start, ops.inverse(cft.start))),
                              ops.inverse(ops.compose(ct.end, ops.inverse(cft.end))));
        && cache.stored == Interned(Interned(old(cache.stored), w.start), w.end)
        && Snapshot() == old(Snapshot()).(
             setup := old(setup).(
               cameraFromWorldT := cft,
               namedCoordinateSystems := old(setup.namedCoordinateSystems)["camera" := Inverted(ct)],
               camera := CameraSceneEntity(name,
                 ParameterDictionary(params, [], Some(old(scope.graphicsState.colorSpace))), loc,
                 Frozen(cache.stored, w, old(setup.transformStartTime), old(setup.transformEndTime)),
                 old(scope.graphicsState.currentOutsideMedium))),
             transforms := cache.stored)
    {
      var dict := ParameterDictionary(params, [], Some(scope.graphicsState.colorSpace));
      if setup.apiState == WorldBlock {
        diagnostics := diagnostics + [ErrorAt(loc, OptionsInWorldBlock("Camera"))];
        return;
      }
      var cameraFromWorld := scope.curTransform;
      var worldFromCamera := Inverted(scope.curTransform);
      var cft := setup.cameraFromWorldT;
      for i := 0 to MaxTransforms
        invariant forall j :: 0 <= j < i ==> cft.At(j) == ops.cameraTranslation(worldFromCamera.At(j))
      {
        cft := cft.With(i, ops.cameraTranslation(worldFromCamera.At(i)));
      }
      assert cft.At(0) == cft.start && cft.At(1) == cft.end;
      setup := setup.(
        cameraFromWorldT := cft,
        namedCoordinateSystems := setup.namedCoordinateSystems["camera" := Inverted(cameraFromWorld)]);
      var worldFromCameraAT := Freeze(TransformSet(
        ops.inverse(ops.compose(cameraFromWorld.start, ops.inverse(cft.start))),
        ops.inverse(ops.compose(cameraFromWorld.end, ops.inverse(cft.end)))));
      setup := setup.(camera :=
        CameraSceneEntity(name, dict, loc, worldFromCameraAT, scope.graphicsState.currentOutsideMedium));
    }

    // ---------------------------------------------------------------------
    // Media (VERIFY_INITIALIZED only: legal in both blocks).

    /**
     * Defines a named medium under the current transform. Redefinition is
     * fatal; an animated current transform draws a warning first.
     */
    method MakeNamedMedium(name: string, params: seq<ParsedParameter>, loc: FileLoc)
      requires Valid() && fatal.None?
      modifies this, cache
      ensures Valid()
      ensures var warned := if IsAnimated(old(scope.curTransform))
                then old(diagnostics) + [WarningAt(loc, AnimatedTransformIgnored("MakeNamedMedium"))]
                else old(diagnostics);
        name in old(entities.media) ==>
          Snapshot() == old(Snapshot()).(diagnostics := warned,
                                         fatal := Some(FatalAt(loc, NamedMediumRedefined(name))))
      ensures var warned := if IsAnimated(old(scope.curTransform))
                then old(diagnostics) + [WarningAt(loc, AnimatedTransformIgnored("MakeNamedMedium"))]
                else old(diagnostics);
        var gs, ct := old(scope.graphicsState), old(scope.curTransform);
        name !in old(entities.media) ==>
          && cache.stored == Interned(Interned(old(cache.stored), ct.start), ct.end)
          && Snapshot() == old(Snapshot()).(
               entities := old(entities).(media := old(entities.media)[name := TransformedSceneEntity(name,
                 ParameterDictionary(params, gs.mediumAttributes, Some(gs.colorSpace)), loc,
                 Frozen(cache.stored, ct, old(setup.transformStartTime), old(setup.transformEndTime)))]),
               transforms := cache.stored,
               diagnostics := warned)
    {
      if IsAnimated(scope.curTransform) {
        diagnostics := diagnostics + [WarningAt(loc, AnimatedTransformIgnored("MakeNamedMedium"))];
      }
      var dict := ParameterDictionary(params, scope.graphicsState.mediumAttributes,
                                      Some(scope.graphicsState.colorSpace));
      if name in entities.media {
        fatal := Some(FatalAt(loc, NamedMediumRedefined(name)));
        return;
      }
      var worldFromMedium := Freeze(scope.curTransform);
      entities := entities.(media := entities.media[name := TransformedSceneEntity(name, dict, loc, worldFromMedium)]);
    }

    method MediumInterface(insideName: string, outsideName: string, loc: FileLoc)
      requires Valid() && fatal.None?
      modifies this
      ensures Valid()
      ensures Snapshot() == old(Snapshot()).(
        scope := old(scope).(graphicsState := old(scope.graphicsState).(
          currentInsideMedium := insideName, currentOutsideMedium := outsideName)),
        entities := old(entities).(haveScatteringMedia := true))
    {
      scope := scope.(graphicsState := scope.graphicsState.(
        currentInsideMedium := insideName, currentOutsideMedium := outsideName));
      entities := entities.(haveScatteringMedia := true);
    }

    // ---------------------------------------------------------------------
    // Block structure.

    /**
     * Enters the world block: both slots become the identity, both are
     * selected, and that transform set is saved as "world".
     */
    method WorldBegin(loc: FileLoc)
      requires Valid() && fatal.None?
      modifies this
      ensures Valid()
      ensures old(setup.apiState) == WorldBlock ==>
        Snapshot() == Logged(old(Snapshot()), ErrorAt(loc, OptionsInWorldBlock("WorldBegin")))
      ensures old(setup.apiState) == OptionsBlock ==>
        var id := TransformSet(ops.identity, ops.identity);
        Snapshot() == old(Snapshot()).(
          setup := old(setup).(
            apiState := WorldBlock,
            namedCoordinateSystems := old(setup.namedCoordinateSystems)["world" := id]),
          scope := old(scope).(curTransform := id, activeTransformBits := AllTransformsBits))
    {
      if setup.apiState == WorldBlock {
        diagnostics := diagnostics + [ErrorAt(loc, OptionsInWorldBlock("WorldBegin"))];
        return;
      }
      setup := setup.(apiState := WorldBlock);
      var ct := scope.curTransform;
      for i := 0 to MaxTransforms
        invariant forall j :: 0 <= j < i ==> ct.At(j) == ops.identity
      {
        ct := ct.With(i, ops.identity);
      }
      assert ct.At(0) == ct.start && ct.At(1) == ct.end;
      scope := scope.(curTransform := ct, activeTransformBits := AllTransformsBits);
      setup := setup.(namedCoordinateSystems := setup.namedCoordinateSystems["world" := ct]);
    }

    /** Opens an attribute scope: saves graphics state, transform and mask. */
    method AttributeBegin(loc: FileLoc)
      requires Valid() && fatal.None?
      modifies this
      ensures Valid()
      ensures old(setup.apiState) == OptionsBlock ==>
        Snapshot() == Logged(old(Snapshot()), ErrorAt(loc, WorldDirectiveInOptionsBlock("AttributeBegin")))
      ensures old(setup.apiState) == WorldBlock ==>
        Snapshot() == old(Snapshot()).(scope := old(scope).Saved(AttributeScope, loc))
    {
      if setup.apiState == OptionsBlock {
        diagnostics := diagnostics + [ErrorAt(loc, WorldDirectiveInOptionsBlock("AttributeBegin"))];
        return;
      }
      scope := scope.Saved(AttributeScope, loc);
    }

    /**
     * Closes an attribute scope. With no saved graphics state it is an
     * error and is ignored. Otherwise graphics state, transform and mask are
     * restored, and an open transform or object scope on top is fatal.
     */
    method AttributeEnd(loc: FileLoc)
      requires Valid() && fatal.None?
      modifies this
      ensures Valid()
      ensures old(setup.apiState) == OptionsBlock ==>
        Snapshot() == Logged(old(Snapshot()), ErrorAt(loc, WorldDirectiveInOptionsBlock("AttributeEnd")))
      ensures old(setup.apiState) == WorldBlock && |old(scope.pushedGraphicsStates)| == 0 ==>
        Snapshot() == Logged(old(Snapshot()), ErrorAt(loc, UnmatchedEnd(AttributeScope)))
      ensures old(setup.apiState) == WorldBlock && |old(scope.pushedGraphicsStates)| > 0 ==>
        var sc := old(scope);
        var top := Last(sc.pushStack);
        Snapshot() == old(Snapshot()).(
          scope := sc.(
            graphicsState := Last(sc.pushedGraphicsStates),
            pushedGraphicsStates := DropLast(sc.pushedGraphicsStates),
            curTransform := Last(sc.pushedTransforms),
            pushedTransforms := DropLast(sc.pushedTransforms),
            activeTransformBits := Last(sc.pushedActiveTransformBits),
            pushedActiveTransformBits := DropLast(sc.pushedActiveTransformBits),
            pushStack := if top.kind == AttributeScope then DropLast(sc.pushStack) else sc.pushStack),
          fatal := if top.kind == AttributeScope then None
                   else Some(FatalAt(loc, MismatchedNesting(top.kind, top.loc, AttributeScope))))
    {
      if setup.apiState == OptionsBlock {
        diagnostics := diagnostics + [ErrorAt(loc, WorldDirectiveInOptionsBlock("AttributeEnd"))];
        return;
      }
      if |scope.pushedGraphicsStates| == 0 {
        diagnostics := diagnostics + [ErrorAt(loc, UnmatchedEnd(AttributeScope))];
        return;
      }
      CountsPop(scope.pushStack);
      scope := scope.(
        graphicsState := Last(scope.pushedGraphicsStates),
        pushedGraphicsStates := DropLast(scope.pushedGraphicsStates),
        curTransform := Last(scope.pushedTransforms),
        pushedTransforms := DropLast(scope.pushedTransforms),
        activeTransformBits := Last(scope.pushedActiveTransformBits),
        pushedActiveTransformBits := DropLast(scope.pushedActiveTransformBits));
      var top := Last(scope.pushStack);
      if top.kind == TransformScope {
        fatal := Some(FatalAt(loc, MismatchedNesting(TransformScope, top.loc, AttributeScope)));
        return;
      } else if top.kind == ObjectScope {
        fatal := Some(FatalAt(loc, MismatchedNesting(ObjectScope, top.loc, AttributeScope)));
        return;
      }
      scope := scope.(pushStack := DropLast(scope.pushStack));
    }

    /**
     * Appends parameters to the inherited list of one category, each marked
     * possibly unused and tagged with the current colour space. An unknown
     * category is fatal.
     */
    method Attribute(target: string, attrib: seq<ParsedParameter>, loc: FileLoc)
      requires Valid() && fatal.None?
      modifies this
      ensures Valid()
      ensures TargetNamed(target).None? ==>
        Snapshot() == Aborted(old(Snapshot()), FatalAt(loc, UnknownAttributeTarget(target)))
      ensures TargetNamed(target).Some? ==>
        var t, gs := TargetNamed(target).value, old(scope.graphicsState);
        Snapshot() == old(Snapshot()).(scope := old(scope).(
          graphicsState := gs.WithAttributes(t, gs.Attributes(t) + MarkedInherited(attrib, gs.colorSpace))))
    {
      var t := TargetNamed(target);
      if t.None? {
        fatal := Some(FatalAt(loc, UnknownAttributeTarget(target)));
        return;
      }
      var gs := scope.graphicsState;
      var appended := AppendAttributes(gs.Attributes(t.value), attrib, gs.colorSpace);
      scope := scope.(graphicsState := gs.WithAttributes(t.value, appended));
    }

    /** Opens a transform scope: saves transform and mask, but not the graphics state. */
    method TransformBegin(loc: FileLoc)
      requires Valid() && fatal.None?
      modifies this
      ensures Valid()
      ensures old(setup.apiState) == OptionsBlock ==>
        Snapshot() == Logged(old(Snapshot()), ErrorAt(loc, WorldDirectiveInOptionsBlock("TransformBegin")))
      ensures old(setup.apiState) == WorldBlock ==>
        var sc := old(scope);
        Snapshot() == old(Snapshot()).(scope := sc.(
          pushedTransforms := sc.pushedTransforms + [sc.curTransform],
          pushedActiveTransformBits := sc.pushedActiveTransformBits + [sc.activeTransformBits],
          pushStack := sc.pushStack + [PushedScope(TransformScope, loc)]))
    {
      if setup.apiState == OptionsBlock {
        diagnostics := diagnostics + [ErrorAt(loc, WorldDirectiveInOptionsBlock("TransformBegin"))];
        return;
      }
      CountsPush(scope.pushStack, PushedScope(TransformScope, loc));
      scope := scope.(
        pushedTransforms := scope.pushedTransforms + [scope.curTransform],
        pushedActiveTransformBits := scope.pushedActiveTransformBits + [scope.activeTransformBits],
        pushStack := scope.pushStack + [PushedScope(TransformScope, loc)]);
    }

    /**
     * Closes a transform scope. With no saved transform it is an error and
     * is ignored. Otherwise transform and mask are restored, and an open
     * attribute or object scope on top is fatal.
     */
    method TransformEnd(loc: FileLoc)
      requires Valid() && fatal.None?
      modifies this
      ensures Valid()
      ensures old(setup.apiState) == OptionsBlock ==>
        Snapshot() == Logged(old(Snapshot()), ErrorAt(loc, WorldDirectiveInOptionsBlock("TransformEnd")))
      ensures old(setup.apiState) == WorldBlock && |old(scope.pushedTransforms)| == 0 ==>
        Snapshot() == Logged(old(Snapshot()), ErrorAt(loc, UnmatchedEnd(TransformScope)))
      ensures old(setup.apiState) == WorldBlock && |old(scope.pushedTransforms)| > 0 ==>
        var sc := old(scope);
        var top := Last(sc.pushStack);
        Snapshot() == old(Snapshot()).(
          scope := sc.(
            curTransform := Last(sc.pushedTransforms),
            pushedTransforms := DropLast(sc.pushedTransforms),
            activeTransformBits := Last(sc.pushedActiveTransformBits),
            pushedActiveTransformBits := DropLast(sc.pushedActiveTransformBits),
            pushStack := if top.kind == TransformScope then DropLast(sc.pushStack) else sc.pushStack),
          fatal := if top.kind == TransformScope then None
                   else Some(FatalAt(loc, MismatchedNesting(top.kind, top.loc, TransformScope))))
    {
      if setup.apiState == OptionsBlock {
        diagnostics := diagnostics + [ErrorAt(loc, WorldDirectiveInOptionsBlock("TransformEnd"))];
        return;
      }
      if |scope.pushedTransforms| == 0 {
        diagnostics := diagnostics + [ErrorAt(loc, UnmatchedEnd(TransformScope))];
        return;
      }
      CountsPop(scope.pushStack);
      scope := scope.(
        curTransform := Last(scope.pushedTransforms),
        pushedTransforms := DropLast(scope.pushedTransforms),
        activeTransformBits := Last(scope.pushedActiveTransformBits),
        pushedActiveTransformBits := DropLast(scope.pushedActiveTransformBits));
      var top := Last(scope.pushStack);
      if top.kind == AttributeScope {
        fatal := Some(FatalAt(loc, MismatchedNesting(AttributeScope, top.loc, TransformScope)));
        return;
      } else if top.kind == ObjectScope {
        fatal := Some(FatalAt(loc, MismatchedNesting(ObjectScope, top.loc, TransformScope)));
        return;
      }
      scope := scope.(pushStack := DropLast(scope.pushStack));
    }

    // ---------------------------------------------------------------------
    // World-block directives (VERIFY_WORLD): ignored with an error in the
    // options block.

    /**
     * Declares a float or spectrum texture under the current transform.
     * Both slots are interned before the type is checked; an unknown type,
     * or a name already used in the same list, is fatal.
     */
    method Texture(name: string, textureType: string, texName: string,
                   params: seq<ParsedParameter>, loc: FileLoc)
      requires Valid() && fatal.None?
      modifies this, cache
      ensures Valid()
      ensures old(setup.apiState) == OptionsBlock ==>
        Snapshot() == Logged(old(Snapshot()), ErrorAt(loc, WorldDirectiveInOptionsBlock("Texture")))
      ensures old(setup.apiState) == WorldBlock ==>
        var ct := old(scope.curTransform);
        cache.stored == Interned(Interned(old(cache.stored), ct.start), ct.end)
      ensures old(setup.apiState) == WorldBlock ==>
        var gs, ct, en := old(scope.graphicsState), old(scope.curTransform), old(entities);
        var entity := TransformedSceneEntity(texName,
          ParameterDictionary(params, gs.textureAttributes, Some(gs.colorSpace)), loc,
          Frozen(cache.stored, ct, old(setup.transformStartTime), old(setup.transformEndTime)));
        var textures := if textureType == "float" then en.floatTextures else en.spectrumTextures;
        var s := old(Snapshot()).(transforms := cache.stored);
        Snapshot() ==
          if textureType != "float" && textureType != "spectrum" then
            Aborted(s, FatalAt(loc, UnknownTextureType(textureType)))
          else if HasTexture(textures, name) then
            Aborted(s, FatalAt(loc, TextureRedefined(name)))
          else if textureType == "float" then
            s.(entities := en.(floatTextures := en.floatTextures + [(name, entity)]))
          else
            s.(entities := en.(spectrumTextures := en.spectrumTextures + [(name, entity)]))
    {
      if setup.apiState == OptionsBlock {
        diagnostics := diagnostics + [ErrorAt(loc, WorldDirectiveInOptionsBlock("Texture"))];
        return;
      }
      var dict := ParameterDictionary(params, scope.graphicsState.textureAttributes,
                                      Some(scope.graphicsState.colorSpace));
      var worldFromTexture := Freeze(scope.curTransform);
      if textureType != "float" && textureType != "spectrum" {
        fatal := Some(FatalAt(loc, UnknownTextureType(textureType)));
        return;
      }
      var textures := if textureType == "float" then entities.floatTextures else entities.spectrumTextures;
      var defined := TextureDefined(textures, name);
      if defined {
        fatal := Some(FatalAt(loc, TextureRedefined(name)));
        return;
      }
      var entry := (name, TransformedSceneEntity(texName, dict, loc, worldFromTexture));
      if textureType == "float" {
        entities := entities.(floatTextures := entities.floatTextures + [entry]);
      } else {
        entities := entities.(spectrumTextures := entities.spectrumTextures + [entry]);
      }
    }

    /** Appends a material and selects it by index, clearing any name selection. */
    method Material(name: string, params: seq<ParsedParameter>, loc: FileLoc)
      requires Valid() && fatal.None?
      modifies this
      ensures Valid()
      ensures old(setup.apiState) == OptionsBlock ==>
        Snapshot() == Logged(old(Snapshot()), ErrorAt(loc, WorldDirectiveInOptionsBlock("Material")))
      ensures old(setup.apiState) == WorldBlock ==>
        var gs := old(scope.graphicsState);
        Snapshot() == old(Snapshot()).(
          entities := old(entities).(materials := old(entities.materials) + [SceneEntity(name,
            ParameterDictionary(params, gs.materialAttributes, Some(gs.colorSpace)), loc)]),
          scope := old(scope).(graphicsState :=
            gs.(currentMaterialIndex := |old(entities.materials)|, currentMaterialName := "")))
    {
      if setup.apiState == OptionsBlock {
        diagnostics := diagnostics + [ErrorAt(loc, WorldDirectiveInOptionsBlock("Material"))];
        return;
      }
      var dict := ParameterDictionary(params, scope.graphicsState.materialAttributes,
                                      Some(scope.graphicsState.colorSpace));
      entities := entities.(materials := entities.materials + [SceneEntity(name, dict, loc)]);
      scope := scope.(graphicsState := scope.graphicsState.(
        currentMaterialIndex := |entities.materials| - 1, currentMaterialName := ""));
    }

    /**
     * Defines a named material; its type stays inside the parameters.
     * Redefinition is fatal (reported without a location).
     */
    method MakeNamedMaterial(name: string, params: seq<ParsedParameter>, loc: FileLoc)
      requires Valid() && fatal.None?
      modifies this
      ensures Valid()
      ensures old(setup.apiState) == OptionsBlock ==>
        Snapshot() == Logged(old(Snapshot()), ErrorAt(loc, WorldDirectiveInOptionsBlock("MakeNamedMaterial")))
      ensures old(setup.apiState) == WorldBlock && name in old(entities.namedMaterials) ==>
        Snapshot() == Aborted(old(Snapshot()), Diagnostic(Fatal, None, NamedMaterialRedefined(name)))
      ensures old(setup.apiState) == WorldBlock && name !in old(entities.namedMaterials) ==>
        var gs := old(scope.graphicsState);
        Snapshot() == old(Snapshot()).(
          entities := old(entities).(namedMaterials := old(entities.namedMaterials)[name := SceneEntity("",
            ParameterDictionary(params, gs.materialAttributes, Some(gs.colorSpace)), loc)]))
    {
      if setup.apiState == OptionsBlock {
        diagnostics := diagnostics + [ErrorAt(loc, WorldDirectiveInOptionsBlock("MakeNamedMaterial"))];
        return;
      }
      var dict := ParameterDictionary(params, scope.graphicsState.materialAttributes,
                                      Some(scope.graphicsState.colorSpace));
      if name in entities.namedMaterials {
        fatal := Some(Diagnostic(Fatal, None, NamedMaterialRedefined(name)));
        return;
      }
      entities := entities.(namedMaterials := entities.namedMaterials[name := SceneEntity("", dict, loc)]);
    }

    /** Selects a material by name; the index becomes the sentinel -1. */
    method NamedMaterial(name: string, loc: FileLoc)
      requires Valid() && fatal.None?
      modifies this
      ensures Valid()
      ensures old(setup.apiState) == OptionsBlock ==>
        Snapshot() == Logged(old(Snapshot()), ErrorAt(loc, WorldDirectiveInOptionsBlock("NamedMaterial")))
      ensures old(setup.apiState) == WorldBlock ==>
        Snapshot() == old(Snapshot()).(scope := old(scope).(
          graphicsState := old(scope.graphicsState).(currentMaterialName := name, currentMaterialIndex := -1)))
    {
      if setup.apiState == OptionsBlock {
        diagnostics := diagnostics + [ErrorAt(loc, WorldDirectiveInOptionsBlock("NamedMaterial"))];
        return;
      }
      scope := scope.(graphicsState := scope.graphicsState.(currentMaterialName := name, currentMaterialIndex := -1));
    }

    /** Appends a light under the current transform, in the current outside medium. */
    method LightSource(name: string, params: seq<ParsedParameter>, loc: FileLoc)
      requires Valid() && fatal.None?
      modifies this, cache
      ensures Valid()
      ensures old(setup.apiState) == OptionsBlock ==>
        Snapshot() == Logged(old(Snapshot()), ErrorAt(loc, WorldDirectiveInOptionsBlock("LightSource")))
      ensures old(setup.apiState) == WorldBlock ==>
        var gs, ct := old(scope.graphicsState), old(scope.curTransform);
        && cache.stored == Interned(Interned(old(cache.stored), ct.start), ct.end)
        && Snapshot() == old(Snapshot()).(
             entities := old(entities).(lights := old(entities.lights) + [LightSceneEntity(name,
               ParameterDictionary(params, gs.lightAttributes, Some(gs.colorSpace)), loc,
               Frozen(cache.stored, ct, old(setup.transformStartTime), old(setup.transformEndTime)),
               gs.currentOutsideMedium)]),
             transforms := cache.stored)
    {
      if setup.apiState == OptionsBlock {
        diagnostics := diagnostics + [ErrorAt(loc, WorldDirectiveInOptionsBlock("LightSource"))];
        return;
      }
      var dict := ParameterDictionary(params, scope.graphicsState.lightAttributes,
                                      Some(scope.graphicsState.colorSpace));
      var worldFromLight := Freeze(scope.curTransform);
      entities := entities.(lights := entities.lights +
        [LightSceneEntity(name, dict, loc, worldFromLight, scope.graphicsState.currentOutsideMedium)]);
    }

    /** Makes later shapes of this scope emissive; nothing is appended yet. */
    method AreaLightSource(name: string, params: seq<ParsedParameter>, loc: FileLoc)
      requires Valid() && fatal.None?
      modifies this
      ensures Valid()
      ensures old(setup.apiState) == OptionsBlock ==>
        Snapshot() == Logged(old(Snapshot()), ErrorAt(loc, WorldDirectiveInOptionsBlock("AreaLightSource")))
      ensures old(setup.apiState) == WorldBlock ==>
        var gs := old(scope.graphicsState);
        Snapshot() == old(Snapshot()).(scope := old(scope).(graphicsState := gs.(
          areaLightName := name,
          areaLightParams := ParameterDictionary(params, gs.lightAttributes, Some(gs.colorSpace)),
          areaLightLoc := loc)))
    {
      if setup.apiState == OptionsBlock {
        diagnostics := diagnostics + [ErrorAt(loc, WorldDirectiveInOptionsBlock("AreaLightSource"))];
        return;
      }
      var gs := scope.graphicsState;
      scope := scope.(graphicsState := gs.(
        areaLightName := name,
        areaLightParams := ParameterDictionary(params, gs.lightAttributes, Some(gs.colorSpace)),
        areaLightLoc := loc));
    }

    /**
     * Appends a shape. A pending area light is copied into a new area-light
     * entity that the shape links to, and stays pending. The shape goes to
     * the open object definition if there is one, otherwise to the scene,
     * and to the animated list exactly when the two slots differ.
     */
    method Shape(name: string, params: seq<ParsedParameter>, loc: FileLoc)
      requires Valid() && fatal.None?
      modifies this, cache
      ensures Valid()
      ensures old(setup.apiState) == OptionsBlock ==>
        Snapshot() == Logged(old(Snapshot()), ErrorAt(loc, WorldDirectiveInOptionsBlock("Shape")))
      ensures old(setup.apiState) == WorldBlock && !IsAnimated(old(scope.curTransform)) ==>
        var ct := old(scope.curTransform);
        cache.stored == Interned(Interned(old(cache.stored), ct.start), ops.inverse(ct.start))
      ensures old(setup.apiState) == WorldBlock ==>
        var gs, ci := old(scope.graphicsState), old(scope.currentInstance);
        setup == old(setup) && scope == old(scope) && fatal == old(fatal) &&
        diagnostics == if gs.areaLightName != "" && ci.Some?
                       then old(diagnostics) + [WarningAt(loc, AreaLightWithInstancing)]
                       else old(diagnostics)
      ensures old(setup.apiState) == WorldBlock && !IsAnimated(old(scope.curTransform)) ==>
        var gs, ct, en, ci := old(scope.graphicsState), old(scope.curTransform), old(entities), old(scope.currentInstance);
        entities == ShapeLights(en, gs).WithShape(ci, StaticShape(cache.stored, ct, gs, name,
          ParameterDictionary(params, gs.shapeAttributes, Some(gs.colorSpace)), loc, ShapeLightIndex(en, gs)))
      ensures old(setup.apiState) == WorldBlock && IsAnimated(old(scope.curTransform)) ==>
        var ct := old(scope.curTransform);
        cache.stored == Interned(Interned(Interned(old(cache.stored), ct.start), ct.end), ops.identity)
      ensures old(setup.apiState) == WorldBlock && IsAnimated(old(scope.curTransform)) ==>
        var gs, ct, en, ci := old(scope.graphicsState), old(scope.curTransform), old(entities), old(scope.currentInstance);
        entities == ShapeLights(en, gs).WithAnimatedShape(ci, AnimatedShape(cache.stored, ct,
          old(setup.transformStartTime), old(setup.transformEndTime), gs, name,
          ParameterDictionary(params, gs.shapeAttributes, Some(gs.colorSpace)), loc, ShapeLightIndex(en, gs)))
    {
      if setup.apiState == OptionsBlock {
        diagnostics := diagnostics + [ErrorAt(loc, WorldDirectiveInOptionsBlock("Shape"))];
        return;
      }
      if IsAnimated(scope.curTransform) {
        AddAnimatedShape(name, params, loc);
      } else {
        AddStaticShape(name, params, loc);
      }
    }

    /** The world-block branch of `Shape` for a static transform. */
    method AddStaticShape(name: string, params: seq<ParsedParameter>, loc: FileLoc)
      requires Valid() && fatal.None? && !IsAnimated(scope.curTransform)
      modifies this, cache
      ensures Valid()
      ensures var ct := old(scope.curTransform);
        cache.stored == Interned(Interned(old(cache.stored), ct.start), ops.inverse(ct.start))
      ensures var gs, ci := old(scope.graphicsState), old(scope.currentInstance);
        setup == old(setup) && scope == old(scope) && fatal == old(fatal) &&
        diagnostics == if gs.areaLightName != "" && ci.Some?
                       then old(diagnostics) + [WarningAt(loc, AreaLightWithInstancing)]
                       else old(diagnostics)
      ensures var gs, ct, en, ci := old(scope.graphicsState), old(scope.curTransform), old(entities), old(scope.currentInstance);
        entities == ShapeLights(en, gs).WithShape(ci, StaticShape(cache.stored, ct, gs, name,
          ParameterDictionary(params, gs.shapeAttributes, Some(gs.colorSpace)), loc, ShapeLightIndex(en, gs)))
    {
      var gs, ct, ci := scope.graphicsState, scope.curTransform, scope.currentInstance;
      var dict := ParameterDictionary(params, gs.shapeAttributes, Some(gs.colorSpace));
      var en, areaLightIndex := ShapeLights(entities, gs), ShapeLightIndex(entities, gs);
      if ci.Some? && gs.areaLightName != "" {
        diagnostics := diagnostics + [WarningAt(loc, AreaLightWithInstancing)];
      }
      var e := StaticShapeEntity(ct, gs, name, dict, loc, areaLightIndex);
      entities := en.WithShape(ci, e);
    }

    /** The world-block branch of `Shape` for an animated transform. */
    method AddAnimatedShape(name: string, params: seq<ParsedParameter>, loc: FileLoc)
      requires Valid() && fatal.None? && IsAnimated(scope.curTransform)
      modifies this, cache
      ensures Valid()
      ensures var ct := old(scope.curTransform);
        cache.stored == Interned(Interned(Interned(old(cache.stored), ct.start), ct.end), ops.identity)
      ensures var gs, ci := old(scope.graphicsState), old(scope.currentInstance);
        setup == old(setup) && scope == old(scope) && fatal == old(fatal) &&
        diagnostics == if gs.areaLightName != "" && ci.Some?
                       then old(diagnostics) + [WarningAt(loc, AreaLightWithInstancing)]
                       else old(diagnostics)
      ensures var gs, ct, en, ci := old(scope.graphicsState), old(scope.curTransform), old(entities), old(scope.currentInstance);
        entities == ShapeLights(en, gs).WithAnimatedShape(ci, AnimatedShape(cache.stored, ct,
          old(setup.transformStartTime), old(setup.transformEndTime), gs, name,
          ParameterDictionary(params, gs.shapeAttributes, Some(gs.colorSpace)), loc, ShapeLightIndex(en, gs)))
    {
      var gs, ct, ci := scope.graphicsState, scope.curTransform, scope.currentInstance;
      var dict := ParameterDictionary(params, gs.shapeAttributes, Some(gs.colorSpace));
      var en, areaLightIndex := ShapeLights(entities, gs), ShapeLightIndex(entities, gs);
      if ci.Some? && gs.areaLightName != "" {
        diagnostics := diagnostics + [WarningAt(loc, AreaLightWithInstancing)];
      }
      var e := AnimatedShapeEntity(ct, gs, name, dict, loc, areaLightIndex);
      entities := en.WithAnimatedShape(ci, e);
    }

    /**
     * The shape entity of `Shape` under a static transform: the start slot
     * `ct.start` and its inverse are interned, in that order.
     */
    method StaticShapeEntity(ct: TransformSet<T>, gs: GraphicsState, name: string,
                             dict: ParameterDictionary, loc: FileLoc, areaLightIndex: int)
      returns (e: ShapeSceneEntity)
      requires cache.Valid()
      modifies cache
      ensures cache.Valid()
      ensures cache.stored == Interned(Interned(old(cache.stored), ct.start), ops.inverse(ct.start))
      ensures e == StaticShape(cache.stored, ct, gs, name, dict, loc, areaLightIndex)
    {
      var worldFromObject := cache.Lookup(ct.start);
      ghost var s1 := cache.stored;
      var objectFromWorld := cache.Lookup(ops.inverse(ct.start));
      InternedKeepsHandles(s1, ops.inverse(ct.start), ct.start);
      e := ShapeSceneEntity(name, dict, loc, worldFromObject, objectFromWorld,
        gs.reverseOrientation, gs.currentMaterialIndex, gs.currentMaterialName, areaLightIndex,
        gs.currentInsideMedium, gs.currentOutsideMedium);
    }

    /**
     * The shape entity of `Shape` under an animated transform: both slots
     * of `ct` and then the identity are interned.
     */
    method AnimatedShapeEntity(ct: TransformSet<T>, gs: GraphicsState, name: string,
                               dict: ParameterDictionary, loc: FileLoc, areaLightIndex: int)
      returns (e: AnimatedShapeSceneEntity)
      requires cache.Valid()
      modifies cache
      ensures cache.Valid()
      ensures cache.stored == Interned(Interned(Interned(old(cache.stored), ct.start), ct.end), ops.identity)
      ensures e == AnimatedShape(cache.stored, ct, setup.transformStartTime, setup.transformEndTime,
                                 gs, name, dict, loc, areaLightIndex)
    {
      var worldFromShape := Freeze(ct);
      ghost var s2 := cache.stored;
      var identity := cache.Lookup(ops.identity);
      FrozenKept(s2, ops.identity, ct, setup.transformStartTime, setup.transformEndTime);
      e := AnimatedShapeSceneEntity(name, dict, loc, worldFromShape, identity,
        gs.reverseOrientation, gs.currentMaterialIndex, gs.currentMaterialName, areaLightIndex,
        gs.currentInsideMedium, gs.currentOutsideMedium);
    }

    /** Flips the orientation flag of the graphics state. */
    method ReverseOrientation(loc: FileLoc)
      requires Valid() && fatal.None?
      modifies this
      ensures Valid()
      ensures old(setup.apiState) == OptionsBlock ==>
        Snapshot() == Logged(old(Snapshot()), ErrorAt(loc, WorldDirectiveInOptionsBlock("ReverseOrientation")))
      ensures old(setup.apiState) == WorldBlock ==>
        Snapshot() == old(Snapshot()).(scope := old(scope).(
          graphicsState := old(scope.graphicsState).(reverseOrientation := !old(scope.graphicsState.reverseOrientation))))
    {
      if setup.apiState == OptionsBlock {
        diagnostics := diagnostics + [ErrorAt(loc, WorldDirectiveInOptionsBlock("ReverseOrientation"))];
        return;
      }
      scope := scope.(graphicsState := scope.graphicsState.(reverseOrientation := !scope.graphicsState.reverseOrientation));
    }

    // ---------------------------------------------------------------------
    // Object instancing.

    /**
     * Opens an object definition. The scope is pushed like an attribute
     * scope before anything is checked; a definition already open, or a
     * name already defined, is then fatal.
     */
    method ObjectBegin(name: string, loc: FileLoc)
      requires Valid() && fatal.None?
      modifies this
      ensures Valid()
      ensures old(setup.apiState) == OptionsBlock ==>
        Snapshot() == Logged(old(Snapshot()), ErrorAt(loc, WorldDirectiveInOptionsBlock("ObjectBegin")))
      ensures old(setup.apiState) == WorldBlock ==>
        var sc := old(scope).Saved(ObjectScope, loc);
        var s := old(Snapshot()).(scope := sc);
        Snapshot() ==
          if sc.currentInstance.Some? then Aborted(s, FatalAt(loc, ObjectBeginInsideDefinition))
          else if name in old(entities.instanceDefinitions) then Aborted(s, FatalAt(loc, ObjectRedefined(name)))
          else s.(scope := sc.(currentInstance := Some(name)),
                  entities := old(entities).(instanceDefinitions :=
                    old(entities.instanceDefinitions)[name := EmptyDefinition]))
    {
      if setup.apiState == OptionsBlock {
        diagnostics := diagnostics + [ErrorAt(loc, WorldDirectiveInOptionsBlock("ObjectBegin"))];
        return;
      }
      var sc := scope.Saved(ObjectScope, loc);
      // The "name" parameter built from the instance's name is never put
      // into the list handed to Attribute("shape", ...), so that call
      // appends nothing and the shape attributes stay as they were.
      var gs := sc.graphicsState;
      var shapeAttributes := AppendAttributes(gs.shapeAttributes, [], gs.colorSpace);
      assert shapeAttributes == shapeAttributes[..|gs.shapeAttributes|];
      sc := sc.(graphicsState := gs.(shapeAttributes := shapeAttributes));
      scope := sc;
      if sc.currentInstance.Some? {
        fatal := Some(FatalAt(loc, ObjectBeginInsideDefinition));
        return;
      }
      if name in entities.instanceDefinitions {
        fatal := Some(FatalAt(loc, ObjectRedefined(name)));
        return;
      }
      entities := entities.(instanceDefinitions := entities.instanceDefinitions[name := EmptyDefinition]);
      scope := sc.(currentInstance := Some(name));
    }

    /**
     * Closes the open object definition and restores the state saved by
     * its `ObjectBegin`; with no definition open it is fatal, and an open
     * attribute or transform scope on top is fatal after the restore.
     */
    method ObjectEnd(loc: FileLoc)
      requires Valid() && fatal.None?
      modifies this
      ensures Valid()
      ensures old(setup.apiState) == OptionsBlock ==>
        Snapshot() == Logged(old(Snapshot()), ErrorAt(loc, WorldDirectiveInOptionsBlock("ObjectEnd")))
      ensures old(setup.apiState) == WorldBlock && old(scope.currentInstance).None? ==>
        Snapshot() == Aborted(old(Snapshot()), FatalAt(loc, ObjectEndOutsideDefinition))
      ensures old(setup.apiState) == WorldBlock && old(scope.currentInstance).Some? ==>
        var sc := old(scope);
        && |sc.pushedGraphicsStates| > 0
        && var top := Last(sc.pushStack);
           Snapshot() == old(Snapshot()).(
             scope := sc.(
               currentInstance := None,
               graphicsState := Last(sc.pushedGraphicsStates),
               pushedGraphicsStates := DropLast(sc.pushedGraphicsStates),
               curTransform := Last(sc.pushedTransforms),
               pushedTransforms := DropLast(sc.pushedTransforms),
               activeTransformBits := Last(sc.pushedActiveTransformBits),
               pushedActiveTransformBits := DropLast(sc.pushedActiveTransformBits),
               pushStack := if top.kind == ObjectScope then DropLast(sc.pushStack) else sc.pushStack),
             fatal := if top.kind == ObjectScope then None
                      else Some(FatalAt(loc, MismatchedNesting(top.kind, top.loc, ObjectScope))))
    {
      if setup.apiState == OptionsBlock {
        diagnostics := diagnostics + [ErrorAt(loc, WorldDirectiveInOptionsBlock("ObjectEnd"))];
        return;
      }
      if scope.currentInstance.None? {
        fatal := Some(FatalAt(loc, ObjectEndOutsideDefinition));
        return;
      }
      CountsPop(scope.pushStack);
      scope := scope.(currentInstance := None);
      scope := scope.(
        graphicsState := Last(scope.pushedGraphicsStates),
        pushedGraphicsStates := DropLast(scope.pushedGraphicsStates),
        curTransform := Last(scope.pushedTransforms),
        pushedTransforms := DropLast(scope.pushedTransforms),
        activeTransformBits := Last(scope.pushedActiveTransformBits),
        pushedActiveTransformBits := DropLast(scope.pushedActiveTransformBits));
      var top := Last(scope.pushStack);
      if top.kind == TransformScope {
        fatal := Some(FatalAt(loc, MismatchedNesting(TransformScope, top.loc, ObjectScope)));
        return;
      } else if top.kind == AttributeScope {
        fatal := Some(FatalAt(loc, MismatchedNesting(AttributeScope, top.loc, ObjectScope)));
        return;
      }
      scope := scope.(pushStack := DropLast(scope.pushStack));
    }

    /**
     * Appends a use of an object definition (the name is not checked here).
     * Its transform is the current one composed with the inverse of the
     * camera translation; animated exactly when the two slots differ.
     * Inside an open definition it is fatal.
     */
    method ObjectInstance(name: string, loc: FileLoc)
      requires Valid() && fatal.None?
      modifies this, cache
      ensures Valid()
      ensures old(setup.apiState) == OptionsBlock ==>
        Snapshot() == Logged(old(Snapshot()), ErrorAt(loc, WorldDirectiveInOptionsBlock("ObjectInstance")))
      ensures old(setup.apiState) == WorldBlock && old(scope.currentInstance).Some? ==>
        Snapshot() == Aborted(old(Snapshot()), FatalAt(loc, ObjectInstanceInsideDefinition))
      ensures old(setup.apiState) == WorldBlock && old(scope.currentInstance).None? ==>
        var ct, worldFromCameraT := old(scope.curTransform), Inverted(old(setup.cameraFromWorldT));
        var w := TransformSet(ops.compose(ct.start, worldFromCameraT.start),
                              ops.compose(ct.end, worldFromCameraT.end));
        var s, en := old(Snapshot()).(transforms := cache.stored), old(entities);
        if IsAnimated(ct) then
          && cache.stored == Interned(Interned(old(cache.stored), w.start), w.end)
          && Snapshot() == s.(entities := en.(instances := en.instances +
               [InstanceSceneEntity(name, loc,
                  Frozen(cache.stored, w, old(setup.transformStartTime), old(setup.transformEndTime)), None)]))
        else
          && cache.stored == Interned(old(cache.stored), w.start)
          && Snapshot() == s.(entities := en.(instances := en.instances +
               [InstanceSceneEntity(name, loc, NoTransform, Some(IndexOf(cache.stored, w.start)))]))
    {
      if setup.apiState == OptionsBlock {
        diagnostics := diagnostics + [ErrorAt(loc, WorldDirectiveInOptionsBlock("ObjectInstance"))];
        return;
      }
      if scope.currentInstance.Some? {
        fatal := Some(FatalAt(loc, ObjectInstanceInsideDefinition));
        return;
      }
      var worldFromCameraT := Inverted(setup.cameraFromWorldT);
      var ct := scope.curTransform;
      if IsAnimated(ct) {
        var worldFromInstance := Freeze(TransformSet(ops.compose(ct.start, worldFromCameraT.start),
                                                     ops.compose(ct.end, worldFromCameraT.end)));
        entities := entities.(instances := entities.instances + [InstanceSceneEntity(name, loc, worldFromInstance, None)]);
      } else {
        var h := cache.Lookup(ops.compose(ct.start, worldFromCameraT.start));
        entities := entities.(instances := entities.instances + [InstanceSceneEntity(name, loc, NoTransform, Some(h))]);
      }
    }
  }
}
