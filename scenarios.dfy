/**
 * Short directive streams run against a `GeneralScene`, each with the
 * outcome the interpreter's rules promise for it: the start state, scoped
 * restores, recoverable versus fatal nesting errors, area lights shared by
 * several shapes, capture of shapes into an object definition, and the
 * interning of equal transforms.
 */
module Scenarios {
  import opened Util
  import opened SceneTypes
  import opened Interning
  import opened GenScene

  /**
   * A fresh scene entering the world block: both slots are the identity and
   * saved as "world", every slot is selected, and the default "diffuse"
   * material is the only one and the one selected.
   */
  method EnterWorld<T(==)>(ops: TransformOps<T>, namedColorSpace: string -> Option<string>, loc: FileLoc)
    returns (scene: GeneralScene<T>)
    requires namedColorSpace(SRGB) == Some(SRGB)
    ensures fresh(scene) && fresh(scene.cache)
    ensures scene.Valid() && scene.fatal.None? && scene.diagnostics == []
    ensures scene.ops == ops
    ensures scene.setup.apiState == WorldBlock
    ensures scene.scope.curTransform == TransformSet(ops.identity, ops.identity)
    ensures scene.scope.activeTransformBits == AllTransformsBits
    ensures scene.setup.namedCoordinateSystems == map["world" := TransformSet(ops.identity, ops.identity)]
    ensures |scene.entities.materials| == 1 && scene.entities.materials[0].name == "diffuse"
    ensures scene.scope.graphicsState.currentMaterialIndex == 0
    ensures scene.scope.pushStack == [] && scene.scope.currentInstance.None?
    ensures scene.entities == InitialState(ops).entities
    ensures scene.entities.instanceDefinitions == map[] && scene.entities.namedMaterials == map[]
    ensures scene.entities.media == map[] && scene.entities.lights == [] && scene.entities.areaLights == []
    ensures scene.entities.shapes == [] && scene.entities.animatedShapes == [] && scene.entities.instances == []
    ensures scene.entities.floatTextures == [] && scene.entities.spectrumTextures == []
    ensures !scene.entities.haveScatteringMedia
  {
    scene := new GeneralScene(ops, namedColorSpace);
    scene.WorldBegin(loc);
  }

  /**
   * A second `WorldBegin` is an options-block directive in the world block:
   * it is reported and changes nothing else.
   */
  method WorldBeginTwice<T(==)>(ops: TransformOps<T>, namedColorSpace: string -> Option<string>, loc: FileLoc)
    returns (scene: GeneralScene<T>)
    requires namedColorSpace(SRGB) == Some(SRGB)
    ensures scene.Valid() && scene.fatal.None?
    ensures scene.setup.apiState == WorldBlock
    ensures scene.diagnostics == [ErrorAt(loc, OptionsInWorldBlock("WorldBegin"))]
  {
    scene := EnterWorld(ops, namedColorSpace, loc);
    scene.WorldBegin(loc);
  }

  /**
   * `ColorSpace` naming the default space of a fresh scene is accepted and
   * changes nothing: the default is one `GetNamed` knows.
   */
  method DefaultColorSpace<T(==)>(ops: TransformOps<T>, namedColorSpace: string -> Option<string>, loc: FileLoc)
    returns (scene: GeneralScene<T>)
    requires namedColorSpace(SRGB) == Some(SRGB)
    ensures scene.Valid() && scene.Snapshot() == InitialState(ops)
  {
    scene := new GeneralScene(ops, namedColorSpace);
    scene.ColorSpace(SRGB, loc);
  }

  /** The stacks after a save of `sc` popped again are those of `sc`. */
  lemma SavedThenPopped<T>(sc: ScopeState<T>, kind: NestingKind, loc: FileLoc)
    ensures var r := sc.Saved(kind, loc);
      && Last(r.pushedGraphicsStates) == sc.graphicsState
      && DropLast(r.pushedGraphicsStates) == sc.pushedGraphicsStates
      && Last(r.pushedTransforms) == sc.curTransform
      && DropLast(r.pushedTransforms) == sc.pushedTransforms
      && Last(r.pushedActiveTransformBits) == sc.activeTransformBits
      && DropLast(r.pushedActiveTransformBits) == sc.pushedActiveTransformBits
      && Last(r.pushStack) == PushedScope(kind, loc)
      && DropLast(r.pushStack) == sc.pushStack
  {
  }

  /**
   * A material chosen inside an attribute scope is deselected again by its
   * `AttributeEnd`; the material entity itself stays in the list.
   */
  method ScopedMaterial<T>(scene: GeneralScene<T>, loc: FileLoc)
    requires scene.Valid() && scene.fatal.None? && scene.setup.apiState == WorldBlock
    modifies scene
    ensures scene.Valid()
    ensures scene.Snapshot() == old(scene.Snapshot()).(entities := old(scene.entities).(materials :=
      old(scene.entities.materials) +
      [SceneEntity("conductor", ParameterDictionary([], old(scene.scope.graphicsState.materialAttributes),
                                                    Some(old(scene.scope.graphicsState.colorSpace))), loc)]))
  {
    SavedThenPopped(scene.scope, AttributeScope, loc);
    scene.AttributeBegin(loc);
    scene.Material("conductor", [], loc);
    scene.AttributeEnd(loc);
  }

  /**
   * A flipped orientation and a scale applied inside an attribute scope are
   * undone by its `AttributeEnd`.
   */
  method ScopedTransform<T>(scene: GeneralScene<T>, loc: FileLoc)
    requires scene.Valid() && scene.fatal.None? && scene.setup.apiState == WorldBlock
    modifies scene
    ensures scene.Valid()
    ensures scene.Snapshot() == old(scene.Snapshot())
  {
    SavedThenPopped(scene.scope, AttributeScope, loc);
    scene.AttributeBegin(loc);
    scene.ReverseOrientation(loc);
    scene.Scale(2.0, 2.0, 2.0, loc);
    scene.AttributeEnd(loc);
  }

  /**
   * `AttributeEnd` after a lone `TransformBegin` finds no saved graphics
   * state: it is reported and ignored, and the transform scope stays open.
   */
  method TransformBeginAttributeEnd<T>(scene: GeneralScene<T>, loc: FileLoc)
    requires scene.Valid() && scene.fatal.None? && scene.setup.apiState == WorldBlock
    requires scene.scope.pushedGraphicsStates == []
    modifies scene
    ensures scene.Valid()
    ensures var sc := old(scene.scope);
      scene.Snapshot() == old(scene.Snapshot()).(
        scope := sc.(
          pushedTransforms := sc.pushedTransforms + [sc.curTransform],
          pushedActiveTransformBits := sc.pushedActiveTransformBits + [sc.activeTransformBits],
          pushStack := sc.pushStack + [PushedScope(TransformScope, loc)]),
        diagnostics := old(scene.diagnostics) + [ErrorAt(loc, UnmatchedEnd(AttributeScope))])
  {
    scene.TransformBegin(loc);
    scene.AttributeEnd(loc);
  }

  /** An attribute scope with a transform scope opened inside it. */
  method OpenCrossed<T>(scene: GeneralScene<T>, outer: FileLoc, inner: FileLoc)
    requires scene.Valid() && scene.fatal.None? && scene.setup.apiState == WorldBlock
    modifies scene
    ensures scene.Valid() && scene.fatal.None? && scene.setup == old(scene.setup)
    ensures scene.diagnostics == old(scene.diagnostics)
    ensures scene.entities == old(scene.entities) && scene.cache.stored == old(scene.cache.stored)
    ensures |scene.scope.pushedGraphicsStates| == |old(scene.scope.pushedGraphicsStates)| + 1
    ensures scene.scope.pushStack == old(scene.scope.pushStack) + [PushedScope(AttributeScope, outer), PushedScope(TransformScope, inner)]
  {
    scene.AttributeBegin(outer);
    scene.TransformBegin(inner);
  }

  /**
   * `AttributeEnd` with a transform scope opened inside its attribute scope
   * restores the saved state and then aborts on the crossed nesting.
   */
  method CrossedNesting<T>(scene: GeneralScene<T>, outer: FileLoc, inner: FileLoc, loc: FileLoc)
    requires scene.Valid() && scene.fatal.None? && scene.setup.apiState == WorldBlock
    modifies scene
    ensures scene.fatal == Some(FatalAt(loc, MismatchedNesting(TransformScope, inner, AttributeScope)))
    ensures scene.diagnostics == old(scene.diagnostics) && scene.setup == old(scene.setup)
    ensures scene.entities == old(scene.entities) && scene.cache.stored == old(scene.cache.stored)
  {
    OpenCrossed(scene, outer, inner);
    scene.AttributeEnd(loc);
  }

  /** The entities after a shape `sh` that claims its own copy of the area light `light`. */
  ghost function Lit(en: EntityState, light: SceneEntity, sh: ShapeSceneEntity): EntityState {
    en.(areaLights := en.areaLights + [light], shapes := en.shapes + [sh])
  }

  /**
   * A shape with an area light pending, under a static transform and outside
   * any definition: one copy of the light is appended and the shape links to it.
   */
  method LitShape<T>(scene: GeneralScene<T>, name: string, loc: FileLoc)
    requires scene.Valid() && scene.fatal.None? && scene.setup.apiState == WorldBlock
    requires !IsAnimated(scene.scope.curTransform) && scene.scope.currentInstance.None?
    requires scene.scope.graphicsState.areaLightName != ""
    modifies scene, scene.cache
    ensures scene.Valid() && scene.fatal.None? && scene.diagnostics == old(scene.diagnostics)
    ensures scene.setup == old(scene.setup) && scene.scope == old(scene.scope)
    ensures var ct := scene.scope.curTransform;
      scene.cache.stored == Interned(Interned(old(scene.cache.stored), ct.start), scene.ops.inverse(ct.start))
    ensures var gs, shapes := scene.scope.graphicsState, scene.entities.shapes;
      && |shapes| > 0
      && scene.entities == Lit(old(scene.entities), SceneEntity(gs.areaLightName, gs.areaLightParams, gs.areaLightLoc),
                               Last(shapes))
    ensures var ct, stored, sh := scene.scope.curTransform, scene.cache.stored, Last(scene.entities.shapes);
      && sh.name == name
      && sh.lightIndex == |old(scene.entities.areaLights)|
      && sh.worldFromObject == IndexOf(stored, ct.start)
      && sh.objectFromWorld == IndexOf(stored, scene.ops.inverse(ct.start))
  {
    scene.Shape(name, [], loc);
  }

  /**
   * Two shapes after one `AreaLightSource`, under a static transform and
   * outside any definition: each gets its own copy of the area light, the
   * two are linked to consecutive entries, and both shapes share the
   * interned transform handles.
   */
  method SharedAreaLight<T>(scene: GeneralScene<T>, loc: FileLoc)
    requires scene.Valid() && scene.fatal.None? && scene.setup.apiState == WorldBlock
    requires !IsAnimated(scene.scope.curTransform) && scene.scope.currentInstance.None?
    modifies scene, scene.cache
    ensures scene.Valid() && scene.fatal.None? && scene.diagnostics == old(scene.diagnostics)
    ensures scene.setup == old(scene.setup)
    ensures var gs := old(scene.scope.graphicsState);
      scene.scope == old(scene.scope).(graphicsState := gs.(areaLightName := "diffuse",
        areaLightParams := ParameterDictionary([], gs.lightAttributes, Some(gs.colorSpace)), areaLightLoc := loc))
    ensures var ct := old(scene.scope.curTransform);
      scene.cache.stored == Interned(Interned(old(scene.cache.stored), ct.start), scene.ops.inverse(ct.start))
    ensures var s, m, gs := scene.entities.shapes, |old(scene.entities.shapes)|, scene.scope.graphicsState;
      var light := SceneEntity(gs.areaLightName, gs.areaLightParams, gs.areaLightLoc);
      && |s| == m + 2
      && scene.entities == Lit(Lit(old(scene.entities), light, s[m]), light, s[m + 1])
    ensures var n, s, m := |old(scene.entities.areaLights)|, scene.entities.shapes, |old(scene.entities.shapes)|;
      && s[m].lightIndex == n && s[m + 1].lightIndex == n + 1
      && s[m].worldFromObject == s[m + 1].worldFromObject
      && s[m].objectFromWorld == s[m + 1].objectFromWorld
  {
    scene.AreaLightSource("diffuse", [], loc);
    LitShape(scene, "sphere", loc);
    ghost var en1 := scene.entities;
    LitShape(scene, "disk", loc);
    assert scene.entities.shapes[|en1.shapes| - 1] == Last(en1.shapes);
  }

  /** The entities after `ObjectBegin` of the new name `name`: an empty definition is added. */
  ghost function Opened(en: EntityState, name: string): EntityState {
    en.(instanceDefinitions := en.instanceDefinitions[name := EmptyDefinition])
  }

  /** The entities after the static shape `sh` is appended to the definition `name`, alone. */
  ghost function Captured(en: EntityState, name: string, sh: ShapeSceneEntity): EntityState
    requires name in en.instanceDefinitions
  {
    var d := en.instanceDefinitions[name];
    en.(instanceDefinitions := en.instanceDefinitions[name := d.(shapes := d.shapes + [sh])])
  }

  /** `ObjectBegin` of a new name outside any definition opens an empty definition. */
  method OpenDefinition<T>(scene: GeneralScene<T>, name: string, loc: FileLoc)
    requires scene.Valid() && scene.fatal.None? && scene.setup.apiState == WorldBlock
    requires scene.scope.currentInstance.None? && name !in scene.entities.instanceDefinitions
    modifies scene
    ensures scene.Valid() && scene.fatal.None? && scene.setup == old(scene.setup)
    ensures scene.diagnostics == old(scene.diagnostics) && scene.cache.stored == old(scene.cache.stored)
    ensures scene.scope == old(scene.scope).Saved(ObjectScope, loc).(currentInstance := Some(name))
    ensures scene.entities == Opened(old(scene.entities), name)
  {
    scene.ObjectBegin(name, loc);
  }

  /**
   * A shape inside the open definition `name` is appended to that definition
   * only; a pending area light still gets its entry, with a warning.
   */
  method ShapeInDefinition<T>(scene: GeneralScene<T>, name: string, loc: FileLoc)
    requires scene.Valid() && scene.fatal.None? && scene.setup.apiState == WorldBlock
    requires scene.scope.currentInstance == Some(name) && !IsAnimated(scene.scope.curTransform)
    modifies scene, scene.cache
    ensures scene.Valid() && scene.fatal.None? && scene.setup == old(scene.setup)
    ensures scene.scope == old(scene.scope)
    ensures scene.diagnostics == old(scene.diagnostics) +
      (if scene.scope.graphicsState.areaLightName != "" then [WarningAt(loc, AreaLightWithInstancing)] else [])
    ensures var ct := scene.scope.curTransform;
      scene.cache.stored == Interned(Interned(old(scene.cache.stored), ct.start), scene.ops.inverse(ct.start))
    ensures name in scene.entities.instanceDefinitions && |scene.entities.instanceDefinitions[name].shapes| > 0
    ensures var sh := Last(scene.entities.instanceDefinitions[name].shapes);
      && sh.name == "sphere"
      && scene.entities == Captured(ShapeLights(old(scene.entities), scene.scope.graphicsState), name, sh)
  {
    scene.Shape("sphere", [], loc);
  }

  /** `ObjectEnd` of the definition opened on top of the scope `sc` gives `sc` back. */
  method CloseDefinition<T>(scene: GeneralScene<T>, ghost sc: ScopeState<T>, name: string, loc: FileLoc)
    requires scene.Valid() && scene.fatal.None? && scene.setup.apiState == WorldBlock
    requires scene.scope == sc.Saved(ObjectScope, loc).(currentInstance := Some(name))
    requires sc.currentInstance.None?
    modifies scene
    ensures scene.Valid() && scene.fatal.None? && scene.setup == old(scene.setup)
    ensures scene.scope == sc
    ensures scene.entities == old(scene.entities) && scene.diagnostics == old(scene.diagnostics)
    ensures scene.cache.stored == old(scene.cache.stored)
  {
    SavedThenPopped(sc, ObjectScope, loc);
    scene.ObjectEnd(loc);
  }

  /**
   * A shape between `ObjectBegin` and `ObjectEnd` goes into the new
   * definition and not into the scene, and the scope is restored.
   */
  method CapturedShape<T>(scene: GeneralScene<T>, name: string, loc: FileLoc)
    requires scene.Valid() && scene.fatal.None? && scene.setup.apiState == WorldBlock
    requires scene.scope.currentInstance.None? && name !in scene.entities.instanceDefinitions
    requires !IsAnimated(scene.scope.curTransform)
    modifies scene, scene.cache
    ensures scene.Valid() && scene.fatal.None? && scene.setup == old(scene.setup)
    ensures scene.scope == old(scene.scope)
    ensures scene.diagnostics == old(scene.diagnostics) +
      (if scene.scope.graphicsState.areaLightName != "" then [WarningAt(loc, AreaLightWithInstancing)] else [])
    ensures var ct := scene.scope.curTransform;
      scene.cache.stored == Interned(Interned(old(scene.cache.stored), ct.start), scene.ops.inverse(ct.start))
    ensures name in scene.entities.instanceDefinitions && |scene.entities.instanceDefinitions[name].shapes| == 1
    ensures var sh := scene.entities.instanceDefinitions[name].shapes[0];
      && sh.name == "sphere"
      && scene.entities == Captured(ShapeLights(Opened(old(scene.entities), name), scene.scope.graphicsState), name, sh)
  {
    ghost var sc := scene.scope;
    OpenDefinition(scene, name, loc);
    ShapeInDefinition(scene, name, loc);
    CloseDefinition(scene, sc, name, loc);
  }

  /** A translation inside a transform scope is undone by its `TransformEnd`. */
  method ScopedTranslate<T>(scene: GeneralScene<T>, loc: FileLoc)
    requires scene.Valid() && scene.fatal.None? && scene.setup.apiState == WorldBlock
    modifies scene
    ensures scene.Valid()
    ensures scene.Snapshot() == old(scene.Snapshot())
  {
    ghost var sc := scene.scope;
    scene.TransformBegin(loc);
    assert Last(scene.scope.pushStack) == PushedScope(TransformScope, loc);
    assert DropLast(scene.scope.pushStack) == sc.pushStack;
    assert DropLast(scene.scope.pushedTransforms) == sc.pushedTransforms;
    assert DropLast(scene.scope.pushedActiveTransformBits) == sc.pushedActiveTransformBits;
    scene.Translate(1.0, 0.0, 0.0, loc);
    scene.TransformEnd(loc);
  }

  /**
   * Scopes nest: an attribute scope holding a transform scope and a further
   * attribute scope, each with its own changes, leaves the scene exactly as
   * it found it.
   */
  method NestedScopes<T>(scene: GeneralScene<T>, outer: FileLoc, loc: FileLoc)
    requires scene.Valid() && scene.fatal.None? && scene.setup.apiState == WorldBlock
    modifies scene
    ensures scene.Valid()
    ensures scene.Snapshot() == old(scene.Snapshot())
  {
    SavedThenPopped(scene.scope, AttributeScope, outer);
    scene.AttributeBegin(outer);
    ScopedTranslate(scene, loc);
    ScopedTransform(scene, loc);
    scene.AttributeEnd(loc);
  }

  /** Looking up the same transform twice gives the same handle. */
  method LookupTwice<T>(cache: TransformCache<T>, t: T) returns (h1: Handle, h2: Handle)
    requires cache.Valid()
    modifies cache
    ensures cache.Valid() && cache.stored == Interned(old(cache.stored), t)
    ensures h1 == h2
  {
    h1 := cache.Lookup(t);
    InternedIdempotent(old(cache.stored), t);
    h2 := cache.Lookup(t);
  }
}
