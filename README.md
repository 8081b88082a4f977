# pbrt-v4 scene-description interpreter, modelled in Dafny

This project models `GeneralScene`, the scene-description interpreter of pbrt-v4, and the transform interner `TransformCache::Lookup` (`src/pbrt/genscene.cpp`). The parser calls one `GeneralScene` method for each directive of a scene file. The interpreter is a single-threaded state machine, and its state is:

- the API state (options block or world block);
- a current transform with two time samples ("slots") and a mask selecting which slots the transform directives change;
- the scoped graphics state (media, material selection, pending area light, colour space, orientation, five lists of inherited parameters);
- four parallel save stacks: graphics states, transforms, masks, and nesting markers (`a`, `t`, `o` with the opening location);
- append-only entity lists: materials, lights, area lights, shapes, animated shapes, instances, float and spectrum textures;
- named registries (coordinate systems, media, named materials, object definitions) and the object definition currently open.

`GenScene.GeneralScene` is a class with those fields, updated in place by one method per directive. The source's member variables are grouped into three records:

- `setup`: options-block settings, camera and named coordinate systems;
- `scope`: everything the nesting directives save and restore;
- `entities`: what is handed to the renderer.

Each directive method states its complete new state. `Snapshot()` packs the fields into one `SceneState` value, and each contract has the form `Snapshot() == old(Snapshot()).(…)` (only what changes is written out), with one clause per branch of the source.

The rest of the model:

- **Transforms** are a type parameter `T` with equality. The matrix operations the interpreter calls (identity, product, inverse, translate, rotate, scale, look-at, the transposed matrix of `Transform`/`ConcatTransform`, the camera translation) are uninterpreted functions in a `TransformOps<T>` record.
- **Colour spaces.** `RGBColorSpace::GetNamed` is foreign code. It is a parameter `namedColorSpace` of the scene, mapping a name to the colour space it resolves to, identified by its canonical name, or to nothing. The scene requires it to resolve `"srgb"` to the default space.
- **`TransformCache`** is an arena of stored transforms. A handle is an index into it. Its hash-bucket search is abstracted to a search of the stored values for an equal one (`Find`). Because hashing is consistent with equality, a hit and a miss are decided the same way.
- **Fatal errors.** Each `ErrorExit` of the source sets `fatal` and ends the run: every directive requires `fatal.None?`. Updates made before the `ErrorExit` are kept in the aborted state, as the code makes them. Examples: `ObjectBegin` pushes before its checks, `Texture` interns before it checks the type, and the End directives pop before they check the nesting.
- **Reports.** `Error` and `Warning` calls append to `diagnostics`. A directive the API gate rejects (`VERIFY_OPTIONS` in the world block, `VERIFY_WORLD` in the options block) appends one error and changes nothing else.
- **Invariant.** `Valid()` says:
  - the stacks move together: `|pushedTransforms| = |pushedActiveTransformBits| = |pushStack|`;
  - `|pushedGraphicsStates|` equals the number of `a` and `o` markers;
  - an `o` marker is on the stack exactly while a definition is open;
  - the open definition exists;
  - the cache stores no transform twice;
  - the current and every saved graphics state select a material by an index into the material list, or by name with index -1, and a selection by index leaves the name empty (the converse does not hold: `NamedMaterial ""` gives -1 with an empty name).

  Every directive preserves it until a fatal error.
- **`Scenarios`** drives short directive sequences through the class and proves what comes out. Examples: scope restore, the recoverable versus the fatal nesting error, one pending area light shared by two shapes, a shape captured into an object definition, and equal transforms interning to one handle.

Behaviour that follows the code where a reader might expect otherwise:

- The constructor enters the options block directly (`genscene.cpp:152`). `VERIFY_INITIALIZED` therefore never fires, so directives guarded only by it act in both blocks. The `ActiveTransform*` directives have no guard at all.
- `AttributeEnd` tests for an empty graphics-state stack first (`genscene.cpp:414-417`). So `TransformBegin` followed by `AttributeEnd` at top level is a reported error that is ignored, with the transform scope left open. It is *not* a fatal nesting error. `AttributeBegin` `TransformBegin` `AttributeEnd` is fatal (`Scenarios.TransformBeginAttributeEnd`, `Scenarios.CrossedNesting`).
- `ObjectBegin` builds a `name` parameter from the object's name but never puts it into the vector it passes to `Attribute("shape", …)` (`genscene.cpp:650-657`). That call therefore appends nothing, and the model makes it with an empty list.
- `TransformBegin` does not save the graphics state.
- The pending area light of a graphics state is not consumed by `Shape`: every later shape of the scope gets its own copy.
- `MakeNamedMaterial` reports redefinition without a location (`genscene.cpp:541-542`).

Where the code reads a value from `genscene.h`, which is not part of this model, the model makes these choices:

- `MaxTransforms = 2`, with masks 1, 2 and 3.
- `GetCTM(i)` is `curTransform[i]`.
- `CTMIsAnimated()` holds when the two slots differ.
- The transform times start as 0 and 1.
- `curTransform` starts as the identity in both slots.
- `activeTransformBits` starts with every slot selected (mask 3).
- The camera's `cameraFromWorld` starts as the identity.
- No object definition is open initially.

## Model

| member | source | states |
|---|---|---|
| Interning.TransformCache.Find | src/pbrt/genscene.cpp:127-136 | the search returns a handle whose stored value equals `t`, and reports a miss exactly when no stored value equals `t` |
| Interning.TransformCache.Lookup | src/pbrt/genscene.cpp:124-141 | returns the handle of a stored copy of `t`: on a hit the storage is unchanged, on a miss exactly `t` is appended; the handle is the first (only) position of `t`, and the storage stays duplicate-free |
| Interning.TransformCache.constructor | src/pbrt/genscene.cpp:150-151 | the cache starts empty |
| Interning.IndexOf | src/pbrt/genscene.cpp:131-133 | the handle of a stored value is in range and holds that value |
| Interning.IndexOfFirst | src/pbrt/genscene.cpp:129-133 | no position before the handle holds the value |
| Interning.IndexOfAt | src/pbrt/genscene.cpp:129-133 | a position holding the value with none before it is its handle |
| Interning.IndexOfUnique | src/pbrt/genscene.cpp:129-133 | in duplicate-free storage a value has exactly one position; a documented fact Dafny proves without a proof body |
| Interning.Interned | src/pbrt/genscene.cpp:124-141 | after interning, `t` is stored, the old storage is a prefix, at most one entry is added, and nothing is added when `t` was stored |
| Interning.InternedNoDuplicates | src/pbrt/genscene.cpp:137-139 | interning keeps the storage duplicate-free; a documented fact Dafny proves without its proof body |
| Interning.InternedKeepsHandles | src/pbrt/genscene.cpp:137-140 | interning never changes the handle of a value stored earlier |
| Interning.InternedIdempotent | src/pbrt/genscene.cpp:124-141 | interning the same value twice equals interning it once and gives the same handle; a documented fact Dafny proves without a proof body |
| Scenarios.LookupTwice | src/pbrt/genscene.cpp:124-141 | two lookups of equal transforms return the same handle and store it once |
| SceneTypes.TargetName | src/pbrt/genscene.cpp:444-453 | each attribute category has a name that selects it |
| SceneTypes.TargetNamedInverse | src/pbrt/genscene.cpp:443-456 | a string selects a category exactly when it is that category's name |
| SceneTypes.GraphicsState.WithAttributes | src/pbrt/genscene.cpp:443-453 | replacing one category's list changes that list and no other |
| SceneTypes.TransformSet.With | src/pbrt/genscene.cpp:107-111 | replacing slot `i` changes slot `i` and no other |
| SceneTypes.ScopedCount | src/pbrt/genscene.cpp:404-409 | the number of attribute and object markers is at most the stack depth |
| SceneTypes.ObjectCount | src/pbrt/genscene.cpp:643-647 | the number of object markers is at most the number of scoped markers, and zero exactly when the stack holds no object marker |
| SceneTypes.CountsPush | src/pbrt/genscene.cpp:404-409 | pushing an attribute or object marker raises the scoped count by one, an object marker also the object count; a transform marker raises neither |
| SceneTypes.CountsPop | src/pbrt/genscene.cpp:428-436 | popping the top marker lowers the counts by exactly what pushing it added |
| GenScene.ScopeState.Saved | src/pbrt/genscene.cpp:404-409 | saving for an attribute or object scope pushes onto all four stacks and keeps them consistent, one more object marker for an object scope |
| Scenarios.SavedThenPopped | src/pbrt/genscene.cpp:420-436 | popping what `Saved` pushed gives back the graphics state, transform, mask and stacks from before the save; a documented fact Dafny proves without a proof body |
| GenScene.EntityState.WithShape | src/pbrt/genscene.cpp:615-620 | outside a definition the shape is appended to the scene's static shapes and nothing else changes; inside one it is appended to that definition's static shapes, its animated shapes, every other definition and every other field are unchanged, and the set of definitions is the same |
| GenScene.EntityState.WithAnimatedShape | src/pbrt/genscene.cpp:593-598 | outside a definition the shape is appended to the scene's animated shapes and nothing else changes; inside one it is appended to that definition's animated shapes, its static shapes, every other definition and every other field are unchanged, and the set of definitions is the same |
| GenScene.FrozenKept | src/pbrt/genscene.cpp:600-604 | interning a further transform does not change an already frozen animated transform |
| GenScene.ForActiveTransforms | src/pbrt/genscene.cpp:107-111 | the loop applies the update to exactly the slots whose mask bit is set, and leaves the other slots alone |
| GenScene.AppendAttributes | src/pbrt/genscene.cpp:460-464 | every parameter is appended in order, marked possibly unused and tagged with the colour space; the earlier list is a prefix |
| GenScene.TextureDefined | src/pbrt/genscene.cpp:516-518 | the scan reports a clash exactly when some entry of the list has the name |
| GenScene.ShapeLights | src/pbrt/genscene.cpp:584-590 | the old area lights stay a prefix; with an area light pending exactly one entry is appended and it is that light (name, parameters, location), with none pending none is; no other field changes |
| GenScene.ShapeLightIndex | src/pbrt/genscene.cpp:584-590 | the link is -1 exactly when no area light is pending, and otherwise the index of the newly appended copy |
| GenScene.GeneralScene.StaticShape | src/pbrt/genscene.cpp:622-632 | the recorded handles hold the start slot and its inverse |
| GenScene.GeneralScene.AnimatedShape | src/pbrt/genscene.cpp:600-613 | the recorded animated transform holds both slots with the transform times, and the identity handle holds the identity |
| GenScene.GeneralScene.constructor | src/pbrt/genscene.cpp:150-161 | given a resolver that knows the default `"srgb"`, the initial state: options block, identity slots all selected, only the "diffuse" material and it selected, "gaussian" filter and "rgb" film, empty stacks and lists |
| GenScene.GeneralScene.Freeze | src/pbrt/genscene.cpp:558-561 | both slots are interned, and frozen with the transform times |
| GenScene.GeneralScene.Identity | src/pbrt/genscene.cpp:220-223 | every selected slot becomes the identity, the others and the rest of the state are unchanged |
| GenScene.GeneralScene.Translate | src/pbrt/genscene.cpp:225-229 | every selected slot is post-multiplied by the translation; nothing else changes |
| GenScene.GeneralScene.Transform | src/pbrt/genscene.cpp:231-235 | every selected slot is replaced by the transposed matrix; nothing else changes |
| GenScene.GeneralScene.ConcatTransform | src/pbrt/genscene.cpp:237-242 | every selected slot is post-multiplied by the transposed matrix; nothing else changes |
| GenScene.GeneralScene.Rotate | src/pbrt/genscene.cpp:244-249 | every selected slot is post-multiplied by the rotation; nothing else changes |
| GenScene.GeneralScene.Scale | src/pbrt/genscene.cpp:251-255 | every selected slot is post-multiplied by the scale; nothing else changes |
| GenScene.GeneralScene.LookAt | src/pbrt/genscene.cpp:257-263 | every selected slot is post-multiplied by one look-at transform; nothing else changes |
| GenScene.GeneralScene.CoordinateSystem | src/pbrt/genscene.cpp:265-268 | the current transform set is saved under the name, overwriting an earlier entry |
| GenScene.GeneralScene.CoordSysTransform | src/pbrt/genscene.cpp:270-276 | a saved name restores its transform set; an unknown name leaves the transform and draws a warning |
| GenScene.GeneralScene.ActiveTransformAll | src/pbrt/genscene.cpp:278-280 | selects both slots, in either block |
| GenScene.GeneralScene.ActiveTransformEndTime | src/pbrt/genscene.cpp:282-284 | selects only the end slot, in either block |
| GenScene.GeneralScene.ActiveTransformStartTime | src/pbrt/genscene.cpp:286-288 | selects only the start slot, in either block |
| GenScene.GeneralScene.TransformTimes | src/pbrt/genscene.cpp:290-294 | sets both times in the options block; reported and ignored in the world block |
| GenScene.GeneralScene.ColorSpace | src/pbrt/genscene.cpp:296-302 | a name `GetNamed` resolves makes the space it resolves to the current colour space; an unknown one is an error and is ignored |
| GenScene.GeneralScene.PixelFilter | src/pbrt/genscene.cpp:304-309 | records the filter in the options block; reported and ignored in the world block |
| GenScene.GeneralScene.Film | src/pbrt/genscene.cpp:311-316 | records the film in the options block; reported and ignored in the world block |
| GenScene.GeneralScene.Sampler | src/pbrt/genscene.cpp:318-323 | records the sampler in the options block; reported and ignored in the world block |
| GenScene.GeneralScene.Accelerator | src/pbrt/genscene.cpp:325-330 | records the accelerator in the options block; reported and ignored in the world block |
| GenScene.GeneralScene.Integrator | src/pbrt/genscene.cpp:332-338 | records the integrator in the options block; reported and ignored in the world block |
| GenScene.GeneralScene.Camera | src/pbrt/genscene.cpp:340-364 | records the camera translation per slot, the "camera" coordinate system and the camera entity with its interned transforms, leaving the current transform; ignored in the world block |
| GenScene.GeneralScene.MakeNamedMedium | src/pbrt/genscene.cpp:366-383 | warns on an animated transform, aborts on a redefined name, and otherwise records the medium with both slots interned |
| GenScene.GeneralScene.MediumInterface | src/pbrt/genscene.cpp:385-391 | sets the inside and outside media and marks scattering media present, in either block |
| GenScene.GeneralScene.WorldBegin | src/pbrt/genscene.cpp:393-399 | enters the world block with identity slots, all selected, saved as "world"; ignored with an error in the world block |
| GenScene.GeneralScene.AttributeBegin | src/pbrt/genscene.cpp:401-410 | pushes graphics state, transform, mask and an attribute marker; nothing else changes |
| GenScene.GeneralScene.AttributeEnd | src/pbrt/genscene.cpp:412-437 | with no saved graphics state, an error and nothing else; otherwise restores all three saved values, pops the marker when it is an attribute marker, and aborts on any other top marker |
| GenScene.GeneralScene.Attribute | src/pbrt/genscene.cpp:439-465 | appends the marked parameters to the named category, or aborts on an unknown category |
| GenScene.GeneralScene.TransformBegin | src/pbrt/genscene.cpp:467-472 | pushes transform, mask and a transform marker, but not the graphics state |
| GenScene.GeneralScene.TransformEnd | src/pbrt/genscene.cpp:474-494 | with no saved transform, an error and nothing else; otherwise restores transform and mask, pops a transform marker, and aborts on any other top marker |
| GenScene.GeneralScene.Texture | src/pbrt/genscene.cpp:496-522 | interns both slots, then aborts on an unknown type or a name already in that list, and otherwise appends the texture to the list of its type |
| GenScene.GeneralScene.Material | src/pbrt/genscene.cpp:524-532 | appends one material, selects it by its index and clears the selected name |
| GenScene.GeneralScene.MakeNamedMaterial | src/pbrt/genscene.cpp:534-545 | aborts on a redefined name, otherwise records the named material |
| GenScene.GeneralScene.NamedMaterial | src/pbrt/genscene.cpp:547-551 | selects the material by name with index -1 |
| GenScene.GeneralScene.LightSource | src/pbrt/genscene.cpp:553-566 | appends one light with both slots interned and the outside medium |
| GenScene.GeneralScene.AreaLightSource | src/pbrt/genscene.cpp:568-575 | makes the light pending in the graphics state; no entity is appended |
| GenScene.GeneralScene.Shape | src/pbrt/genscene.cpp:577-634 | copies a pending area light and links it; the shape goes to the open definition or the scene, to the animated list exactly when the slots differ, with its interned handles; warns on an area light inside a definition |
| GenScene.GeneralScene.AddStaticShape | src/pbrt/genscene.cpp:614-633 | the static branch of `Shape`, with the full new state |
| GenScene.GeneralScene.AddAnimatedShape | src/pbrt/genscene.cpp:592-613 | the animated branch of `Shape`, with the full new state |
| GenScene.GeneralScene.StaticShapeEntity | src/pbrt/genscene.cpp:622-632 | interns the start slot and then its inverse, and builds the entity from their handles |
| GenScene.GeneralScene.AnimatedShapeEntity | src/pbrt/genscene.cpp:600-613 | interns both slots and then the identity, and builds the entity from their handles |
| GenScene.GeneralScene.ReverseOrientation | src/pbrt/genscene.cpp:636-639 | flips the orientation flag; nothing else changes |
| GenScene.GeneralScene.ObjectBegin | src/pbrt/genscene.cpp:641-669 | pushes as `AttributeBegin` does, then aborts inside a definition or on a known name, and otherwise opens a new empty definition |
| GenScene.GeneralScene.ObjectEnd | src/pbrt/genscene.cpp:673-700 | aborts with no definition open; otherwise closes it, restores the saved state, pops an object marker, and aborts on any other top marker |
| GenScene.GeneralScene.ObjectInstance | src/pbrt/genscene.cpp:704-732 | aborts inside a definition; otherwise appends a use whose transform is the current one times the inverse camera translation, animated exactly when the slots differ |
| Scenarios.EnterWorld | src/pbrt/genscene.cpp:393-399 | a fresh scene after `WorldBegin`: world block, identity slots all selected and saved as "world", the one "diffuse" material selected, and every other entity list and registry empty (the entities are exactly the initial ones) |
| Scenarios.DefaultColorSpace | src/pbrt/genscene.cpp:296-302 | `ColorSpace` naming the default space of a fresh scene is accepted and leaves the whole state as it was (the default is sRGB, genscene.cpp:63) |
| Scenarios.WorldBeginTwice | src/pbrt/genscene.cpp:89-97 | a second `WorldBegin` is reported once as an options directive in the world block, and the scene stays in the world block and usable |
| Scenarios.ScopedMaterial | src/pbrt/genscene.cpp:401-437 | a material chosen inside an attribute scope is deselected by its end: the new state equals the old one except that the material entity (with the scope's attributes and colour space) is appended; setup, diagnostics, cache and the other entities are unchanged |
| Scenarios.ScopedTransform | src/pbrt/genscene.cpp:401-437 | a flip and a scale inside an attribute scope are undone by its end: the whole state, setup, diagnostics, cache and entities included, is as before |
| Scenarios.TransformBeginAttributeEnd | src/pbrt/genscene.cpp:414-417 | `AttributeEnd` after a top-level `TransformBegin` is reported and ignored, leaving the transform scope open |
| Scenarios.OpenCrossed | src/pbrt/genscene.cpp:401-472 | an attribute scope with a transform scope inside it has both markers on the stack and one saved graphics state; setup, entities and cache are unchanged |
| Scenarios.CrossedNesting | src/pbrt/genscene.cpp:428-430 | the `AttributeEnd` of that nesting aborts with a mismatched-nesting error naming the open transform scope, the only diagnostic added; setup, entities and cache are unchanged |
| Scenarios.LitShape | src/pbrt/genscene.cpp:584-633 | a shape with an area light pending appends one copy of it and the shape, and nothing else among the entities; the shape links that copy and records the interned handles; setup, scope and diagnostics are unchanged |
| Scenarios.SharedAreaLight | src/pbrt/genscene.cpp:584-633 | two shapes after one `AreaLightSource` get two equal area-light copies at consecutive indices and share their transform handles; only the pending light of the scope changes, no other entity changes, and the storage is the old one with the start slot and its inverse interned |
| Scenarios.OpenDefinition | src/pbrt/genscene.cpp:641-669 | `ObjectBegin` of a new name outside a definition pushes the scope and opens an empty definition; nothing else changes |
| Scenarios.ShapeInDefinition | src/pbrt/genscene.cpp:615-620 | a shape inside an open definition is appended there and not to the scene; a pending area light still gets its entry, with a warning; every other definition and the scope are unchanged |
| Scenarios.CapturedShape | src/pbrt/genscene.cpp:641-700 | `ObjectBegin`, `Shape`, `ObjectEnd` leaves one shape in the new definition, the scene's shapes, the other definitions, the setup and the scope as before |
| Scenarios.CloseDefinition | src/pbrt/genscene.cpp:673-700 | `ObjectEnd` of a definition opened on top of a scope gives that scope back and changes nothing else |
| Scenarios.ScopedTranslate | src/pbrt/genscene.cpp:467-494 | a translation inside a transform scope is undone by its `TransformEnd`: the whole state is as before |
| Scenarios.NestedScopes | src/pbrt/genscene.cpp:401-494 | an attribute scope holding a transform scope and a further attribute scope leaves the whole state as before: restores compose |

## Left out

- `FormattingScene` (the textual re-serialiser): printing, upgrade rewrites that depend on `ParameterDictionary` internals, PLY writing and environment lookups are I/O.
- `WorldEnd`: it hands the scene to the renderer through a global function pointer and reports thread statistics.
- `CreateMaterials`: it calls foreign material constructors.
- `Option`: it writes the global options, and its argument normalisation is not part of this model.
- Matrix and floating-point work: the transform constructors, the camera-placement arithmetic and `Transform::Hash` are uninterpreted operations of `TransformOps`. The model does not check that, for example, `inverse` really inverts.
- Interning.TransformCache.Lookup: the hash table's buckets are abstracted to a linear search of the stored values. This is sound because hashing is consistent with equality, but bucket layout and cost are not modelled.
- GenScene.GeneralScene.ColorSpace: `RGBColorSpace::GetNamed` is not part of this model (its case folding and the list of known spaces are foreign). It is the parameter `namedColorSpace`, constrained only to resolve `"srgb"` to the default space.
- GenScene.GeneralScene.Freeze: C++ leaves the order in which the two `Lookup` calls are evaluated unspecified (they are arguments of one constructor call). The model interns the start slot first. This fixes only the storage positions, not which handles are equal.
- Pointers into the arena are handles (indices). Parameter vectors are values: the in-place marking of shared `ParsedParameter` objects by `Attribute` is modelled as marking copies, so aliasing between lists is not captured.
- Statistics counters (cache hits, memory, instance counts) have no effect on the state and are left out.
- The `Uninitialized` API state and the `VERIFY_INITIALIZED` error branch are unreachable, because the constructor enters the options block. The model keeps the state but has no branch for it.
- `CHECK_EQ` on the nesting marker cannot fail once the other two kinds are excluded, so it is not modelled separately.
- An `ErrorExit` ends the process. The model records it in `fatal` and accepts no further directive.
- `genscene.h` is not part of this model. The constants and accessors taken from it are listed above.
- `src/pbrt/textures.cpp`, `src/lights/projection.cpp` and `src/core/sampling.cpp` are not part of this model: texture evaluation, light transport and sampling are floating-point numerics over foreign code.
