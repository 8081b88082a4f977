/**
 * Value types of the scene-description interpreter: locations, parsed
 * parameters, parameter dictionaries, the scene entities it accumulates, the
 * scoped graphics state, nesting markers and diagnostics.
 *
 * Transforms are not values of a fixed type here: the interpreter is generic
 * in a transform type `T` with equality, and the operations it needs on
 * transforms (identity, product, inverse and the constructors of the
 * individual directives) are supplied as a `TransformOps<T>` record.
 * Entities never hold transforms themselves, only handles into the
 * transform cache.
 */
module SceneTypes {
  import opened Util

  /** Number of time samples in a transform set: shutter open and shutter close. */
  const MaxTransforms: nat := 2

  /** Selection masks over the slots of a transform set. */
  const StartTransformBits: bv32 := 1 << 0
  const EndTransformBits: bv32 := 1 << 1
  const AllTransformsBits: bv32 := (1 << MaxTransforms) - 1

  /** Whether slot `i` is selected by `bits` (the test of `FOR_ACTIVE_TRANSFORMS`). */
  predicate Selected(bits: bv32, i: nat)
    requires i < MaxTransforms
  {
    bits & (1 << i) != 0
  }

  datatype Vector3 = Vector3(x: real, y: real, z: real)

  /**
   * The transform algebra the interpreter relies on, left uninterpreted.
   * `fromMatrix` builds the transpose of the transform whose matrix is given
   * row by row (the `Transform`/`ConcatTransform` directives);
   * `cameraTranslation` maps a world-from-camera transform to the translation
   * that moves the camera position to the origin.
   */
  datatype TransformOps<!T> = TransformOps(
    identity: T,
    compose: (T, T) -> T,
    inverse: T -> T,
    fromMatrix: seq<real> -> T,
    translate: Vector3 -> T,
    scale: Vector3 -> T,
    rotate: (real, Vector3) -> T,
    lookAt: (Vector3, Vector3, Vector3) -> T,
    cameraTranslation: T -> T)

  /** Index of a transform in the transform cache's storage. */
  type Handle = nat

  /** Source location of a directive; `NoLoc` is a default-constructed location. */
  datatype FileLoc = NoLoc | FileLoc(filename: string, line: int, column: int)

  /** Name of the colour space every scene starts with. */
  const SRGB: string := "srgb"

  /**
   * One parameter of a directive as the parser delivers it. `mayBeUnused`
   * and `colorSpace` are the two fields the interpreter sets when the
   * parameter becomes an inherited attribute.
   */
  datatype ParsedParameter = ParsedParameter(
    typeName: string,
    name: string,
    values: seq<string>,
    loc: FileLoc,
    mayBeUnused: bool,
    colorSpace: Option<string>)

  /**
   * A parameter dictionary: the directive's own parameters, the inherited
   * attribute list of its category, and the colour space in force.
   */
  datatype ParameterDictionary = ParameterDictionary(
    params: seq<ParsedParameter>,
    inherited: seq<ParsedParameter>,
    colorSpace: Option<string>)

  /** A default-constructed dictionary. */
  const EmptyDictionary: ParameterDictionary := ParameterDictionary([], [], None)

  /** Two interned transforms at two times, or the default-constructed (empty) value. */
  datatype AnimatedTransform =
    | NoTransform
    | AnimatedTransform(startTransform: Handle, startTime: real, endTransform: Handle, endTime: real)

  datatype SceneEntity = SceneEntity(name: string, parameters: ParameterDictionary, loc: FileLoc)

  /** Media and textures: an entity with the transforms in force when it was declared. */
  datatype TransformedSceneEntity = TransformedSceneEntity(
    name: string,
    parameters: ParameterDictionary,
    loc: FileLoc,
    worldFromObject: AnimatedTransform)

  datatype LightSceneEntity = LightSceneEntity(
    name: string,
    parameters: ParameterDictionary,
    loc: FileLoc,
    worldFromLight: AnimatedTransform,
    medium: string)

  datatype CameraSceneEntity = CameraSceneEntity(
    name: string,
    parameters: ParameterDictionary,
    loc: FileLoc,
    worldFromCamera: AnimatedTransform,
    medium: string)

  /**
   * A shape under a static transform. `materialIndex` is -1 when the
   * material is selected by `materialName`; `lightIndex` is -1 when the
   * shape is not emissive.
   */
  datatype ShapeSceneEntity = ShapeSceneEntity(
    name: string,
    parameters: ParameterDictionary,
    loc: FileLoc,
    worldFromObject: Handle,
    objectFromWorld: Handle,
    reverseOrientation: bool,
    materialIndex: int,
    materialName: string,
    lightIndex: int,
    insideMedium: string,
    outsideMedium: string)

  /** A shape whose transform differs between the two time samples. */
  datatype AnimatedShapeSceneEntity = AnimatedShapeSceneEntity(
    name: string,
    parameters: ParameterDictionary,
    loc: FileLoc,
    worldFromObject: AnimatedTransform,
    identity: Handle,
    reverseOrientation: bool,
    materialIndex: int,
    materialName: string,
    lightIndex: int,
    insideMedium: string,
    outsideMedium: string)

  /** A use of an object definition: animated transform, or a single static one. */
  datatype InstanceSceneEntity = InstanceSceneEntity(
    name: string,
    loc: FileLoc,
    worldFromInstanceAnimated: AnimatedTransform,
    worldFromInstance: Option<Handle>)

  /** The shapes captured between `ObjectBegin` and `ObjectEnd`. */
  datatype InstanceDefinition = InstanceDefinition(
    shapes: seq<ShapeSceneEntity>,
    animatedShapes: seq<AnimatedShapeSceneEntity>)

  const EmptyDefinition: InstanceDefinition := InstanceDefinition([], [])

  /** The five categories of inheritable attribute lists. */
  datatype AttributeTarget = ShapeTarget | LightTarget | MaterialTarget | MediumTarget | TextureTarget

  /** The name `Attribute` accepts for each category. */
  function TargetName(t: AttributeTarget): (s: string)
    ensures TargetNamed(s) == Some(t)
  {
    match t
    case ShapeTarget => "shape"
    case LightTarget => "light"
    case MaterialTarget => "material"
    case MediumTarget => "medium"
    case TextureTarget => "texture"
  }

  /** The category an `Attribute` target string selects, if any. */
  function TargetNamed(s: string): Option<AttributeTarget> {
    if s == "shape" then Some(ShapeTarget)
    else if s == "light" then Some(LightTarget)
    else if s == "material" then Some(MaterialTarget)
    else if s == "medium" then Some(MediumTarget)
    else if s == "texture" then Some(TextureTarget)
    else None
  }

  /** A target string is accepted exactly when it is the name of a category. */
  lemma TargetNamedInverse(s: string)
    ensures TargetNamed(s).Some? <==> exists t :: TargetName(t) == s
    ensures TargetNamed(s).Some? ==> TargetName(TargetNamed(s).value) == s
  {
    if t :| TargetName(t) == s {
      assert TargetNamed(s) == Some(t);
    }
    match TargetNamed(s)
    case Some(t) => assert TargetName(t) == s;
    case None =>
  }

  /** The attributes that are inherited down the scope hierarchy. */
  datatype GraphicsState = GraphicsState(
    currentInsideMedium: string,
    currentOutsideMedium: string,
    currentMaterialIndex: int,
    currentMaterialName: string,
    areaLightName: string,
    areaLightParams: ParameterDictionary,
    areaLightLoc: FileLoc,
    colorSpace: string,
    reverseOrientation: bool,
    shapeAttributes: seq<ParsedParameter>,
    lightAttributes: seq<ParsedParameter>,
    materialAttributes: seq<ParsedParameter>,
    mediumAttributes: seq<ParsedParameter>,
    textureAttributes: seq<ParsedParameter>)
  {
    /** The inherited list of category `t`. */
    function Attributes(t: AttributeTarget): seq<ParsedParameter> {
      match t
      case ShapeTarget => shapeAttributes
      case LightTarget => lightAttributes
      case MaterialTarget => materialAttributes
      case MediumTarget => mediumAttributes
      case TextureTarget => textureAttributes
    }

    /** This state with the inherited list of category `t` replaced. */
    function WithAttributes(t: AttributeTarget, ps: seq<ParsedParameter>): (g: GraphicsState)
      ensures g.Attributes(t) == ps
      ensures forall u :: u != t ==> g.Attributes(u) == Attributes(u)
    {
      match t
      case ShapeTarget => this.(shapeAttributes := ps)
      case LightTarget => this.(lightAttributes := ps)
      case MaterialTarget => this.(materialAttributes := ps)
      case MediumTarget => this.(mediumAttributes := ps)
      case TextureTarget => this.(textureAttributes := ps)
    }
  }

  /** A default-constructed graphics state: material 0, sRGB, nothing inherited. */
  const InitialGraphicsState: GraphicsState :=
    GraphicsState("", "", 0, "", "", EmptyDictionary, NoLoc, SRGB, false, [], [], [], [], [])

  datatype NestingKind = AttributeScope | TransformScope | ObjectScope

  /** An entry of the nesting stack: which directive opened the scope, and where. */
  datatype PushedScope = PushedScope(kind: NestingKind, loc: FileLoc)

  /** Number of entries that also saved a graphics state (attribute and object scopes). */
  function ScopedCount(s: seq<PushedScope>): (n: nat)
    ensures n <= |s|
  {
    if s == [] then 0
    else (if s[0].kind == TransformScope then 0 else 1) + ScopedCount(s[1..])
  }

  /** Number of open object scopes. */
  function ObjectCount(s: seq<PushedScope>): (n: nat)
    ensures n <= ScopedCount(s)
    ensures n == 0 <==> forall k :: 0 <= k < |s| ==> s[k].kind != ObjectScope
  {
    if s == [] then 0
    else (if s[0].kind == ObjectScope then 1 else 0) + ObjectCount(s[1..])
  }

  /** Pushing one entry adds its own weight to both counts. */
  lemma {:induction false} CountsPush(s: seq<PushedScope>, p: PushedScope)
    ensures ScopedCount(s + [p]) == ScopedCount(s) + (if p.kind == TransformScope then 0 else 1)
    ensures ObjectCount(s + [p]) == ObjectCount(s) + (if p.kind == ObjectScope then 1 else 0)
  {
    if s != [] {
      assert (s + [p])[1..] == s[1..] + [p];
      CountsPush(s[1..], p);
    }
  }

  /** Popping the top entry removes its weight from both counts. */
  lemma {:induction false} CountsPop(s: seq<PushedScope>)
    requires |s| > 0
    ensures ScopedCount(DropLast(s)) == ScopedCount(s) - (if Last(s).kind == TransformScope then 0 else 1)
    ensures ObjectCount(DropLast(s)) == ObjectCount(s) - (if Last(s).kind == ObjectScope then 1 else 0)
  {
    assert DropLast(s) + [Last(s)] == s;
    CountsPush(DropLast(s), Last(s));
  }

  datatype APIState = Uninitialized | OptionsBlock | WorldBlock

  datatype Severity = Warning | Error | Fatal

  /** What the interpreter reports; the last group aborts scene construction. */
  datatype Message =
    | OptionsInWorldBlock(directive: string)
    | WorldDirectiveInOptionsBlock(directive: string)
    | UnmatchedEnd(closer: NestingKind)
    | UnknownCoordinateSystem(name: string)
    | UnknownColorSpace(name: string)
    | AnimatedTransformIgnored(directive: string)
    | AreaLightWithInstancing
    | MismatchedNesting(open: NestingKind, openedAt: FileLoc, closer: NestingKind)
    | UnknownAttributeTarget(target: string)
    | UnknownTextureType(textureType: string)
    | TextureRedefined(name: string)
    | NamedMaterialRedefined(name: string)
    | NamedMediumRedefined(name: string)
    | ObjectBeginInsideDefinition
    | ObjectRedefined(name: string)
    | ObjectEndOutsideDefinition
    | ObjectInstanceInsideDefinition

  datatype Diagnostic = Diagnostic(severity: Severity, loc: Option<FileLoc>, message: Message)

  function ErrorAt(loc: FileLoc, m: Message): Diagnostic { Diagnostic(Error, Some(loc), m) }
  function WarningAt(loc: FileLoc, m: Message): Diagnostic { Diagnostic(Warning, Some(loc), m) }
  function FatalAt(loc: FileLoc, m: Message): Diagnostic { Diagnostic(Fatal, Some(loc), m) }

  /**
   * A transform per time sample (`TransformSet`): slot 0 at shutter open,
   * slot 1 at shutter close.
   */
  datatype TransformSet<T> = TransformSet(start: T, end: T) {
    /** Slot `i`, as the array subscript reads it. */
    function At(i: nat): T
      requires i < MaxTransforms
    {
      if i == 0 then start else end
    }

    /** The set with slot `i` overwritten by `t`. */
    function With(i: nat, t: T): (r: TransformSet<T>)
      requires i < MaxTransforms
      ensures r.At(i) == t
      ensures forall j :: 0 <= j < MaxTransforms && j != i ==> r.At(j) == At(j)
    {
      if i == 0 then this.(start := t) else this.(end := t)
    }
  }

  /** Whether the two time samples differ (motion blur is in effect: `CTMIsAnimated`). */
  predicate IsAnimated<T(==)>(ts: TransformSet<T>) {
    ts.start != ts.end
  }
}
