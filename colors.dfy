/** The colour-editing lookups of the application: which colour object a
    dialog item designates (`getVisualParamPointerFromItem`), which of its
    parts the dialog may edit (the `allowedParts` bit mask), and which three
    floats of the object's colour array one colour component designates
    (`getRGBPointerFromItem`). Scene objects are known only through partial
    maps from handles to what the lookup needs of them. */
module ColorParts {

  import opened Wrappers

  /** The `COLOR_ID_*` items that designate a colour object. `OtherItem`
      stands for every other item code. The header that gives the codes is
      not part of this model; one constructor per code assumes the codes are
      distinct, as the lookup's independent equality tests require. */
  datatype ColorItem =
    | CameraA | CameraB | ForceSensorA | ForceSensorB | JointA | JointB
    | Path | PathShaping | Graph3DCurve | Collision | CollisionContour
    | DistanceSegment | ClippingPlane | LightCasing | LightLight | Dummy
    | VisionSensorPassive | VisionSensorActive
    | ProxSensorPassive | ProxSensorActive | ProxSensorRay | ProxSensorMinDist
    | MillPassive | MillActive | Shape | ShapeGeometry
    | OtherItem(code: int)

  /** The `sim_colorcomponent_*` values the lookup distinguishes; every other
      value is `OtherComponent`. As for the items, the five codes are assumed
      distinct. */
  datatype ColorComponent =
    | AmbientDiffuse | Diffuse | Specular | Emission | Auxiliary
    | OtherComponent(code: int)

  // The bits of `allowedParts`.
  const PartAmbientDiffuse: bv32 := 1
  const PartDiffuse: bv32 := 2        // lights only
  const PartSpecular: bv32 := 4
  const PartEmission: bv32 := 8
  const PartAuxiliary: bv32 := 16
  const PartPulsation: bv32 := 32
  const PartShininess: bv32 := 64
  const PartOpacity: bv32 := 128
  const PartColorName: bv32 := 256
  const PartExtensionString: bv32 := 512

  /** What a shape lookup needs: whether the shape is a compound, and how many
      geometric components it has in all. */
  datatype ShapeInfo = ShapeInfo(compound: bool, components: nat)

  /** The scene objects the lookups consult, by handle. */
  datatype Scene = Scene(
    cameras: set<int>,
    forceSensors: set<int>,
    joints: set<int>,
    paths: map<int, bool>,             // whether the path has a path container
    graphs3DCurves: map<int, set<int>>, // the ids of each graph's 3D curves
    collisions: set<int>,
    distances: set<int>,
    mirrors: map<int, bool>,           // true: a mirror; false: a clipping plane
    lights: set<int>,
    dummies: set<int>,
    visionSensors: set<int>,
    proxSensors: set<int>,
    mills: set<int>,
    shapes: map<int, ShapeInfo>,
    editModeObject: int,               // the shape being edited, if any
    editModeComponent: int)            // its component being edited

  /** The dialog title and the parts the dialog may edit, per item. */
  function DialogTitle(item: ColorItem): string
  {
    match item
    case CameraA => "Camera - part A"
    case CameraB => "Camera - part B"
    case ForceSensorA => "Force sensor - part A"
    case ForceSensorB => "Force sensor - part B"
    case JointA => "Joint - part A"
    case JointB => "Joint - part B"
    case Path => "Path"
    case PathShaping => "Path shaping"
    case Graph3DCurve => "Graph - 3D curve"
    case Collision => "Collision"
    case CollisionContour => "Collision contour"
    case DistanceSegment => "Distance segment"
    case ClippingPlane => "Clipping plane"
    case LightCasing => "Light - casing"
    case LightLight => "Light"
    case Dummy => "Dummy"
    case VisionSensorPassive => "Vision sensor - passive"
    case VisionSensorActive => "Vision sensor - active"
    case ProxSensorPassive => "Proximity sensor - passive"
    case ProxSensorActive => "Proximity sensor - active"
    case ProxSensorRay => "Proximity sensor - ray"
    case ProxSensorMinDist => "Proximity sensor - min. dist."
    case MillPassive => "Mill - passive"
    case MillActive => "Mill - active"
    case Shape => "Shape"
    case ShapeGeometry => "Shape component"
    case OtherItem(_) => ""
  }

  function DialogParts(item: ColorItem): bv32
  {
    var common := PartAmbientDiffuse | PartSpecular | PartEmission | PartAuxiliary;
    match item
    case Graph3DCurve => PartAmbientDiffuse | PartEmission
    case ClippingPlane => common | PartPulsation | PartShininess | PartOpacity
    case LightCasing => common | PartShininess
    case LightLight => PartDiffuse | PartSpecular
    case VisionSensorPassive | VisionSensorActive
       | ProxSensorPassive | ProxSensorActive | ProxSensorRay | ProxSensorMinDist
       | MillPassive | MillActive => common | PartPulsation
    case Shape | ShapeGeometry =>
      common | PartPulsation | PartShininess | PartOpacity | PartColorName | PartExtensionString
    case OtherItem(_) => 0
    case _ => common | PartPulsation | PartShininess
  }

  /** Whether the scene holds the colour object that `item` designates on the
      objects with ids `id1`/`id2`. */
  predicate Present(item: ColorItem, id1: int, id2: int, scene: Scene)
  {
    match item
    case CameraA | CameraB => id1 in scene.cameras
    case ForceSensorA | ForceSensorB => id1 in scene.forceSensors
    case JointA | JointB => id1 in scene.joints
    case Path => id1 in scene.paths && scene.paths[id1]
    case PathShaping => id1 in scene.paths
    case Graph3DCurve => id1 in scene.graphs3DCurves && id2 in scene.graphs3DCurves[id1]
    case Collision => true
    case CollisionContour => id1 in scene.collisions
    case DistanceSegment => id1 in scene.distances
    case ClippingPlane => id1 in scene.mirrors && !scene.mirrors[id1]
    case LightCasing | LightLight => id1 in scene.lights
    case Dummy => id1 in scene.dummies
    case VisionSensorPassive | VisionSensorActive => id1 in scene.visionSensors
    case ProxSensorPassive | ProxSensorActive | ProxSensorRay | ProxSensorMinDist => id1 in scene.proxSensors
    case MillPassive | MillActive => id1 in scene.mills
    case Shape => id1 in scene.shapes && !scene.shapes[id1].compound
    case ShapeGeometry =>
      && id1 in scene.shapes && scene.shapes[id1].compound
      && 0 <= id2 < scene.shapes[id1].components
    case OtherItem(_) => false
  }

  /** Whether the item is one the lookup recognises at all: every listed
      item, except a shape component that is not the one being edited. */
  predicate Recognised(item: ColorItem, id1: int, id2: int, scene: Scene)
  {
    match item
    case OtherItem(_) => false
    case ShapeGeometry => scene.editModeObject == id1 && scene.editModeComponent == id2
    case _ => true
  }

  /** The outcome of `getVisualParamPointerFromItem`: whether a colour object
      was found, the `allowedParts` it leaves behind, and the dialog title it
      assigns (none when the item is not recognised). */
  datatype VisualParam = VisualParam(found: bool, allowedParts: bv32, title: Option<string>)

  function VisualParamFromItem(item: ColorItem, id1: int, id2: int, scene: Scene): (v: VisualParam)
    ensures !v.found ==> v.allowedParts == 0
    ensures v.found <==> Recognised(item, id1, id2, scene) && Present(item, id1, id2, scene)
    ensures v.found ==> v.allowedParts == DialogParts(item) && v.allowedParts != 0
    ensures v.title.Some? <==> Recognised(item, id1, id2, scene)
    ensures v.title.Some? ==> v.title.value == DialogTitle(item)
  {
    if !Recognised(item, id1, id2, scene) then VisualParam(false, 0, None)
    else if Present(item, id1, id2, scene) then VisualParam(true, DialogParts(item), Some(DialogTitle(item)))
    else VisualParam(false, 0, Some(DialogTitle(item)))
  }

  /** The `allowedParts` bit that gates a component, and where its three
      floats start in the colour array. */
  function ComponentBit(c: ColorComponent): bv32
  {
    match c
    case AmbientDiffuse => PartAmbientDiffuse
    case Diffuse => PartDiffuse
    case Specular => PartSpecular
    case Emission => PartEmission
    case Auxiliary => PartAuxiliary
    case OtherComponent(_) => 0
  }

  function ComponentOffset(c: ColorComponent): nat
  {
    match c
    case AmbientDiffuse => 0
    case Diffuse => 3
    case Specular => 6
    case Emission => 9
    case Auxiliary => 12
    case OtherComponent(_) => 0
  }

  /** The component part of `getRGBPointerFromItem`: the offset into the
      found object's colour array, when its part is allowed. */
  function RgbComponentOffset(v: VisualParam, c: ColorComponent): Option<nat>
  {
    if v.found && !c.OtherComponent? && v.allowedParts & ComponentBit(c) != 0
    then Some(ComponentOffset(c))
    else None
  }

  /** The component lookup at the end of `getRGBPointerFromItem`. Items that
      the function answers before this point (the environment, mirror, octree,
      point cloud, graph and button colours) are not modelled: for them, as for
      every `OtherItem`, this gives `None`. */
  function RgbPointerFromItem(item: ColorItem, id1: int, id2: int, c: ColorComponent, scene: Scene): (r: Option<nat>)
    ensures r.Some? ==> Present(item, id1, id2, scene) && !c.OtherComponent? && r.value == ComponentOffset(c)
    ensures r.Some? ==> r.value % 3 == 0 && r.value <= 12
  {
    RgbComponentOffset(VisualParamFromItem(item, id1, id2, scene), c)
  }

  /** A colour component is handed out exactly when the object is found and
      the item's dialog allows that component's part; it is then the
      component's own three floats. */
  lemma RgbOnlyWhenAllowed(item: ColorItem, id1: int, id2: int, c: ColorComponent, scene: Scene)
    ensures var r := RgbPointerFromItem(item, id1, id2, c, scene);
      && (r.Some? <==>
            && Recognised(item, id1, id2, scene) && Present(item, id1, id2, scene)
            && !c.OtherComponent? && DialogParts(item) & ComponentBit(c) != 0)
      && (r.Some? ==> r.value == ComponentOffset(c) && r.value + 3 <= 15)
  {
    var v := VisualParamFromItem(item, id1, id2, scene);
    var found := Recognised(item, id1, id2, scene) && Present(item, id1, id2, scene);
    assert v.found == found;
    assert RgbPointerFromItem(item, id1, id2, c, scene) == RgbComponentOffset(v, c);
    if found {
      assert v.allowedParts == DialogParts(item);
    } else {
      assert RgbComponentOffset(v, c) == None;
    }
  }

  /** The five components own disjoint triples of the fifteen-float colour
      array. */
  lemma ComponentSlotsDisjoint(c1: ColorComponent, c2: ColorComponent)
    requires !c1.OtherComponent? && !c2.OtherComponent? && c1 != c2
    ensures ComponentOffset(c1) + 3 <= ComponentOffset(c2) || ComponentOffset(c2) + 3 <= ComponentOffset(c1)
    ensures ComponentBit(c1) & ComponentBit(c2) == 0
  {
  }

  /** Lights are edited per part: the light itself has only diffuse and
      specular colours, its casing everything but diffuse; the diffuse bit is
      allowed for no other item. */
  lemma DiffuseOnlyForLights(item: ColorItem)
    ensures DialogParts(item) & PartDiffuse != 0 <==> item == LightLight
    ensures item == LightLight ==> DialogParts(item) & PartAmbientDiffuse == 0
  {
  }
}
