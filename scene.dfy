/**
 * The statable logic of src/pipeline/scene.cpp: the command-line parser,
 * the scene state that the scroll, key and resize callbacks update, the
 * row stride of the saved screenshot and the light position; and the
 * default render mode chosen in src/main.cpp.
 */
module Scene {
  import opened Wrappers
  import opened Vectors
  import opened Attributes

  // ---------------------------------------------------------------------
  // Command line
  // ---------------------------------------------------------------------

  const DragonArg: string := "dragon"
  const DragonOffArg: string := "dragon_off"
  const BunnyArg: string := "bunny"
  const ImageArg: string := "image"
  const FlatArg: string := "flat"
  const WireframeArg: string := "wireframe"

  /** InputOptions: the model, an optional shading option, and whether to save a screenshot. */
  datatype InputOptions = InputOptions(model: ModelChoice, opt: Option<ShadingOption>, saveImage: bool)

  /** The two ways the parser exits with status 1. */
  datatype ArgError = InvalidModel | InvalidOption

  /** What the optional second argument asks for. */
  datatype Extra = SaveImage | Shade(option: ShadingOption)

  /** The command-line word of each model. */
  function ModelArg(m: ModelChoice): string {
    match m
    case DragonObj => DragonArg
    case DragonOff => DragonOffArg
    case BunnyOff => BunnyArg
  }

  /** The model a first argument names, if any. */
  function ModelNamed(s: string): Option<ModelChoice> {
    if s == DragonArg then Some(DragonObj)
    else if s == DragonOffArg then Some(DragonOff)
    else if s == BunnyArg then Some(BunnyOff)
    else None
  }

  /** The extra a second argument names, if any. */
  function ExtraNamed(s: string): Option<Extra> {
    if s == ImageArg then Some(SaveImage)
    else if s == FlatArg then Some(Shade(Flat))
    else if s == WireframeArg then Some(Shade(Wireframe))
    else None
  }

  /** Each model has exactly one word, and that word names it. */
  lemma ModelArgRoundTrip(m: ModelChoice, s: string)
    ensures ModelNamed(ModelArg(m)) == Some(m)
    ensures ModelNamed(s) == Some(m) <==> s == ModelArg(m)
  {
  }

  /** The extras the parser accepts: a screenshot, flat or wireframe, nothing else. */
  lemma ExtraNamedRange(s: string)
    ensures ExtraNamed(s).Some? && ExtraNamed(s).value.Shade? ==> UsesFaceNormal(ExtraNamed(s).value.option)
    ensures ExtraNamed(s) == Some(SaveImage) <==> s == ImageArg
  {
  }

  /**
   * ParseArgs: argv holds argc words, the program's name first. The first
   * argument picks the model (dragon when absent); the second, read only
   * when there are exactly three words, asks for a screenshot or a shading
   * option. An unknown word is an error, the model's first.
   */
  method ParseArgs(argv: seq<string>) returns (r: Result<InputOptions, ArgError>)
    ensures |argv| <= 1 ==> r == Success(InputOptions(DragonObj, None, false))
    ensures |argv| >= 2 && ModelNamed(argv[1]).None? ==> r == Failure(InvalidModel)
    ensures |argv| == 3 && ModelNamed(argv[1]).Some? && ExtraNamed(argv[2]).None? ==> r == Failure(InvalidOption)
    ensures r.Success? <==> (|argv| < 2 || ModelNamed(argv[1]).Some?) && (|argv| != 3 || ExtraNamed(argv[2]).Some?)
    ensures r.Success? ==> r.value.model == if |argv| >= 2 then ModelNamed(argv[1]).value else DragonObj
    ensures r.Success? ==> (r.value.saveImage <==> |argv| == 3 && argv[2] == ImageArg)
    ensures r.Success? ==> r.value.opt == if |argv| == 3 && ExtraNamed(argv[2]).value.Shade? then Some(ExtraNamed(argv[2]).value.option) else None
    ensures r.Success? ==> !(r.value.saveImage && r.value.opt.Some?)
  {
    var model := DragonObj;
    var shade: Option<ShadingOption> := None;
    var saveImage := false;

    if |argv| == 1 {
      model := DragonObj;
    } else if |argv| >= 2 {
      var choice := argv[1];
      if choice == DragonArg {
        model := DragonObj;
      } else if choice == DragonOffArg {
        model := DragonOff;
      } else if choice == BunnyArg {
        model := BunnyOff;
      } else {
        return Failure(InvalidModel);
      }
    }
    if |argv| == 3 {
      var extras := argv[2];
      if extras == ImageArg {
        saveImage := true;
      } else if extras == FlatArg {
        shade := Some(Flat);
      } else if extras == WireframeArg {
        shade := Some(Wireframe);
      } else {
        return Failure(InvalidOption);
      }
    }
    return Success(InputOptions(model, shade, saveImage));
  }

  /**
   * The render mode of src/main.cpp: the option given on the command line,
   * or else per-vertex shading for the OFF meshes and normal mapping for
   * the textured OBJ dragon.
   */
  function RenderMode(o: InputOptions): (mode: ShadingOption)
    ensures o.opt.Some? ==> mode == o.opt.value
    ensures o.opt.None? ==> (mode == NormalMapping <==> o.model == DragonObj)
    ensures o.opt.None? ==> (mode == PerVertex <==> o.model != DragonObj)
  {
    if o.opt.None? then
      match o.model
      case DragonOff | BunnyOff => PerVertex
      case DragonObj => NormalMapping
    else
      o.opt.value
  }

  /** Normal mapping is chosen only for the OBJ dragon, the one mesh with UV data. */
  lemma NormalMappingOnlyForObj(o: InputOptions)
    requires o.opt.None? || UsesFaceNormal(o.opt.value)
    ensures RenderMode(o) == NormalMapping ==> o.model == DragonObj
  {
  }

  // ---------------------------------------------------------------------
  // Scene state and the callbacks
  // ---------------------------------------------------------------------

  /** C's `unsigned int`. */
  newtype uint32 = x: int | 0 <= x < 0x1_0000_0000

  const WidthInit: uint32 := 1000
  const HeightInit: uint32 := 1000
  const FovInitial: real := 45.0
  const MinFov: real := 10.0
  const MaxFov: real := 60.0
  const ZoomTick: real := 0.09
  const RotationTick: real := 1.35

  // GLFW key codes
  const KeyEscape: int := 256
  const KeyRight: int := 262
  const KeyLeft: int := 263
  const KeyDown: int := 264
  const KeyUp: int := 265

  /** The field of view after the scroll callback's two clamps. */
  function ClampFov(f: real): (r: real)
    ensures MinFov <= r <= MaxFov
    ensures MinFov <= f <= MaxFov ==> r == f
    ensures f < MinFov ==> r == MinFov
    ensures f > MaxFov ==> r == MaxFov
  {
    if f < MinFov then MinFov else if f > MaxFov then MaxFov else f
  }

  /** Clamping keeps the order of two fields of view, and clamping twice is clamping once. */
  lemma ClampFovMonotone(f: real, g: real)
    ensures f <= g ==> ClampFov(f) <= ClampFov(g)
    ensures ClampFov(ClampFov(f)) == ClampFov(f)
  {
  }

  /** The change a key makes to rotate_y, in degrees. */
  function YawStep(key: int): real {
    if key == KeyLeft then RotationTick else if key == KeyRight then -RotationTick else 0.0
  }

  /** The change a key makes to rotate_x, in degrees. */
  function PitchStep(key: int): real {
    if key == KeyUp then -RotationTick else if key == KeyDown then RotationTick else 0.0
  }

  /** The four arrow keys. */
  predicate RotatesView(key: int) {
    key == KeyLeft || key == KeyRight || key == KeyUp || key == KeyDown
  }

  /** A key moves the view exactly when it is an arrow key, and opposite arrows undo each other. */
  lemma ArrowKeysRotate(key: int)
    ensures RotatesView(key) <==> YawStep(key) != 0.0 || PitchStep(key) != 0.0
    ensures YawStep(KeyLeft) + YawStep(KeyRight) == 0.0 && PitchStep(KeyUp) + PitchStep(KeyDown) == 0.0
    ensures key == KeyEscape ==> YawStep(key) == 0.0 && PitchStep(key) == 0.0
  {
  }

  /** C's conversion of an `int` to an `unsigned int`: modulo 2^32. */
  function ToUnsigned(x: int): (u: uint32)
    ensures 0 <= x < 0x1_0000_0000 ==> u as int == x
    ensures x < 0 && -0x1_0000_0000 <= x ==> u as int == x + 0x1_0000_0000
  {
    (x % 0x1_0000_0000) as uint32
  }

  /**
   * SceneGlobals: the view parameters the user changes from the keyboard,
   * the scroll wheel and by resizing the window, and the flag that asks
   * the render loop to upload new transforms.
   */
  class SceneGlobals {
    var width: uint32
    var height: uint32
    var rotateX: real  // degrees
    var rotateY: real  // degrees
    var fov: real
    var dirty: bool

    /** The field of view stays within the scroll limits. */
    ghost predicate Valid()
      reads this
    {
      MinFov <= fov <= MaxFov
    }

    constructor ()
      ensures Valid()
      ensures width == WidthInit && height == HeightInit
      ensures rotateX == 0.0 && rotateY == 0.0 && fov == FovInitial && !dirty
    {
      width, height := WidthInit, HeightInit;
      rotateX, rotateY := 0.0, 0.0;
      fov := FovInitial;
      dirty := false;
    }

    /** ScrollCallback: zoom by yoffset ticks, clamped to [10, 60] degrees. */
    method Scroll(yoffset: real)
      modifies this
      ensures Valid() && dirty
      ensures fov == ClampFov(old(fov) - yoffset * ZoomTick)
      ensures width == old(width) && height == old(height)
      ensures rotateX == old(rotateX) && rotateY == old(rotateY)
    {
      fov := fov - yoffset * ZoomTick;
      if fov < MinFov {
        fov := MinFov;
      }
      if fov > MaxFov {
        fov := MaxFov;
      }
      dirty := true;
    }

    /**
     * InputCallback: Escape asks the window to close (the result), the
     * arrow keys turn the model by one tick and mark the scene dirty.
     */
    method Input(key: int) returns (close: bool)
      requires Valid()
      modifies this
      ensures Valid()
      ensures close <==> key == KeyEscape
      ensures rotateY == old(rotateY) + YawStep(key)
      ensures rotateX == old(rotateX) + PitchStep(key)
      ensures dirty == (old(dirty) || RotatesView(key))
      ensures width == old(width) && height == old(height) && fov == old(fov)
    {
      close := false;
      if key == KeyEscape {
        close := true;
      }

      if key == KeyLeft {
        rotateY := rotateY + RotationTick;
        dirty := true;
      }
      if key == KeyRight {
        rotateY := rotateY - RotationTick;
        dirty := true;
      }
      if key == KeyUp {
        rotateX := rotateX - RotationTick;
        dirty := true;
      }
      if key == KeyDown {
        rotateX := rotateX + RotationTick;
        dirty := true;
      }
    }

    /** FrameBufferSizeCallback: store the new framebuffer size and mark the scene dirty. */
    method Resize(w: int, h: int)
      requires -0x8000_0000 <= w < 0x8000_0000 && -0x8000_0000 <= h < 0x8000_0000
      requires Valid()
      modifies this
      ensures Valid()
      ensures width == ToUnsigned(w) && height == ToUnsigned(h) && dirty
      ensures 0 <= w ==> width as int == w
      ensures 0 <= h ==> height as int == h
      ensures rotateX == old(rotateX) && rotateY == old(rotateY) && fov == old(fov)
    {
      height := ToUnsigned(h);
      width := ToUnsigned(w);
      dirty := true;
    }
  }

  // ---------------------------------------------------------------------
  // Screenshot buffer
  // ---------------------------------------------------------------------

  const Channels: int := 3
  const PackAlignment: int := 4

  /** C's `%`, which truncates toward zero: the remainder takes the sign of a. */
  function CRem(a: int, b: int): (r: int)
    requires b > 0
    ensures a >= 0 ==> 0 <= r < b
    ensures a < 0 ==> -b < r <= 0
  {
    if a >= 0 then a % b else -((-a) % b)
  }

  /** The remainder completes C's truncating division: a == (a / b) * b + a % b, the quotient rounded toward zero. */
  lemma CRemQuotient(a: int, b: int)
    requires b > 0
    ensures a == (if a >= 0 then a / b else -((-a) / b)) * b + CRem(a, b)
  {
    if a < 0 {
      assert -a == ((-a) / b) * b + (-a) % b;
    }
  }

  /**
   * The byte length of one RGB row of the screenshot, padded up to the
   * 4-byte pack alignment.
   */
  function RowStride(width: int): (stride: int)
    ensures stride % PackAlignment == 0
    ensures width >= 0 ==> Channels * width <= stride < Channels * width + PackAlignment
  {
    var stride := Channels * width;
    var rem := CRem(stride, PackAlignment);
    if rem != 0 then stride + (PackAlignment - rem) else stride
  }

  /** The stride is the smallest aligned length that holds a row. */
  lemma RowStrideMinimal(width: int, s: int)
    requires width >= 0 && s % PackAlignment == 0 && s >= Channels * width
    ensures RowStride(width) <= s
  {
    var t := RowStride(width);
  }

  /** The byte length of the whole screenshot buffer. */
  function BufferSize(width: int, height: int): (size: int)
    ensures size % PackAlignment == 0
  {
    AlignedRows(RowStride(width), height);
    RowStride(width) * height
  }

  /** Whole rows of an aligned length make an aligned length. */
  lemma AlignedRows(stride: int, height: int)
    requires stride % PackAlignment == 0
    ensures (stride * height) % PackAlignment == 0
  {
    var q := stride / PackAlignment;
    assert stride == PackAlignment * q;
    assert stride * height == PackAlignment * (q * height);
  }

  /** The buffer holds every pixel's three bytes, and less than one alignment unit more per row. */
  lemma BufferHoldsImage(width: int, height: int)
    requires width >= 0 && height >= 0
    ensures Channels * width * height <= BufferSize(width, height)
    ensures BufferSize(width, height) < (Channels * width + PackAlignment) * height || height == 0
  {
    var stride := RowStride(width);
    MultiplyMonotone(Channels * width, stride, height);
    if height > 0 {
      MultiplyStrict(stride, Channels * width + PackAlignment, height);
    }
  }

  lemma MultiplyMonotone(a: int, b: int, k: int)
    requires a <= b && k >= 0
    ensures a * k <= b * k
  {
  }

  lemma MultiplyStrict(a: int, b: int, k: int)
    requires a < b && k > 0
    ensures a * k < b * k
  {
  }

  // ---------------------------------------------------------------------
  // Lighting
  // ---------------------------------------------------------------------

  /** The eye's distance along the view axis. */
  const EyeZ: real := 3.0

  /**
   * GetLightPosition: a point light on the view axis, placed per model
   * between the origin and the eye.
   */
  function LightPosition(model: ModelChoice): (p: Vec4)
    ensures p.x == 0.0 && p.y == 0.0 && p.w == 1.0
    ensures 0.0 < p.z < EyeZ
    ensures p.z == (if model == DragonObj then 1.85 else if model == DragonOff then 2.15 else 2.0)
  {
    var lightZ := if model == DragonObj then 1.85 else if model == DragonOff then 2.15 else 2.0;
    Vec4(0.0, 0.0, lightZ, 1.0)
  }
}
