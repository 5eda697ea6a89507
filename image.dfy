/**
 * Images (`src/graphics/image.rs`): the argument checks `make_raw` makes
 * before it touches the GPU, the image record it builds, its size getters
 * and its blend mode.
 */
module Images {
  import opened Outcomes
  import opened Types
  import opened Errors

  const U32Limit: nat := 0x1_0000_0000

  type U32 = x: nat | x < U32Limit

  type Byte = x: nat | x < 256

  // ---------------------------------------------------------------------
  // Decimal rendering used by the error messages (`{}` of an integer)
  // ---------------------------------------------------------------------

  function DigitChar(d: nat): (c: char)
    requires d < 10
    ensures '0' <= c <= '9'
  {
    "0123456789"[d]
  }

  predicate IsDigit(c: char)
  {
    '0' <= c <= '9'
  }

  /** `format!("{}", n)` for an unsigned integer: its decimal digits, no leading zero. */
  function Decimal(n: nat): (s: string)
    ensures |s| > 0 && forall i :: 0 <= i < |s| ==> IsDigit(s[i])
    ensures |s| > 1 ==> s[0] != '0'
  {
    if n < 10 then [DigitChar(n)] else Decimal(n / 10) + [DigitChar(n % 10)]
  }

  /** The number a digit string denotes. */
  function ParseDecimal(s: string): nat
    requires forall i :: 0 <= i < |s| ==> IsDigit(s[i])
  {
    if |s| == 0 then 0
    else
      assert IsDigit(s[|s| - 1]);
      10 * ParseDecimal(s[..|s| - 1]) + ((s[|s| - 1] as int) - ('0' as int))
  }

  /** The decimal text of a number reads back as that number, so the messages report sizes exactly. */
  lemma {:induction false} DecimalRoundTrip(n: nat)
    ensures ParseDecimal(Decimal(n)) == n
  {
    if n >= 10 {
      var s := Decimal(n);
      assert s[..|s| - 1] == Decimal(n / 10);
      DecimalRoundTrip(n / 10);
    } else {
      assert "0123456789"[n] as int - '0' as int == n;
    }
  }

  // ---------------------------------------------------------------------
  // make_raw validation
  // ---------------------------------------------------------------------

  function ZeroSizeMessage(width: nat, height: nat): string
  {
    "Tried to create a texture of size " + Decimal(width) + "x" + Decimal(height) + ", each dimension must be >0"
  }

  function OverflowMessage(width: nat, height: nat): string
  {
    "Integer overflow in Image::make_raw, image size is: " + Decimal(width) + "x" + Decimal(height)
  }

  function LengthMessage(width: nat, height: nat, given: nat, expected: nat): string
  {
    "Tried to create a texture of size " + Decimal(width) + "x" + Decimal(height)
      + ", but gave " + Decimal(given) + " bytes of data (expected " + Decimal(expected) + ")"
  }

  /**
   * The checks at the head of `make_raw`, in order: both dimensions nonzero,
   * `width * height * 4` representable in a `usize` (whose largest value is
   * `usizeMax`), and exactly that many bytes given. The result is the byte
   * count expected.
   */
  function ValidateRaw(width: U32, height: U32, rgba: seq<Byte>, usizeMax: nat): (r: Result<nat, GameError>)
    requires usizeMax >= U32Limit - 1
    requires |rgba| <= usizeMax
    ensures r.Err? ==> r.error.ResourceLoadError?
    ensures r.Ok? ==> r.value == |rgba|
  {
    if width == 0 || height == 0 then
      Err(ResourceLoadError(ZeroSizeMessage(width, height)))
    else if width * height > usizeMax || width * height * 4 > usizeMax then
      Err(ResourceLoadError(OverflowMessage(width, height)))
    else if width * height * 4 != |rgba| then
      Err(ResourceLoadError(LengthMessage(width, height, |rgba|, width * height * 4)))
    else
      Ok(width * height * 4)
  }

  /** Validation passes exactly when both dimensions are nonzero and the bytes are `width * height * 4`. */
  lemma ValidationPassesIff(width: U32, height: U32, rgba: seq<Byte>, usizeMax: nat)
    requires usizeMax >= U32Limit - 1
    requires |rgba| <= usizeMax
    ensures ValidateRaw(width, height, rgba, usizeMax).Ok? <==> width > 0 && height > 0 && |rgba| == width * height * 4
  {
    if width > 0 && height > 0 && |rgba| == width * height * 4 {
      assert width * height <= width * height * 4;
    }
  }

  /** A zero dimension is reported before any other check, whatever the data. */
  lemma ZeroDimensionRejectedFirst(width: U32, height: U32, rgba: seq<Byte>, usizeMax: nat)
    requires usizeMax >= U32Limit - 1
    requires |rgba| <= usizeMax
    requires width == 0 || height == 0
    ensures ValidateRaw(width, height, rgba, usizeMax) == Err(ResourceLoadError(ZeroSizeMessage(width, height)))
  {
  }

  /** A byte count that does not fit a `usize` is reported as an overflow, not as a length mismatch. */
  lemma OverflowRejected(width: U32, height: U32, rgba: seq<Byte>, usizeMax: nat)
    requires usizeMax >= U32Limit - 1
    requires |rgba| <= usizeMax
    requires width > 0 && height > 0 && width * height * 4 > usizeMax
    ensures ValidateRaw(width, height, rgba, usizeMax) == Err(ResourceLoadError(OverflowMessage(width, height)))
  {
  }

  /** With a 32-bit `usize` a 32768 x 32768 image overflows; with a 64-bit one it only lacks data. */
  lemma OverflowDependsOnUsize()
    ensures ValidateRaw(32768, 32768, [], U32Limit - 1).error == ResourceLoadError(OverflowMessage(32768, 32768))
    ensures ValidateRaw(32768, 32768, [], 0xFFFF_FFFF_FFFF_FFFF).error
      == ResourceLoadError(LengthMessage(32768, 32768, 0, 0x1_0000_0000))
  {
  }

  /** The cases of `test_invalid_image_size`, on any usize width. */
  lemma InvalidImageSizeCases(usizeMax: nat)
    requires usizeMax >= U32Limit - 1
    ensures ValidateRaw(0, 0, [], usizeMax).Err?
    ensures ValidateRaw(3432, 432, [], usizeMax).Err?
    ensures ValidateRaw(2, 2, seq(16, _ => 99), usizeMax) == Ok(16)
  {
  }

  // ---------------------------------------------------------------------
  // The image record
  // ---------------------------------------------------------------------

  /** The GPU objects `make_raw` creates once the arguments pass: image, memory and view. */
  datatype GpuImage = GpuImage(image: nat, memory: nat, view: TextureId)

  /** `Image`: GPU handles, the size it was made with, and an optional blend mode. */
  class Image {
    const image: nat
    const memory: nat
    const imageView: TextureId
    const width: U32
    const height: U32
    const debugId: nat
    var blendMode: Option<BlendMode>

    constructor FromParts(gpu: GpuImage, width: U32, height: U32, debugId: nat)
      ensures this.image == gpu.image && this.memory == gpu.memory && this.imageView == gpu.view
      ensures this.width == width && this.height == height && this.debugId == debugId
      ensures Width() == width && Height() == height && BlendModeOf() == None
    {
      this.image := gpu.image;
      this.memory := gpu.memory;
      this.imageView := gpu.view;
      this.width := width;
      this.height := height;
      this.debugId := debugId;
      this.blendMode := None;
    }

    /** `width()` */
    function Width(): U32
    {
      width
    }

    /** `height()` */
    function Height(): U32
    {
      height
    }

    /** `Drawable::set_blend_mode`. */
    method SetBlendMode(mode: Option<BlendMode>)
      modifies this`blendMode
      ensures BlendModeOf() == mode
    {
      blendMode := mode;
    }

    /** `Drawable::blend_mode`. */
    function BlendModeOf(): Option<BlendMode>
      reads this`blendMode
    {
      blendMode
    }
  }

  /**
   * `Image::make_raw`. The buffer upload, image creation and view creation
   * after the checks are one GPU step whose outcome `gpu` is given; any of
   * its `?` failures is its `Err`.
   */
  method MakeRaw(width: U32, height: U32, rgba: seq<Byte>, usizeMax: nat, debugId: nat, gpu: Result<GpuImage, GameError>)
    returns (r: Result<Image, GameError>)
    requires usizeMax >= U32Limit - 1
    requires |rgba| <= usizeMax
    ensures ValidateRaw(width, height, rgba, usizeMax).Err? ==> r == Err(ValidateRaw(width, height, rgba, usizeMax).error)
    ensures ValidateRaw(width, height, rgba, usizeMax).Ok? && gpu.Err? ==> r == Err(gpu.error)
    ensures r.Ok? <==> ValidateRaw(width, height, rgba, usizeMax).Ok? && gpu.Ok?
    ensures r.Ok? ==> fresh(r.value) && r.value.Width() == width && r.value.Height() == height
                      && r.value.BlendModeOf() == None && r.value.imageView == gpu.value.view
  {
    var checked := ValidateRaw(width, height, rgba, usizeMax);
    if checked.Err? {
      return Err(checked.error);
    }
    if gpu.Err? {
      return Err(gpu.error);
    }
    var img := new Image.FromParts(gpu.value, width, height, debugId);
    return Ok(img);
  }

  /** `Image::from_rgba8`: `make_raw` with the context's colour format and the arguments unchanged. */
  method FromRgba8(width: U32, height: U32, rgba: seq<Byte>, usizeMax: nat, debugId: nat, gpu: Result<GpuImage, GameError>)
    returns (r: Result<Image, GameError>)
    requires usizeMax >= U32Limit - 1
    requires |rgba| <= usizeMax
    ensures r.Ok? <==> ValidateRaw(width, height, rgba, usizeMax).Ok? && gpu.Ok?
    ensures r.Err? ==> r.error == if ValidateRaw(width, height, rgba, usizeMax).Err? then ValidateRaw(width, height, rgba, usizeMax).error else gpu.error
    ensures r.Ok? ==> fresh(r.value) && r.value.Width() == width && r.value.Height() == height && r.value.BlendModeOf() == None
  {
    r := MakeRaw(width, height, rgba, usizeMax, debugId, gpu);
  }
}
