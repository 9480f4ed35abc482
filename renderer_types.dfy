/**
 * Renderer configuration and frames (packages/renderer/src/types.rs).
 * Widths and heights are Rust `u32`; pixels are RGBA bytes.
 */
module RendererTypes {
  import opened Wrappers

  const U32Modulus: nat := 0x1_0000_0000

  type U32 = x: nat | x < U32Modulus
  type Byte = x: nat | x < 256

  /** The integer and boolean settings; the device pixel ratio is not modelled. */
  datatype RendererConfig = RendererConfig(width: U32, height: U32, enableWebgl: bool, enableJavascript: bool)

  /** 1024 x 768 with WebGL and JavaScript enabled. */
  function DefaultConfig(): (c: RendererConfig)
    ensures c.width == 1024 && c.height == 768
    ensures c.enableWebgl && c.enableJavascript
  {
    RendererConfig(1024, 768, true, true)
  }

  /** A frame of `width` x `height` pixels, four bytes each. */
  datatype RenderedFrame = RenderedFrame(width: U32, height: U32, pixels: seq<Byte>)
  {
    function IsEmpty(): (empty: bool)
      ensures empty <==> |pixels| == 0
      ensures |pixels| == width * height * 4 ==> (empty <==> width == 0 || height == 0)
    {
      if width > 0 && height > 0 then PositiveArea(width, height); |pixels| == 0
      else |pixels| == 0
    }
  }

  lemma PositiveArea(width: nat, height: nat)
    requires width > 0 && height > 0
    ensures width * height > 0
  {
  }

  const SizeMismatch: string := "Pixel data size mismatch"

  /**
   * Builds a frame, refusing a pixel buffer that does not hold exactly four
   * bytes per pixel (the source panics there).
   */
  function NewFrame(width: U32, height: U32, pixels: seq<Byte>): (r: Result<RenderedFrame, string>)
    ensures r.Ok? <==> |pixels| == width * height * 4
    ensures r.Ok? ==> r.value.width == width && r.value.height == height && r.value.pixels == pixels
    ensures r.Err? ==> r.error == SizeMismatch
  {
    if |pixels| == width * height * 4 then Ok(RenderedFrame(width, height, pixels))
    else Err(SizeMismatch)
  }

  /**
   * The frame constructor as written: the expected size `width * height * 4`
   * is computed in `u32`, which wraps around in a release build.
   */
  function NewFrameAsWritten(width: U32, height: U32, pixels: seq<Byte>): (r: Result<RenderedFrame, string>)
    ensures r.Ok? <==> |pixels| == (width * height * 4) % U32Modulus
    ensures r.Ok? ==> r.value == RenderedFrame(width, height, pixels)
  {
    var expected := ((width * height) % U32Modulus * 4) % U32Modulus;
    WrapTwice(width * height);
    if |pixels| == expected then Ok(RenderedFrame(width, height, pixels))
    else Err(SizeMismatch)
  }

  lemma WrapTwice(p: nat)
    ensures (p % U32Modulus * 4) % U32Modulus == (p * 4) % U32Modulus
  {
    var q, r := p / U32Modulus, p % U32Modulus;
    assert p * 4 == (q * 4) * U32Modulus + r * 4;
  }

  /**
   * With the u32 wrap-around, a 32768 x 32768 frame with no pixels at all
   * passes the size check; the intended constructor refuses it.
   */
  lemma WrappedSizeAcceptsEmptyFrame()
    ensures NewFrameAsWritten(32768, 32768, []).Ok?
    ensures NewFrame(32768, 32768, []).Err?
  {
    assert 32768 * 32768 * 4 == U32Modulus;
  }

  /** A 1024 x 768 buffer of the right size makes a non-empty frame; 100 bytes are refused. */
  lemma FrameExamples(pixels: seq<Byte>)
    requires |pixels| == 1024 * 768 * 4
    ensures NewFrame(1024, 768, pixels).Ok? && !NewFrame(1024, 768, pixels).value.IsEmpty()
    ensures NewFrame(1024, 768, pixels[..100]).Err?
  {
  }

  /** Frames of an allowed size are non-empty exactly when both dimensions are positive. */
  lemma FrameEmptyIffZeroArea(width: U32, height: U32, pixels: seq<Byte>)
    requires NewFrame(width, height, pixels).Ok?
    ensures NewFrame(width, height, pixels).value.IsEmpty() <==> width == 0 || height == 0
  {
    if width > 0 && height > 0 {
      assert width * height >= 1;
    }
  }
}
