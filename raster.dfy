/**
 * Images are modelled by their pixel dimensions only; colours, resampling filters
 * and the rotation of pixels belong to the imaging library and are not modelled.
 */
module Raster {
  import opened Wrappers

  datatype Size = Size(width: nat, height: nat)

  /** The ValueError the imaging library raises for a target size below one pixel. */
  datatype ImageError = NonPositiveSize

  /**
   * `image.resize((w, h), ...)`: the result has exactly the requested size, whatever the
   * source size and the filter; a width or height below 1 is refused.
   */
  function Resize(source: Size, w: int, h: int): (r: Result<Size, ImageError>)
    ensures r.Success? <==> w >= 1 && h >= 1
    ensures r.Success? ==> r.value.width == w && r.value.height == h
  {
    if w < 1 || h < 1 then Failure(NonPositiveSize) else Success(Size(w, h))
  }
}
