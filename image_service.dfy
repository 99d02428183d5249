/**
 * The image-processing service (Pillow) as the editor sees it. Images are opaque:
 * each image is the term that produced it, so `filter` and `crop` are uninterpreted
 * constructors. The only thing the editor reads from an image is its size.
 */
module ImageService {

  /** `Image.size`: width and height in pixels. */
  datatype Size = Size(width: nat, height: nat)

  /** A filter object handed to `Image.filter`. */
  datatype Filter =
    | GaussianBlur(radius: real)                  // ImageFilter.GaussianBlur(radius=...)
    | Kernel(name: string, attr: string, arg: int) // a filter class built with one integer keyword argument

  /** A crop rectangle `(left, top, right, bottom)` as passed to `Image.crop`. */
  datatype Box = Box(left: real, top: real, right: real, bottom: real)

  datatype Image =
    | Decoded(path: string, dims: Size)           // the result of `Image.open(path)`
    | Filtered(src: Image, filter: Filter)       // `src.filter(filter)`
    | Cropped(src: Image, box: Box, dims: Size)  // `src.crop(box)`; Pillow rounds the box, so its size is the service's answer

  /** `image.size`: filtering keeps the size of the source image. */
  function SizeOf(img: Image): Size
  {
    match img
    case Decoded(_, dims) => dims
    case Filtered(src, _) => SizeOf(src)
    case Cropped(_, _, dims) => dims
  }
}
