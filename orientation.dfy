/**
 * Orientation normalisation: the EXIF orientation code of an uploaded photo picks a
 * rotation that turns the picture upright.  Only the choice of rotation and its
 * effect on the image size are modelled; the pixel transformation is the imaging
 * library's.
 */
module Orientation {
  import opened Wrappers
  import opened Raster

  /** The key that the imaging library's EXIF tag table names "Orientation". */
  const OrientationTag: int := 0x0112

  /** A value stored under an EXIF tag: an integer, or anything else (a tuple, bytes, text). */
  datatype TagValue = IntValue(n: int) | OtherValue

  /** The exceptions reading the metadata may raise; only the first three are caught. */
  datatype ReadError = AttributeError | KeyError | IndexError | OtherError

  /**
   * What `img._getexif()` does: it raises, or it returns a tag table, or it returns
   * nothing (`None`).
   */
  datatype ExifRead = Raised(error: ReadError) | Returned(exif: Option<map<int, TagValue>>)

  /** Counter-clockwise rotation angles, as the imaging library's `rotate` takes them. */
  datatype Angle = Deg90 | Deg180 | Deg270

  /** The correction applied: none, or `img.rotate(angle, expand=expand)`. */
  datatype Correction = Keep | Rotate(angle: Angle, expand: bool)

  function Degrees(c: Correction): (d: int)
    ensures 0 <= d < 360 && d % 90 == 0
  {
    match c
    case Keep => 0
    case Rotate(Deg90, _) => 90
    case Rotate(Deg180, _) => 180
    case Rotate(Deg270, _) => 270
  }

  /** The rotation chosen for the value found under the orientation tag. */
  function CorrectionForValue(v: TagValue): (c: Correction)
    ensures c != Keep ==> c.expand
    ensures c != Keep <==> v.IntValue? && v.n in {3, 6, 8}
  {
    if v == IntValue(3) then Rotate(Deg180, true)
    else if v == IntValue(6) then Rotate(Deg270, true)
    else if v == IntValue(8) then Rotate(Deg90, true)
    else Keep
  }

  predicate Caught(e: ReadError) { e == AttributeError || e == KeyError || e == IndexError }

  /**
   * The whole decision of the orientation normaliser: a caught exception, empty or
   * absent metadata and a missing tag all leave the image as it is; any other
   * exception escapes to the caller.
   */
  function Correct(read: ExifRead): (r: Result<Correction, ReadError>)
    ensures r.Failure? <==> read.Raised? && !Caught(read.error)
    ensures r.Failure? ==> r.error == OtherError
    ensures r.Success? && r.value != Keep ==>
              read.Returned? && read.exif.Some? && OrientationTag in read.exif.value
  {
    match read
    case Raised(e) => if Caught(e) then Success(Keep) else Failure(e)
    case Returned(None) => Success(Keep)
    case Returned(Some(exif)) =>
      if exif == map[] || OrientationTag !in exif then Success(Keep)
      else Success(CorrectionForValue(exif[OrientationTag]))
  }

  /**
   * The size of `img.rotate(angle, expand=...)` for a right angle: with expand, a
   * quarter turn swaps width and height; a half turn, or no expansion, keeps the size.
   */
  function Rotated(c: Correction, s: Size): (r: Size)
    ensures r.width * r.height == s.width * s.height
    ensures (c.Rotate? && c.expand && c.angle != Deg180) ==> r == Size(s.height, s.width)
    ensures !(c.Rotate? && c.expand && c.angle != Deg180) ==> r == s
  {
    match c
    case Keep => s
    case Rotate(a, expand) => if expand && a != Deg180 then Size(s.height, s.width) else s
  }

  /** The orientation normaliser lifted to image sizes. */
  function CorrectSize(read: ExifRead, s: Size): (r: Result<Size, ReadError>)
    ensures r.Failure? <==> read.Raised? && !Caught(read.error)
    ensures r.Success? ==> r.value == s || r.value == Size(s.height, s.width)
  {
    match Correct(read)
    case Failure(e) => Failure(e)
    case Success(c) => Success(Rotated(c, s))
  }

  /** The table of corrections, read off a tag table that holds the orientation tag. */
  lemma CorrectionTable(exif: map<int, TagValue>)
    requires OrientationTag in exif
    ensures exif[OrientationTag] == IntValue(3) ==> Correct(Returned(Some(exif))) == Success(Rotate(Deg180, true))
    ensures exif[OrientationTag] == IntValue(6) ==> Correct(Returned(Some(exif))) == Success(Rotate(Deg270, true))
    ensures exif[OrientationTag] == IntValue(8) ==> Correct(Returned(Some(exif))) == Success(Rotate(Deg90, true))
    ensures exif[OrientationTag] !in {IntValue(3), IntValue(6), IntValue(8)} ==> Correct(Returned(Some(exif))) == Success(Keep)
  {
  }

  /** Missing or malformed metadata never raises and leaves the image size as it is. */
  lemma MissingMetadataKeepsImage(read: ExifRead, s: Size)
    requires (read.Raised? && Caught(read.error))
          || read == Returned(None)
          || (read.Returned? && read.exif.Some? && OrientationTag !in read.exif.value)
    ensures Correct(read) == Success(Keep)
    ensures CorrectSize(read, s) == Success(s)
  {
  }

  /** The size effect of the three corrections. */
  lemma CorrectedSizes(exif: map<int, TagValue>, s: Size)
    requires OrientationTag in exif && exif[OrientationTag].IntValue?
    ensures exif[OrientationTag].n == 3 ==> CorrectSize(Returned(Some(exif)), s) == Success(s)
    ensures exif[OrientationTag].n in {6, 8} ==> CorrectSize(Returned(Some(exif)), s) == Success(Size(s.height, s.width))
    ensures exif[OrientationTag].n !in {3, 6, 8} ==> CorrectSize(Returned(Some(exif)), s) == Success(s)
  {
  }

  /**
   * Reference table from the EXIF standard: how far (counter-clockwise, in degrees)
   * the stored picture is turned from the upright scene, for the codes without a
   * mirror.  Code 6 ("row 0 is the visual right-hand side") is the scene turned a
   * quarter counter-clockwise; code 8 a quarter clockwise.
   */
  function StoredTurn(code: int): (d: int)
    requires code in {1, 3, 6, 8}
    ensures 0 <= d < 360
  {
    if code == 3 then 180 else if code == 6 then 90 else if code == 8 then 270 else 0
  }

  /**
   * For every unmirrored code, the chosen counter-clockwise rotation undoes the
   * stored turn: the corrected picture is upright.
   */
  lemma CorrectionMakesUpright(code: int)
    requires code in {1, 3, 6, 8}
    ensures (StoredTurn(code) + Degrees(CorrectionForValue(IntValue(code)))) % 360 == 0
  {
  }
}
