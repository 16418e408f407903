# AutoCrochetTemplate, modelled in Dafny

AutoCrochetTemplate turns a photo into a printable crochet/pixel-art chart. The photo is
first turned upright from its EXIF orientation code. It is then shrunk to a grid of
`pixel_width` x `pixel_height` cells, and each cell is blown up to a `scale_factor` x
`scale_factor` block (5 pixels at every call site). The grid is pasted onto a white canvas
padded on the left for the row numbers and on top for the column numbers. Gray grid lines
and black labels are drawn over it. The grid dimensions come from a text field holding
"width height".

This project models three sequential parts of `AutoCrochetTemplate.py` and proves their
properties:

- **Orientation normaliser** (`orientation.dfy`, module `Orientation`). The result of reading
  the EXIF metadata goes in: an exception, nothing, or a tag table. The rotation to apply
  comes out, together with the resulting image size. Malformed or missing metadata leaves the
  image unchanged. Exceptions other than the three caught ones escape. A reference table from
  the EXIF standard shows that each chosen counter-clockwise rotation undoes the stored turn.
- **Template renderer** (`template.dfy`, module `Template`, and `template_properties.dfy`,
  module `TemplateProperties`). Both resizes keep only their size effect (`raster.dfy`). The
  label padding is the maximum of the measured label extents plus 10. The renderer is the
  method `CreateTemplate`: it creates a `Canvas` object and draws on it in four loops. Each
  loop is its own method and appends drawing commands to the canvas's command sequence.
  Everything drawn is specified by the function `Drawing`. The lemmas prove:
  - the exact canvas size;
  - the lattice of `pixel_width + 1` vertical and `pixel_height + 1` horizontal lines, one
    block apart, ending at the canvas edges;
  - one label per row and per column, numbered `1..n` once each;
  - the measured box of a label never reaches past the left or the top edge;
  - every label's measured box is centred within one pixel.

  The padding protects only the left and top edges. A label no larger than a block stays
  inside its band. A larger one can run past the right or bottom edge of the canvas;
  `WideLabelsLeaveCanvas` gives an instance.
- **Grid-dimension field** (`dimensions.dfy`, module `Dimensions`, and `page.dfy`, module
  `Page`). This is `map(int, text.split())` unpacked into two names, with Python's
  whitespace set and the literals `int()` accepts (sign, ASCII digits, single underscores
  between digits). It is followed by the positivity check. Only a positive pair is rendered,
  and always with arguments the renderer accepts. `decimal.dfy` (module `Decimal`) gives
  `str(n)` and digit values: `str(i + 1)` labels the template, and `int` inverts `str`.

Text measurement with the label font (`textbbox`) is the parameter `measure: string -> Extent`.
It stays uninterpreted: every property holds for any font.

Points about the code that the model makes explicit:
- All three corrections call `rotate(..., expand=True)`, including the half turn.
- The angles are the imaging library's counter-clockwise angles. Code 6 is `rotate(270)` and
  code 8 is `rotate(90)`. `CorrectionMakesUpright` shows that both are right for the EXIF
  meaning.
- The padding keeps each label's measured box inside the canvas only on the left and top edges.
- The typed field is validated (lines 183-187), but the preserve-resolution path (lines
  127-135) can pass a zero count to the renderer, and the imaging library then raises. The
  model has that error as `Failure(NonPositiveSize)` instead of a precondition.

## Model

| member | source | states |
|---|---|---|
| `Decimal.NatToString` | AutoCrochetTemplate.py:86 | `str(n)` is a non-empty string of ASCII digits whose first digit is `0` exactly when `n == 0` (no leading zeros) |
| `Decimal.IntToString` | AutoCrochetTemplate.py:185 | `str(i)` is non-empty and starts with `-` exactly for negative `i` |
| `Decimal.DigitsValueOfNatToString` | AutoCrochetTemplate.py:86 | reading the digits of `str(n)` back gives `n` |
| `Decimal.DigitsValuePositive` | AutoCrochetTemplate.py:185 | a digit string with a non-zero first digit has a positive value |
| `Decimal.NatToStringOfDigitsValue` | AutoCrochetTemplate.py:185 | writing out the value of a canonical digit string gives the string back, so `str` and the digit value are inverse on canonical strings |
| `Decimal.NatToStringInjective` | AutoCrochetTemplate.py:85-86 | different numbers have different decimal texts |
| `Raster.Resize` | AutoCrochetTemplate.py:32-37 | a resize yields exactly the requested size, and fails exactly when a requested dimension is below 1 |
| `Orientation.CorrectionForValue` | AutoCrochetTemplate.py:17-23 | a rotation is chosen exactly for the integer values 3, 6 and 8, and every chosen rotation expands the canvas |
| `Orientation.Caught` | AutoCrochetTemplate.py:25 | the three caught exceptions; `Correct` proves that only the others escape and `MissingMetadataKeepsImage` that these keep the image |
| `Orientation.Correct` | AutoCrochetTemplate.py:9-27 | the call fails exactly when reading the metadata raises something other than AttributeError, KeyError or IndexError; a rotation happens only when a tag table holding the orientation tag is returned |
| `Orientation.Rotated` | AutoCrochetTemplate.py:19-23 | an expanded quarter turn swaps width and height; a half turn or no rotation keeps the size; the area is preserved |
| `Orientation.CorrectSize` | AutoCrochetTemplate.py:7-27 | the normalised image is the input size or the input size transposed, and the call fails only on an uncaught exception |
| `Orientation.CorrectionTable` | AutoCrochetTemplate.py:16-24 | code 3 gives `rotate(180, expand=True)`, 6 `rotate(270, expand=True)`, 8 `rotate(90, expand=True)`, and any other value keeps the image |
| `Orientation.MissingMetadataKeepsImage` | AutoCrochetTemplate.py:13-16 | a caught exception, absent metadata or a missing orientation tag yields no rotation and the unchanged size |
| `Orientation.CorrectedSizes` | AutoCrochetTemplate.py:18-24 | code 3 keeps the size, codes 6 and 8 transpose it, and other codes keep it |
| `Orientation.CorrectionMakesUpright` | AutoCrochetTemplate.py:18-23 | for codes 1, 3, 6 and 8, the stored turn given by the EXIF standard plus the chosen counter-clockwise rotation is a multiple of 360 degrees |
| `Dimensions.IsSpace` | AutoCrochetTemplate.py:185 | Python's whitespace for `str.split()`; `IsSpaceIsPythonWhitespace` proves it is exactly the listed set |
| `Dimensions.IsSpaceIsPythonWhitespace` | AutoCrochetTemplate.py:185 | the range test for whitespace accepts exactly the 29 characters Python treats as whitespace |
| `Dimensions.Word` | AutoCrochetTemplate.py:185 | the first piece of a split is the longest whitespace-free prefix, and it is non-empty when the string starts with a non-space |
| `Dimensions.Split` | AutoCrochetTemplate.py:185 | every piece of `text.split()` is non-empty and holds no whitespace |
| `Dimensions.SplitKeepsNonSpace` | AutoCrochetTemplate.py:185 | the pieces, concatenated, are exactly the non-whitespace characters of the input, in order |
| `Dimensions.SplitSkipsLeadingSpace` | AutoCrochetTemplate.py:185 | leading whitespace does not change the split |
| `Dimensions.SplitIgnoresTrailingSpace` | AutoCrochetTemplate.py:185 | trailing whitespace does not change the split |
| `Dimensions.WordOfToken` | AutoCrochetTemplate.py:185 | a whitespace-free prefix followed by whitespace or by nothing is taken whole as the first piece |
| `Dimensions.SplitToken` | AutoCrochetTemplate.py:185 | a token followed by whitespace or by nothing is split off as the first piece |
| `Dimensions.SplitTwo` | AutoCrochetTemplate.py:185 | two tokens with whitespace (at least one character) between them split into exactly those two tokens |
| `Dimensions.SplitSecond` | AutoCrochetTemplate.py:185 | whitespace followed by a token splits into that token alone |
| `Dimensions.SplitSingle` | AutoCrochetTemplate.py:185 | a single token splits into itself |
| `Dimensions.SplitLastToken` | AutoCrochetTemplate.py:185 | a token surrounded by whitespace splits into that token alone |
| `Dimensions.SplitOfSpace` | AutoCrochetTemplate.py:185 | whitespace alone splits into no pieces |
| `Dimensions.NonSpaceAppend` | AutoCrochetTemplate.py:185 | removing whitespace distributes over concatenation |
| `Dimensions.NonSpaceOfWord` | AutoCrochetTemplate.py:185 | removing whitespace from a whitespace-free string leaves it unchanged |
| `Dimensions.WordIgnoresTrailingSpace` | AutoCrochetTemplate.py:185 | whitespace appended at the end does not change the first piece |
| `Dimensions.ReadDigits` | AutoCrochetTemplate.py:185 | an accepted digit part starts and ends with a digit, and what is read from it is a non-empty string of plain digits |
| `Dimensions.ReadDigitsAcceptsDigitPart` | AutoCrochetTemplate.py:185 | the left-to-right reader accepts exactly the strings of the grammar: ASCII digits with an underscore only between two digits |
| `Dimensions.ReadDigitsOfDigits` | AutoCrochetTemplate.py:185 | a non-empty string of plain digits is read back unchanged |
| `Dimensions.ReadDigitsDropsUnderscores` | AutoCrochetTemplate.py:185 | what the reader returns is the digit part with its underscores dropped |
| `Dimensions.DigitPartValue` | AutoCrochetTemplate.py:185 | the unsigned value `int()` gives a digit part; `DigitPartValueMeaning` states when it exists and what it is |
| `Dimensions.DigitPartValueMeaning` | AutoCrochetTemplate.py:185 | a digit part has a value exactly when it follows the grammar, and the value is that of its digits with the underscores dropped |
| `Dimensions.ParseInt` | AutoCrochetTemplate.py:185 | `int(t)` succeeds only on a non-empty token ending in a digit |
| `Dimensions.ParseIntAccepts` | AutoCrochetTemplate.py:185 | `int(t)` succeeds exactly on a digit part with an optional leading `+` or `-` |
| `Dimensions.ParseIntOfIntToString` | AutoCrochetTemplate.py:185 | `int(str(i)) == i` for every integer |
| `Dimensions.ParseIntOfNatural` | AutoCrochetTemplate.py:185 | `int(str(n)) == n` for every natural number |
| `Dimensions.ParseIntOfNegative` | AutoCrochetTemplate.py:185 | `int("-" + str(n)) == -n` for every natural number |
| `Dimensions.DigitPartValueOfNatToString` | AutoCrochetTemplate.py:185 | the decimal text of `n` is a digit part whose value is `n` |
| `Dimensions.ParseDimensions` | AutoCrochetTemplate.py:183-187 | the empty field is the only one skipped; an accepted pair is positive; an accepted or non-positive pair came from exactly two pieces |
| `Dimensions.WrongCountIsInvalid` | AutoCrochetTemplate.py:216-217 | a non-empty field that does not split into exactly two pieces is invalid input |
| `Dimensions.NonIntegerPieceIsInvalid` | AutoCrochetTemplate.py:185 | a field of two pieces of which one is not an integer literal is invalid input |
| `Dimensions.SurroundingSpaceIgnored` | AutoCrochetTemplate.py:185 | whitespace around a non-empty field does not change the outcome |
| `Dimensions.ParsesWrittenPair` | AutoCrochetTemplate.py:185-187 | two written integers with whitespace between them are read back: a positive pair is accepted as itself, and any other pair is reported as not positive |
| `Dimensions.TwoPieces` | AutoCrochetTemplate.py:185-187 | when a field splits into two pieces that both parse, the outcome is decided by their two values alone: the pair, or not positive |
| `Dimensions.DefaultDimensions` | AutoCrochetTemplate.py:139 | the default text "20 50" is accepted as (20, 50) |
| `Dimensions.SplitDefault` | AutoCrochetTemplate.py:139 | "20 50" splits into "20" and "50" |
| `Dimensions.DecimalOfDefaults` | AutoCrochetTemplate.py:139 | `str(20)` is "20" and `str(50)` is "50" |
| `Page.SubmitDimensions` | AutoCrochetTemplate.py:183-217 | only an empty field shows nothing; the field is rendered exactly when it holds a positive pair, and then at the default block size with arguments the renderer accepts; the positivity message is shown exactly for a non-positive pair and the invalid-input message exactly for a field that is not two integers |
| `Page.SubmitDefault` | AutoCrochetTemplate.py:139 | the default text renders a 20 by 50 grid at block size 5 |
| `Page.SubmitNonPositive` | AutoCrochetTemplate.py:186-187 | a written pair with a zero or negative number shows the positivity message |
| `Page.SubmitWrongCount` | AutoCrochetTemplate.py:216-217 | a field without exactly two pieces shows the invalid-input message |
| `Template.Label` | AutoCrochetTemplate.py:86 | the text of label `i` is `str(i + 1)`; `LabelsNumberEachBandOnce` proves it reads back as `i + 1` and that labels are distinct |
| `Template.PaddingLeft` | AutoCrochetTemplate.py:50-54 | the widest row label plus 10; `PaddingLeftFitsRowLabels` proves it is at least 10 more than every row label's width and exactly 10 more than one of them |
| `Template.PaddingTop` | AutoCrochetTemplate.py:56-60 | the tallest column label plus 10; `PaddingTopFitsColumnLabels` proves it is at least 10 more than every column label's height and exactly 10 more than one of them |
| `Template.Range` | AutoCrochetTemplate.py:71-77 | Python's `range` with a positive step; `RangeEnds` and `RangeFrom` state its ends and its elements |
| `Template.RangeEnds` | AutoCrochetTemplate.py:71-77 | `range(start, stop, step)` is empty exactly when `start >= stop`; otherwise it starts at `start` and its last element is the last value before `stop` |
| `Template.RowLabel` | AutoCrochetTemplate.py:86-91 | the text drawn for row `i`; `RowLabelPlacement` states its text, colour and position |
| `Template.ColumnLabel` | AutoCrochetTemplate.py:95-100 | the text drawn for column `i`; `ColumnLabelPlacement` states its text, colour and position |
| `Template.Drawing` | AutoCrochetTemplate.py:63-100 | everything drawn, in order; `CreateTemplate` proves the canvas holds exactly it, and `DrawingShape`, `VerticalGridlines`, `HorizontalGridlines` and the label lemmas state its parts |
| `Template.Max` | AutoCrochetTemplate.py:50-59 | `max` of a non-empty list is an element of it and no smaller than any element |
| `Template.CreateTemplate` | AutoCrochetTemplate.py:29-101 | fails exactly when a count or the block size is below 1; otherwise returns a fresh canvas of the grid size plus the padding holding exactly `Drawing` of the layout |
| `Template.DrawVerticalLines` | AutoCrochetTemplate.py:71-75 | the first loop appends exactly the vertical lines at the offsets `range(0, grid_width + 1, scale)` |
| `Template.DrawHorizontalLines` | AutoCrochetTemplate.py:77-81 | the second loop appends exactly the horizontal lines at the offsets `range(0, grid_height + 1, scale)` |
| `Template.DrawRowLabels` | AutoCrochetTemplate.py:85-91 | the third loop appends exactly the row labels, in row order |
| `Template.DrawColumnLabels` | AutoCrochetTemplate.py:94-100 | the fourth loop appends exactly the column labels, in column order |
| `Template.VerticalLinesStep` | AutoCrochetTemplate.py:71-75 | one iteration of the first loop draws the line at the current offset and leaves the rest of the range to do |
| `Template.HorizontalLinesStep` | AutoCrochetTemplate.py:77-81 | one iteration of the second loop draws the line at the current offset and leaves the rest of the range to do |
| `Template.VerticalLinesAt` | AutoCrochetTemplate.py:71-75 | there is one vertical line per offset, the k-th at the k-th offset |
| `Template.HorizontalLinesAt` | AutoCrochetTemplate.py:77-81 | there is one horizontal line per offset, the k-th at the k-th offset |
| `Template.Canvas.constructor` | AutoCrochetTemplate.py:65 | a new canvas has the requested size and nothing drawn on it |
| `Template.Canvas.PasteImage` | AutoCrochetTemplate.py:66 | pasting appends one paste at the given offset and changes nothing else |
| `Template.Canvas.DrawLine` | AutoCrochetTemplate.py:72-75 | drawing a line appends exactly that line |
| `Template.Canvas.DrawText` | AutoCrochetTemplate.py:91 | drawing a text appends exactly that text |
| `TemplateProperties.RangeFrom` | AutoCrochetTemplate.py:71 | `range(j*s, n*s + 1, s)` has `n + 1 - j` elements, the k-th being `j*s + k*s` |
| `TemplateProperties.Lattice` | AutoCrochetTemplate.py:71-77 | `range(0, n*s + 1, s)` is exactly `0, s, ..., n*s` |
| `TemplateProperties.VerticalGridlines` | AutoCrochetTemplate.py:71-75 | there are `pixel_width + 1` vertical lines, the k-th at `padding_left + k*s` running from `padding_top` to the canvas height, strictly increasing by at least a block, the last at the canvas width |
| `TemplateProperties.HorizontalGridlines` | AutoCrochetTemplate.py:77-81 | there are `pixel_height + 1` horizontal lines, the k-th at `padding_top + k*s` running from `padding_left` to the canvas width, strictly increasing by at least a block, the last at the canvas height |
| `TemplateProperties.PaddingLeftFitsRowLabels` | AutoCrochetTemplate.py:50-54 | `padding_left` is at least 10 more than every row label's width, and exactly 10 more than some row label's width |
| `TemplateProperties.PaddingTopFitsColumnLabels` | AutoCrochetTemplate.py:56-60 | `padding_top` is at least 10 more than every column label's height, and exactly 10 more than some column label's height |
| `TemplateProperties.RowLabelPlacement` | AutoCrochetTemplate.py:85-91 | exactly `pixel_height` row labels, the i-th reading `str(i + 1)`: x at least 5, right edge at `padding_left - 5`, and the gap below exceeding the gap above by 0 or 1 |
| `TemplateProperties.ColumnLabelPlacement` | AutoCrochetTemplate.py:94-100 | exactly `pixel_width` column labels, the i-th reading `str(i + 1)`: y at least 5, bottom edge at `padding_top - 5`, and the gap to the right exceeding the gap to the left by 0 or 1 |
| `TemplateProperties.LabelsNumberEachBandOnce` | AutoCrochetTemplate.py:85-95 | label i reads back as `i + 1`, every number from 1 to the count is some label's text, and no two labels share a text |
| `TemplateProperties.NarrowColumnLabelInBand` | AutoCrochetTemplate.py:98 | a column label no wider than a block lies within its column band, and the band lies within the canvas width |
| `TemplateProperties.NarrowRowLabelInBand` | AutoCrochetTemplate.py:89 | a row label no taller than a block lies within its row band, and the band lies within the canvas height |
| `TemplateProperties.WideLabelsLeaveCanvas` | AutoCrochetTemplate.py:50-98 | on a one-cell grid with 5-pixel blocks, an 8 x 8 label crosses the right and the bottom edge of the canvas |
| `TemplateProperties.DrawingShape` | AutoCrochetTemplate.py:63-100 | the drawing has `2*pixel_width + 2*pixel_height + 3` operations; the first pastes the `pixel_width*s` x `pixel_height*s` grid at (`padding_left`, `padding_top`), reaching the right and bottom canvas edges exactly |
| `TemplateProperties.DefaultScenario` | AutoCrochetTemplate.py:34-37 | a 20 x 50 grid at block size 5 is 100 x 250 pixels, and the canvas adds the paddings to it |

## Left out

- The Streamlit page (lines 103-253) is presentation and I/O: the title, the upload widget,
  the unit radio, the checkbox, the number inputs, the displayed images and messages, and
  the download button. Only the decision taken on the dimension field is modelled (`Page`).
- The preserve-resolution path (lines 123-135, 155-157) and its `int(original / factor)`
  grid derivation use floating point, as do the stitch-size estimates (160-170, 193-203),
  the desired-size calculator (224-252) and `font_size = int(scale_factor * 1.5)` (40).
- Resampling colours are left out. Only the output sizes of the BILINEAR downsample and
  the NEAREST upscale are modelled (`Raster.Resize`).
- Loading the font with its fallback (39-43) is file I/O, and glyph metrics are foreign
  calls. Both are folded into the `measure` parameter. The bounding box is reduced to its
  width and height: the imaging library draws a text offset by its box's left and top
  corner, which the model drops. So the label placement lemmas (centring within one
  pixel, right or bottom edge 5 pixels before the grid) hold for the measured box placed
  at the drawing point, not necessarily for the inked glyphs.
- The lookup of the orientation key in the EXIF tag table (10-12) is the constant 0x0112
  (`Orientation.OrientationTag`). The internals of `_getexif` are the `ExifRead` input, and
  the rotation of pixels is its size effect.
- PNG encoding into a byte buffer (173-175, 206-208) is I/O.
- The generic `except Exception` of the page (219-220) is where every `Failure` result of
  the model ends up; the message text is not modelled.
- Raster.Resize: fails only for a size below 1. The imaging library also raises for a
  size beyond a C `int` (OverflowError) and when the pixels cannot be allocated
  (MemoryError), which the page reports as "Error processing image" (219-220); the model
  has no upper size limit and succeeds for every positive size.
- Template.CreateTemplate: inherits the missing upper size and memory limits of
  `Raster.Resize` and of the canvas allocation (65), so a huge grid such as the field
  "3000000000 1" renders in the model where the library raises.
- Dimensions.ParseInt: does not accept non-ASCII Unicode decimal digits, and it accepts
  literals longer than Python's 4300-digit conversion limit, which Python refuses.
- Dimensions.IsSpace: covers Python's whitespace for `str.split()`, but a string is a
  sequence of Unicode scalar values, with no normalisation.
