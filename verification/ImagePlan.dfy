/** Building the chain of image commands that one conversion runs.

    A path is the input or a file of the work directory; work files have one name
    each. */
module ImagePlan {
  import opened Options
  import opened Profiles
  import Dimensions

  datatype Format = NoFormat | JPEG | PNG | WebP | HEIF | AVIF | OtherFormat

  datatype BandFormat = UChar | UShort | OtherBand

  datatype Interpretation =
    | BW | Grey16 | CMYK | SRGB | RGB | RGB16 | HSV | LAB | LCH | XYZ | YXY | OtherInterpretation

  datatype Metadata = Metadata(icc: bool, exif: bool, captureDate: bool, gps: bool, xmp: bool, gainMap: bool)

  /** Color code points; None when the file carries none. */
  datatype CICP = CICP(primaries: int, transfer: int)

  datatype Info = Info(
    format: Format,
    width: int,
    height: int,
    bands: int,
    bandFormat: BandFormat,
    coded: bool,
    interpretation: Interpretation,
    orientation: int,
    hdr: bool,
    hasAlpha: bool,
    hasTransparency: bool,
    pages: int,
    cicp: Option<CICP>,
    metadata: Metadata)

  datatype Limits = Limits(maxWidth: int, maxHeight: int, maxPixels: int)

  const DEFAULT_LIMITS := Limits(32768, 32768, 100_000_000)
  const MAX_EMAIL_DIMENSION := 1920
  const MAX_WEBP_DIMENSION := 16383

  datatype ImageError =
    | UnsupportedInput | AnimatedUnsupported | HDRUnsupported | ColorUnsupported | AlphaUnsupported
    | DimensionsExceeded | InvalidRequest

  datatype CaptureDatePolicy = Strip | PreserveWhenSafe | UnknownPolicy

  datatype Request = Request(
    inputPath: string, outputDir: string, workDir: string, vipsPath: string,
    operation: Operation, info: Info, policy: CaptureDatePolicy)

  datatype Path = InputFile | Oriented | Opaque | Colour | Pixels | Resized | OutputFile(format: Format)

  datatype Command =
    | Autorot(from: Path, to: Path)
    | Flatten(from: Path, to: Path, background: seq<int>, maxAlpha: Option<int>)
    | IccTransform(from: Path, to: Path, embedded: bool, depth: int)
    | Colourspace(from: Path, to: Path)
    | Resize(from: Path, to: Path, scale: real)
    | Save(from: Path, to: Path, format: Format, quality: int, exact: bool, keepICC: bool, keepEXIF: bool)

  datatype Expectation = Expectation(
    width: int, height: int, format: Format, hasAlpha: bool, bandFormat: Option<BandFormat>, icc: bool,
        captureDate: bool)

  datatype Plan = Plan(commands: seq<Command>, temporaryPaths: seq<Path>, temporaryOutput: Path,
                       expected: Expectation)

  // ---------------------------------------------------------------- checks

  predicate SupportedCICP(cicp: Option<CICP>) {
    cicp.None? || (cicp.value.primaries == 1 && cicp.value.transfer == 13)
  }

  function InterpretationBands(i: Interpretation): int {
    match i
    case BW => 1
    case Grey16 => 1
    case CMYK => 4
    case OtherInterpretation => 0
    case _ => 3
  }

  /** Color spaces that are converted as numbers, without a profile. */
  predicate Perceptual(i: Interpretation) {
    i.LAB? || i.LCH? || i.XYZ? || i.YXY? || i.HSV?
  }

  function ColorRejection(info: Info): Option<ImageError> {
    if info.coded then Some(ColorUnsupported)
    else if info.interpretation.CMYK? && !info.metadata.icc then Some(ColorUnsupported)
    else if (info.format.HEIF? || info.format.AVIF?) && info.bandFormat.UShort? && info.cicp.None?
    then Some(ColorUnsupported)
    else if !info.bandFormat.UChar? && !info.bandFormat.UShort? then
      Some(if info.hasAlpha then AlphaUnsupported else ColorUnsupported)
    else
      var colorBands := InterpretationBands(info.interpretation);
      var alpha := info.bands == colorBands + 1;
      if colorBands == 0 then Some(ColorUnsupported)
      else if info.bands != colorBands && !alpha then Some(AlphaUnsupported)
      else if info.hasAlpha != alpha then Some(AlphaUnsupported)
      else if info.hasAlpha && Perceptual(info.interpretation) then Some(AlphaUnsupported)
      else None
  }

  function Divide(a: int, b: int): int
    requires a > 0 && b > 0
  {
    a / b
  }

  function ContentRejection(info: Info, limits: Limits): Option<ImageError> {
    if info.format.NoFormat? || info.width <= 0 || info.height <= 0 then Some(UnsupportedInput)
    else if info.pages != 1 then Some(AnimatedUnsupported)
    else if info.hdr then Some(HDRUnsupported)
    else if !SupportedCICP(info.cicp) then Some(ColorUnsupported)
    else if ColorRejection(info).Some? then ColorRejection(info)
    else if limits.maxWidth <= 0 || limits.maxHeight <= 0 || limits.maxPixels <= 0 then Some(InvalidRequest)
    else if info.width > limits.maxWidth || info.height > limits.maxHeight
            || info.width > Divide(limits.maxPixels, info.height) then Some(DimensionsExceeded)
    else None
  }

  /** Accepted content is within every limit, the pixel count included although it is
      never multiplied out. */
  lemma AcceptedContentFits(info: Info, limits: Limits)
    requires limits.maxWidth > 0 && limits.maxHeight > 0 && limits.maxPixels > 0
    requires info.width > 0 && info.height > 0 && !info.format.NoFormat? && info.pages == 1 && !info.hdr
    requires SupportedCICP(info.cicp) && ColorRejection(info).None?
    ensures ContentRejection(info, limits).None? <==>
            info.width <= limits.maxWidth && info.height <= limits.maxHeight
                && info.width * info.height <= limits.maxPixels
  {
    Dimensions.DividedPixelCheck(info.width, info.height, limits.maxPixels);
  }

  predicate NeedsColorNormalization(info: Info) {
    info.interpretation.CMYK? || Perceptual(info.interpretation)
    || ((info.interpretation.BW? || info.interpretation.Grey16?) && info.metadata.icc)
  }

  predicate JPEGPhoto(operation: Operation) {
    operation.CompatiblePhoto? || operation.EmailPhoto?
  }

  predicate ImageOperation(operation: Operation) {
    JPEGPhoto(operation) || operation.SmallerPhoto? || operation.LosslessImage?
  }

  /** White under the alpha, in the samples of the input, with the value of full
      opacity where it is not the default. */
  function PreNormalizationFlatten(info: Info): Option<(seq<int>, Option<int>)> {
    match info.interpretation
    case CMYK =>
      if info.bandFormat.UChar? then Some(([0, 0, 0, 0], None))
      else if info.bandFormat.UShort? then Some(([0, 0, 0, 0], Some(65535)))
      else None
    case BW => if info.bandFormat.UChar? then Some(([255], None)) else None
    case Grey16 => if info.bandFormat.UShort? then Some(([65535], Some(65535))) else None
    case _ => if info.bandFormat.UChar? then Some(([255], None)) else None
  }

  function FlattenBackground(info: Info, normalized: bool): seq<int> {
    if normalized then [255]
    else if info.interpretation.RGB16? || info.interpretation.Grey16? then [65535]
    else [255]
  }

  function OrientedDimensions(info: Info): (int, int) {
    if 5 <= info.orientation <= 8 then (info.height, info.width) else (info.width, info.height)
  }

  /** Why a request is refused, in the order the checks are made. */
  function Rejection(r: Request): Option<ImageError> {
    var normalizes := NeedsColorNormalization(r.info) && r.info.hasAlpha;
    if r.inputPath == "" || r.outputDir == "" || r.workDir == "" || r.vipsPath == "" then Some(InvalidRequest)
    else if r.policy.UnknownPolicy? then Some(InvalidRequest)
    else if r.info.hdr then Some(HDRUnsupported)
    else if !SupportedCICP(r.info.cicp) then Some(ColorUnsupported)
    else if ColorRejection(r.info).Some? then ColorRejection(r.info)
    else if !ImageOperation(r.operation) then Some(InvalidRequest)
    else if r.operation.SmallerPhoto? && (r.info.width > MAX_WEBP_DIMENSION || r.info.height > MAX_WEBP_DIMENSION) then
      Some(DimensionsExceeded)
    else if normalizes && !JPEGPhoto(r.operation) && !r.info.bandFormat.UChar? then Some(AlphaUnsupported)
    else if normalizes && JPEGPhoto(r.operation) && PreNormalizationFlatten(r.info).None? then Some(AlphaUnsupported)
    else None
  }

  // ---------------------------------------------------------------- chains of commands

  /** Each command reads what the one before it wrote. */
  ghost predicate Chain(commands: seq<Command>) {
    && commands != [] && commands[0].from == InputFile
    && forall i :: 0 <= i < |commands| - 1 ==> Reads(commands, i)
  }

  ghost predicate Reads(commands: seq<Command>, i: nat)
    requires i < |commands| - 1
  {
    commands[i + 1].from == commands[i].to
  }

  ghost function Written(commands: seq<Command>): (r: seq<Path>)
    ensures |r| == |commands|
    ensures forall i :: 0 <= i < |commands| ==> r[i] == commands[i].to
  {
    seq(|commands|, i requires 0 <= i < |commands| => commands[i].to)
  }

  ghost predicate Distinct(paths: seq<Path>) {
    forall i, j :: 0 <= i < j < |paths| ==> paths[i] != paths[j]
  }

  predicate Normalizes(c: Command) {
    c.IccTransform? || c.Colourspace?
  }

  ghost function Flattens(commands: seq<Command>): set<int> {
    set i | 0 <= i < |commands| && commands[i].Flatten?
  }

  ghost function Normalizations(commands: seq<Command>): set<int> {
    set i | 0 <= i < |commands| && Normalizes(commands[i])
  }

  ghost function Resizes(commands: seq<Command>): set<int> {
    set i | 0 <= i < |commands| && commands[i].Resize?
  }

  ghost function Saves(commands: seq<Command>): set<int> {
    set i | 0 <= i < |commands| && commands[i].Save?
  }

  /** White in some color space and samples: no ink, or the largest sample. */
  function White(space: Interpretation, samples: BandFormat): seq<int> {
    if space.CMYK? then [0, 0, 0, 0] else [if samples.UShort? then 65535 else 255]
  }

  /** Alpha is dropped onto white.  Before a normalization the samples are those of the
      file, and full opacity is given exactly when they are wide; without one the
      color space alone decides how wide the samples are taken to be. */
  predicate FlattenFits(c: Command, info: Info)
    requires c.Flatten?
  {
    if NeedsColorNormalization(info) then
      c.background == White(info.interpretation, info.bandFormat) && c.maxAlpha == (if info.bandFormat.UShort? then Some(65535) else None)
    else
      c.background == FlattenBackground(info, false) && c.maxAlpha.None?
  }

  /** The embedded profile is used when there is one, and 16 bits are kept exactly for
      a lossless copy of a 16-bit image. */
  predicate NormalizeFits(c: Command, r: Request)
    requires Normalizes(c)
  {
    if Perceptual(r.info.interpretation) then c.Colourspace?
    else c.IccTransform? && (c.embedded <==> r.info.metadata.icc)
         && c.depth == if r.operation.LosslessImage? && r.info.bandFormat.UShort? then 16 else 8
  }

  predicate ResizeFits(c: Command, r: Request)
    requires c.Resize?
  {
    var (w, h) := OrientedDimensions(r.info);
    c.scale == Dimensions.FitWithinLongestEdge(w, h, MAX_EMAIL_DIMENSION).2
  }

  /** What one command of the plan must be like. */
  predicate CommandFits(c: Command, r: Request) {
    && (c.Flatten? ==> FlattenFits(c, r.info))
    && (Normalizes(c) ==> NormalizeFits(c, r))
    && (c.Resize? ==> ResizeFits(c, r))
  }

  /** What every plan is, whatever the image. */
  ghost predicate WellFormedPlan(p: Plan, r: Request) {
    var commands, info := p.commands, r.info;
    var n := |commands|;
    && Chain(commands) && commands[0].Autorot?
    && Distinct(Written(commands)) && InputFile !in Written(commands)
    && p.temporaryPaths == Written(commands)[..n - 1] && p.temporaryOutput == commands[n - 1].to
    && Saves(commands) == {n - 1} && commands[n - 1].format == p.expected.format
    && Balanced(commands, r)
    && (forall i :: i in Resizes(commands) ==> i == n - 2)
  }

  predicate ResizesEmail(r: Request) {
    r.operation.EmailPhoto? && Dimensions.Max(r.info.width, r.info.height) > MAX_EMAIL_DIMENSION
  }

  /** One flatten exactly for JPEG with alpha; one color normalization exactly when it
      is needed, after the flatten; one resize exactly for an email photo that is too
      large; and each of them as the image asks for it. */
  ghost predicate Balanced(commands: seq<Command>, r: Request) {
    && Counts(Flattens(commands), Normalizations(commands), Resizes(commands), r)
    && AllFit(commands, r)
  }

  ghost predicate AllFit(commands: seq<Command>, r: Request) {
    forall i :: 0 <= i < |commands| ==> CommandFits(commands[i], r)
  }

  ghost predicate Counts(flattens: set<int>, normalizations: set<int>, resizes: set<int>, r: Request) {
    && |flattens| == (if JPEGPhoto(r.operation) && r.info.hasAlpha then 1 else 0)
    && |normalizations| == (if NeedsColorNormalization(r.info) then 1 else 0)
    && |resizes| == (if ResizesEmail(r) then 1 else 0)
    && forall i, j :: i in flattens && j in normalizations ==> i < j
  }

  /** What the checked output must be like, and that the save keeps what is expected. */
  ghost predicate ExpectationFits(p: Plan, r: Request)
    requires p.commands != []
  {
    var e, save := p.expected, p.commands[|p.commands| - 1];
    && save.Save? && e.icc == save.keepICC && e.captureDate == save.keepEXIF && PolicyFits(e, r)
    && (save.exact <==> r.operation.SmallerPhoto? && r.info.hasAlpha)
    && save.quality == (match r.operation
                        case CompatiblePhoto => 90
                        case EmailPhoto => 85
                        case SmallerPhoto => 80
                        case _ => 100)
    && DepthsFit(p.commands, e)
  }

  ghost predicate DepthsFit(commands: seq<Command>, e: Expectation) {
    forall i :: 0 <= i < |commands| && commands[i].IccTransform? ==>
                  (commands[i].depth == 16 <==> e.bandFormat == Some(UShort))
  }

  lemma DepthsAgree(commands: seq<Command>, r: Request, e: Expectation)
    requires AllFit(commands, r) && PolicyFits(e, r)
    ensures DepthsFit(commands, e)
  {
    forall i | 0 <= i < |commands| && commands[i].IccTransform?
      ensures commands[i].depth == 16 <==> e.bandFormat == Some(UShort)
    {
      assert CommandFits(commands[i], r);
    }
  }

  ghost predicate PolicyFits(e: Expectation, r: Request) {
    var (w, h) := OrientedDimensions(r.info);
    && (e.icc <==> r.info.interpretation.CMYK? || (r.info.metadata.icc && !Perceptual(r.info.interpretation)))
    && (e.captureDate <==> r.policy.PreserveWhenSafe? && r.info.metadata.captureDate && !r.info.metadata.gps)
    && (e.hasAlpha <==>
        (r.operation.SmallerPhoto? && r.info.hasTransparency) || (r.operation.LosslessImage? && r.info.hasAlpha))
    && e.format == (if JPEGPhoto(r.operation) then JPEG else if r.operation.SmallerPhoto? then WebP else PNG)
    && e.bandFormat == (if r.operation.LosslessImage? then Some(r.info.bandFormat) else None)
    && (!ResizesEmail(r) ==> e.width == w && e.height == h)
    && (ResizesEmail(r) && w >= 1 && h >= 1 ==>
          1 <= e.width <= w && 1 <= e.height <= h && Dimensions.Max(e.width, e.height) == MAX_EMAIL_DIMENSION)
  }

  // ---------------------------------------------------------------- building

  /** A chain under construction: nothing saved yet, every file so far temporary, and
      `saveInput` the latest of them. */
  ghost predicate Building(r: Request, commands: seq<Command>, temporaryPaths: seq<Path>, saveInput: Path,
                           used: set<Path>) {
    && Chain(commands) && commands[0].Autorot?
    && Distinct(Written(commands)) && InputFile !in used
    && temporaryPaths == Written(commands) && saveInput == commands[|commands| - 1].to
    && (forall p :: p in Written(commands) ==> p in used)
    && Saves(commands) == {} && AllFit(commands, r)
  }

  lemma Appends(commands: seq<Command>, c: Command)
    ensures Flattens(commands + [c]) == Flattens(commands) + if c.Flatten? then {|commands|} else {}
    ensures Normalizations(commands + [c]) == Normalizations(commands) + if Normalizes(c) then {|commands|} else {}
    ensures Resizes(commands + [c]) == Resizes(commands) + if c.Resize? then {|commands|} else {}
    ensures Saves(commands + [c]) == Saves(commands) + if c.Save? then {|commands|} else {}
    ensures Written(commands + [c]) == Written(commands) + [c.to]
  {
  }

  lemma BuildingGrows(r: Request, commands: seq<Command>, temporaryPaths: seq<Path>, saveInput: Path, used: set<Path>,
                      c: Command)
    requires Building(r, commands, temporaryPaths, saveInput, used)
    requires c.from == saveInput && c.to !in used && c.to != InputFile && !c.Save? && CommandFits(c, r)
    ensures Building(r, commands + [c], temporaryPaths + [c.to], c.to, used + {c.to})
  {
    Appends(commands, c);
    forall i | 0 <= i < |commands| ensures Reads(commands + [c], i) {
      assert i < |commands| - 1 ==> Reads(commands, i);
    }
  }

  /** JPEG drops alpha before color normalization, while the samples are still those
      of the file. */
  method FlattenFirst(r: Request, before: seq<Command>, temporary: seq<Path>, input: Path)
    returns (commands: seq<Command>, temporaryPaths: seq<Path>, saveInput: Path, flattened: bool)
    requires Rejection(r).None? && Building(r, before, temporary, input, {Oriented})
    requires Flattens(before) == Normalizations(before) == Resizes(before) == {}
    ensures Building(r, commands, temporaryPaths, saveInput, {Oriented, Opaque})
    ensures flattened == (NeedsColorNormalization(r.info) && r.info.hasAlpha && JPEGPhoto(r.operation))
    ensures Flattens(commands) == (if flattened then {|commands| - 1} else {})
    ensures !flattened ==> commands == before && saveInput == input
    ensures Normalizations(commands) == Resizes(commands) == {}
  {
    commands, temporaryPaths, saveInput, flattened := before, temporary, input, false;
    if NeedsColorNormalization(r.info) && r.info.hasAlpha && JPEGPhoto(r.operation) {
      var (background, maxAlpha) := PreNormalizationFlatten(r.info).value;
      var c := Flatten(saveInput, Opaque, background, maxAlpha);
      BuildingGrows(r, commands, temporaryPaths, saveInput, {Oriented}, c);
      Appends(commands, c);
      commands := commands + [c];
      temporaryPaths := temporaryPaths + [Opaque];
      saveInput := Opaque;
      flattened := true;
    }
  }

  /** Brings the samples to sRGB when they need it, and says whether the result
      carries a profile. */
  method NormalizeColor(r: Request, before: seq<Command>, temporary: seq<Path>, input: Path)
    returns (commands: seq<Command>, temporaryPaths: seq<Path>, saveInput: Path, icc: bool)
    requires Building(r, before, temporary, input, {Oriented, Opaque}) && Normalizations(before) == Resizes(before) == {}
    ensures Building(r, commands, temporaryPaths, saveInput, {Oriented, Opaque, Colour})
    ensures Flattens(commands) == Flattens(before) && Resizes(commands) == {} && before <= commands
    ensures Normalizations(commands) == (if NeedsColorNormalization(r.info) then {|before|} else {})
    ensures !NeedsColorNormalization(r.info) ==> commands == before && saveInput == input
    ensures icc == (r.info.interpretation.CMYK? || (r.info.metadata.icc && !Perceptual(r.info.interpretation)))
  {
    commands, temporaryPaths, saveInput, icc := before, temporary, input, r.info.metadata.icc;
    var depth := if r.operation.LosslessImage? && r.info.bandFormat.UShort? then 16 else 8;
    var next: Option<Command> := None;
    match r.info.interpretation {
      case CMYK =>
        next := Some(IccTransform(saveInput, Colour, r.info.metadata.icc, depth));
        icc := true;
      case BW =>
        if r.info.metadata.icc {
          next := Some(IccTransform(saveInput, Colour, true, depth));
        }
      case Grey16 =>
        if r.info.metadata.icc {
          next := Some(IccTransform(saveInput, Colour, true, depth));
        }
      case LAB => next, icc := Some(Colourspace(saveInput, Colour)), false;
      case LCH => next, icc := Some(Colourspace(saveInput, Colour)), false;
      case XYZ => next, icc := Some(Colourspace(saveInput, Colour)), false;
      case YXY => next, icc := Some(Colourspace(saveInput, Colour)), false;
      case HSV => next, icc := Some(Colourspace(saveInput, Colour)), false;
      case _ =>
    }
    if next.Some? {
      BuildingGrows(r, commands, temporaryPaths, saveInput, {Oriented, Opaque}, next.value);
      Appends(commands, next.value);
      commands := commands + [next.value];
      temporaryPaths := temporaryPaths + [Colour];
      saveInput := Colour;
    }
  }

  /** JPEG drops alpha here when there was nothing to normalize. */
  method FlattenLast(r: Request, before: seq<Command>, temporary: seq<Path>, input: Path, flattened: bool)
    returns (commands: seq<Command>, temporaryPaths: seq<Path>, saveInput: Path)
    requires Building(r, before, temporary, input, {Oriented, Opaque, Colour}) && Resizes(before) == {}
    requires flattened == (NeedsColorNormalization(r.info) && r.info.hasAlpha && JPEGPhoto(r.operation))
    requires !NeedsColorNormalization(r.info) ==> input == Oriented && Flattens(before) == Normalizations(before) == {}
    ensures Building(r, commands, temporaryPaths, saveInput, {Oriented, Opaque, Colour, Pixels})
    ensures before <= commands && Normalizations(commands) == Normalizations(before) && Resizes(commands) == {}
    ensures var later := JPEGPhoto(r.operation) && r.info.hasAlpha && !NeedsColorNormalization(r.info);
      Flattens(commands) == (if later then {|before|} else Flattens(before))
  {
    commands, temporaryPaths, saveInput := before, temporary, input;
    if JPEGPhoto(r.operation) && r.info.hasAlpha && !flattened {
      var c := Flatten(saveInput, Pixels, FlattenBackground(r.info, saveInput != Oriented), None);
      BuildingGrows(r, commands, temporaryPaths, saveInput, {Oriented, Opaque, Colour}, c);
      Appends(commands, c);
      commands := commands + [c];
      temporaryPaths := temporaryPaths + [Pixels];
      saveInput := Pixels;
    }
  }

  method ResizeEmail(r: Request, before: seq<Command>, temporary: seq<Path>, input: Path)
    returns (commands: seq<Command>, temporaryPaths: seq<Path>, saveInput: Path, width: int, height: int)
    requires Building(r, before, temporary, input, {Oriented, Opaque, Colour, Pixels}) && Resizes(before) == {}
    ensures Building(r, commands, temporaryPaths, saveInput, {Oriented, Opaque, Colour, Pixels, Resized})
    ensures before <= commands && Flattens(commands) == Flattens(before)
            && Normalizations(commands) == Normalizations(before)
    ensures var resizes := ResizesEmail(r);
      && Resizes(commands) == (if resizes then {|before|} else {})
      && |commands| == |before| + (if resizes then 1 else 0)
      && (!resizes ==> (width, height) == OrientedDimensions(r.info))
      && (resizes ==> var (w, h) := OrientedDimensions(r.info);
            var fit := Dimensions.FitWithinLongestEdge(w, h, MAX_EMAIL_DIMENSION);
            width == fit.0 && height == fit.1)
  {
    commands, temporaryPaths, saveInput := before, temporary, input;
    var (w, h) := OrientedDimensions(r.info);
    width, height := w, h;
    if r.operation.EmailPhoto? {
      var fit := Dimensions.FitWithinLongestEdge(w, h, MAX_EMAIL_DIMENSION);
      ScaleBelowOne(w, h);
      if fit.2 < 1.0 {
        var c := Resize(saveInput, Resized, fit.2);
        BuildingGrows(r, commands, temporaryPaths, saveInput, {Oriented, Opaque, Colour, Pixels}, c);
        Appends(commands, c);
        commands := commands + [c];
        temporaryPaths := temporaryPaths + [Resized];
        saveInput := Resized;
        width, height := fit.0, fit.1;
      }
    }
  }

  lemma ScaleBelowOne(width: int, height: int)
    ensures Dimensions.FitWithinLongestEdge(width, height, MAX_EMAIL_DIMENSION).2 < 1.0 <==>
            Dimensions.Max(width, height) > MAX_EMAIL_DIMENSION
  {
    if Dimensions.Max(width, height) > MAX_EMAIL_DIMENSION {
      Dimensions.QuotientAtLeastOne(Dimensions.Max(width, height), MAX_EMAIL_DIMENSION);
    }
  }

  /** The save command of an operation, and what its output must look like. */
  function SaveFor(r: Request, saveInput: Path, icc: bool, width: int, height: int): (Command, Expectation)
    requires ImageOperation(r.operation)
  {
    var date := r.policy.PreserveWhenSafe? && r.info.metadata.captureDate && !r.info.metadata.gps;
    if JPEGPhoto(r.operation) then
      (Save(saveInput, OutputFile(JPEG), JPEG, if r.operation.EmailPhoto? then 85 else 90, false, icc, date),
       Expectation(width, height, JPEG, false, None, icc, date))
    else if r.operation.SmallerPhoto? then
      (Save(saveInput, OutputFile(WebP), WebP, 80, r.info.hasAlpha, icc, date),
       Expectation(width, height, WebP, r.info.hasTransparency, None, icc, date))
    else
      (Save(saveInput, OutputFile(PNG), PNG, 100, false, icc, date),
       Expectation(width, height, PNG, r.info.hasAlpha, Some(r.info.bandFormat), icc, date))
  }

  /** Accepts exactly the requests no check refuses, and plans each as a well-formed
      chain: alpha is dropped once for JPEG, in the samples of the file; color is
      normalized once when it must be, after that; and nothing is read that was not
      just written. */
  method BuildPlan(r: Request) returns (p: Result<Plan, ImageError>)
    ensures p.Err? <==> Rejection(r).Some?
    ensures p.Err? ==> Some(p.error) == Rejection(r)
    ensures p.Ok? ==> WellFormedPlan(p.value, r) && ExpectationFits(p.value, r)
  {
    var rejection := Rejection(r);
    if rejection.Some? {
      return Err(rejection.value);
    }
    var commands := [Autorot(InputFile, Oriented)];
    var temporaryPaths, saveInput := [Oriented], Oriented;
    assert Written(commands) == [Oriented];
    var flattened, icc, width, height;
    commands, temporaryPaths, saveInput, flattened := FlattenFirst(r, commands, temporaryPaths, saveInput);
    ghost var first := commands;
    commands, temporaryPaths, saveInput, icc := NormalizeColor(r, commands, temporaryPaths, saveInput);
    ghost var normalized := commands;
    commands, temporaryPaths, saveInput := FlattenLast(r, commands, temporaryPaths, saveInput, flattened);
    ghost var flat := commands;
    commands, temporaryPaths, saveInput, width, height := ResizeEmail(r, commands, temporaryPaths, saveInput);
    BalancedStages(r, first, normalized, flat, commands, flattened);
    var plan := SavePlan(r, commands, temporaryPaths, saveInput, icc, width, height);
    p := Ok(plan);
  }

  /** The save command completes the chain. */
  method SavePlan(r: Request, commands: seq<Command>, temporaryPaths: seq<Path>, saveInput: Path, icc: bool,
                  width: int, height: int) returns (p: Plan)
    requires ImageOperation(r.operation)
    requires Building(r, commands, temporaryPaths, saveInput, {Oriented, Opaque, Colour, Pixels, Resized})
    requires Balanced(commands, r) && forall i :: i in Resizes(commands) ==> i == |commands| - 1
    requires icc == (r.info.interpretation.CMYK? || (r.info.metadata.icc && !Perceptual(r.info.interpretation)))
    requires !ResizesEmail(r) ==> (width, height) == OrientedDimensions(r.info)
    requires ResizesEmail(r) ==> var (w, h) := OrientedDimensions(r.info);
               var fit := Dimensions.FitWithinLongestEdge(w, h, MAX_EMAIL_DIMENSION); width == fit.0 && height == fit.1
    ensures WellFormedPlan(p, r) && ExpectationFits(p, r)
  {
    var (save, expected) := SaveFor(r, saveInput, icc, width, height);
    if ResizesEmail(r) {
      EmailFits(r);
    }
    p := Plan(commands + [save], temporaryPaths, save.to, expected);
    Finished(r, commands, temporaryPaths, saveInput, save, p);
    DepthsAgree(p.commands, r, expected);
  }

  lemma EmailFits(r: Request)
    requires ResizesEmail(r)
    ensures var (w, h) := OrientedDimensions(r.info);
      var fit := Dimensions.FitWithinLongestEdge(w, h, MAX_EMAIL_DIMENSION);
      w >= 1 && h >= 1 ==>
        1 <= fit.0 <= w && 1 <= fit.1 <= h && Dimensions.Max(fit.0, fit.1) == MAX_EMAIL_DIMENSION
  {
    var (w, h) := OrientedDimensions(r.info);
    if w >= 1 && h >= 1 {
      var scale := Dimensions.FitWithinLongestEdge(w, h, MAX_EMAIL_DIMENSION).2;
      Dimensions.LongestEdgeWidth(w, h, MAX_EMAIL_DIMENSION, w as real * scale);
      Dimensions.LongestEdgeHeight(w, h, MAX_EMAIL_DIMENSION, h as real * scale);
    }
  }

  /** The stages together. */
  lemma BalancedStages(r: Request, first: seq<Command>, normalized: seq<Command>, flat: seq<Command>,
                       commands: seq<Command>, flattened: bool)
    requires first <= normalized <= flat <= commands && first != []
    requires flattened == (NeedsColorNormalization(r.info) && r.info.hasAlpha && JPEGPhoto(r.operation))
    requires Flattens(first) == (if flattened then {|first| - 1} else {})
    requires Flattens(normalized) == Flattens(first)
    requires Normalizations(normalized) == (if NeedsColorNormalization(r.info) then {|first|} else {})
    requires var later := JPEGPhoto(r.operation) && r.info.hasAlpha && !NeedsColorNormalization(r.info);
      Flattens(flat) == (if later then {|normalized|} else Flattens(normalized))
    requires Normalizations(flat) == Normalizations(normalized)
    requires Flattens(commands) == Flattens(flat) && Normalizations(commands) == Normalizations(flat)
    requires Resizes(commands) == (if ResizesEmail(r) then {|flat|} else {})
    requires AllFit(commands, r)
    ensures Balanced(commands, r)
  {
  }

  lemma SavedChain(r: Request, commands: seq<Command>, temporaryPaths: seq<Path>, saveInput: Path, used: set<Path>,
                   save: Command)
    requires Building(r, commands, temporaryPaths, saveInput, used)
    requires save.from == saveInput && save.to !in used && save.to != InputFile
    ensures Chain(commands + [save]) && Distinct(Written(commands + [save])) && InputFile !in Written(commands + [save])
    ensures Written(commands + [save])[..|commands|] == temporaryPaths
  {
    Appends(commands, save);
    forall i | 0 <= i < |commands| ensures Reads(commands + [save], i) {
      assert i < |commands| - 1 ==> Reads(commands, i);
    }
    forall i | 0 <= i < |commands| ensures Written(commands)[i] in used {
      assert Written(commands)[i] in Written(commands);
    }
  }

  lemma SavedBalance(r: Request, commands: seq<Command>, save: Command)
    requires Balanced(commands, r) && save.Save?
    ensures Balanced(commands + [save], r)
    ensures Resizes(commands + [save]) == Resizes(commands)
    ensures Saves(commands) == {} ==> Saves(commands + [save]) == {|commands|}
  {
    Appends(commands, save);
    var all := commands + [save];
    assert Flattens(all) == Flattens(commands) && Normalizations(all) == Normalizations(commands);
    forall i | 0 <= i < |all| ensures CommandFits(all[i], r) {
      if i < |commands| {
        assert all[i] == commands[i];
      }
    }
  }

  lemma Finished(r: Request, commands: seq<Command>, temporaryPaths: seq<Path>, saveInput: Path, save: Command, p: Plan)
    requires Building(r, commands, temporaryPaths, saveInput, {Oriented, Opaque, Colour, Pixels, Resized})
    requires Balanced(commands, r) && forall i :: i in Resizes(commands) ==> i == |commands| - 1
    requires save.Save? && save.from == saveInput && save.to.OutputFile?
    requires p == Plan(commands + [save], temporaryPaths, save.to, p.expected) && save.format == p.expected.format
    ensures WellFormedPlan(p, r)
  {
    SavedChain(r, commands, temporaryPaths, saveInput, {Oriented, Opaque, Colour, Pixels, Resized}, save);
    SavedBalance(r, commands, save);
  }

  // ---------------------------------------------------------------- samples along the chain

  /** The samples a command writes.  `srgb` are those that converting to sRGB by numbers
      gives; JPEG and WebP have 8 bits. */
  function Samples(c: Command, read: BandFormat, srgb: BandFormat): BandFormat {
    match c
    case IccTransform(_, _, _, depth) => if depth == 16 then UShort else UChar
    case Colourspace(_, _) => srgb
    case Save(_, _, format, _, _, _, _) => if format.PNG? then read else UChar
    case _ => read
  }

  /** The samples after the first n commands. */
  function SamplesAfter(commands: seq<Command>, n: nat, file: BandFormat, srgb: BandFormat): BandFormat
    requires n <= |commands|
  {
    if n == 0 then file else Samples(commands[n - 1], SamplesAfter(commands, n - 1, file, srgb), srgb)
  }

  lemma {:induction false} SamplesStay(commands: seq<Command>, m: nat, n: nat, file: BandFormat, srgb: BandFormat)
    requires m <= n <= |commands|
    requires forall i :: m <= i < n ==> !Normalizes(commands[i]) && (commands[i].Save? ==> commands[i].format.PNG?)
    ensures SamplesAfter(commands, n, file, srgb) == SamplesAfter(commands, m, file, srgb)
  {
    if m < n {
      SamplesStay(commands, m, n - 1, file, srgb);
    }
  }

  lemma Inhabited(s: set<int>)
    ensures s == {} || exists k :: k in s
  {
    if forall k :: k !in s {
      assert s == {};
    }
  }

  lemma OnlyElement(s: set<int>) returns (k: int)
    requires |s| == 1
    ensures s == {k}
  {
    Inhabited(s);
    k :| k in s;
    assert |s - {k}| == 0;
  }

  /** When a lossless copy keeps the samples it is checked for: always when nothing or a
      profile is applied, and after a conversion by numbers exactly when that gives the
      samples of the file. */
  lemma LosslessPrecisionIff(r: Request, p: Plan, srgb: BandFormat)
    requires Rejection(r).None? && r.operation.LosslessImage? && WellFormedPlan(p, r) && ExpectationFits(p, r)
    ensures p.expected.bandFormat == Some(SamplesAfter(p.commands, |p.commands|, r.info.bandFormat, srgb)) <==>
            !Perceptual(r.info.interpretation) || srgb == r.info.bandFormat
  {
    var commands, n, file := p.commands, |p.commands|, r.info.bandFormat;
    forall i | 0 <= i < n && commands[i].Save? ensures commands[i].format.PNG? {
      assert i in Saves(commands);
    }
    if NeedsColorNormalization(r.info) {
      var k := OnlyElement(Normalizations(commands));
      assert k in Normalizations(commands) && CommandFits(commands[k], r);
      forall i | 0 <= i < n && Normalizes(commands[i]) ensures i == k {
        assert i in Normalizations(commands);
      }
      SamplesStay(commands, 0, k, file, srgb);
      SamplesStay(commands, k + 1, n, file, srgb);
    } else {
      forall i | 0 <= i < n ensures !Normalizes(commands[i]) {
        assert i !in Normalizations(commands);
      }
      SamplesStay(commands, 0, n, file, srgb);
    }
  }

  /** A 16-bit image in a perceptual color space is accepted for a lossless copy, and if
      sRGB has 8 bits then every plan for it writes samples that its check refuses. */
  lemma WidePerceptualRefused() returns (r: Request)
    ensures Rejection(r).None? && ContentRejection(r.info, DEFAULT_LIMITS).None? && r.operation.LosslessImage?
    ensures forall p: Plan :: WellFormedPlan(p, r) && ExpectationFits(p, r) ==>
                                p.expected.bandFormat
                                != Some(SamplesAfter(p.commands, |p.commands|, r.info.bandFormat, UChar))
  {
    var info := Info(PNG, 10, 10, 3, UShort, false, HSV, 1, false, false, false, 1, None,
                     Metadata(false, false, false, false, false, false));
    r := Request("in", "out", "work", "vips", LosslessImage, info, Strip);
    assert Divide(100_000_000, 10) == 10_000_000;
    forall p: Plan | WellFormedPlan(p, r) && ExpectationFits(p, r)
      ensures p.expected.bandFormat != Some(SamplesAfter(p.commands, |p.commands|, r.info.bandFormat, UChar))
    {
      LosslessPrecisionIff(r, p, UChar);
    }
  }

  /** Where a JPEG plan drops alpha, and when it does so onto white in the samples that
      the flatten reads: exactly when the plan normalizes its color, or the color space
      is a 16-bit one exactly when the samples are. */
  lemma FlattensOnWhiteIff(r: Request, p: Plan, srgb: BandFormat) returns (i: nat)
    requires WellFormedPlan(p, r) && JPEGPhoto(r.operation) && r.info.hasAlpha
    ensures i < |p.commands| && Flattens(p.commands) == {i}
    ensures p.commands[i].background
            == White(r.info.interpretation, SamplesAfter(p.commands, i, r.info.bandFormat, srgb)) <==>
            NeedsColorNormalization(r.info)
            || (r.info.bandFormat.UShort? <==> r.info.interpretation.RGB16? || r.info.interpretation.Grey16?)
  {
    var commands := p.commands;
    var only := OnlyElement(Flattens(commands));
    assert only in Flattens(commands) && CommandFits(commands[only], r);
    i := only;
    forall j | 0 <= j < i ensures !Normalizes(commands[j]) && !commands[j].Save? {
      assert j !in Normalizations(commands) && j !in Saves(commands);
    }
    SamplesStay(commands, 0, i, r.info.bandFormat, srgb);
  }

  /** A 16-bit image with alpha in an 8-bit grey space is accepted, and every plan for it
      drops the alpha onto 255 of 65535. */
  lemma WideGreyOnBlack() returns (r: Request)
    ensures Rejection(r).None? && ContentRejection(r.info, DEFAULT_LIMITS).None?
    ensures JPEGPhoto(r.operation) && r.info.hasAlpha
    ensures White(r.info.interpretation, r.info.bandFormat) == [65535]
    ensures forall p: Plan :: WellFormedPlan(p, r) ==> FlattensOnto(p, [255])
  {
    var info := Info(PNG, 10, 10, 2, UShort, false, BW, 1, false, true, true, 1, None,
                     Metadata(false, false, false, false, false, false));
    r := Request("in", "out", "work", "vips", CompatiblePhoto, info, Strip);
    assert Divide(100_000_000, 10) == 10_000_000;
    forall p: Plan | WellFormedPlan(p, r) ensures FlattensOnto(p, [255]) {
      var i := OnlyElement(Flattens(p.commands));
      assert i in Flattens(p.commands) && CommandFits(p.commands[i], r);
    }
  }

  /** Some command of a plan drops alpha onto a background. */
  ghost predicate FlattensOnto(p: Plan, background: seq<int>) {
    exists i :: i in Flattens(p.commands) && p.commands[i].background == background
  }
}
