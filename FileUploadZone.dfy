/** The drop zone of the upload page: the two-check decision a chosen file
    goes through (type, then size), the error messages it produces, and the
    drag counter that keeps the highlight on while a drag moves over the
    zone's children. */
module FileUploadZone {
  import opened Options
  import opened Text

  /** The parts of a browser `File` the zone looks at; `mimeType` is `type`. */
  datatype FileInfo = FileInfo(name: string, mimeType: string, size: nat)

  /** The one call `onFileSelect` receives: `(file, null)` or `(null, error)`. */
  datatype Selection = Accepted(file: FileInfo) | Rejected(message: string)

  const MiB: nat := 1024 * 1024
  const DefaultFormats: seq<string> := ["image/jpeg", "image/png"]
  const DefaultMaxSize: nat := 10 * MiB

  predicate HasSlash(formats: seq<string>) {
    forall i :: 0 <= i < |formats| ==> '/' in formats[i]
  }

  /** `f.split('/')[1]`: the text between the first and the second '/'. */
  function Subtype(format: string): string
  {
    BeforeFirst(AfterFirst(format, '/'), '/')
  }

  /** The upper-cased subtypes, in the order the formats are listed. */
  function SubtypeNames(formats: seq<string>): (r: seq<string>)
    ensures |r| == |formats|
    ensures forall i :: 0 <= i < |formats| ==> r[i] == Upper(Subtype(formats[i]))
  {
    if formats == [] then [] else [Upper(Subtype(formats[0]))] + SubtypeNames(formats[1..])
  }

  /** The message for a file whose type is not accepted. Every format must
      contain a '/': for one without, `split('/')[1]` is undefined and the
      upper-casing throws. */
  function FormatMessage(formats: seq<string>): string
    requires HasSlash(formats)
  {
    "Invalid file format. Please upload " + Join(SubtypeNames(formats), " or ") + " files only."
  }

  /** `Math.round(bytes / (1024 * 1024))` for a non-negative byte count. */
  function RoundMiB(bytes: nat): (m: nat)
    ensures 2 * m * MiB <= 2 * bytes + MiB
    ensures 2 * bytes + MiB < 2 * (m + 1) * MiB
  {
    (bytes + MiB / 2) / MiB
  }

  function SizeMessage(maxFileSize: nat): string
  {
    "File size too large. Maximum allowed size is " + NatToString(RoundMiB(maxFileSize)) + "MB."
  }

  /** `handleFileSelection`: the type is checked first, then the size. */
  function Select(f: FileInfo, formats: seq<string>, maxFileSize: nat): Selection
    requires HasSlash(formats)
  {
    if f.mimeType !in formats then Rejected(FormatMessage(formats))
    else if f.size > maxFileSize then Rejected(SizeMessage(maxFileSize))
    else Accepted(f)
  }

  /** A file is accepted, unchanged, exactly when its type is listed and its
      size is at most the maximum (a file of exactly the maximum size
      passes); a wrong type is reported as such whatever the size, and a
      size error is reported only for an accepted type. */
  lemma SelectOutcome(f: FileInfo, formats: seq<string>, maxFileSize: nat)
    requires HasSlash(formats)
    ensures Select(f, formats, maxFileSize).Accepted? <==> f.mimeType in formats && f.size <= maxFileSize
    ensures Select(f, formats, maxFileSize).Accepted? ==> Select(f, formats, maxFileSize).file == f
    ensures f.mimeType !in formats ==> Select(f, formats, maxFileSize) == Rejected(FormatMessage(formats))
    ensures f.mimeType in formats && f.size > maxFileSize ==> Select(f, formats, maxFileSize) == Rejected(SizeMessage(maxFileSize))
  {
  }

  lemma UpperJpegPng()
    ensures Upper("jpeg") == "JPEG" && Upper("png") == "PNG"
  {
    assert Upper("jpeg") == [UpperChar('j')] + Upper("peg");
    assert Upper("peg") == [UpperChar('p')] + Upper("eg");
    assert Upper("eg") == [UpperChar('e')] + Upper("g");
    assert Upper("png") == [UpperChar('p')] + Upper("ng");
    assert Upper("ng") == [UpperChar('n')] + Upper("g");
  }

  lemma SubtypeJpeg()
    ensures Subtype("image/jpeg") == "jpeg"
  {
    assert "image/jpeg" == "image" + ['/'] + "jpeg";
    BeforeFirstOf("image", '/', "jpeg");
    assert BeforeFirst("jpeg", '/') == "jpeg";
  }

  lemma SubtypePng()
    ensures Subtype("image/png") == "png"
  {
    assert "image/png" == "image" + ['/'] + "png";
    BeforeFirstOf("image", '/', "png");
    assert BeforeFirst("png", '/') == "png";
  }

  lemma DefaultFormatsHaveSlash()
    ensures HasSlash(DefaultFormats)
  {
    assert "image/jpeg" == "image" + ['/'] + "jpeg";
    assert "image/png" == "image" + ['/'] + "png";
    assert DefaultFormats[0] == "image/jpeg" && DefaultFormats[1] == "image/png";
  }

  /** With the default formats the message names "JPEG or PNG". */
  lemma DefaultFormatNames()
    ensures HasSlash(DefaultFormats)
    ensures SubtypeNames(DefaultFormats) == ["JPEG", "PNG"]
    ensures Join(SubtypeNames(DefaultFormats), " or ") == "JPEG" + " or " + "PNG"
  {
    DefaultFormatsHaveSlash();
    SubtypeJpeg();
    SubtypePng();
    UpperJpegPng();
    var r := SubtypeNames(DefaultFormats);
    assert r[0] == Upper(Subtype("image/jpeg")) == "JPEG";
    assert r[1] == Upper(Subtype("image/png")) == "PNG";
    assert r == [r[0], r[1]];
  }

  /** With the default maximum of 10 MiB the size message says "10MB". */
  lemma DefaultSizeMessage()
    ensures RoundMiB(DefaultMaxSize) == 10
    ensures SizeMessage(DefaultMaxSize) == "File size too large. Maximum allowed size is " + "10" + "MB."
  {
    assert NatToString(10) == NatToString(1) + [DigitChar(0)];
  }

  /** The zone. `disabled` is the prop; the other two fields are its state. */
  class UploadZone {
    const acceptedFormats: seq<string>
    const maxFileSize: nat
    var disabled: bool
    var isDragOver: bool
    var dragCounter: int

    predicate Valid()
      reads this
    {
      HasSlash(acceptedFormats)
    }

    constructor (acceptedFormats: seq<string>, maxFileSize: nat, disabled: bool)
      requires HasSlash(acceptedFormats)
      ensures Valid()
      ensures this.acceptedFormats == acceptedFormats && this.maxFileSize == maxFileSize
      ensures this.disabled == disabled && !isDragOver && dragCounter == 0
    {
      this.acceptedFormats := acceptedFormats;
      this.maxFileSize := maxFileSize;
      this.disabled := disabled;
      isDragOver := false;
      dragCounter := 0;
    }

    /** The parent re-renders the zone with a new `disabled` prop. */
    method SetDisabled(d: bool)
      modifies this`disabled
      ensures disabled == d
    {
      disabled := d;
    }

    /** A drag enters the zone or one of its children, carrying
        `itemCount` items. */
    method HandleDragEnter(itemCount: nat)
      modifies this`dragCounter, this`isDragOver
      ensures dragCounter == old(dragCounter) + 1
      ensures isDragOver == (old(isDragOver) || itemCount > 0)
    {
      dragCounter := dragCounter + 1;
      if itemCount > 0 {
        isDragOver := true;
      }
    }

    /** A drag leaves the zone or one of its children; the highlight goes
        off when the count before the decrement was at most one. */
    method HandleDragLeave()
      modifies this`dragCounter, this`isDragOver
      ensures dragCounter == old(dragCounter) - 1
      ensures isDragOver == (old(isDragOver) && old(dragCounter) > 1)
    {
      if dragCounter <= 1 {
        isDragOver := false;
      }
      dragCounter := dragCounter - 1;
    }

    /** A drop clears the drag state whatever else happens; a disabled
        zone or an empty drop selects nothing, otherwise the first file
        goes through the checks. */
    method HandleDrop(files: seq<FileInfo>) returns (sel: Option<Selection>)
      requires Valid()
      modifies this`dragCounter, this`isDragOver
      ensures !isDragOver && dragCounter == 0
      ensures disabled || files == [] <==> sel.None?
      ensures sel.Some? ==> sel.value == Select(files[0], acceptedFormats, maxFileSize)
    {
      isDragOver := false;
      dragCounter := 0;
      if disabled {
        return None;
      }
      if |files| > 0 {
        sel := Some(Select(files[0], acceptedFormats, maxFileSize));
      } else {
        sel := None;
      }
    }

    /** The hidden input's change event: the first chosen file, if any. */
    method HandleFileInputChange(files: seq<FileInfo>) returns (sel: Option<Selection>)
      requires Valid()
      ensures files == [] <==> sel.None?
      ensures sel.Some? ==> sel.value == Select(files[0], acceptedFormats, maxFileSize)
    {
      if |files| > 0 {
        sel := Some(Select(files[0], acceptedFormats, maxFileSize));
      } else {
        sel := None;
      }
    }

    /** Whether a click (or Enter or Space) opens the file picker. */
    method HandleBrowseClick() returns (opensPicker: bool)
      ensures opensPicker <==> !disabled
    {
      opensPicker := !disabled;
    }
  }

  /** A drag that enters the zone and then one of its children, and leaves
      them in turn: the highlight stays on when the zone itself is left
      while the child is still under the cursor, and goes off at the
      second leave, with the counter back at zero. */
  method NestedDrag() returns (overInside: bool, overAfter: bool, counter: int)
    ensures overInside && !overAfter && counter == 0
  {
    var z := new UploadZone(DefaultFormats, DefaultMaxSize, false);
    z.HandleDragEnter(1);
    z.HandleDragEnter(1);
    z.HandleDragLeave();
    overInside := z.isDragOver;
    z.HandleDragLeave();
    overAfter := z.isDragOver;
    counter := z.dragCounter;
  }
}
