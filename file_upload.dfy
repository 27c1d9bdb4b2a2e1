/**
 * The image picker (`FileUpload`): size validation, the preview it shows and
 * the one `onChange` report each change makes. The file chooser, the browser's
 * `accept` filter and the `FileReader` are outside the model: the chosen file
 * is a parameter and the reader's data URL arrives through `ReaderLoaded`.
 */
module FileUpload {
  import opened Js
  import opened Numbers

  /** A chosen file: its name and its size in bytes. */
  datatype File = File(name: string, size: nat)

  /** The `maxSize` prop's default: 2 MB. */
  const DefaultMaxSize: nat := 2097152

  const BytesPerMegabyte: nat := 1048576

  /** `maxSize && file.size > maxSize`: a zero limit disables the check, and a file of exactly the limit passes. */
  predicate TooLarge(maxSize: nat, size: nat): (b: bool)
    ensures b <==> maxSize > 0 && size > maxSize
  {
    TruthyNumber(Num(maxSize as real)) && size > maxSize
  }

  /** `(maxSize / 1048576).toFixed(1)`: megabytes rounded to the nearest tenth, a tie rounding up. */
  function MegabytesFixed1(maxSize: nat): (r: string)
    ensures |r| >= 3 && r[|r| - 2] == '.'
    ensures AllDigits(r[..|r| - 2]) && IsDigit(r[|r| - 1])
    ensures var t := 10 * DigitsValue(r[..|r| - 2]) + DigitValue(r[|r| - 1]);
      2 * BytesPerMegabyte * t <= 20 * maxSize + BytesPerMegabyte < 2 * BytesPerMegabyte * (t + 1)
  {
    var tenths := (20 * maxSize + BytesPerMegabyte) / (2 * BytesPerMegabyte);
    var whole, last := ShowNat(tenths / 10), DigitChar(tenths % 10);
    var r := whole + "." + [last];
    assert r[..|r| - 2] == whole && r[|r| - 1] == last;
    assert DigitValue(last) == tenths % 10;
    assert 10 * DigitsValue(whole) + DigitValue(last) == tenths;
    r
  }

  /** The message shown when a file is over the limit. */
  function SizeError(maxSize: nat): (r: string)
    ensures r != ""
  {
    "File size must be less than " + MegabytesFixed1(maxSize) + "MB"
  }

  /** With the default limit the message reads "File size must be less than 2.0MB". */
  lemma DefaultSizeError()
    ensures SizeError(DefaultMaxSize) == "File size must be less than 2.0MB"
  {
    assert (20 * DefaultMaxSize + BytesPerMegabyte) / (2 * BytesPerMegabyte) == 20;
    assert ShowNat(2) == "2";
    assert DigitChar(0) == '0';
  }

  class Upload {
    const maxSize: nat
    var previewUrl: Option<string>
    var fileError: string

    /** `useState(preview || null)` and an empty error. */
    constructor(maxSize: nat, preview: Option<string>)
      ensures this.maxSize == maxSize
      ensures previewUrl == (if TruthyNullable(preview) then preview else None)
      ensures fileError == ""
    {
      this.maxSize := maxSize;
      previewUrl := if TruthyNullable(preview) then preview else None;
      fileError := "";
    }

    /**
     * A change of the file input. `reported` is the argument of the one
     * `onChange` call: the file when it is accepted, null otherwise. The
     * error is cleared first and set only for an oversized file; the preview
     * is cleared when no file is chosen and otherwise left for the reader.
     */
    method HandleFileChange(file: Option<File>) returns (reported: Option<File>)
      modifies this
      ensures file == None ==> reported == None && previewUrl == None && fileError == ""
      ensures file.Some? && TooLarge(maxSize, file.value.size) ==>
        reported == None && previewUrl == old(previewUrl) && fileError == SizeError(maxSize)
      ensures file.Some? && !TooLarge(maxSize, file.value.size) ==>
        reported == file && previewUrl == old(previewUrl) && fileError == ""
    {
      fileError := "";
      if file == None {
        reported := None;
        previewUrl := None;
        return;
      }
      if TooLarge(maxSize, file.value.size) {
        fileError := SizeError(maxSize);
        reported := None;
        return;
      }
      reported := file;
    }

    /** The reader's `onloadend` for an accepted file: the data URL becomes the preview. */
    method ReaderLoaded(dataUrl: string)
      modifies this
      ensures previewUrl == Some(dataUrl) && fileError == old(fileError)
    {
      previewUrl := Some(dataUrl);
    }

    /** The remove button: no preview, no error, and null reported. */
    method HandleRemove() returns (reported: Option<File>)
      modifies this
      ensures previewUrl == None && fileError == "" && reported == None
    {
      previewUrl := None;
      reported := None;
      fileError := "";
    }
  }
}
