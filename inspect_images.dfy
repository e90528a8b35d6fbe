/**
 * The image upload gate (src/utils/inspect_images.go): each uploaded file
 * in turn must be within the size limit, open, yield its first bytes, sniff
 * as JPEG or PNG and rewind; the first file that does not decides the
 * status and the error, and the files after it are not looked at.
 * Content sniffing (the WHATWG MIME Sniffing Standard behind
 * `http.DetectContentType`) is a parameter.
 */
module InspectImages {
  import opened Errors

  newtype byte = b: int | 0 <= b < 256

  /**
   * A part of a multipart upload: its name, the size the parser recorded,
   * its bytes, and the failure that opening, reading or rewinding it
   * reports (`Nil` when that step works).
   */
  datatype FileHeader = FileHeader(
    filename: string, size: int, content: seq<byte>,
    openErr: Error, readErr: Error, seekErr: Error)

  /** A status and an error, as `InspectImages` returns them. */
  datatype Verdict = Verdict(status: int, err: Error)

  const StatusUnprocessableEntity := 422
  const StatusInternalServerError := 500
  /** The size of the buffer handed to content sniffing. */
  const SniffLen := 512
  /** The error a read reports at the end of the file (`io.EOF`). */
  const Eof := "EOF"
  const ImageJpeg := "image/jpeg"
  const ImagePng := "image/png"

  function TooBig(filename: string): string {
    "The uploaded image is too big: " + filename + ". Please use an image less than 2MB in size"
  }

  function NotAllowed(filename: string): string {
    "The uploaded file format is not allowed: " + filename + ". Please upload a JPEG or PNG image"
  }

  function Min(a: int, b: int): int {
    if a < b then a else b
  }

  /** The 512-byte buffer after one successful read: the first bytes of the file, then the zeros it was made with. */
  function Sniffed(content: seq<byte>): (buf: seq<byte>)
    ensures |buf| == SniffLen
    ensures forall i :: 0 <= i < SniffLen ==> buf[i] == if i < |content| then content[i] else 0
  {
    var n := Min(|content|, SniffLen);
    content[..n] + seq(SniffLen - n, _ => 0)
  }

  /** The checks on a file within the size limit; none when it passes. */
  function ContentVerdict(f: FileHeader, sniff: seq<byte> -> string): Option<Verdict> {
    if f.openErr != Nil then Some(Verdict(StatusInternalServerError, f.openErr))
    else if f.readErr != Nil then Some(Verdict(StatusInternalServerError, f.readErr))
    else if f.content == [] then Some(Verdict(StatusInternalServerError, Fail(Eof)))
    else
      var filetype := sniff(Sniffed(f.content));
      if filetype != ImageJpeg && filetype != ImagePng then
        Some(Verdict(StatusUnprocessableEntity, Fail(NotAllowed(f.filename))))
      else if f.seekErr != Nil then Some(Verdict(StatusInternalServerError, f.seekErr))
      else None
  }

  /**
   * The verdict on one file; none when it passes. An oversized file is
   * refused before it is opened; a file of exactly the limit is not
   * oversized.
   */
  function FileVerdict(f: FileHeader, maxSize: int, sniff: seq<byte> -> string): (r: Option<Verdict>)
    ensures f.size > maxSize ==> r == Some(Verdict(StatusUnprocessableEntity, Fail(TooBig(f.filename))))
    ensures f.size <= maxSize ==> r == ContentVerdict(f, sniff)
    ensures r.Some? ==> r.value.err != Nil && r.value.status in {StatusUnprocessableEntity, StatusInternalServerError}
  {
    if f.size > maxSize then Some(Verdict(StatusUnprocessableEntity, Fail(TooBig(f.filename))))
    else ContentVerdict(f, sniff)
  }

  /** A file passes exactly when it is within the limit, opens, is not empty, reads, sniffs as JPEG or PNG and rewinds. */
  lemma FilePasses(f: FileHeader, maxSize: int, sniff: seq<byte> -> string)
    ensures FileVerdict(f, maxSize, sniff).None? <==>
      (&& f.size <= maxSize && f.openErr == Nil && f.readErr == Nil && f.content != []
       && sniff(Sniffed(f.content)) in {ImageJpeg, ImagePng} && f.seekErr == Nil)
  {
  }

  /** The verdict on the files: the first refusal, or `(0, nil)`. */
  function Inspect(files: seq<FileHeader>, maxSize: int, sniff: seq<byte> -> string): Verdict {
    if files == [] then Verdict(0, Nil)
    else
      match FileVerdict(files[0], maxSize, sniff)
      case Some(v) => v
      case None => Inspect(files[1..], maxSize, sniff)
  }

  /** The upload is accepted exactly when every file passes. */
  lemma {:induction false} InspectAccepts(files: seq<FileHeader>, maxSize: int, sniff: seq<byte> -> string)
    ensures Inspect(files, maxSize, sniff) == Verdict(0, Nil) <==>
      forall k :: 0 <= k < |files| ==> FileVerdict(files[k], maxSize, sniff).None?
  {
    if files != [] {
      InspectAccepts(files[1..], maxSize, sniff);
      assert forall k :: 1 <= k < |files| ==> files[1..][k - 1] == files[k];
    }
  }

  /** The first file that does not pass decides the verdict, whatever follows it. */
  lemma {:induction false} FirstOffenderDecides(files: seq<FileHeader>, maxSize: int, sniff: seq<byte> -> string, k: nat)
    requires k < |files| && FileVerdict(files[k], maxSize, sniff).Some?
    requires forall j :: 0 <= j < k ==> FileVerdict(files[j], maxSize, sniff).None?
    ensures Inspect(files, maxSize, sniff) == FileVerdict(files[k], maxSize, sniff).value
  {
    if k > 0 {
      assert forall j :: 0 <= j < k - 1 ==> files[1..][j] == files[j + 1];
      FirstOffenderDecides(files[1..], maxSize, sniff, k - 1);
    }
  }

  /**
   * Inspecting two batches one after the other is inspecting them
   * together: the second batch is looked at only when the first passes.
   */
  lemma {:induction false} InspectConcat(a: seq<FileHeader>, b: seq<FileHeader>, maxSize: int, sniff: seq<byte> -> string)
    ensures Inspect(a + b, maxSize, sniff) ==
      if Inspect(a, maxSize, sniff) == Verdict(0, Nil) then Inspect(b, maxSize, sniff) else Inspect(a, maxSize, sniff)
  {
    if a == [] {
      assert a + b == b;
    } else {
      assert (a + b)[0] == a[0] && (a + b)[1..] == a[1..] + b;
      InspectConcat(a[1..], b, maxSize, sniff);
    }
  }

  /** An open upload part, with its read position. */
  class FileHandle {
    const content: seq<byte>
    const readErr: Error
    const seekErr: Error
    var offset: nat

    constructor(f: FileHeader)
      ensures content == f.content && readErr == f.readErr && seekErr == f.seekErr && offset == 0
    {
      content := f.content;
      readErr := f.readErr;
      seekErr := f.seekErr;
      offset := 0;
    }

    /**
     * `Read`: copies the next bytes, as many as fit, to the front of
     * `buf`; at the end of the file it reports `EOF` and copies nothing.
     */
    method Read(buf: array<byte>) returns (n: nat, err: Error)
      modifies this, buf
      ensures err == if readErr != Nil then readErr else if old(offset) < |content| then Nil else Fail(Eof)
      ensures err != Nil ==> n == 0 && buf[..] == old(buf[..]) && offset == old(offset)
      ensures err == Nil ==> n == Min(|content| - old(offset), buf.Length) && offset == old(offset) + n
      ensures err == Nil ==> buf[..n] == content[old(offset)..offset] && buf[n..] == old(buf[n..])
    {
      if readErr != Nil {
        return 0, readErr;
      }
      if offset >= |content| {
        return 0, Fail(Eof);
      }
      n := Min(|content| - offset, buf.Length);
      forall i | 0 <= i < n {
        buf[i] := content[offset + i];
      }
      offset := offset + n;
      err := Nil;
    }

    /** `Seek(0, io.SeekStart)`: back to the first byte, or the failure and no move. */
    method Rewind() returns (err: Error)
      modifies this
      ensures err == seekErr
      ensures offset == if err == Nil then 0 else old(offset)
    {
      err := seekErr;
      if err == Nil {
        offset := 0;
      }
    }
  }

  /** `FileHeader.Open`: a new handle at the start of the part, or the failure. */
  method Open(f: FileHeader) returns (file: FileHandle?, err: Error)
    ensures err == f.openErr
    ensures err == Nil ==>
      file != null && fresh(file) && file.content == f.content &&
      file.readErr == f.readErr && file.seekErr == f.seekErr && file.offset == 0
  {
    err := f.openErr;
    if err != Nil {
      return null, err;
    }
    file := new FileHandle(f);
  }

  /**
   * The body of the loop in `InspectImages` for one file: the verdict on
   * it, reached by opening it, reading its first bytes into a zeroed
   * 512-byte buffer, sniffing them and rewinding it.
   */
  method InspectFile(f: FileHeader, maxSize: int, sniff: seq<byte> -> string) returns (v: Option<Verdict>)
    ensures v == FileVerdict(f, maxSize, sniff)
  {
    if f.size > maxSize {
      return Some(Verdict(StatusUnprocessableEntity, Fail(TooBig(f.filename))));
    }
    var file, openErr := Open(f);
    if openErr != Nil {
      return Some(Verdict(StatusInternalServerError, openErr));
    }
    var buff := new byte[SniffLen](_ => 0);
    var _, readErr := file.Read(buff);
    if readErr != Nil {
      return Some(Verdict(StatusInternalServerError, readErr));
    }
    assert buff[..] == Sniffed(f.content);
    var filetype := sniff(buff[..]);
    if filetype != ImageJpeg && filetype != ImagePng {
      return Some(Verdict(StatusUnprocessableEntity, Fail(NotAllowed(f.filename))));
    }
    var seekErr := file.Rewind();
    if seekErr != Nil {
      return Some(Verdict(StatusInternalServerError, seekErr));
    }
    return None;
  }

  /**
   * `InspectImages`: the verdict on the files, reached by looking at each
   * in order and stopping at the first refusal.
   */
  method InspectImages(files: seq<FileHeader>, maxSize: int, sniff: seq<byte> -> string) returns (status: int, err: Error)
    ensures Verdict(status, err) == Inspect(files, maxSize, sniff)
  {
    var i := 0;
    while i < |files|
      invariant 0 <= i <= |files|
      invariant Inspect(files, maxSize, sniff) == Inspect(files[i..], maxSize, sniff)
    {
      assert files[i..][0] == files[i] && files[i..][1..] == files[i + 1..];
      var v := InspectFile(files[i], maxSize, sniff);
      if v.Some? {
        return v.value.status, v.value.err;
      }
      i := i + 1;
    }
    return 0, Nil;
  }
}
