/**
 * The drag-and-drop upload widget (fileUploadWidget.js): its status line and
 * its destination path. The Dropzone library's two file lists (uploading and
 * queued) are abstracted to their lengths.
 */
module FileUpload {
  import opened Wrappers

  /** The status line when nothing is moving. */
  const NoFilesMessage := "No files uploading."

  // ---------------------------------------------------------------------------
  // Decimal numerals, as `join` renders a list length
  // ---------------------------------------------------------------------------

  predicate IsDigit(c: char)
  {
    '0' <= c <= '9'
  }

  function DigitChar(d: nat): (c: char)
    requires d < 10
    ensures IsDigit(c)
  {
    ('0' as int + d) as char
  }

  /** The decimal numeral of `n`, without leading zeros. */
  function NatToString(n: nat): (s: string)
    ensures |s| > 0
    ensures forall i :: 0 <= i < |s| ==> IsDigit(s[i])
  {
    if n < 10 then [DigitChar(n)] else NatToString(n / 10) + [DigitChar(n % 10)]
  }

  function DigitValue(c: char): (d: nat)
    requires IsDigit(c)
    ensures d < 10
  {
    c as int - '0' as int
  }

  /** The value of a run of decimal digits. */
  function ParseNat(s: string): nat
    requires forall i :: 0 <= i < |s| ==> IsDigit(s[i])
  {
    if |s| == 0 then 0 else 10 * ParseNat(s[..|s| - 1]) + DigitValue(s[|s| - 1])
  }

  /** Reading the numeral back gives the number. */
  lemma {:induction false} ParseNatToString(n: nat)
    ensures ParseNat(NatToString(n)) == n
  {
    if n >= 10 {
      var s := NatToString(n);
      ParseNatToString(n / 10);
      assert s[..|s| - 1] == NatToString(n / 10);
    }
  }

  /** How many decimal digits `s` starts with. */
  function LeadingDigits(s: string): (k: nat)
    ensures k <= |s|
    ensures forall i :: 0 <= i < k ==> IsDigit(s[i])
    ensures k < |s| ==> !IsDigit(s[k])
  {
    if |s| == 0 || !IsDigit(s[0]) then 0 else 1 + LeadingDigits(s[1..])
  }

  lemma {:induction false} LeadingDigitsOfNumeral(d: string, rest: string)
    requires forall i :: 0 <= i < |d| ==> IsDigit(d[i])
    requires |rest| > 0 && !IsDigit(rest[0])
    ensures LeadingDigits(d + rest) == |d|
  {
    if |d| > 0 {
      assert (d + rest)[1..] == d[1..] + rest;
      LeadingDigitsOfNumeral(d[1..], rest);
    }
  }

  /** The text after `prefix`, when `s` starts with it. */
  function StripPrefix(s: string, prefix: string): Option<string>
  {
    if |prefix| <= |s| && s[..|prefix|] == prefix then Some(s[|prefix|..]) else None
  }

  lemma StripPrefixOf(prefix: string, t: string)
    ensures StripPrefix(prefix + t, prefix) == Some(t)
  {
    assert (prefix + t)[..|prefix|] == prefix;
    assert (prefix + t)[|prefix|..] == t;
  }

  /** A non-empty run of leading digits, read as a number, and the text after it. */
  function ReadNumber(s: string): Option<(nat, string)>
  {
    var k := LeadingDigits(s);
    if k == 0 then None else Some((ParseNat(s[..k]), s[k..]))
  }

  lemma ReadNumberOf(n: nat, rest: string)
    requires |rest| > 0 && !IsDigit(rest[0])
    ensures ReadNumber(NatToString(n) + rest) == Some((n, rest))
  {
    var d := NatToString(n);
    LeadingDigitsOfNumeral(d, rest);
    assert (d + rest)[..|d|] == d;
    assert (d + rest)[|d|..] == rest;
    ParseNatToString(n);
  }

  // ---------------------------------------------------------------------------
  // The status line
  // ---------------------------------------------------------------------------

  const UploadingHead := "Uploading "
  const FilesMid := " files ("
  const QueuedTail := " queued) to "

  /**
   * `makeUploadMessage`: the status line for a widget with or without its
   * Dropzone, with the given numbers of uploading and queued files.
   */
  function MakeUploadMessage(hasDropzone: bool, uploading: nat, queued: nat, path: string): (m: string)
    ensures m == NoFilesMessage <==> !hasDropzone || (uploading == 0 && queued == 0)
    ensures hasDropzone && (uploading > 0 || queued > 0) ==>
      m == UploadingHead + NatToString(uploading) + FilesMid + NatToString(queued) + QueuedTail + path
  {
    if !hasDropzone then NoFilesMessage
    else if uploading == 0 && queued == 0 then NoFilesMessage
    else
      var m := UploadingHead + NatToString(uploading) + FilesMid + NatToString(queued) + QueuedTail + path;
      assert m[0] == 'U';
      m
  }

  /**
   * Reads a busy status line back into its two counts and its path; None for
   * any text not of that shape.
   */
  function ReadUploadMessage(m: string): Option<(nat, nat, string)>
  {
    match StripPrefix(m, UploadingHead)
    case None => None
    case Some(a) => ReadCounts(a)
  }

  function ReadCounts(a: string): Option<(nat, nat, string)>
  {
    match ReadNumber(a)
    case None => None
    case Some((u, rest)) =>
      match ReadQueued(rest)
      case None => None
      case Some((q, path)) => Some((u, q, path))
  }

  function ReadQueued(rest: string): Option<(nat, string)>
  {
    match StripPrefix(rest, FilesMid)
    case None => None
    case Some(b) =>
      match ReadNumber(b)
      case None => None
      case Some((q, tail)) =>
        match StripPrefix(tail, QueuedTail)
        case None => None
        case Some(path) => Some((q, path))
  }

  /** The part of a busy status line after the uploading count. */
  function QueuedPart(queued: nat, path: string): (r: string)
    ensures |r| > 0 && r[0] == ' '
  {
    FilesMid + (NatToString(queued) + (QueuedTail + path))
  }

  lemma ReadQueuedOf(queued: nat, path: string)
    ensures ReadQueued(QueuedPart(queued, path)) == Some((queued, path))
  {
    var rest2 := QueuedTail + path;
    StripPrefixOf(FilesMid, NatToString(queued) + rest2);
    assert rest2[0] == ' ';
    ReadNumberOf(queued, rest2);
    StripPrefixOf(QueuedTail, path);
  }

  lemma ReadCountsOf(uploading: nat, queued: nat, path: string)
    ensures ReadCounts(NatToString(uploading) + QueuedPart(queued, path)) == Some((uploading, queued, path))
  {
    ReadNumberOf(uploading, QueuedPart(queued, path));
    ReadQueuedOf(queued, path);
  }

  /** A busy status line states exactly its counts and its path: they can be read back from it. */
  lemma UploadMessageRoundTrip(uploading: nat, queued: nat, path: string)
    requires uploading > 0 || queued > 0
    ensures ReadUploadMessage(MakeUploadMessage(true, uploading, queued, path)) == Some((uploading, queued, path))
  {
    var a := NatToString(uploading) + QueuedPart(queued, path);
    assert MakeUploadMessage(true, uploading, queued, path) == UploadingHead + a;
    StripPrefixOf(UploadingHead, a);
    ReadCountsOf(uploading, queued, path);
  }

  // ---------------------------------------------------------------------------
  // The widget
  // ---------------------------------------------------------------------------

  class FileUploadWidget {
    /** The destination path uploads go to. */
    var path: string
    /**
     * The value of the hidden `destPath` form field; None until `setPath`
     * writes it (its first value comes from the page template).
     */
    var destPath: Option<string>
    /** Whether `render` has created the Dropzone yet. */
    var hasDropzone: bool
    /** The lengths of Dropzone's uploading and queued file lists. */
    var uploading: nat
    var queued: nat
    const userId: string

    /** `init`: store the options, then `render`, which creates an empty Dropzone. */
    constructor (path0: string, userId0: string)
      ensures path == path0 && userId == userId0
      ensures destPath == None && hasDropzone && uploading == 0 && queued == 0
    {
      path := path0;
      userId := userId0;
      destPath := None;
      hasDropzone := true;
      uploading := 0;
      queued := 0;
    }

    /** `getPath`. */
    function GetPath(): string
      reads this
    {
      path
    }

    /** The widget's current status line. */
    function UploadMessage(): string
      reads this
    {
      MakeUploadMessage(hasDropzone, uploading, queued, GetPath())
    }

    /** `setPath`: the new destination, mirrored into the `destPath` field; nothing else changes. */
    method SetPath(p: string)
      modifies this`path, this`destPath
      ensures GetPath() == p && destPath == Some(p)
      ensures hasDropzone == old(hasDropzone) && uploading == old(uploading) && queued == old(queued)
    {
      path := p;
      destPath := Some(p);
    }

    /**
     * The handlers registered as `'addedFile'`, `'sending'` and `'success'`:
     * Dropzone's lists now have the given lengths, and the status line is
     * rewritten from them.
     */
    method OnQueueEvent(nowUploading: nat, nowQueued: nat) returns (message: string)
      modifies this`uploading, this`queued
      ensures uploading == nowUploading && queued == nowQueued
      ensures message == UploadMessage()
      ensures message == NoFilesMessage <==> !hasDropzone || (nowUploading == 0 && nowQueued == 0)
    {
      uploading, queued := nowUploading, nowQueued;
      message := MakeUploadMessage(hasDropzone, uploading, queued, GetPath());
    }
  }
}
