/**
 * A media item of the studio (a finished recording or an uploaded file) and
 * the pure rules that name and classify it: the kind of an uploaded file, the
 * file extension taken from a MIME type, the name of a recording, and the
 * download name used by the export button.
 */
module Media {
  import opened Opt
  import opened Text

  type Byte = bv8

  /** The item kinds the studio shows: 'video' | 'audio' | 'pdf' | 'ppt' | 'file'. */
  datatype Kind = Video | Audio | Pdf | Ppt | File

  /** Where an item came from: 'recorded' | 'uploaded'. */
  datatype Source = Recorded | Uploaded

  /** One reading of the clock: milliseconds since the epoch and its ISO-8601 text. */
  datatype Instant = Instant(millis: int, iso: string)

  /** The bytes behind an item (a `File`), with the name and MIME type it carries. */
  datatype FileData = FileData(name: string, mime: string, bytes: seq<Byte>)

  /**
   * One entry of the library. `url` is the object URL the page plays and
   * exports from; `timestamp` orders the library newest first.
   */
  datatype MediaItem = MediaItem(
    id: nat,
    name: string,
    kind: Kind,
    url: string,
    file: FileData,
    source: Source,
    timestamp: Instant)

  const PdfMime := "application/pdf"
  const PptxMime := "application/vnd.openxmlformats-officedocument.presentationml.presentation"

  /**
   * The kind of an uploaded file: the MIME type's `video/` or `audio/` prefix
   * first, then a `.pdf` or `.pptx` name (case-sensitive) or the matching
   * document MIME type, and `File` for everything else.
   */
  function UploadKind(mime: string, name: string): Kind
  {
    if StartsWith(mime, "video/") then Video
    else if StartsWith(mime, "audio/") then Audio
    else if EndsWith(name, ".pdf") || mime == PdfMime then Pdf
    else if EndsWith(name, ".pptx") || mime == PptxMime then Ppt
    else File
  }

  /**
   * The classifier never rejects a file, a media MIME prefix wins over any
   * name, and each document kind is backed by its name or its MIME type.
   */
  lemma UploadKindRules(mime: string, name: string)
    ensures StartsWith(mime, "video/") ==> UploadKind(mime, name) == Video
    ensures StartsWith(mime, "audio/") ==> UploadKind(mime, name) == Audio
    ensures UploadKind(mime, name) in {Video, Audio} ==> StartsWith(mime, "video/") || StartsWith(mime, "audio/")
    ensures UploadKind(mime, name) == Pdf ==> EndsWith(name, ".pdf") || mime == PdfMime
    ensures UploadKind(mime, name) == Ppt ==> EndsWith(name, ".pptx") || mime == PptxMime
    ensures !StartsWith(mime, "video/") && !StartsWith(mime, "audio/") && (EndsWith(name, ".pdf") || mime == PdfMime)
      ==> UploadKind(mime, name) == Pdf
    ensures !StartsWith(mime, "video/") && !StartsWith(mime, "audio/") && !EndsWith(name, ".pdf") && mime != PdfMime
      && (EndsWith(name, ".pptx") || mime == PptxMime)
      ==> UploadKind(mime, name) == Ppt
    ensures UploadKind(mime, name) == File <==>
      !StartsWith(mime, "video/") && !StartsWith(mime, "audio/")
      && !EndsWith(name, ".pdf") && mime != PdfMime
      && !EndsWith(name, ".pptx") && mime != PptxMime
  {
  }

  /** A file name by itself never makes an item playable: without a MIME type it is a document or a file. */
  lemma UploadKindWithoutMime(name: string)
    ensures UploadKind("", name) in {Pdf, Ppt, File}
    ensures EndsWith(name, ".mp4") && !EndsWith(name, ".pdf") && !EndsWith(name, ".pptx") ==> UploadKind("", name) == File
  {
  }

  /** Sample files: a video, a PDF, an unknown type, an `.mp4` without MIME type and an upper-case `.PDF`. */
  lemma UploadKindSamples()
    ensures UploadKind("video/mp4", "fileA.mp4") == Video
    ensures UploadKind("", "fileB.pdf") == Pdf
    ensures UploadKind("", "fileC.unknownext") == File
    ensures UploadKind("", "clip.mp4") == File
    ensures UploadKind("", "REPORT.PDF") == File
    ensures UploadKind("audio/mpeg", "talk.pdf") == Audio
  {
    assert "fileB.pdf"[5..] == ".pdf";
    assert "clip.mp4"[4..] != ".pdf";
    assert "REPORT.PDF"[6..] != ".pdf";
    assert "audio/mpeg"[..6] == "audio/";
    assert "video/mp4"[..6] == "video/";
  }

  /**
   * `mime.split('/')[1].split(';')[0]`: the text after the first `/` up to the
   * next `/` or `;`. A MIME type without `/` makes the JavaScript expression
   * throw, which is `None` here.
   */
  function ExtensionOfMime(mime: string): Option<string>
  {
    var parts := Split(mime, '/');
    if |parts| < 2 then None else Some(Split(parts[1], ';')[0])
  }

  /** The extension exists exactly when the MIME type has a `/`, and holds neither `/` nor `;`. */
  lemma ExtensionOfMimeDefined(mime: string)
    ensures ExtensionOfMime(mime).Some? <==> '/' in mime
    ensures ExtensionOfMime(mime).Some? ==> '/' !in ExtensionOfMime(mime).value && ';' !in ExtensionOfMime(mime).value
  {
    if '/' in mime {
      var i := IndexOf(mime, '/');
      var j :| 0 <= j < |mime| && mime[j] == '/';
      assert i <= j;
    } else {
      SplitWithout(mime, '/');
    }
    var parts := Split(mime, '/');
    if |parts| >= 2 {
      assert '/' !in parts[1];
      var ext := Split(parts[1], ';')[0];
      assert forall k :: 0 <= k < |ext| ==> ext[k] == parts[1][k];
    }
  }

  /** Searching past a prefix without the character. */
  lemma {:induction false} IndexOfAfter(a: string, b: string, c: char)
    requires c !in a
    ensures IndexOf(a + b, c) == |a| + IndexOf(b, c)
  {
    if a != [] {
      assert (a + b)[0] == a[0];
      assert (a + b)[1..] == a[1..] + b;
      IndexOfAfter(a[1..], b, c);
    } else {
      assert a + b == b;
    }
  }

  /** For `type/subtype` followed by nothing or by `;` parameters, the extension is the subtype. */
  lemma ExtensionOfTypeAndSubtype(t: string, sub: string, params: string)
    requires '/' !in t && '/' !in sub && ';' !in sub
    requires params == "" || params[0] == ';'
    ensures ExtensionOfMime(t + "/" + sub + params) == Some(sub)
  {
    var rest := sub + params;
    assert t + "/" + sub + params == t + ['/'] + rest;
    SplitAt(t, '/', rest);
    IndexOfAfter(sub, params, '/');
    var m := IndexOf(params, '/');
    var second := Split(rest, '/')[0];
    SplitHead(rest, '/');
    assert second == sub + params[..m];
    IndexOfAfter(sub, params[..m], ';');
    assert IndexOf(params[..m], ';') == 0;
    SplitHead(second, ';');
    assert second[..|sub|] == sub;
  }

  /** The ISO text of the clock cut to its first 19 characters, with every `:` and `T` made a `-`. */
  function NameStamp(iso: string): (r: string)
    ensures |r| == if |iso| < 19 then |iso| else 19
    ensures ':' !in r && 'T' !in r
    ensures forall k :: 0 <= k < |r| && iso[k] != ':' && iso[k] != 'T' ==> r[k] == iso[k]
    ensures forall k :: 0 <= k < |r| && (iso[k] == ':' || iso[k] == 'T') ==> r[k] == '-'
  {
    var n := if |iso| < 19 then |iso| else 19;
    seq(n, k requires 0 <= k < n => if iso[k] == ':' || iso[k] == 'T' then '-' else iso[k])
  }

  /** An ISO time of the form `YYYY-MM-DDTHH:MM:SS` gives a stamp of digits and dashes only, fit for a file name. */
  lemma NameStampFileSafe(iso: string)
    requires forall k :: 0 <= k < |iso| && k < 19 ==> '0' <= iso[k] <= '9' || iso[k] in "-:T"
    ensures forall k :: 0 <= k < |NameStamp(iso)| ==> '0' <= NameStamp(iso)[k] <= '9' || NameStamp(iso)[k] == '-'
  {
  }

  /** The stamp of a sample clock reading. */
  lemma NameStampSample()
    ensures NameStamp("2024-05-01T12:34:56.789Z") == "2024-05-01-12-34-56"
  {
  }

  /** `${type}_recording_${stamp}.${extension}`: the library name of a recording. */
  function RecordingName(recordingType: string, at: Instant, extension: string): string
  {
    recordingType + "_recording_" + NameStamp(at.iso) + "." + extension
  }

  /** `${type}_recording.${extension}`: the name of the `File` behind a recording. */
  function RecordingFileName(recordingType: string, extension: string): string
  {
    recordingType + "_recording." + extension
  }

  const VideoExtensions: seq<string> := ["mp4", "webm", "mov", "avi", "mkv"]
  const AudioExtensions: seq<string> := ["mp3", "wav", "ogg", "aac", "webm"]

  /** The text after the last `.` of a name, or `bin` for a name without a dot. */
  function NameExtension(name: string): (ext: string)
    ensures '.' !in ext
    ensures '.' !in name ==> ext == "bin"
    ensures '.' in name ==> EndsWith(name, "." + ext)
  {
    if '.' in name then
      var parts := Split(name, '.');
      SplitLastAfter(name, '.');
      parts[|parts| - 1]
    else "bin"
  }

  /** The extension the export corrects towards the item's kind. */
  function ExportExtension(name: string, kind: Kind): (ext: string)
    ensures kind == Video ==> ext in VideoExtensions
    ensures kind == Audio ==> ext in AudioExtensions
    ensures kind == Pdf ==> ext == "pdf"
    ensures kind == Ppt ==> ext == "pptx"
    ensures kind == File ==> ext == NameExtension(name)
    ensures kind == Video && NameExtension(name) !in VideoExtensions ==> ext == "webm"
    ensures kind == Audio && NameExtension(name) !in AudioExtensions ==> ext == "webm"
    ensures kind in {Video, Audio} && NameExtension(name) in (if kind == Video then VideoExtensions else AudioExtensions)
      ==> ext == NameExtension(name)
  {
    var extension := NameExtension(name);
    if kind == Video && extension !in VideoExtensions then "webm"
    else if kind == Audio && extension !in AudioExtensions then "webm"
    else if kind == Pdf then "pdf"
    else if kind == Ppt then "pptx"
    else extension
  }

  /** The extension an item without a name is exported with, by kind. */
  function DefaultExportExtension(kind: Kind): string
  {
    match kind
    case Video => "webm"
    case Audio => "webm"
    case Pdf => "pdf"
    case Ppt => "pptx"
    case File => "bin"
  }

  /**
   * The download name of the export button, or `None` when the item has no
   * URL to export. A named item keeps its name as it is: the corrected
   * extension only reaches items without a name.
   */
  function ExportFileName(item: MediaItem): (r: Option<string>)
    ensures r.None? <==> item.url == ""
    ensures r.Some? && item.name != "" ==> r.value == item.name
    ensures r.Some? && item.name == "" ==> r.value == "media_export." + DefaultExportExtension(item.kind)
  {
    if item.url == "" then None
    else
      var extension := ExportExtension(item.name, item.kind);
      Some(if item.name != "" then item.name else "media_export." + extension)
  }
}
