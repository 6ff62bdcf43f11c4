/**
 * The media helpers shared by the bot variants: `_is_image_file` (bot_hybrid.py,
 * bot_notion.py, bot_test.py) and `_generate_filename` (bot_hybrid.py,
 * bot_notion.py), with `os.path.splitext` modelled for POSIX paths and the
 * clock reading taken as a parameter.
 */
module MediaFiles {
  import opened PyText
  import opened Telegram

  // ---------------------------------------------------------------------------
  // _is_image_file

  const ImageExtensions: seq<string> := [".jpg", ".jpeg", ".png", ".gif", ".bmp", ".webp", ".tiff"]

  /** `any(file_name.lower().endswith(ext) for ext in image_extensions)`. */
  predicate HasImageExtension(fileName: string) {
    exists i | 0 <= i < |ImageExtensions| :: EndsWith(Lower(fileName), ImageExtensions[i])
  }

  /**
   * `_is_image_file`: any photo is an image; a document is one when its
   * lower-cased name has an image extension or its MIME type starts with "image/".
   */
  function IsImageFile(m: Message): (r: bool)
    ensures m.photo != [] ==> r
    ensures m.photo == [] && m.document.None? ==> !r
    ensures m.photo == [] && m.document.Some? ==>
              (r <==> HasImageExtension(OrEmpty(m.document.value.fileName))
                      || StartsWith(OrEmpty(m.document.value.mimeType), "image/"))
  {
    if m.photo != [] then true
    else if m.document.Some? then
      var fileName := OrEmpty(m.document.value.fileName);
      var mimeType := OrEmpty(m.document.value.mimeType);
      HasImageExtension(fileName) || StartsWith(mimeType, "image/")
    else false
  }

  /** The extension test ignores the case of ASCII letters. */
  lemma ImageExtensionIgnoresCase(s: string, t: string)
    requires |s| == |t|
    requires forall i | 0 <= i < |s| :: LowerChar(s[i]) == LowerChar(t[i])
    ensures HasImageExtension(s) <==> HasImageExtension(t)
  {
    assert Lower(s) == Lower(t);
  }

  /** A document named in capitals, "SCAN.JPG" say, counts as an image whatever its MIME type. */
  lemma UpperCaseJpgIsImage(m: Message)
    requires m.photo == [] && m.document.Some? && m.document.value.fileName.Some?
    requires EndsWith(m.document.value.fileName.value, ".JPG")
    ensures IsImageFile(m)
  {
    var name := m.document.value.fileName.value;
    var low := Lower(name);
    var n := |name|;
    assert low[n - 4..] == ".jpg" by {
      assert name[n - 4..] == ".JPG";
      assert name[n - 4] == '.' && name[n - 3] == 'J' && name[n - 2] == 'P' && name[n - 1] == 'G';
    }
    assert EndsWith(low, ImageExtensions[0]);
  }

  /** A document with neither an image extension nor an image MIME type is not an image. */
  lemma PlainDocumentIsNotImage(m: Message)
    requires m.photo == [] && m.document.Some?
    requires !HasImageExtension(OrEmpty(m.document.value.fileName))
    requires !StartsWith(OrEmpty(m.document.value.mimeType), "image/")
    ensures !IsImageFile(m)
  {
  }

  // ---------------------------------------------------------------------------
  // os.path.splitext

  /** `s.rfind(c)`: the last index holding `c`, or -1. */
  function RFind(s: string, c: char): (i: int)
    ensures -1 <= i < |s|
    ensures i >= 0 ==> s[i] == c
    ensures forall j | i < j < |s| :: s[j] != c
    decreases |s|
  {
    if s == [] then -1
    else if s[|s| - 1] == c then |s| - 1
    else RFind(s[..|s| - 1], c)
  }

  predicate AllDots(s: string) {
    forall k | 0 <= k < |s| :: s[k] == '.'
  }

  /**
   * `os.path.splitext` on a POSIX path: the extension runs from the last dot of
   * the last path component, unless everything before that dot in the component
   * is dots (a dotfile such as ".bashrc" has no extension).
   */
  function SplitExt(p: string): (r: (string, string))
    ensures r.0 + r.1 == p
    ensures r.1 != "" <==> HasExtension(p)
  {
    if HasExtension(p) then
      var dotIndex := RFind(p, '.');
      SplitAt(p, dotIndex);
      (p[..dotIndex], p[dotIndex..])
    else
      assert p + "" == p;
      (p, "")
  }

  /** The last dot lies in the last path component, after something other than dots. */
  predicate HasExtension(p: string) {
    var sepIndex := RFind(p, '/');
    var dotIndex := RFind(p, '.');
    dotIndex > sepIndex && !AllDots(p[sepIndex + 1..dotIndex])
  }

  lemma SplitAt(p: string, i: nat)
    requires i <= |p|
    ensures p[..i] + p[i..] == p
  {
  }

  /** The extension is empty, or a dot followed by characters that are neither dots nor slashes. */
  lemma SplitExtShape(p: string)
    ensures var ext := SplitExt(p).1;
            ext == "" || (ext[0] == '.' && forall k | 0 < k < |ext| :: ext[k] != '.' && ext[k] != '/')
  {
    var sepIndex := RFind(p, '/');
    var dotIndex := RFind(p, '.');
    var ext := SplitExt(p).1;
    if ext != "" {
      assert ext == p[dotIndex..] && dotIndex > sepIndex;
      forall k | 0 < k < |ext| ensures ext[k] != '.' && ext[k] != '/' {
        assert ext[k] == p[dotIndex + k];
      }
    }
  }

  // ---------------------------------------------------------------------------
  // _generate_filename

  /**
   * `_generate_filename`, given the formatted clock reading: "photo_<ts>.jpg" for
   * a photo, "<stem>_<ts><ext>" for a named document, "image_<ts>.bin" otherwise.
   */
  function GenerateFilename(m: Message, timestamp: string): (r: string)
    ensures m.photo != [] ==> r == "photo_" + timestamp + ".jpg"
    ensures m.photo == [] && !(m.document.Some? && Present(m.document.value.fileName)) ==> r == "image_" + timestamp + ".bin"
  {
    if m.photo != [] then "photo_" + timestamp + ".jpg"
    else if m.document.Some? && Present(m.document.value.fileName) then
      var (name, ext) := SplitExt(m.document.value.fileName.value);
      name + "_" + timestamp + ext
    else "image_" + timestamp + ".bin"
  }

  /** The clock reading `%Y%m%d_%H%M%S_%f` cut by three characters: digits and underscores only. */
  predicate PlainTimestamp(ts: string) {
    Plain(ts)
  }

  lemma {:induction false} RFindAppendWithout(a: string, b: string, c: char)
    requires forall k | 0 <= k < |b| :: b[k] != c
    ensures RFind(a + b, c) == RFind(a, c)
    decreases |b|
  {
    if b != [] {
      assert (a + b)[..|a + b| - 1] == a + b[..|b| - 1];
      RFindAppendWithout(a, b[..|b| - 1], c);
    } else {
      assert a + b == a;
    }
  }

  predicate Plain(s: string) {
    forall k | 0 <= k < |s| :: s[k] != '.' && s[k] != '/'
  }

  /** Appending plain characters to a name without extension leaves it without one. */
  lemma SplitExtAppendPlain(p: string, mid: string)
    requires SplitExt(p).1 == "" && Plain(mid)
    ensures SplitExt(p + mid) == (p + mid, "")
  {
    HasExtensionAppendPlain(p, mid);
  }

  lemma HasExtensionAppendPlain(p: string, mid: string)
    requires Plain(mid)
    ensures HasExtension(p + mid) <==> HasExtension(p)
  {
    var sepName := RFind(p, '/');
    var dotName := RFind(p, '.');
    RFindAppendWithout(p, mid, '/');
    RFindAppendWithout(p, mid, '.');
    if dotName > sepName {
      assert (p + mid)[sepName + 1..dotName] == p[sepName + 1..dotName];
    }
  }

  /** An extension as `splitext` returns it: a dot followed by neither dots nor slashes. */
  predicate ExtensionShaped(ext: string) {
    ext != "" && ext[0] == '.' && forall k | 0 < k < |ext| :: ext[k] != '.' && ext[k] != '/'
  }

  lemma LastDotIsExtension(front: string, ext: string)
    requires ExtensionShaped(ext)
    ensures RFind(front + ext, '.') == |front|
  {
    var q := front + ext;
    assert q[|front|] == '.';
    assert forall j | |front| < j < |q| :: q[j] == ext[j - |front|];
  }

  lemma LastSlashBeforeInsert(stem: string, mid: string, ext: string)
    requires Plain(mid) && ExtensionShaped(ext)
    ensures RFind(stem + mid + ext, '/') == RFind(stem, '/')
  {
    assert forall k | 0 <= k < |ext| :: ext[k] != '/';
    RFindAppendWithout(stem + mid, ext, '/');
    RFindAppendWithout(stem, mid, '/');
  }

  /** Inserting plain characters, not all dots, between stem and extension keeps the extension. */
  lemma SplitExtInsertPlain(p: string, mid: string)
    requires SplitExt(p).1 != "" && Plain(mid) && mid != ""
    ensures SplitExt(SplitExt(p).0 + mid + SplitExt(p).1) == (SplitExt(p).0 + mid, SplitExt(p).1)
  {
    var (stem, ext) := SplitExt(p);
    SplitExtShape(p);
    assert ExtensionShaped(ext);
    var q := stem + mid + ext;
    var dq := |stem| + |mid|;
    assert q == (stem + mid) + ext;
    LastDotIsExtension(stem + mid, ext);
    LastSlashBeforeInsert(stem, mid, ext);
    var s := RFind(stem, '/');
    assert q[..dq] == stem + mid && q[dq..] == ext;
    assert !AllDots(q[s + 1..dq]) by {
      assert q[s + 1..dq][|stem| - (s + 1)] == mid[0];
    }
  }

  /**
   * A named document keeps its extension: splitting the generated name gives the
   * original stem with "_<ts>" appended, and the original extension.
   */
  lemma GeneratedNameKeepsExtension(name: string, ts: string)
    requires PlainTimestamp(ts)
    ensures var (stem, ext) := SplitExt(name);
            SplitExt(stem + "_" + ts + ext) == (stem + "_" + ts, ext)
  {
    var (stem, ext) := SplitExt(name);
    var mid := "_" + ts;
    assert Plain(mid);
    if ext == "" {
      assert stem == name && stem + "_" + ts == name + mid;
      assert stem + "_" + ts + ext == name + mid;
      SplitExtAppendPlain(name, mid);
    } else {
      assert stem + "_" + ts == stem + mid;
      assert stem + "_" + ts + ext == stem + mid + ext;
      SplitExtInsertPlain(name, mid);
    }
  }

  /**
   * The name generated for a named document splits back into the document's own
   * stem, tagged with the timestamp, and the document's own extension.
   */
  lemma NamedDocumentKeepsExtension(m: Message, ts: string)
    requires m.photo == [] && m.document.Some? && Present(m.document.value.fileName)
    requires PlainTimestamp(ts)
    ensures var name := m.document.value.fileName.value;
            SplitExt(GenerateFilename(m, ts)) == (SplitExt(name).0 + "_" + ts, SplitExt(name).1)
  {
    GeneratedNameKeepsExtension(m.document.value.fileName.value, ts);
  }

  /** The name generated for a photo always passes the image-extension test. */
  lemma PhotoFilenameIsImage(m: Message, ts: string)
    requires m.photo != []
    ensures HasImageExtension(GenerateFilename(m, ts))
  {
    var r := GenerateFilename(m, ts);
    var low := Lower(r);
    assert r[|r| - 4..] == ".jpg";
    assert low[|r| - 4..] == ".jpg" by {
      assert forall k | |r| - 4 <= k < |r| :: low[k] == LowerChar(r[k]) && LowerChar(r[k]) == r[k];
    }
    assert EndsWith(low, ImageExtensions[0]);
  }
}
