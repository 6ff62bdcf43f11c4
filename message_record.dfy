/**
 * The content helpers of the original bot (bot.py): the message type, the
 * file reference, the page title and the additional text stored with a
 * message. The clock reading used by the default title is a parameter.
 */
module MessageRecord {
  import opened PyText
  import opened Telegram

  /** `t in s` for strings. */
  predicate Contains(s: string, t: string) {
    exists i: nat | i <= |s| :: OccursAt(s, t, i)
  }

  predicate OccursAt(s: string, t: string, i: nat) {
    i + |t| <= |s| && s[i..i + |t|] == t
  }

  lemma ContainsAt(s: string, t: string, i: nat)
    requires i + |t| <= |s| && s[i..i + |t|] == t
    ensures Contains(s, t)
  {
    assert OccursAt(s, t, i);
  }

  /** What a string contains, a longer string ending with it contains too. */
  lemma ContainsInSuffix(x: string, y: string, t: string)
    requires Contains(y, t)
    ensures Contains(x + y, t)
  {
    var i: nat :| i <= |y| && OccursAt(y, t, i);
    assert (x + y)[|x| + i..|x| + i + |t|] == y[i..i + |t|];
    ContainsAt(x + y, t, |x| + i);
  }

  /** What a string contains, a longer string starting with it contains too. */
  lemma ContainsBeforeMore(x: string, y: string, t: string)
    requires Contains(x, t)
    ensures Contains(x + y, t)
  {
    var i: nat :| i <= |x| && OccursAt(x, t, i);
    assert (x + y)[i..i + |t|] == x[i..i + |t|];
    ContainsAt(x + y, t, i);
  }

  lemma ContainsPrefix(s: string, t: string)
    requires StartsWith(s, t)
    ensures Contains(s, t)
  {
    ContainsAt(s, t, 0);
  }

  lemma ContainsSuffix(s: string, t: string)
    requires EndsWith(s, t)
    ensures Contains(s, t)
  {
    ContainsAt(s, t, |s| - |t|);
  }

  /** A piece of a concatenation is contained in it. */
  lemma ContainsMiddle(a: string, t: string, b: string)
    ensures Contains(a + t + b, t)
  {
    assert (a + t + b)[|a|..|a| + |t|] == t;
    ContainsAt(a + t + b, t, |a|);
  }

  // ---------------------------------------------------------------------------
  // _get_message_type

  /** `_get_message_type`: a photo, else a document, else text, else anything else. */
  function MessageType(m: Message): (r: string)
    ensures r == "Foto" <==> m.photo != []
    ensures r == "Archivo" <==> m.photo == [] && m.document.Some?
    ensures r == "Texto" <==> m.photo == [] && m.document.None? && Present(m.text)
    ensures r == "Otro" <==> m.photo == [] && m.document.None? && !Present(m.text)
  {
    if m.photo != [] then "Foto"
    else if m.document.Some? then "Archivo"
    else if Present(m.text) then "Texto"
    else "Otro"
  }

  // ---------------------------------------------------------------------------
  // _get_file_url

  /** `_get_file_url`: the largest (last) photo size, else the document, else nothing. */
  function FileUrl(m: Message): (r: Option<string>)
    ensures r.None? <==> m.photo == [] && m.document.None?
    ensures m.photo != [] ==> r == Some(m.photo[|m.photo| - 1].fileId)
    ensures m.photo == [] && m.document.Some? ==> r == Some(m.document.value.fileId)
  {
    if m.photo != [] then Some(m.photo[|m.photo| - 1].fileId)
    else if m.document.Some? then Some(m.document.value.fileId)
    else None
  }

  /** A message has a file reference exactly when its type is a photo or a file. */
  lemma FileUrlMatchesType(m: Message)
    ensures FileUrl(m).Some? <==> MessageType(m) == "Foto" || MessageType(m) == "Archivo"
  {
  }

  // ---------------------------------------------------------------------------
  // _get_title

  /** `s[:50]`, followed by "..." when `s` is longer than 50 characters. */
  function Truncated(s: string): (r: string)
    ensures |s| <= 50 ==> r == s
    ensures |s| > 50 ==> |r| == 53 && r[..50] == s[..50] && r[50..] == "..."
  {
    Prefix(s, 50) + (if |s| > 50 then "..." else "")
  }

  /** The truncated form is never longer than 53 characters and begins like `s`. */
  lemma TruncatedBounds(s: string)
    ensures |Truncated(s)| <= 53
    ensures StartsWith(s, Truncated(s)) || StartsWith(Truncated(s), s[..50])
  {
  }

  /**
   * `_get_title`: the truncated text when there is non-empty text, else the
   * truncated caption, else "<type> - <timestamp>".
   */
  function Title(m: Message, timestamp: string): (r: string)
    ensures Present(m.text) ==> r == Truncated(m.text.value)
    ensures !Present(m.text) && Present(m.caption) ==> r == Truncated(m.caption.value)
    ensures !Present(m.text) && !Present(m.caption) ==> r == MessageType(m) + " - " + timestamp
  {
    if Present(m.text) then Truncated(m.text.value)
    else if Present(m.caption) then Truncated(m.caption.value)
    else MessageType(m) + " - " + timestamp
  }

  /** A title drawn from the text or the caption is at most 53 characters long. */
  lemma TitleFromContentIsShort(m: Message, timestamp: string)
    requires Present(m.text) || Present(m.caption)
    ensures |Title(m, timestamp)| <= 53
  {
    if Present(m.text) {
      TruncatedBounds(m.text.value);
    } else {
      TruncatedBounds(m.caption.value);
    }
  }

  /** Text longer than 50 characters yields its first 50 characters and "...". */
  lemma LongTextTitle(m: Message, timestamp: string)
    requires Present(m.text) && |m.text.value| > 50
    ensures |Title(m, timestamp)| == 53
    ensures Title(m, timestamp) == m.text.value[..50] + "..."
    ensures Contains(Title(m, timestamp), "...")
  {
    var r := Title(m, timestamp);
    assert r == r[..50] + r[50..];
    ContainsSuffix(r, "...");
  }

  /** The title ignores the caption whenever there is text. */
  lemma TitlePrefersText(m: Message, caption: Option<string>, timestamp: string)
    requires Present(m.text)
    ensures Title(m.(caption := caption), timestamp) == Title(m, timestamp)
  {
  }

  /** The default title depends on the clock: two readings give two titles. */
  lemma DefaultTitleShowsTimestamp(m: Message, t1: string, t2: string)
    requires !Present(m.text) && !Present(m.caption)
    requires t1 != t2
    ensures Title(m, t1) != Title(m, t2)
  {
    var n := |MessageType(m) + " - "|;
    assert Title(m, t1)[n..] == t1;
    assert Title(m, t2)[n..] == t2;
  }

  const ShortText := "Mensaje corto"
  const LongText := "Este es un mensaje muy largo que debería ser truncado en algún punto para no exceder los 50 caracteres"

  /** A short text is its own title. */
  lemma ShortTitleExample(m: Message, timestamp: string)
    requires m.text == Some(ShortText)
    ensures Title(m, timestamp) == "Mensaje corto"
  {
  }

  /** A long text gives a title of at most 53 characters containing "...". */
  lemma LongTitleExample(m: Message, timestamp: string)
    requires m.text == Some(LongText)
    ensures |Title(m, timestamp)| <= 53 && Contains(Title(m, timestamp), "...")
  {
    assert |LongText| > 50;
    LongTextTitle(m, timestamp);
  }

  // ---------------------------------------------------------------------------
  // _get_additional_text

  /** The text of the message, else its caption, else "". */
  function BodyText(m: Message): (r: string)
    ensures Present(m.text) ==> r == m.text.value
    ensures !Present(m.text) ==> r == OrEmpty(m.caption)
  {
    if Present(m.text) then m.text.value
    else if Present(m.caption) then m.caption.value
    else ""
  }

  /** `file_name or 'Sin nombre'`. */
  function FileNameOrDefault(d: Document): (r: string)
    ensures r != ""
    ensures Present(d.fileName) ==> r == d.fileName.value
    ensures !Present(d.fileName) ==> r == "Sin nombre"
  {
    if Present(d.fileName) then d.fileName.value else "Sin nombre"
  }

  /** `str(file_size or 'Desconocido')`: a missing or zero size is unknown. */
  function FileSizeOrDefault(d: Document): (r: string)
    ensures r != ""
    ensures d.fileSize.Some? && d.fileSize.value != 0 ==> ParseInt(r) == Some(d.fileSize.value)
    ensures !(d.fileSize.Some? && d.fileSize.value != 0) ==> r == "Desconocido"
  {
    if d.fileSize.Some? && d.fileSize.value != 0 then
      IntToDecimalRoundTrip(d.fileSize.value);
      IntToDecimal(d.fileSize.value)
    else "Desconocido"
  }

  /** The lines describing a document. */
  function DocumentInfo(d: Document): string {
    "\nArchivo: " + FileNameOrDefault(d) + "\nTamaño: " + FileSizeOrDefault(d) + " bytes"
  }

  /** What follows the body: the document lines, else the photo line, else nothing. */
  function MediaInfo(m: Message): string {
    if m.document.Some? then DocumentInfo(m.document.value)
    else if m.photo != [] then "\nTipo: Imagen"
    else ""
  }

  /** The additional text of a message: its body followed by its media lines. */
  function AdditionalText(m: Message): (r: string)
    ensures r == BodyText(m) + MediaInfo(m)
    ensures StartsWith(r, BodyText(m))
    ensures EndsWith(r, MediaInfo(m))
  {
    var r := BodyText(m) + MediaInfo(m);
    assert r[..|BodyText(m)|] == BodyText(m);
    assert r[|r| - |MediaInfo(m)|..] == MediaInfo(m);
    r
  }

  /** `_get_additional_text`, which builds the text with `+=`. */
  method GetAdditionalText(m: Message) returns (additionalText: string)
    ensures additionalText == AdditionalText(m)
  {
    additionalText := "";
    if Present(m.text) {
      additionalText := m.text.value;
    } else if Present(m.caption) {
      additionalText := m.caption.value;
    }
    if m.document.Some? {
      var fileInfo := "\nArchivo: " + FileNameOrDefault(m.document.value);
      fileInfo := fileInfo + "\nTamaño: " + FileSizeOrDefault(m.document.value) + " bytes";
      additionalText := additionalText + fileInfo;
    } else if m.photo != [] {
      additionalText := additionalText + "\nTipo: Imagen";
    }
  }

  /** A message with neither a document nor a photo contributes only its body. */
  lemma PlainMessageText(m: Message)
    requires m.document.None? && m.photo == []
    ensures AdditionalText(m) == BodyText(m)
  {
  }

  /** A document's additional text contains the body, the file name and the size. */
  lemma DocumentTextMentionsFile(m: Message)
    requires m.document.Some?
    ensures Contains(AdditionalText(m), BodyText(m))
    ensures Contains(AdditionalText(m), FileNameOrDefault(m.document.value))
    ensures Contains(AdditionalText(m), FileSizeOrDefault(m.document.value))
  {
    var d := m.document.value;
    var body := BodyText(m);
    var name := FileNameOrDefault(d);
    var size := FileSizeOrDefault(d);
    assert AdditionalText(m) == body + DocumentInfo(d);
    ContainsPrefix(AdditionalText(m), body);
    DocumentInfoMentions(d);
    ContainsInSuffix(body, DocumentInfo(d), name);
    ContainsInSuffix(body, DocumentInfo(d), size);
  }

  lemma DocumentInfoMentions(d: Document)
    ensures Contains(DocumentInfo(d), FileNameOrDefault(d))
    ensures Contains(DocumentInfo(d), FileSizeOrDefault(d))
  {
    var name := FileNameOrDefault(d);
    var size := FileSizeOrDefault(d);
    var head := "\nArchivo: " + name;
    assert EndsWith(head, name);
    ContainsSuffix(head, name);
    ContainsBeforeMore(head, "\nTamaño: ", name);
    ContainsBeforeMore(head + "\nTamaño: ", size, name);
    ContainsBeforeMore(head + "\nTamaño: " + size, " bytes", name);
    ContainsMiddle(head + "\nTamaño: ", size, " bytes");
  }

  /** A photo without a document is marked as an image. */
  lemma PhotoTextMarksImage(m: Message)
    requires m.document.None? && m.photo != []
    ensures AdditionalText(m) == BodyText(m) + "\nTipo: Imagen"
    ensures Contains(AdditionalText(m), "\nTipo: Imagen")
  {
    ContainsSuffix(AdditionalText(m), "\nTipo: Imagen");
  }

  /** Plain text is stored as it is. */
  lemma TextOnlyExample(m: Message)
    requires m.text == Some("Texto de prueba") && m.document.None? && m.photo == []
    ensures AdditionalText(m) == "Texto de prueba"
  {
  }

  lemma DecimalOf1024()
    ensures IntToDecimal(1024) == "1024"
  {
    assert NatToDecimal(10) == "10";
    assert NatToDecimal(102) == "102";
    assert NatToDecimal(1024) == "1024";
  }

  /** A captioned document of 1024 bytes named "documento.pdf". */
  lemma CaptionedDocumentExample(m: Message)
    requires m.text.None? && m.caption == Some("Caption del documento")
    requires m.document.Some? && m.document.value.fileName == Some("documento.pdf")
    requires m.document.value.fileSize == Some(1024)
    ensures Contains(AdditionalText(m), "Caption del documento")
    ensures Contains(AdditionalText(m), "documento.pdf")
    ensures Contains(AdditionalText(m), "1024")
  {
    DecimalOf1024();
    DocumentTextMentionsFile(m);
  }
}
