/**
 * The text bot_main.py assembles for a Notion record, with the Notion call
 * itself left out: `_get_user_name`, the record title, and the
 * `additional_info` lines of `_create_notion_record`, which describe the
 * message's text, its forwarding provenance and the stored file.
 */
module NotionRecord {
  import opened PyText
  import opened Telegram
  import opened ForwardResolver

  // ---------------------------------------------------------------------------
  // _get_user_name

  /**
   * The name bot_main.py shows for a message's sender: the truthy first and last
   * names joined by a space, else "@handle", else "Usuario <id>"; without a
   * sender, "Usuario desconocido".
   */
  function DisplayName(m: Message): (r: string)
    ensures r != ""
  {
    if m.fromUser.None? then "Usuario desconocido"
    else
      var u := m.fromUser.value;
      if Present(u.firstName) && Present(u.lastName) then u.firstName.value + " " + u.lastName.value
      else if Present(u.firstName) then u.firstName.value
      else if Present(u.lastName) then u.lastName.value
      else if Present(u.username) then "@" + u.username.value
      else "Usuario " + IntToDecimal(u.id)
  }

  /** `_get_user_name`: collects the truthy name parts in a list, then joins them. */
  method GetUserName(m: Message) returns (name: string)
    ensures name == DisplayName(m)
  {
    if m.fromUser.None? {
      return "Usuario desconocido";
    }
    var u := m.fromUser.value;
    var parts: seq<string> := [];
    if Present(u.firstName) {
      parts := parts + [u.firstName.value];
    }
    if Present(u.lastName) {
      parts := parts + [u.lastName.value];
    }
    if parts != [] {
      if Present(u.firstName) && Present(u.lastName) {
        assert parts == [u.firstName.value, u.lastName.value];
        JoinPair(" ", u.firstName.value, u.lastName.value);
      } else {
        assert parts == [if Present(u.firstName) then u.firstName.value else u.lastName.value];
      }
      name := Join(" ", parts);
    } else if Present(u.username) {
      name := "@" + u.username.value;
    } else {
      name := "Usuario " + IntToDecimal(u.id);
    }
  }

  lemma JoinPair(sep: string, a: string, b: string)
    ensures Join(sep, [a, b]) == a + sep + b
  {
    assert [a, b][1..] == [b];
  }

  /**
   * When the sender has a name and neither half carries surrounding whitespace,
   * the display name is the name-join rule used everywhere else.
   */
  lemma DisplayNameIsFullName(m: Message)
    requires m.fromUser.Some?
    requires Present(m.fromUser.value.firstName) || Present(m.fromUser.value.lastName)
    requires Stripped(OrEmpty(m.fromUser.value.firstName)) && Stripped(OrEmpty(m.fromUser.value.lastName))
    ensures DisplayName(m) == FullName(m.fromUser.value)
  {
    var u := m.fromUser.value;
    if Present(u.firstName) && Present(u.lastName) {
      FullNameBoth(u);
    } else if Present(u.firstName) {
      FullNameFirstOnly(u);
    } else {
      FullNameLastOnly(u);
    }
  }

  /** The record title: "Apuesta <sender> - <time>", with the formatted clock reading as a parameter. */
  function RecordTitle(m: Message, now: string): (r: string)
    ensures r == "Apuesta " + DisplayName(m) + " - " + now
    ensures r[|"Apuesta "|..|r| - |" - " + now|] == DisplayName(m)
  {
    var r := "Apuesta " + DisplayName(m) + " - " + now;
    assert r[|"Apuesta "|..|r| - |" - " + now|] == DisplayName(m);
    r
  }

  /** Records titled at the same time share a title exactly when their senders share a display name. */
  lemma RecordTitleNamesSender(m1: Message, m2: Message, now: string)
    ensures RecordTitle(m1, now) == RecordTitle(m2, now) <==> DisplayName(m1) == DisplayName(m2)
  {
    var r1 := RecordTitle(m1, now);
    var r2 := RecordTitle(m2, now);
    if r1 == r2 {
      assert DisplayName(m1) == r1[|"Apuesta "|..|r1| - |" - " + now|];
    }
  }

  // ---------------------------------------------------------------------------
  // The additional_info lines

  /** `message.text or message.caption or ""`. */
  function TextContent(m: Message): string {
    if Present(m.text) then m.text.value else if Present(m.caption) then m.caption.value else ""
  }

  /** The "Texto:" line, kept only when the text is not blank, cut to 300 characters. */
  function TextLines(m: Message): seq<string> {
    var t := TextContent(m);
    if Strip(t) != "" then ["Texto: " + Prefix(t, 300)] else []
  }

  /** The lines describing the origin: a visible user, a hidden name, or a channel. */
  function OriginLines(oi: OriginInfo): seq<string> {
    if Truthy(Get(oi, SenderUserId)) then
      ["👤 Origen: ID " + Render(Get(oi, SenderUserId))]
      + (if Truthy(Get(oi, SenderUsername)) then ["   @" + Render(Get(oi, SenderUsername))] else [])
      + (if Truthy(Get(oi, SenderName)) then ["   " + Render(Get(oi, SenderName))] else [])
    else if Truthy(Get(oi, SenderName)) then
      ["👤 Usuario privado: " + Render(Get(oi, SenderName))]
    else if Truthy(Get(oi, ChatId)) then
      ["📢 Canal/Grupo: ID " + Render(Get(oi, ChatId))]
      + (if Truthy(Get(oi, ChatUsername)) then ["   @" + Render(Get(oi, ChatUsername))]
         else if Truthy(Get(oi, ChatTitle)) then ["   " + Render(Get(oi, ChatTitle))]
         else [])
    else []
  }

  /** The original date, as its first ten characters, when it has at least ten. */
  function DateLines(oi: OriginInfo): seq<string> {
    var d := Render(Get(oi, OriginDate));
    if Truthy(Get(oi, OriginDate)) && |d| >= 10 then ["📅 Fecha original: " + d[..10]] else []
  }

  function IdLines(uniqueId: Option<string>): seq<string> {
    if Present(uniqueId) then ["🆔 ID único: " + uniqueId.value] else []
  }

  /** Who forwarded the message: its sender, when it has one. */
  function ForwarderLines(m: Message): seq<string> {
    if m.fromUser.Some? then
      ["📤 Reenviado por: " + FullName(m.fromUser.value) + " (ID: " + IntToDecimal(m.fromUser.value.id) + ")"]
    else []
  }

  /** `forward_info.get("is_forwarded", False)`, where a missing `message_data` gives an empty `forward_info`. */
  predicate RecordForwarded(data: Option<ForwardInfo>) {
    data.Some? && data.value.isForwarded
  }

  /** The lines describing a forward: marker, origin, original date, identifier and forwarder. */
  function ForwardBlock(m: Message, fi: ForwardInfo): seq<string> {
    ["🔄 MENSAJE REENVIADO"] + OriginLines(fi.originInfo) + DateLines(fi.originInfo)
    + IdLines(fi.uniqueIdentifier) + ForwarderLines(m)
  }

  /**
   * The `additional_info` list for a message, the file name it was stored under,
   * and the `forwarding` part of its `message_data` (absent when there is none).
   */
  function AdditionalInfoLines(m: Message, filename: string, data: Option<ForwardInfo>): seq<string> {
    TextLines(m)
    + (if RecordForwarded(data) then
         ForwardBlock(m, data.value)
       else ["📤 Usuario: " + DisplayName(m)])
    + ["📁 Archivo: " + filename]
  }

  /** Appends the lines describing the origin, as the `if`/`elif` chain on `origin_info` does. */
  method AppendOriginLines(lines: seq<string>, origin: OriginInfo) returns (result: seq<string>)
    ensures result == lines + OriginLines(origin)
  {
    result := lines;
    if Truthy(Get(origin, SenderUserId)) {
      result := result + ["👤 Origen: ID " + Render(Get(origin, SenderUserId))];
      if Truthy(Get(origin, SenderUsername)) {
        result := result + ["   @" + Render(Get(origin, SenderUsername))];
      }
      if Truthy(Get(origin, SenderName)) {
        result := result + ["   " + Render(Get(origin, SenderName))];
      }
    } else if Truthy(Get(origin, SenderName)) {
      result := result + ["👤 Usuario privado: " + Render(Get(origin, SenderName))];
    } else if Truthy(Get(origin, ChatId)) {
      result := result + ["📢 Canal/Grupo: ID " + Render(Get(origin, ChatId))];
      if Truthy(Get(origin, ChatUsername)) {
        result := result + ["   @" + Render(Get(origin, ChatUsername))];
      } else if Truthy(Get(origin, ChatTitle)) {
        result := result + ["   " + Render(Get(origin, ChatTitle))];
      }
    }
  }

  /** Appending two blocks one after the other appends their concatenation. */
  lemma AppendAssoc(a: seq<string>, b: seq<string>, c: seq<string>)
    ensures a + b + c == a + (b + c)
  {
  }

  /** Appends the original date, cut to ten characters, when it is set and has at least ten. */
  method AppendDateLines(lines: seq<string>, origin: OriginInfo) returns (result: seq<string>)
    ensures result == lines + DateLines(origin)
  {
    result := lines;
    if Truthy(Get(origin, OriginDate)) {
      var originDate := Render(Get(origin, OriginDate));
      if |originDate| >= 10 {
        result := result + ["📅 Fecha original: " + originDate[..10]];
      }
    }
  }

  /** Appends the identifier line when the identifier is set. */
  method AppendIdLines(lines: seq<string>, uniqueId: Option<string>) returns (result: seq<string>)
    ensures result == lines + IdLines(uniqueId)
  {
    result := lines;
    if Present(uniqueId) {
      result := result + ["🆔 ID único: " + uniqueId.value];
    }
  }

  /** Appends the line naming who forwarded the message, when it has a sender. */
  method AppendForwarderLines(lines: seq<string>, m: Message) returns (result: seq<string>)
    ensures result == lines + ForwarderLines(m)
  {
    result := lines;
    if m.fromUser.Some? {
      var sender := m.fromUser.value;
      result := result + ["📤 Reenviado por: " + FullName(sender) + " (ID: " + IntToDecimal(sender.id) + ")"];
    }
  }

  /** Appends the forwarding block: marker, origin, date, identifier and forwarder lines. */
  method AppendForwardLines(lines: seq<string>, m: Message, fi: ForwardInfo) returns (result: seq<string>)
    ensures result == lines + ForwardBlock(m, fi)
  {
    var origin := fi.originInfo;
    ghost var block := ["🔄 MENSAJE REENVIADO"];
    result := lines + ["🔄 MENSAJE REENVIADO"];
    result := AppendOriginLines(result, origin);
    AppendAssoc(lines, block, OriginLines(origin));
    block := block + OriginLines(origin);
    result := AppendDateLines(result, origin);
    AppendAssoc(lines, block, DateLines(origin));
    block := block + DateLines(origin);
    result := AppendIdLines(result, fi.uniqueIdentifier);
    AppendAssoc(lines, block, IdLines(fi.uniqueIdentifier));
    block := block + IdLines(fi.uniqueIdentifier);
    result := AppendForwarderLines(result, m);
    AppendAssoc(lines, block, ForwarderLines(m));
    block := block + ForwarderLines(m);
    assert block == ForwardBlock(m, fi);
  }

  /** The "Texto:" line, present when the text (else the caption) is not blank. */
  method CollectTextLines(m: Message) returns (lines: seq<string>)
    ensures lines == TextLines(m)
  {
    var textContent := TextContent(m);
    lines := [];
    if Strip(textContent) != "" {
      lines := lines + ["Texto: " + Prefix(textContent, 300)];
    }
  }

  /**
   * The assembly in `_create_notion_record`: appends line by line, then joins
   * the list with "\n" into the text stored in the record.
   */
  method AssembleAdditionalInfo(m: Message, filename: string, data: Option<ForwardInfo>)
    returns (additionalInfo: seq<string>, marketInfo: string)
    ensures additionalInfo == AdditionalInfoLines(m, filename, data)
    ensures marketInfo == Join("\n", additionalInfo)
  {
    var userName := GetUserName(m);
    additionalInfo := CollectTextLines(m);
    ghost var middle := if RecordForwarded(data) then ForwardBlock(m, data.value) else ["📤 Usuario: " + DisplayName(m)];
    if RecordForwarded(data) {
      additionalInfo := AppendForwardLines(additionalInfo, m, data.value);
    } else {
      additionalInfo := additionalInfo + ["📤 Usuario: " + userName];
    }
    assert additionalInfo == TextLines(m) + middle;
    additionalInfo := additionalInfo + ["📁 Archivo: " + filename];
    marketInfo := Join("\n", additionalInfo);
  }

  // ---------------------------------------------------------------------------
  // Properties of the additional_info lines

  /** The file line always closes the list, after at least one other line. */
  lemma FileLineLast(m: Message, filename: string, data: Option<ForwardInfo>)
    ensures var lines := AdditionalInfoLines(m, filename, data);
            |lines| >= 2 && lines[|lines| - 1] == "📁 Archivo: " + filename
  {
  }

  /**
   * The list opens with a "Texto:" line exactly when the text (or caption) is not
   * blank, and that line carries at most 300 characters of it.
   */
  lemma TextLineWhenNotBlank(m: Message, filename: string, data: Option<ForwardInfo>)
    ensures var lines := AdditionalInfoLines(m, filename, data);
            StartsWith(lines[0], "Texto: ") <==> Strip(TextContent(m)) != ""
    ensures var lines := AdditionalInfoLines(m, filename, data);
            Strip(TextContent(m)) != "" ==> |lines[0]| <= |"Texto: "| + 300 && StartsWith(TextContent(m), lines[0][7..])
  {
    var lines := AdditionalInfoLines(m, filename, data);
    var t := TextContent(m);
    if Strip(t) != "" {
      assert lines[0] == "Texto: " + Prefix(t, 300);
      assert lines[0][7..] == Prefix(t, 300);
    } else if RecordForwarded(data) {
      assert lines[0] == "🔄 MENSAJE REENVIADO";
      assert lines[0][0] != "Texto: "[0];
    } else {
      assert lines[0] == "📤 Usuario: " + DisplayName(m);
      assert lines[0][0] != "Texto: "[0];
    }
  }

  /**
   * A forwarded message gets the "🔄 MENSAJE REENVIADO" marker right after the
   * optional text line, and the identifier line exactly when it has an identifier;
   * any other message gets the "📤 Usuario:" line just before the file line.
   */
  lemma ForwardingLines(m: Message, filename: string, data: Option<ForwardInfo>)
    ensures var lines := AdditionalInfoLines(m, filename, data);
            RecordForwarded(data) ==> lines[|TextLines(m)|] == "🔄 MENSAJE REENVIADO"
    ensures var lines := AdditionalInfoLines(m, filename, data);
            RecordForwarded(data) && Present(data.value.uniqueIdentifier) ==>
              "🆔 ID único: " + data.value.uniqueIdentifier.value in lines
    ensures var lines := AdditionalInfoLines(m, filename, data);
            !RecordForwarded(data) ==> |lines| >= 2 && lines[|lines| - 2] == "📤 Usuario: " + DisplayName(m)
  {
    var lines := AdditionalInfoLines(m, filename, data);
    if RecordForwarded(data) {
      var fi := data.value;
      var fwd := ["🔄 MENSAJE REENVIADO"] + OriginLines(fi.originInfo) + DateLines(fi.originInfo)
                 + IdLines(fi.uniqueIdentifier) + ForwarderLines(m);
      assert lines == TextLines(m) + fwd + ["📁 Archivo: " + filename];
      assert lines[|TextLines(m)|] == fwd[0];
      if Present(fi.uniqueIdentifier) {
        var before := ["🔄 MENSAJE REENVIADO"] + OriginLines(fi.originInfo) + DateLines(fi.originInfo);
        var idLine := "🆔 ID único: " + fi.uniqueIdentifier.value;
        assert fwd == before + [idLine] + ForwarderLines(m);
        assert lines[|TextLines(m)| + |before|] == idLine;
      }
    }
  }

  /** A line that does not open with the identifier line's "🆔". */
  predicate NotIdLine(line: string) {
    line == [] || line[0] != '🆔'
  }

  predicate NoIdLine(lines: seq<string>) {
    forall i | 0 <= i < |lines| :: NotIdLine(lines[i])
  }

  lemma NoIdLineConcat(a: seq<string>, b: seq<string>)
    requires NoIdLine(a) && NoIdLine(b)
    ensures NoIdLine(a + b)
  {
    forall i | 0 <= i < |a + b| ensures NotIdLine((a + b)[i]) {
      if i >= |a| {
        assert (a + b)[i] == b[i - |a|];
      }
    }
  }

  /** A single line made of a fixed head not opening with "🆔" and any tail. */
  lemma HeadedLineNoId(head: string, tail: string)
    requires head != [] && head[0] != '🆔'
    ensures NoIdLine([head + tail])
  {
    assert (head + tail)[0] == head[0];
  }

  lemma OriginLinesNoId(oi: OriginInfo)
    ensures NoIdLine(OriginLines(oi))
  {
    var lines := OriginLines(oi);
    forall i | 0 <= i < |lines| ensures NotIdLine(lines[i]) {
      assert lines[i][0] in {'👤', ' ', '📢'};
    }
  }

  lemma TextLinesNoId(m: Message)
    ensures NoIdLine(TextLines(m))
  {
    if TextLines(m) != [] {
      HeadedLineNoId("Texto: ", Prefix(TextContent(m), 300));
    }
  }

  lemma DateLinesNoId(oi: OriginInfo)
    ensures NoIdLine(DateLines(oi))
  {
    if DateLines(oi) != [] {
      HeadedLineNoId("📅 Fecha original: ", Render(Get(oi, OriginDate))[..10]);
    }
  }

  lemma ForwarderLinesNoId(m: Message)
    ensures NoIdLine(ForwarderLines(m))
  {
    if m.fromUser.Some? {
      var u := m.fromUser.value;
      var h1 := "📤 Reenviado por: " + FullName(u);
      var h2 := h1 + " (ID: ";
      var h3 := h2 + IntToDecimal(u.id);
      assert h1[0] == '📤';
      assert h2[0] == h1[0];
      assert h3[0] == h2[0];
      HeadedLineNoId(h3, ")");
    }
  }

  /** Every block of the list but the identifier block is free of lines opening with "🆔". */
  lemma BlocksNoId(m: Message, filename: string, oi: OriginInfo)
    ensures NoIdLine(TextLines(m)) && NoIdLine(DateLines(oi)) && NoIdLine(ForwarderLines(m))
    ensures NoIdLine(["🔄 MENSAJE REENVIADO"]) && NoIdLine(["📤 Usuario: " + DisplayName(m)])
    ensures NoIdLine(["📁 Archivo: " + filename])
  {
    TextLinesNoId(m);
    DateLinesNoId(oi);
    ForwarderLinesNoId(m);
    assert "🔄 MENSAJE REENVIADO"[0] == '🔄';
    HeadedLineNoId("📤 Usuario: ", DisplayName(m));
    HeadedLineNoId("📁 Archivo: ", filename);
  }

  /** No line but the identifier line starts with "🆔", so it appears only for a forward with an identifier. */
  lemma IdLineOnlyWithIdentifier(m: Message, filename: string, data: Option<ForwardInfo>)
    ensures var lines := AdditionalInfoLines(m, filename, data);
            (exists i | 0 <= i < |lines| :: StartsWith(lines[i], "🆔 ID único: "))
              ==> RecordForwarded(data) && Present(data.value.uniqueIdentifier)
  {
    var lines := AdditionalInfoLines(m, filename, data);
    if !(RecordForwarded(data) && Present(data.value.uniqueIdentifier)) {
      var oi := if data.Some? then data.value.originInfo else EmptyOrigin;
      BlocksNoId(m, filename, oi);
      var middle: seq<string>;
      if RecordForwarded(data) {
        OriginLinesNoId(oi);
        NoIdLineConcat(["🔄 MENSAJE REENVIADO"], OriginLines(oi));
        NoIdLineConcat(["🔄 MENSAJE REENVIADO"] + OriginLines(oi), DateLines(oi));
        assert IdLines(data.value.uniqueIdentifier) == [];
        middle := ["🔄 MENSAJE REENVIADO"] + OriginLines(oi) + DateLines(oi) + IdLines(data.value.uniqueIdentifier);
        assert middle == ["🔄 MENSAJE REENVIADO"] + OriginLines(oi) + DateLines(oi);
        NoIdLineConcat(middle, ForwarderLines(m));
        middle := middle + ForwarderLines(m);
      } else {
        middle := ["📤 Usuario: " + DisplayName(m)];
      }
      NoIdLineConcat(TextLines(m), middle);
      NoIdLineConcat(TextLines(m) + middle, ["📁 Archivo: " + filename]);
      assert lines == TextLines(m) + middle + ["📁 Archivo: " + filename];
      forall i | 0 <= i < |lines| ensures !StartsWith(lines[i], "🆔 ID único: ") {
        assert NotIdLine(lines[i]);
      }
    }
  }
}
