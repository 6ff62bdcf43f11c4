/**
 * The two renderers of a resolved `forward_info` in the shared variant:
 * `_get_tipster_name` (bot_hybrid.py, bot_notion.py), which names the tipster a
 * forwarded message is attributed to, and `_format_forward_response`
 * (bot_hybrid.py, bot_notion.py, bot_test.py), the provenance line appended to
 * the bot's reply. Both are first-match chains:
 * the modern `origin_info` fields first, then the legacy blocks.
 */
module Attribution {
  import opened PyText
  import opened Telegram
  import opened ForwardResolver

  // ---------------------------------------------------------------------------
  // _get_tipster_name

  /** `_get_tipster_name`. */
  function TipsterName(fi: ForwardInfo): (r: string)
    ensures r != ""
    ensures !fi.isForwarded ==> r == "Usuario directo"
  {
    var oi := fi.originInfo;
    if !fi.isForwarded then "Usuario directo"
    else if Truthy(Get(oi, ChatTitle)) then Render(Get(oi, ChatTitle))
    else if Truthy(Get(oi, SenderUsername)) then "@" + Render(Get(oi, SenderUsername))
    else if Truthy(Get(oi, SenderName)) then Render(Get(oi, SenderName))
    else if fi.legacyChat.Some? && Present(fi.legacyChat.value.title) then fi.legacyChat.value.title.value
    else if fi.legacySender.Some? && Present(fi.legacySender.value.username) then "@" + fi.legacySender.value.username.value
    else if fi.legacySender.Some? && fi.legacySender.value.fullName != "" then fi.legacySender.value.fullName
    else if fi.legacySenderName.Some? && fi.legacySenderName.value != "" then fi.legacySenderName.value
    else "Tipster desconocido"
  }

  /** A candidate name when the value is truthy, else the empty string (meaning "skip"). */
  function NameIf(v: Value, prefix: string): string {
    if Truthy(v) then prefix + Render(v) else ""
  }

  function OptNameIf(o: Option<string>, prefix: string): string {
    if Present(o) then prefix + o.value else ""
  }

  /** The modern candidates, in priority order: chat title, "@" + sender handle, sender name. */
  function ModernCandidates(oi: OriginInfo): seq<string> {
    [NameIf(Get(oi, ChatTitle), ""), NameIf(Get(oi, SenderUsername), "@"), NameIf(Get(oi, SenderName), "")]
  }

  /** The legacy candidates, in priority order: chat title, "@" + handle, full name, hidden name. */
  function LegacyCandidates(fi: ForwardInfo): seq<string> {
    [ if fi.legacyChat.Some? then OptNameIf(fi.legacyChat.value.title, "") else "",
      if fi.legacySender.Some? then OptNameIf(fi.legacySender.value.username, "@") else "",
      if fi.legacySender.Some? then fi.legacySender.value.fullName else "",
      OrEmpty(fi.legacySenderName) ]
  }

  /** The first non-empty string of a list, or `default` when there is none. */
  function FirstNonEmpty(candidates: seq<string>, default: string): (r: string)
    ensures r in candidates || r == default
    ensures r != default ==> r != ""
    ensures (forall i | 0 <= i < |candidates| :: candidates[i] == "") ==> r == default
    ensures (exists i | 0 <= i < |candidates| :: candidates[i] != "") ==>
              exists i :: FirstAt(candidates, i) && r == candidates[i]
    decreases |candidates|
  {
    if candidates == [] then default
    else if candidates[0] != "" then
      assert FirstAt(candidates, 0);
      candidates[0]
    else
      var r := FirstNonEmpty(candidates[1..], default);
      FirstAtShift(candidates, r);
      r
  }

  /** `candidates[i]` is non-empty and every candidate before it is empty. */
  predicate FirstAt(candidates: seq<string>, i: int) {
    0 <= i < |candidates| && candidates[i] != "" && forall j | 0 <= j < i :: candidates[j] == ""
  }

  /** Skipping an empty head moves the first non-empty candidate one place on. */
  lemma FirstAtShift(candidates: seq<string>, r: string)
    requires candidates != [] && candidates[0] == ""
    requires (exists i | 0 <= i < |candidates[1..]| :: candidates[1..][i] != "") ==>
               exists i :: FirstAt(candidates[1..], i) && r == candidates[1..][i]
    ensures (exists i | 0 <= i < |candidates| :: candidates[i] != "") ==>
              exists i :: FirstAt(candidates, i) && r == candidates[i]
  {
    if exists i | 0 <= i < |candidates| :: candidates[i] != "" {
      var k :| 0 <= k < |candidates| && candidates[k] != "";
      assert candidates[1..][k - 1] != "";
      var i :| FirstAt(candidates[1..], i) && r == candidates[1..][i];
      assert FirstAt(candidates, i + 1);
    }
  }

  /** Searching a concatenation: the first list decides unless it holds only empty strings. */
  lemma {:induction false} FirstNonEmptyAppend(a: seq<string>, b: seq<string>, default: string)
    ensures FirstNonEmpty(a + b, default) ==
              if exists i | 0 <= i < |a| :: a[i] != "" then FirstNonEmpty(a, default) else FirstNonEmpty(b, default)
    decreases |a|
  {
    if a != [] {
      assert (a + b)[1..] == a[1..] + b;
      FirstNonEmptyAppend(a[1..], b, default);
      if a[0] == "" {
        assert (exists i | 0 <= i < |a| :: a[i] != "") <==> (exists i | 0 <= i < |a[1..]| :: a[1..][i] != "") by {
          forall i | 0 <= i < |a| && a[i] != "" ensures 0 <= i - 1 < |a[1..]| && a[1..][i - 1] != "" { }
        }
      }
    } else {
      assert a + b == b;
    }
  }

  /** One step of the search over a literal list. */
  lemma FirstNonEmptyCons(x: string, rest: seq<string>, default: string)
    ensures FirstNonEmpty([x] + rest, default) == if x != "" then x else FirstNonEmpty(rest, default)
  {
    assert ([x] + rest)[1..] == rest;
  }

  /** The legacy half of the chain equals the search over the legacy candidates. */
  lemma LegacyChainIsSearch(fi: ForwardInfo)
    ensures FirstNonEmpty(LegacyCandidates(fi), "Tipster desconocido") ==
      if fi.legacyChat.Some? && Present(fi.legacyChat.value.title) then fi.legacyChat.value.title.value
      else if fi.legacySender.Some? && Present(fi.legacySender.value.username) then "@" + fi.legacySender.value.username.value
      else if fi.legacySender.Some? && fi.legacySender.value.fullName != "" then fi.legacySender.value.fullName
      else if fi.legacySenderName.Some? && fi.legacySenderName.value != "" then fi.legacySenderName.value
      else "Tipster desconocido"
  {
    var l := LegacyCandidates(fi);
    var d := "Tipster desconocido";
    assert l == [l[0]] + ([l[1]] + ([l[2]] + ([l[3]] + [])));
    FirstNonEmptyCons(l[0], [l[1]] + ([l[2]] + ([l[3]] + [])), d);
    FirstNonEmptyCons(l[1], [l[2]] + ([l[3]] + []), d);
    FirstNonEmptyCons(l[2], [l[3]] + [], d);
    FirstNonEmptyCons(l[3], [], d);
  }

  /** A candidate is skipped exactly when its value is falsy. */
  lemma NameIfTruthy(v: Value, prefix: string)
    ensures NameIf(v, prefix) != "" <==> Truthy(v)
    ensures Truthy(v) ==> NameIf(v, prefix) == prefix + Render(v)
  {
  }

  /** The modern half of the chain equals the search over the modern candidates. */
  lemma ModernChainIsSearch(oi: OriginInfo)
    requires exists i | 0 <= i < 3 :: ModernCandidates(oi)[i] != ""
    ensures FirstNonEmpty(ModernCandidates(oi), "Tipster desconocido") ==
      if Truthy(Get(oi, ChatTitle)) then Render(Get(oi, ChatTitle))
      else if Truthy(Get(oi, SenderUsername)) then "@" + Render(Get(oi, SenderUsername))
      else Render(Get(oi, SenderName))
  {
    var m := ModernCandidates(oi);
    var d := "Tipster desconocido";
    NameIfTruthy(Get(oi, ChatTitle), "");
    NameIfTruthy(Get(oi, SenderUsername), "@");
    NameIfTruthy(Get(oi, SenderName), "");
    assert m == [m[0]] + ([m[1]] + ([m[2]] + []));
    FirstNonEmptyCons(m[0], [m[1]] + ([m[2]] + []), d);
    FirstNonEmptyCons(m[1], [m[2]] + [], d);
    FirstNonEmptyCons(m[2], [], d);
  }

  /**
   * A forwarded message is attributed to the first truthy name among the seven
   * candidates, modern before legacy, and to "Tipster desconocido" when none is.
   */
  lemma TipsterIsFirstCandidate(fi: ForwardInfo)
    requires fi.isForwarded
    ensures TipsterName(fi) == FirstNonEmpty(ModernCandidates(fi.originInfo) + LegacyCandidates(fi), "Tipster desconocido")
  {
    var m := ModernCandidates(fi.originInfo);
    FirstNonEmptyAppend(m, LegacyCandidates(fi), "Tipster desconocido");
    LegacyChainIsSearch(fi);
    if exists i | 0 <= i < 3 :: m[i] != "" {
      ModernChainIsSearch(fi.originInfo);
    } else {
      assert m[0] == "" && m[1] == "" && m[2] == "";
    }
  }

  /** When a modern name is truthy, the legacy blocks do not matter. */
  lemma TipsterIgnoresLegacy(fi: ForwardInfo, sender: Option<LegacySender>, chat: Option<LegacyChat>, name: Option<string>)
    requires fi.isForwarded
    requires exists i | 0 <= i < 3 :: ModernCandidates(fi.originInfo)[i] != ""
    ensures TipsterName(fi) == TipsterName(fi.(legacySender := sender, legacyChat := chat, legacySenderName := name))
  {
  }

  /** When no modern name is truthy, the tipster is decided by the legacy blocks alone. */
  lemma TipsterFallsBackToLegacy(fi: ForwardInfo)
    requires fi.isForwarded
    requires forall i | 0 <= i < 3 :: ModernCandidates(fi.originInfo)[i] == ""
    ensures TipsterName(fi) == FirstNonEmpty(LegacyCandidates(fi), "Tipster desconocido")
  {
    TipsterIsFirstCandidate(fi);
    FirstNonEmptyAppend(ModernCandidates(fi.originInfo), LegacyCandidates(fi), "Tipster desconocido");
  }

  /**
   * A forwarded message with no truthy modern name is attributed, read off the
   * message itself, to the legacy chat's title, else "@" + the legacy sender's
   * handle, else that sender's full name, else the hidden sender name.
   */
  lemma LegacyTipsterOfMessage(f: ForwardFields, md5: string -> HexDigest)
    requires IsForwarded(f)
    requires forall i | 0 <= i < 3 :: ModernCandidates(Resolve(f, md5).originInfo)[i] == ""
    ensures TipsterName(Resolve(f, md5)) ==
              if f.forwardFromChat.Some? && Present(f.forwardFromChat.value.title) then f.forwardFromChat.value.title.value
              else if f.forwardFrom.Some? && Present(f.forwardFrom.value.username) then "@" + f.forwardFrom.value.username.value
              else if f.forwardFrom.Some? && FullName(f.forwardFrom.value) != "" then FullName(f.forwardFrom.value)
              else if Present(f.forwardSenderName) then f.forwardSenderName.value
              else "Tipster desconocido"
  {
    var fi := Resolve(f, md5);
    TipsterFallsBackToLegacy(fi);
    LegacyChainIsSearch(fi);
  }

  // ---------------------------------------------------------------------------
  // _format_forward_response

  const Arrow: string := "\n🔄"

  /** The private-name line, followed by the identifier line when `unique_identifier` is truthy. */
  function PrivateResponse(name: string, uniqueId: Option<string>): string {
    "\n🔄 Reenviado de: " + name + " (privado)" + (if Present(uniqueId) then "\n🆔 ID: " + uniqueId.value else "")
  }

  /** `_format_forward_response`. */
  function FormatForwardResponse(fi: ForwardInfo): (r: string)
    ensures r == "" <==> !fi.isForwarded
  {
    var oi := fi.originInfo;
    if !fi.isForwarded then ""
    else if Truthy(Get(oi, SenderUserId)) then
      var userId := Render(Get(oi, SenderUserId));
      if Truthy(Get(oi, SenderUsername)) then
        "\n🔄 Reenviado de: @" + Render(Get(oi, SenderUsername)) + " (ID: " + userId + ")"
      else
        "\n🔄 Reenviado de: " + Render(GetOr(oi, SenderName, Str("Usuario"))) + " (ID: " + userId + ")"
    else if Truthy(Get(oi, SenderName)) then
      PrivateResponse(Render(Get(oi, SenderName)), fi.uniqueIdentifier)
    else if Truthy(Get(oi, ChatId)) then
      var chatId := Render(Get(oi, ChatId));
      if Truthy(Get(oi, ChatUsername)) then
        "\n🔄 Reenviado del canal: @" + Render(Get(oi, ChatUsername)) + " (ID: " + chatId + ")"
      else
        "\n🔄 Reenviado de: " + (if Truthy(Get(oi, ChatTitle)) then Render(Get(oi, ChatTitle)) else "Canal")
        + " (ID: " + chatId + ")"
    else LegacyResponse(fi)
  }

  /** The fallback on the legacy blocks: sender, else chat, else hidden name, else a generic line. */
  function LegacyResponse(fi: ForwardInfo): string {
    if fi.legacySender.Some? then
      var ls := fi.legacySender.value;
      if Present(ls.username) then
        "\n🔄 Reenviado de: @" + ls.username.value + " (ID: " + IntToDecimal(ls.userId) + ")"
      else
        "\n🔄 Reenviado de: " + ls.fullName + " (ID: " + IntToDecimal(ls.userId) + ")"
    else if fi.legacyChat.Some? then
      var lc := fi.legacyChat.value;
      if Present(lc.username) then
        "\n🔄 Reenviado del canal: @" + lc.username.value + " (ID: " + IntToDecimal(lc.chatId) + ")"
      else
        "\n🔄 Reenviado de: " + RenderOpt(lc.title) + " (ID: " + IntToDecimal(lc.chatId) + ")"
    else if fi.legacySenderName.Some? && fi.legacySenderName.value != "" then
      PrivateResponse(fi.legacySenderName.value, fi.uniqueIdentifier)
    else
      "\n🔄 Mensaje reenviado"
  }

  /** Every response to a forwarded message opens with the arrow line. */
  lemma ResponseArrow(fi: ForwardInfo)
    requires fi.isForwarded
    ensures StartsWith(FormatForwardResponse(fi), Arrow)
  {
    var oi := fi.originInfo;
    var r := FormatForwardResponse(fi);
    var lead: string;
    if Truthy(Get(oi, SenderUserId)) {
      if Truthy(Get(oi, SenderUsername)) {
        lead := "\n🔄 Reenviado de: @";
        assert r == lead + Render(Get(oi, SenderUsername)) + " (ID: " + Render(Get(oi, SenderUserId)) + ")";
      } else {
        lead := "\n🔄 Reenviado de: ";
        assert r == lead + Render(GetOr(oi, SenderName, Str("Usuario"))) + " (ID: " + Render(Get(oi, SenderUserId)) + ")";
      }
    } else if Truthy(Get(oi, SenderName)) {
      lead := PrivateResponse(Render(Get(oi, SenderName)), fi.uniqueIdentifier);
      PrivateArrow(Render(Get(oi, SenderName)), fi.uniqueIdentifier);
      assert r == lead;
    } else if Truthy(Get(oi, ChatId)) {
      var chatId := Render(Get(oi, ChatId));
      if Truthy(Get(oi, ChatUsername)) {
        lead := "\n🔄 Reenviado del canal: @";
        assert r == lead + Render(Get(oi, ChatUsername)) + " (ID: " + chatId + ")";
      } else {
        lead := "\n🔄 Reenviado de: ";
        assert r == lead + (if Truthy(Get(oi, ChatTitle)) then Render(Get(oi, ChatTitle)) else "Canal") + " (ID: " + chatId + ")";
      }
    } else {
      lead := LegacyResponse(fi);
      LegacyArrow(fi);
      assert r == lead;
    }
    assert StartsWith(lead, Arrow);
    assert r[..|Arrow|] == lead[..|Arrow|];
  }

  lemma PrivateArrow(name: string, uniqueId: Option<string>)
    ensures StartsWith(PrivateResponse(name, uniqueId), Arrow)
  {
    var r := PrivateResponse(name, uniqueId);
    var lead := "\n🔄 Reenviado de: ";
    assert r == lead + name + " (privado)" + (if Present(uniqueId) then "\n🆔 ID: " + uniqueId.value else "");
    assert r[..|Arrow|] == lead[..|Arrow|];
  }

  lemma LegacyArrow(fi: ForwardInfo)
    ensures StartsWith(LegacyResponse(fi), Arrow)
  {
    var r := LegacyResponse(fi);
    var lead: string;
    if fi.legacySender.Some? {
      var ls := fi.legacySender.value;
      lead := if Present(ls.username) then "\n🔄 Reenviado de: @" + ls.username.value else "\n🔄 Reenviado de: " + ls.fullName;
      assert r == lead + " (ID: " + IntToDecimal(ls.userId) + ")";
    } else if fi.legacyChat.Some? {
      var lc := fi.legacyChat.value;
      lead := if Present(lc.username) then "\n🔄 Reenviado del canal: @" + lc.username.value else "\n🔄 Reenviado de: " + RenderOpt(lc.title);
      assert r == lead + " (ID: " + IntToDecimal(lc.chatId) + ")";
    } else if fi.legacySenderName.Some? && fi.legacySenderName.value != "" {
      PrivateArrow(fi.legacySenderName.value, fi.uniqueIdentifier);
      lead := r;
    } else {
      lead := "\n🔄 Mensaje reenviado";
      assert r == lead;
    }
    assert StartsWith(lead, Arrow);
    assert r[..|Arrow|] == lead[..|Arrow|];
  }

  /** The response comes from one of the two private-name branches (modern hidden sender, legacy name). */
  predicate PrivateBranch(fi: ForwardInfo) {
    var oi := fi.originInfo;
    fi.isForwarded && !Truthy(Get(oi, SenderUserId))
    && (Truthy(Get(oi, SenderName))
        || (!Truthy(Get(oi, ChatId)) && fi.legacySender.None? && fi.legacyChat.None?
            && fi.legacySenderName.Some? && fi.legacySenderName.value != ""))
  }

  /**
   * The "🆔 ID:" line: removing the identifier changes the response only in the
   * two private-name branches, and there exactly by dropping that trailing line.
   */
  lemma IdLineOnlyWhenPrivate(fi: ForwardInfo)
    ensures FormatForwardResponse(fi) ==
              FormatForwardResponse(fi.(uniqueIdentifier := None))
              + (if PrivateBranch(fi) && Present(fi.uniqueIdentifier) then "\n🆔 ID: " + fi.uniqueIdentifier.value else "")
  {
    var oi := fi.originInfo;
    var g := fi.(uniqueIdentifier := None);
    if !fi.isForwarded || Truthy(Get(oi, SenderUserId)) {
      assert FormatForwardResponse(fi) == FormatForwardResponse(g) + "";
    } else if Truthy(Get(oi, SenderName)) {
      PrivateIdLine(Render(Get(oi, SenderName)), fi.uniqueIdentifier);
    } else if Truthy(Get(oi, ChatId)) {
      assert FormatForwardResponse(fi) == FormatForwardResponse(g) + "";
    } else {
      LegacyIdLine(fi);
    }
  }

  /** The private-name line gains the identifier line exactly when the identifier is truthy. */
  lemma PrivateIdLine(name: string, uniqueId: Option<string>)
    ensures PrivateResponse(name, uniqueId) ==
              PrivateResponse(name, None) + (if Present(uniqueId) then "\n🆔 ID: " + uniqueId.value else "")
  {
    var head := "\n🔄 Reenviado de: " + name + " (privado)";
    assert PrivateResponse(name, None) == head + "";
  }

  lemma LegacyIdLine(fi: ForwardInfo)
    ensures LegacyResponse(fi) ==
              LegacyResponse(fi.(uniqueIdentifier := None))
              + (if fi.legacySender.None? && fi.legacyChat.None? && fi.legacySenderName.Some? && fi.legacySenderName.value != ""
                    && Present(fi.uniqueIdentifier)
                 then "\n🆔 ID: " + fi.uniqueIdentifier.value else "")
  {
    var g := fi.(uniqueIdentifier := None);
    if fi.legacySender.None? && fi.legacyChat.None? && fi.legacySenderName.Some? && fi.legacySenderName.value != "" {
      PrivateIdLine(fi.legacySenderName.value, fi.uniqueIdentifier);
    } else {
      assert LegacyResponse(fi) == LegacyResponse(g) + "";
    }
  }

  /**
   * With no truthy modern identity, the legacy blocks are consulted in the order
   * sender, chat, hidden name, and the generic line closes the chain.
   */
  lemma LegacyFallbackOrder(fi: ForwardInfo)
    requires fi.isForwarded
    requires !Truthy(Get(fi.originInfo, SenderUserId)) && !Truthy(Get(fi.originInfo, SenderName))
    requires !Truthy(Get(fi.originInfo, ChatId))
    ensures fi.legacySender.Some? ==> EndsWith(FormatForwardResponse(fi), " (ID: " + IntToDecimal(fi.legacySender.value.userId) + ")")
    ensures fi.legacySender.None? && fi.legacyChat.Some? ==>
              EndsWith(FormatForwardResponse(fi), " (ID: " + IntToDecimal(fi.legacyChat.value.chatId) + ")")
    ensures fi.legacySender.None? && fi.legacyChat.None? && Present(fi.legacySenderName) ==>
              StartsWith(FormatForwardResponse(fi), "\n🔄 Reenviado de: " + fi.legacySenderName.value + " (privado)")
    ensures fi.legacySender.None? && fi.legacyChat.None? && !Present(fi.legacySenderName) ==>
              FormatForwardResponse(fi) == "\n🔄 Mensaje reenviado"
  {
    assert FormatForwardResponse(fi) == LegacyResponse(fi);
    if fi.legacySender.Some? {
      LegacySenderEnding(fi);
    } else if fi.legacyChat.Some? {
      LegacyChatEnding(fi);
    } else if Present(fi.legacySenderName) {
      LegacyNameOpening(fi);
    }
  }

  lemma LegacySenderEnding(fi: ForwardInfo)
    requires fi.legacySender.Some?
    ensures EndsWith(LegacyResponse(fi), " (ID: " + IntToDecimal(fi.legacySender.value.userId) + ")")
  {
    var ls := fi.legacySender.value;
    var tail := " (ID: " + IntToDecimal(ls.userId) + ")";
    var head := if Present(ls.username) then "\n🔄 Reenviado de: @" + ls.username.value else "\n🔄 Reenviado de: " + ls.fullName;
    assert LegacyResponse(fi) == head + tail;
    EndsWithTail(head, tail);
  }

  lemma LegacyChatEnding(fi: ForwardInfo)
    requires fi.legacySender.None? && fi.legacyChat.Some?
    ensures EndsWith(LegacyResponse(fi), " (ID: " + IntToDecimal(fi.legacyChat.value.chatId) + ")")
  {
    var lc := fi.legacyChat.value;
    var tail := " (ID: " + IntToDecimal(lc.chatId) + ")";
    var head := if Present(lc.username) then "\n🔄 Reenviado del canal: @" + lc.username.value
                else "\n🔄 Reenviado de: " + RenderOpt(lc.title);
    assert LegacyResponse(fi) == head + tail;
    EndsWithTail(head, tail);
  }

  lemma LegacyNameOpening(fi: ForwardInfo)
    requires fi.legacySender.None? && fi.legacyChat.None? && Present(fi.legacySenderName)
    ensures StartsWith(LegacyResponse(fi), "\n🔄 Reenviado de: " + fi.legacySenderName.value + " (privado)")
  {
    var head := "\n🔄 Reenviado de: " + fi.legacySenderName.value + " (privado)";
    var r := LegacyResponse(fi);
    assert r == head + (if Present(fi.uniqueIdentifier) then "\n🆔 ID: " + fi.uniqueIdentifier.value else "");
    assert r[..|head|] == head;
  }

  // ---------------------------------------------------------------------------
  // The renderers applied to resolved messages

  /** A message with no forwarding signal is attributed to its direct sender and gets no provenance line. */
  lemma NotForwardedRendering(f: ForwardFields, md5: string -> HexDigest)
    requires !IsForwarded(f)
    ensures TipsterName(Resolve(f, md5)) == "Usuario directo"
    ensures FormatForwardResponse(Resolve(f, md5)) == ""
  {
  }

  /**
   * A visible user origin with a truthy id renders "@handle" when the user has
   * one and the joined name otherwise, always followed by the id.
   */
  lemma UserOriginResponse(f: ForwardFields, md5: string -> HexDigest)
    requires f.forwardOrigin.Some? && f.forwardOrigin.value.shape.OriginUser?
    requires f.forwardOrigin.value.shape.senderUser.id != 0
    ensures var u := f.forwardOrigin.value.shape.senderUser;
            FormatForwardResponse(Resolve(f, md5)) ==
              "\n🔄 Reenviado de: " + (if Present(u.username) then "@" + u.username.value else FullName(u))
              + " (ID: " + IntToDecimal(u.id) + ")"
  {
    OriginBranchContents(f.forwardOrigin.value);
    var u := f.forwardOrigin.value.shape.senderUser;
    if Present(u.username) {
      assert "\n🔄 Reenviado de: @" + u.username.value == "\n🔄 Reenviado de: " + ("@" + u.username.value);
    }
  }

  /**
   * A channel origin with a truthy id renders "@handle" when the channel has one,
   * else its title, else the word "Canal", always followed by the id.
   */
  lemma ChannelOriginResponse(f: ForwardFields, md5: string -> HexDigest)
    requires f.forwardOrigin.Some? && f.forwardOrigin.value.shape.OriginChannel?
    requires f.forwardOrigin.value.shape.chat.id != 0
    ensures var c := f.forwardOrigin.value.shape.chat;
            FormatForwardResponse(Resolve(f, md5)) ==
              (if Present(c.username) then "\n🔄 Reenviado del canal: @" + c.username.value
               else "\n🔄 Reenviado de: " + (if Present(c.title) then c.title.value else "Canal"))
              + " (ID: " + IntToDecimal(c.id) + ")"
  {
    OriginBranchContents(f.forwardOrigin.value);
    OriginBranchOnly(f.forwardOrigin, SenderUserId);
    OriginBranchOnly(f.forwardOrigin, SenderName);
  }

  /**
   * A hidden sender renders as private, and its hash-based identifier is always
   * shown, since such a forward always has one.
   */
  lemma HiddenOriginResponse(f: ForwardFields, md5: string -> HexDigest)
    requires f.forwardOrigin.Some? && f.forwardOrigin.value.shape.OriginHiddenUser?
    requires f.forwardOrigin.value.shape.senderUserName != ""
    ensures var n := f.forwardOrigin.value.shape.senderUserName;
            var uid := Resolve(f, md5).uniqueIdentifier;
            uid.Some? && StartsWith(uid.value, "PRIVATE_" + md5(n)[..8])
            && FormatForwardResponse(Resolve(f, md5)) ==
                 "\n🔄 Reenviado de: " + n + " (privado)" + "\n🆔 ID: " + uid.value
  {
    HiddenIdentifier(f, md5);
    OriginBranchContents(f.forwardOrigin.value);
    OriginBranchOnly(f.forwardOrigin, SenderUserId);
  }

  lemma HiddenIdentifier(f: ForwardFields, md5: string -> HexDigest)
    requires f.forwardOrigin.Some? && f.forwardOrigin.value.shape.OriginHiddenUser?
    requires f.forwardOrigin.value.shape.senderUserName != ""
    ensures var uid := Resolve(f, md5).uniqueIdentifier;
            uid.Some? && StartsWith(uid.value, "PRIVATE_" + md5(f.forwardOrigin.value.shape.senderUserName)[..8])
  {
    var n := f.forwardOrigin.value.shape.senderUserName;
    IdentifierLayout(f, md5);
    var seg := "PRIVATE_" + md5(n)[..8];
    assert ExpectedIdentity(f.forwardOrigin, md5) == Some(seg);
    var d := DateString(ExpectedDate(f));
    if d.Some? {
      StartsWithHead(seg, "_DATE_", Prefix(d.value, 10));
    } else {
      assert seg[..|seg|] == seg;
    }
  }

  // ---------------------------------------------------------------------------
  // Worked examples

  /** A visible user with a handle is attributed as "@handle", whatever the legacy fields say. */
  lemma UserOriginTipster(f: ForwardFields, md5: string -> HexDigest)
    requires f.forwardOrigin.Some? && f.forwardOrigin.value.shape.OriginUser?
    requires Present(f.forwardOrigin.value.shape.senderUser.username)
    ensures TipsterName(Resolve(f, md5)) == "@" + f.forwardOrigin.value.shape.senderUser.username.value
  {
    OriginBranchOnly(f.forwardOrigin, ChatTitle);
    OriginBranchContents(f.forwardOrigin.value);
  }

  /** A channel with a title is attributed by that title. */
  lemma ChannelOriginTipster(f: ForwardFields, md5: string -> HexDigest)
    requires f.forwardOrigin.Some? && f.forwardOrigin.value.shape.OriginChannel?
    requires Present(f.forwardOrigin.value.shape.chat.title)
    ensures TipsterName(Resolve(f, md5)) == f.forwardOrigin.value.shape.chat.title.value
  {
    OriginBranchContents(f.forwardOrigin.value);
  }

  /** A hidden sender is attributed by the name it shows. */
  lemma HiddenOriginTipster(f: ForwardFields, md5: string -> HexDigest)
    requires f.forwardOrigin.Some? && f.forwardOrigin.value.shape.OriginHiddenUser?
    requires f.forwardOrigin.value.shape.senderUserName != ""
    ensures TipsterName(Resolve(f, md5)) == f.forwardOrigin.value.shape.senderUserName
  {
    OriginBranchContents(f.forwardOrigin.value);
    OriginBranchOnly(f.forwardOrigin, ChatTitle);
    OriginBranchOnly(f.forwardOrigin, SenderUsername);
  }

  /** Any forward whose origin is the "Tips Canal" channel is attributed to it. */
  lemma ChannelTipster(f: ForwardFields, md5: string -> HexDigest)
    requires f.forwardOrigin == ChannelForward.forwardOrigin
    ensures TipsterName(Resolve(f, md5)) == "Tips Canal"
  {
    ChannelOriginTipster(f, md5);
  }

  /** Any forward whose origin is the hidden "Juan Privado" is attributed to that name. */
  lemma HiddenTipster(f: ForwardFields, md5: string -> HexDigest)
    requires f.forwardOrigin == HiddenForward.forwardOrigin
    ensures TipsterName(Resolve(f, md5)) == "Juan Privado"
  {
    HiddenOriginTipster(f, md5);
  }

  lemma LegacyChannelTipster(md5: string -> HexDigest)
    ensures TipsterName(Resolve(LegacyChannelForward, md5)) == "OldChannel"
  {
  }
}
