/**
 * bot_main.py's copy of the resolver and its renderers, which deviates from the
 * shared one: `origin_info` starts as an empty dictionary (so only the keys a
 * branch or the date assign are present, and there is no `origin_type`),
 * `is_automatic_forward` defaults to `False` when the attribute is missing, the
 * response templates differ, and the legacy fallback only consults
 * `legacy_sender`.
 */
module MainVariant {
  import opened PyText
  import opened Telegram
  import opened ForwardResolver

  /** bot_main.py's `origin_info` for a message's `forward_origin`. */
  function MainOriginInfoOf(origin: Option<ForwardOrigin>): (oi: OriginInfo)
    ensures !HasKey(oi, OriginType)
  {
    match origin
    case None => EmptyOrigin
    case Some(o) => WithDate(WithBranch(EmptyOrigin, o.shape), o)
  }

  /** `getattr(message, 'is_automatic_forward', False)`: the default applies only to a missing attribute. */
  function MainAutoForwardValue(flag: AutoForwardFlag): Option<bool> {
    match flag
    case FlagMissing => Some(false)
    case FlagNull => None
    case Flag(b) => Some(b)
  }

  /** The `forward_info` that bot_main.py's `_analyze_forward_origin` returns. */
  function ResolveMain(f: ForwardFields, md5: string -> HexDigest): (r: ForwardInfo)
    ensures r.isForwarded <==> IsForwarded(f)
    ensures !r.isForwarded ==> r.uniqueIdentifier == None
    ensures r.forwardDate == DateString(f.forwardDate)
    ensures f.isAutomaticForward.FlagMissing? ==> r.isAutomaticForward == Some(false)
    ensures f.isAutomaticForward.Flag? ==> r.isAutomaticForward == Some(f.isAutomaticForward.b)
  {
    var oi := MainOriginInfoOf(f.forwardOrigin);
    var forwarded := IsForwarded(f);
    ForwardInfo(
      forwarded,
      DateString(f.forwardDate),
      MainAutoForwardValue(f.isAutomaticForward),
      UniqueIdentifier(forwarded, oi, f.forwardDate, md5),
      oi,
      if f.forwardFrom.Some? then Some(LegacySenderOf(f.forwardFrom.value)) else None,
      if f.forwardFromChat.Some? then Some(LegacyChatOf(f.forwardFromChat.value)) else None,
      if Present(f.forwardSenderName) then f.forwardSenderName else None)
  }

  // ---------------------------------------------------------------------------
  // How the two resolvers relate

  /**
   * Key presence in bot_main.py: a key is present exactly when the matched branch
   * assigned it, or it is `origin_date` and the origin carries a date.
   */
  lemma MainOriginKeys(origin: Option<ForwardOrigin>, k: OriginKey)
    ensures HasKey(MainOriginInfoOf(origin), k) <==>
              origin.Some? && (k in BranchKeys(origin.value.shape) || (k == OriginDate && origin.value.date.Some?))
  {
    if origin.Some? {
      var o := origin.value;
      assert OriginDate !in BranchKeys(o.shape);
      assert SlotOf(WithBranch(EmptyOrigin, o.shape), OriginDate) == Unset;
      if k !in BranchKeys(o.shape) {
        assert SlotOf(WithBranch(EmptyOrigin, o.shape), k) == Unset;
      }
    }
  }

  /** Apart from the type tag, reading any key of either variant's `origin_info` gives the same value. */
  lemma MainReadsLikeShared(origin: Option<ForwardOrigin>, k: OriginKey)
    requires k != OriginType
    ensures Get(MainOriginInfoOf(origin), k) == Get(OriginInfoOf(origin), k)
  {
    if origin.Some? {
      if k in BranchKeys(origin.value.shape) {
        BranchKeyReadsLikeShared(origin.value, k);
      } else {
        OtherKeyReadsLikeShared(origin.value, k);
      }
    }
  }

  lemma BranchKeyReadsLikeShared(o: ForwardOrigin, k: OriginKey)
    requires k in BranchKeys(o.shape)
    ensures Get(MainOriginInfoOf(Some(o)), k) == Get(OriginInfoOf(Some(o)), k)
  {
    var typed := NoOrigin.(originType := Held(Str(o.originType)));
    assert SlotOf(WithBranch(EmptyOrigin, o.shape), k) == SlotOf(WithBranch(typed, o.shape), k);
  }

  lemma OtherKeyReadsLikeShared(o: ForwardOrigin, k: OriginKey)
    requires k != OriginType && k !in BranchKeys(o.shape)
    ensures Get(MainOriginInfoOf(Some(o)), k) == Get(OriginInfoOf(Some(o)), k)
  {
    var typed := NoOrigin.(originType := Held(Str(o.originType)));
    assert SlotOf(WithBranch(EmptyOrigin, o.shape), k) == Unset;
    assert SlotOf(WithBranch(typed, o.shape), k) == SlotOf(typed, k);
  }

  /**
   * Both resolvers agree on everything but `origin_info`'s key set and the
   * `is_automatic_forward` default: same flag, same identifier, same
   * pass-through date, same legacy blocks.
   */
  lemma MainResolvesLikeShared(f: ForwardFields, md5: string -> HexDigest)
    ensures ResolveMain(f, md5).isForwarded == Resolve(f, md5).isForwarded
    ensures ResolveMain(f, md5).uniqueIdentifier == Resolve(f, md5).uniqueIdentifier
    ensures ResolveMain(f, md5).forwardDate == Resolve(f, md5).forwardDate
    ensures ResolveMain(f, md5).legacySender == Resolve(f, md5).legacySender
    ensures ResolveMain(f, md5).legacyChat == Resolve(f, md5).legacyChat
    ensures ResolveMain(f, md5).legacySenderName == Resolve(f, md5).legacySenderName
    ensures ResolveMain(f, md5).isAutomaticForward ==
              if f.isAutomaticForward.FlagMissing? then Some(false) else Resolve(f, md5).isAutomaticForward
  {
    MainReadsLikeShared(f.forwardOrigin, SenderUserId);
    MainReadsLikeShared(f.forwardOrigin, SenderName);
    MainReadsLikeShared(f.forwardOrigin, ChatId);
    MainReadsLikeShared(f.forwardOrigin, OriginDate);
    var main := MainOriginInfoOf(f.forwardOrigin);
    var shared := OriginInfoOf(f.forwardOrigin);
    assert IdentitySegment(main, md5) == IdentitySegment(shared, md5);
    assert DateSource(main, f.forwardDate) == DateSource(shared, f.forwardDate);
  }

  // ---------------------------------------------------------------------------
  // The source's construction, step by step

  /** Fills bot_main.py's `origin_info`, starting from `{}`, key by key. */
  method FillMainOriginInfo(origin: Option<ForwardOrigin>) returns (originInfo: OriginInfo)
    ensures originInfo == MainOriginInfoOf(origin)
  {
    originInfo := EmptyOrigin;
    if origin.Some? {
      var o := origin.value;
      match o.shape {
        case OriginUser(u) =>
          originInfo := originInfo.(senderUserId := Held(Int(u.id)));
          originInfo := originInfo.(senderName := Held(Str(FullName(u))));
          originInfo := originInfo.(senderUsername := Held(ValueOf(u.username)));
        case OriginHiddenUser(n) =>
          if n != "" {
            originInfo := originInfo.(senderName := Held(Str(n)));
          }
        case OriginChannel(c) =>
          originInfo := originInfo.(chatId := Held(Int(c.id)));
          originInfo := originInfo.(chatTitle := Held(ValueOf(c.title)));
          originInfo := originInfo.(chatUsername := Held(ValueOf(c.username)));
        case OriginOther =>
      }
      if o.date.Some? {
        originInfo := originInfo.(originDate := Held(Str(o.date.value)));
      }
    }
  }

  /**
   * The identifier parts as bot_main.py's `_analyze_forward_origin` collects them:
   * its name branch checks again the name it has just found truthy, which changes nothing.
   */
  method CollectIdentifierPartsMain(originInfo: OriginInfo, forwardDate: Option<IsoDate>, md5: string -> HexDigest)
    returns (identifierParts: seq<string>)
    ensures identifierParts == IdentifierParts(originInfo, forwardDate, md5)
  {
    identifierParts := [];
    if Truthy(Get(originInfo, SenderUserId)) {
      identifierParts := identifierParts + ["USER_" + Render(Get(originInfo, SenderUserId))];
    } else if Truthy(Get(originInfo, SenderName)) {
      var senderName := Render(Get(originInfo, SenderName));
      if senderName != "" {
        identifierParts := identifierParts + ["PRIVATE_" + md5(senderName)[..8]];
      }
    } else if Truthy(Get(originInfo, ChatId)) {
      identifierParts := identifierParts + ["CHAT_" + Render(Get(originInfo, ChatId))];
    }
    var dateStr: Option<string> := None;
    if Truthy(Get(originInfo, OriginDate)) {
      dateStr := Some(Render(Get(originInfo, OriginDate)));
    } else if forwardDate.Some? {
      dateStr := Some(forwardDate.value);
    }
    if dateStr.Some? && dateStr.value != "" {
      identifierParts := identifierParts + ["DATE_" + Prefix(dateStr.value, 10)];
    }
  }

  /**
   * bot_main.py's `_analyze_forward_origin`. Its name branch checks again the name
   * it has just found truthy before hashing it; the identifier is the same.
   */
  method AnalyzeForwardOriginMain(f: ForwardFields, md5: string -> HexDigest) returns (info: ForwardInfo)
    ensures info == ResolveMain(f, md5)
  {
    var originInfo := FillMainOriginInfo(f.forwardOrigin);

    var isForwarded := f.forwardFrom.Some? || f.forwardFromChat.Some? || Present(f.forwardSenderName)
      || f.forwardDate.Some? || f.forwardOrigin.Some? || f.isAutomaticForward == Flag(true);

    var uniqueIdentifier: Option<string> := None;
    if isForwarded {
      var identifierParts := CollectIdentifierPartsMain(originInfo, f.forwardDate, md5);
      if identifierParts != [] {
        uniqueIdentifier := Some(Join("_", identifierParts));
      }
    }

    info := ForwardInfo(isForwarded, DateString(f.forwardDate), MainAutoForwardValue(f.isAutomaticForward),
                        uniqueIdentifier, originInfo, None, None, None);
    if f.forwardFrom.Some? {
      info := info.(legacySender := Some(LegacySenderOf(f.forwardFrom.value)));
    }
    if f.forwardFromChat.Some? {
      info := info.(legacyChat := Some(LegacyChatOf(f.forwardFromChat.value)));
    }
    if Present(f.forwardSenderName) {
      info := info.(legacySenderName := f.forwardSenderName);
    }
  }

  // ---------------------------------------------------------------------------
  // _format_forward_response (bot_main.py)

  const MainHeader: string := "\n\n🔄 **Mensaje reenviado"

  /** `"ID: <id>"`, then `" (@handle)"` when a handle is truthy, else `" (label)"` when the label is. */
  function IdWithLabel(id: Value, handle: Value, tag: Value): string {
    "ID: " + Render(id)
    + (if Truthy(handle) then " (@" + Render(handle) + ")" else if Truthy(tag) then " (" + Render(tag) + ")" else "")
  }

  /** bot_main.py's `_format_forward_response`. */
  function FormatForwardResponseMain(fi: ForwardInfo): (r: string)
    ensures r == "" <==> !fi.isForwarded
  {
    var oi := fi.originInfo;
    if !fi.isForwarded then ""
    else if Truthy(Get(oi, SenderUserId)) then
      "\n\n🔄 **Mensaje reenviado de usuario**\n👤 "
      + IdWithLabel(Get(oi, SenderUserId), Get(oi, SenderUsername), Get(oi, SenderName))
    else if Truthy(Get(oi, SenderName)) then
      "\n\n🔄 **Mensaje reenviado**\n👤 Usuario: " + Render(Get(oi, SenderName)) + " (perfil privado)"
    else if Truthy(Get(oi, ChatId)) then
      "\n\n🔄 **Mensaje reenviado de canal/grupo**\n📢 "
      + IdWithLabel(Get(oi, ChatId), Get(oi, ChatUsername), Get(oi, ChatTitle))
    else if fi.legacySender.Some? then
      "\n\n🔄 **Mensaje reenviado**\n👤 " + fi.legacySender.value.fullName
      + " (ID: " + IntToDecimal(fi.legacySender.value.userId) + ")"
    else
      "\n\n🔄 **Mensaje reenviado**\n📝 ID único: "
      + (if Present(fi.uniqueIdentifier) then fi.uniqueIdentifier.value else "N/A")
  }

  /** Every response bot_main.py gives to a forwarded message opens with the same header. */
  lemma MainResponseHeader(fi: ForwardInfo)
    requires fi.isForwarded
    ensures StartsWith(FormatForwardResponseMain(fi), MainHeader)
  {
    var oi := fi.originInfo;
    var r := FormatForwardResponseMain(fi);
    var lead: string;
    if Truthy(Get(oi, SenderUserId)) {
      lead := "\n\n🔄 **Mensaje reenviado de usuario**\n👤 ";
      assert r == lead + IdWithLabel(Get(oi, SenderUserId), Get(oi, SenderUsername), Get(oi, SenderName));
    } else if Truthy(Get(oi, SenderName)) {
      lead := "\n\n🔄 **Mensaje reenviado**\n👤 Usuario: ";
      assert r == lead + Render(Get(oi, SenderName)) + " (perfil privado)";
    } else if Truthy(Get(oi, ChatId)) {
      lead := "\n\n🔄 **Mensaje reenviado de canal/grupo**\n📢 ";
      assert r == lead + IdWithLabel(Get(oi, ChatId), Get(oi, ChatUsername), Get(oi, ChatTitle));
    } else if fi.legacySender.Some? {
      lead := "\n\n🔄 **Mensaje reenviado**\n👤 ";
      assert r == lead + fi.legacySender.value.fullName + " (ID: " + IntToDecimal(fi.legacySender.value.userId) + ")";
    } else {
      lead := "\n\n🔄 **Mensaje reenviado**\n📝 ID único: ";
      assert r == lead + (if Present(fi.uniqueIdentifier) then fi.uniqueIdentifier.value else "N/A");
    }
    assert StartsWith(lead, MainHeader);
    assert r[..|MainHeader|] == lead[..|MainHeader|];
  }

  /** `legacy_chat` and `legacy_sender_name` never influence bot_main.py's response. */
  lemma MainResponseIgnoresLegacyChatAndName(fi: ForwardInfo, chat: Option<LegacyChat>, name: Option<string>)
    ensures FormatForwardResponseMain(fi) == FormatForwardResponseMain(fi.(legacyChat := chat, legacySenderName := name))
  {
  }

  /**
   * With no truthy modern identity, the response names the legacy sender when
   * there is one, and otherwise shows the identifier, or "N/A" without one.
   */
  lemma MainFallback(fi: ForwardInfo)
    requires fi.isForwarded
    requires !Truthy(Get(fi.originInfo, SenderUserId)) && !Truthy(Get(fi.originInfo, SenderName))
    requires !Truthy(Get(fi.originInfo, ChatId))
    ensures fi.legacySender.Some? ==>
              EndsWith(FormatForwardResponseMain(fi), " (ID: " + IntToDecimal(fi.legacySender.value.userId) + ")")
    ensures fi.legacySender.None? ==>
              EndsWith(FormatForwardResponseMain(fi), "ID único: " + (if Present(fi.uniqueIdentifier) then fi.uniqueIdentifier.value else "N/A"))
  {
    if fi.legacySender.Some? {
      MainFallbackSender(fi);
    } else {
      MainFallbackIdentifier(fi);
    }
  }

  lemma MainFallbackSender(fi: ForwardInfo)
    requires fi.isForwarded && fi.legacySender.Some?
    requires !Truthy(Get(fi.originInfo, SenderUserId)) && !Truthy(Get(fi.originInfo, SenderName))
    requires !Truthy(Get(fi.originInfo, ChatId))
    ensures EndsWith(FormatForwardResponseMain(fi), " (ID: " + IntToDecimal(fi.legacySender.value.userId) + ")")
  {
    var ls := fi.legacySender.value;
    var head := "\n\n🔄 **Mensaje reenviado**\n👤 " + ls.fullName;
    assert FormatForwardResponseMain(fi) == head + " (ID: " + IntToDecimal(ls.userId) + ")";
    EndsWithLastThree(head, " (ID: ", IntToDecimal(ls.userId), ")");
  }

  lemma MainFallbackIdentifier(fi: ForwardInfo)
    requires fi.isForwarded && fi.legacySender.None?
    requires !Truthy(Get(fi.originInfo, SenderUserId)) && !Truthy(Get(fi.originInfo, SenderName))
    requires !Truthy(Get(fi.originInfo, ChatId))
    ensures EndsWith(FormatForwardResponseMain(fi), "ID único: " + (if Present(fi.uniqueIdentifier) then fi.uniqueIdentifier.value else "N/A"))
  {
    var tail := "ID único: " + (if Present(fi.uniqueIdentifier) then fi.uniqueIdentifier.value else "N/A");
    assert FormatForwardResponseMain(fi) == "\n\n🔄 **Mensaje reenviado**\n📝 " + tail;
    EndsWithTail("\n\n🔄 **Mensaje reenviado**\n📝 ", tail);
  }

  /**
   * A visible user with a truthy id: the id always, then the handle when the user
   * has one, else the joined name when it is non-empty.
   */
  lemma MainUserOriginResponse(f: ForwardFields, md5: string -> HexDigest)
    requires f.forwardOrigin.Some? && f.forwardOrigin.value.shape.OriginUser?
    requires f.forwardOrigin.value.shape.senderUser.id != 0
    ensures var u := f.forwardOrigin.value.shape.senderUser;
            FormatForwardResponseMain(ResolveMain(f, md5)) ==
              "\n\n🔄 **Mensaje reenviado de usuario**\n👤 "
              + ("ID: " + IntToDecimal(u.id)
                 + (if Present(u.username) then " (@" + u.username.value + ")"
                    else if FullName(u) != "" then " (" + FullName(u) + ")" else ""))
  {
    var o := f.forwardOrigin.value;
    var u := o.shape.senderUser;
    var fi := ResolveMain(f, md5);
    var oi := fi.originInfo;
    assert Get(oi, SenderUserId) == Int(u.id) && Get(oi, SenderUsername) == ValueOf(u.username)
        && Get(oi, SenderName) == Str(FullName(u)) by {
      MainReadsLikeShared(f.forwardOrigin, SenderUserId);
      MainReadsLikeShared(f.forwardOrigin, SenderName);
      MainReadsLikeShared(f.forwardOrigin, SenderUsername);
      OriginBranchContents(o);
    }
    UserLabel(u);
    assert FormatForwardResponseMain(fi) ==
             "\n\n🔄 **Mensaje reenviado de usuario**\n👤 "
             + IdWithLabel(Int(u.id), ValueOf(u.username), Str(FullName(u)));
  }

  lemma UserLabel(u: User)
    requires u.id != 0
    ensures IdWithLabel(Int(u.id), ValueOf(u.username), Str(FullName(u))) ==
              "ID: " + IntToDecimal(u.id)
              + (if Present(u.username) then " (@" + u.username.value + ")"
                 else if FullName(u) != "" then " (" + FullName(u) + ")" else "")
  {
  }

  /**
   * A channel with a truthy id: the id always, then the handle when the channel
   * has one, else its title when truthy.
   */
  lemma MainChannelOriginResponse(f: ForwardFields, md5: string -> HexDigest)
    requires f.forwardOrigin.Some? && f.forwardOrigin.value.shape.OriginChannel?
    requires f.forwardOrigin.value.shape.chat.id != 0
    ensures var c := f.forwardOrigin.value.shape.chat;
            FormatForwardResponseMain(ResolveMain(f, md5)) ==
              "\n\n🔄 **Mensaje reenviado de canal/grupo**\n📢 "
              + ("ID: " + IntToDecimal(c.id)
                 + (if Present(c.username) then " (@" + c.username.value + ")"
                    else if Present(c.title) then " (" + c.title.value + ")" else ""))
  {
    var o := f.forwardOrigin.value;
    MainReadsLikeShared(f.forwardOrigin, SenderUserId);
    MainReadsLikeShared(f.forwardOrigin, SenderName);
    MainReadsLikeShared(f.forwardOrigin, ChatId);
    MainReadsLikeShared(f.forwardOrigin, ChatTitle);
    MainReadsLikeShared(f.forwardOrigin, ChatUsername);
    OriginBranchContents(o);
    OriginBranchOnly(f.forwardOrigin, SenderUserId);
    OriginBranchOnly(f.forwardOrigin, SenderName);
  }
}
