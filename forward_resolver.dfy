/**
 * The forwarded-message provenance resolver, `_analyze_forward_origin`, as shared
 * by bot_hybrid.py, bot_notion.py and bot_test.py (the three copies are identical).
 *
 * `Resolve` is the specification: what the returned `forward_info` dictionary
 * holds for a given message. `AnalyzeForwardOrigin` is the source's own
 * step-by-step construction (fill `origin_info` key by key, append to
 * `identifier_parts`, add the legacy keys afterwards), proved to produce it.
 */
module ForwardResolver {
  import opened PyText
  import opened Telegram

  /** The eight keys of the `origin_info` dictionary. */
  datatype OriginKey =
    | OriginType | SenderUserId | SenderName | SenderUsername
    | ChatId | ChatTitle | ChatUsername | OriginDate

  /** One entry of the `origin_info` dictionary: the key is missing, or holds a value. */
  datatype Slot = Unset | Held(v: Value)

  /**
   * `origin_info`: a dictionary over the eight keys above, one slot per key, so
   * that a missing key and a key holding `None` stay distinguishable.
   */
  datatype OriginInfo = OriginInfo(
    originType: Slot, senderUserId: Slot, senderName: Slot, senderUsername: Slot,
    chatId: Slot, chatTitle: Slot, chatUsername: Slot, originDate: Slot)

  /** An `origin_info` with no key set: `{}`. */
  const EmptyOrigin: OriginInfo := OriginInfo(Unset, Unset, Unset, Unset, Unset, Unset, Unset, Unset)

  function SlotOf(o: OriginInfo, k: OriginKey): Slot {
    match k
    case OriginType => o.originType
    case SenderUserId => o.senderUserId
    case SenderName => o.senderName
    case SenderUsername => o.senderUsername
    case ChatId => o.chatId
    case ChatTitle => o.chatTitle
    case ChatUsername => o.chatUsername
    case OriginDate => o.originDate
  }

  /** `k in origin_info`. */
  predicate HasKey(o: OriginInfo, k: OriginKey) {
    SlotOf(o, k).Held?
  }

  /** `origin_info.get(k)`: a missing key reads as `None`. */
  function Get(o: OriginInfo, k: OriginKey): Value {
    if HasKey(o, k) then SlotOf(o, k).v else Null
  }

  /** `origin_info.get(k, default)`. */
  function GetOr(o: OriginInfo, k: OriginKey, default: Value): Value {
    if HasKey(o, k) then SlotOf(o, k).v else default
  }

  /** The keys that say who the origin is (all but the type tag and the date). */
  predicate IsIdentityKey(k: OriginKey) {
    k != OriginType && k != OriginDate
  }

  /** The initial `origin_info` of the shared variant: all eight keys, each `None`. */
  const NoOrigin: OriginInfo :=
    OriginInfo(Held(Null), Held(Null), Held(Null), Held(Null), Held(Null), Held(Null), Held(Null), Held(Null))

  /** `forward_info["legacy_sender"]`. */
  datatype LegacySender = LegacySender(userId: int, username: Option<string>, fullName: string)

  /** `forward_info["legacy_chat"]`. */
  datatype LegacyChat = LegacyChat(chatId: int, title: Option<string>, username: Option<string>)

  /**
   * The `forward_info` dictionary. The three legacy blocks are optional keys;
   * `None` here stands for the key being absent.
   */
  datatype ForwardInfo = ForwardInfo(
    isForwarded: bool,
    forwardDate: Option<string>,
    isAutomaticForward: Option<bool>,
    uniqueIdentifier: Option<string>,
    originInfo: OriginInfo,
    legacySender: Option<LegacySender>,
    legacyChat: Option<LegacyChat>,
    legacySenderName: Option<string>)

  // ---------------------------------------------------------------------------
  // Specification

  /** The six forwarding signals, each read for its truthiness. */
  predicate IsForwarded(f: ForwardFields) {
    || f.forwardFrom.Some?
    || f.forwardFromChat.Some?
    || Present(f.forwardSenderName)
    || f.forwardDate.Some?
    || f.forwardOrigin.Some?
    || f.isAutomaticForward == Flag(true)
  }

  /** The `origin_info` keys that the branch matching an origin shape assigns. */
  function BranchKeys(shape: OriginShape): set<OriginKey> {
    match shape
    case OriginUser(_) => {SenderUserId, SenderName, SenderUsername}
    case OriginHiddenUser(n) => if n != "" then {SenderName} else {}
    case OriginChannel(_) => {ChatId, ChatTitle, ChatUsername}
    case OriginOther => {}
  }

  /**
   * What the first matching probe assigns to `origin_info`: `sender_user`, then a
   * truthy `sender_user_name`, then `chat`; no other key is touched.
   */
  function WithBranch(base: OriginInfo, shape: OriginShape): (oi: OriginInfo)
    ensures forall k | k !in BranchKeys(shape) :: SlotOf(oi, k) == SlotOf(base, k)
    ensures forall k | k in BranchKeys(shape) :: HasKey(oi, k)
  {
    match shape
    case OriginUser(u) =>
      base.(senderUserId := Held(Int(u.id)), senderName := Held(Str(FullName(u))),
            senderUsername := Held(ValueOf(u.username)))
    case OriginHiddenUser(n) =>
      if n != "" then base.(senderName := Held(Str(n))) else base
    case OriginChannel(c) =>
      base.(chatId := Held(Int(c.id)), chatTitle := Held(ValueOf(c.title)),
            chatUsername := Held(ValueOf(c.username)))
    case OriginOther => base
  }

  /** `origin_info["origin_date"]`, assigned whenever the origin carries a date. */
  function WithDate(base: OriginInfo, o: ForwardOrigin): OriginInfo {
    if o.date.Some? then base.(originDate := Held(Str(o.date.value))) else base
  }

  /** The shared variant's `origin_info` for a message's `forward_origin`. */
  function OriginInfoOf(origin: Option<ForwardOrigin>): (oi: OriginInfo)
    ensures forall k :: HasKey(oi, k)
  {
    var oi := match origin
      case None => NoOrigin
      case Some(o) => WithDate(WithBranch(NoOrigin.(originType := Held(Str(o.originType))), o.shape), o);
    CompleteHasEveryKey(oi);
    oi
  }

  /** Every slot holds a value. */
  predicate Complete(o: OriginInfo) {
    && o.originType.Held? && o.senderUserId.Held? && o.senderName.Held? && o.senderUsername.Held?
    && o.chatId.Held? && o.chatTitle.Held? && o.chatUsername.Held? && o.originDate.Held?
  }

  lemma CompleteHasEveryKey(o: OriginInfo)
    requires Complete(o)
    ensures forall k :: HasKey(o, k)
  {
    forall k ensures HasKey(o, k) {
      match k
      case OriginType =>
      case SenderUserId =>
      case SenderName =>
      case SenderUsername =>
      case ChatId =>
      case ChatTitle =>
      case ChatUsername =>
      case OriginDate =>
    }
  }

  /** The identity segment: `USER_<id>`, else `PRIVATE_<hash8>`, else `CHAT_<id>`, else none. */
  function IdentitySegment(oi: OriginInfo, md5: string -> HexDigest): Option<string> {
    if Truthy(Get(oi, SenderUserId)) then Some("USER_" + Render(Get(oi, SenderUserId)))
    else if Truthy(Get(oi, SenderName)) then Some("PRIVATE_" + md5(Render(Get(oi, SenderName)))[..8])
    else if Truthy(Get(oi, ChatId)) then Some("CHAT_" + Render(Get(oi, ChatId)))
    else None
  }

  /** `origin_info["origin_date"] or forward_date.isoformat()`. */
  function DateSource(oi: OriginInfo, forwardDate: Option<IsoDate>): (d: Option<string>)
    ensures d.Some? ==> d.value != ""
  {
    if Truthy(Get(oi, OriginDate)) then Some(Render(Get(oi, OriginDate)))
    else if forwardDate.Some? then Some(forwardDate.value)
    else None
  }

  function OptionList(o: Option<string>): seq<string> {
    if o.Some? then [o.value] else []
  }

  /** The `identifier_parts` list: at most one identity segment, then the date segment. */
  function IdentifierParts(oi: OriginInfo, forwardDate: Option<IsoDate>, md5: string -> HexDigest): seq<string> {
    var date := DateSource(oi, forwardDate);
    OptionList(IdentitySegment(oi, md5))
      + OptionList(if date.Some? then Some("DATE_" + Prefix(date.value, 10)) else None)
  }

  /** `unique_identifier`: absent unless forwarded and at least one segment exists. */
  function UniqueIdentifier(isForwarded: bool, oi: OriginInfo, forwardDate: Option<IsoDate>, md5: string -> HexDigest)
    : Option<string>
  {
    if !isForwarded then None
    else
      var parts := IdentifierParts(oi, forwardDate, md5);
      if parts == [] then None else Some(Join("_", parts))
  }

  function LegacySenderOf(u: User): LegacySender {
    LegacySender(u.id, u.username, FullName(u))
  }

  function LegacyChatOf(c: Chat): LegacyChat {
    LegacyChat(c.id, c.title, c.username)
  }

  /** `getattr(message, 'is_automatic_forward', None)`. */
  function AutoForwardValue(flag: AutoForwardFlag): Option<bool> {
    if flag.Flag? then Some(flag.b) else None
  }

  function DateString(d: Option<IsoDate>): Option<string> {
    if d.Some? then Some(d.value) else None
  }

  /** The `forward_info` that `_analyze_forward_origin` returns for a message. */
  function Resolve(f: ForwardFields, md5: string -> HexDigest): (r: ForwardInfo)
    ensures r.isForwarded <==> IsForwarded(f)
    ensures !r.isForwarded ==> r.uniqueIdentifier == None
    ensures forall k :: HasKey(r.originInfo, k)
    ensures r.forwardDate == DateString(f.forwardDate)
    ensures r.isAutomaticForward == AutoForwardValue(f.isAutomaticForward)
    ensures r.legacySender.Some? <==> f.forwardFrom.Some?
    ensures r.legacySender.Some? ==>
              && r.legacySender.value.userId == f.forwardFrom.value.id
              && r.legacySender.value.username == f.forwardFrom.value.username
              && r.legacySender.value.fullName == FullName(f.forwardFrom.value)
    ensures r.legacyChat.Some? <==> f.forwardFromChat.Some?
    ensures r.legacyChat.Some? ==>
              && r.legacyChat.value.chatId == f.forwardFromChat.value.id
              && r.legacyChat.value.title == f.forwardFromChat.value.title
              && r.legacyChat.value.username == f.forwardFromChat.value.username
    ensures r.legacySenderName.Some? <==> Present(f.forwardSenderName)
    ensures r.legacySenderName.Some? ==> r.legacySenderName == f.forwardSenderName
  {
    var oi := OriginInfoOf(f.forwardOrigin);
    var forwarded := IsForwarded(f);
    ForwardInfo(
      forwarded,
      DateString(f.forwardDate),
      AutoForwardValue(f.isAutomaticForward),
      UniqueIdentifier(forwarded, oi, f.forwardDate, md5),
      oi,
      if f.forwardFrom.Some? then Some(LegacySenderOf(f.forwardFrom.value)) else None,
      if f.forwardFromChat.Some? then Some(LegacyChatOf(f.forwardFromChat.value)) else None,
      if Present(f.forwardSenderName) then f.forwardSenderName else None)
  }

  // ---------------------------------------------------------------------------
  // Properties of the resolver

  /**
   * Origin dispatch: with no origin every key holds `None`; with one, the type tag
   * is copied, and an identity key holds a value only if the matched branch set it.
   */
  lemma OriginBranchOnly(origin: Option<ForwardOrigin>, k: OriginKey)
    ensures origin.None? ==> Get(OriginInfoOf(origin), k) == Null
    ensures origin.Some? ==> Get(OriginInfoOf(origin), OriginType) == Str(origin.value.originType)
    ensures IsIdentityKey(k) && (origin.None? || k !in BranchKeys(origin.value.shape)) ==>
              Get(OriginInfoOf(origin), k) == Null
  {
    if origin.Some? {
      var o := origin.value;
      var typed := NoOrigin.(originType := Held(Str(o.originType)));
      var branched := WithBranch(typed, o.shape);
      assert OriginInfoOf(origin) == WithDate(branched, o);
      WithDateKeepsOthers(branched, o, OriginType);
      assert SlotOf(branched, OriginType) == Held(Str(o.originType));
      if IsIdentityKey(k) && k !in BranchKeys(o.shape) {
        WithDateKeepsOthers(branched, o, k);
        assert SlotOf(branched, k) == SlotOf(typed, k);
      }
    }
  }

  lemma WithDateKeepsOthers(base: OriginInfo, o: ForwardOrigin, k: OriginKey)
    requires k != OriginDate
    ensures SlotOf(WithDate(base, o), k) == SlotOf(base, k)
  {
  }

  /** `origin_date` is set exactly when the origin carries a date, whichever branch matched. */
  lemma OriginDateWheneverDated(origin: Option<ForwardOrigin>)
    ensures Get(OriginInfoOf(origin), OriginDate) ==
              if origin.Some? && origin.value.date.Some? then Str(origin.value.date.value) else Null
  {
    if origin.Some? {
      var o := origin.value;
      var typed := NoOrigin.(originType := Held(Str(o.originType)));
      assert OriginDate !in BranchKeys(o.shape);
      assert SlotOf(WithBranch(typed, o.shape), OriginDate) == Held(Null);
    }
  }

  /** What each branch stores: the user's id, joined name and handle; the hidden name; the chat's id, title and handle. */
  lemma OriginBranchContents(o: ForwardOrigin)
    ensures o.shape.OriginUser? ==>
      var u := o.shape.senderUser;
      var oi := OriginInfoOf(Some(o));
      Get(oi, SenderUserId) == Int(u.id) && Get(oi, SenderName) == Str(FullName(u))
      && Get(oi, SenderUsername) == ValueOf(u.username)
    ensures o.shape.OriginHiddenUser? && o.shape.senderUserName != "" ==>
      Get(OriginInfoOf(Some(o)), SenderName) == Str(o.shape.senderUserName)
    ensures o.shape.OriginChannel? ==>
      var c := o.shape.chat;
      var oi := OriginInfoOf(Some(o));
      Get(oi, ChatId) == Int(c.id) && Get(oi, ChatTitle) == ValueOf(c.title)
      && Get(oi, ChatUsername) == ValueOf(c.username)
  {
  }

  /** The date an identifier carries, read off the message: the origin's date, else `forward_date`. */
  function ExpectedDate(f: ForwardFields): Option<IsoDate> {
    if f.forwardOrigin.Some? && f.forwardOrigin.value.date.Some? then f.forwardOrigin.value.date
    else f.forwardDate
  }

  /**
   * The identity segment read off the message: a visible user's id, else the hash
   * of a (joined or hidden) sender name, else a channel's id, each only if truthy.
   */
  function ExpectedIdentity(origin: Option<ForwardOrigin>, md5: string -> HexDigest): Option<string> {
    if origin.None? then None
    else
      match origin.value.shape
      case OriginUser(u) =>
        if u.id != 0 then Some("USER_" + IntToDecimal(u.id))
        else if FullName(u) != "" then Some("PRIVATE_" + md5(FullName(u))[..8])
        else None
      case OriginHiddenUser(n) => if n != "" then Some("PRIVATE_" + md5(n)[..8]) else None
      case OriginChannel(c) => if c.id != 0 then Some("CHAT_" + IntToDecimal(c.id)) else None
      case OriginOther => None
  }

  /** The identity segment first, then `DATE_` and the first ten characters of the date, joined by "_". */
  function Assemble(identity: Option<string>, date: Option<string>): Option<string> {
    match (identity, date)
    case (None, None) => None
    case (Some(id), None) => Some(id)
    case (None, Some(d)) => Some("DATE_" + Prefix(d, 10))
    case (Some(id), Some(d)) => Some(id + "_DATE_" + Prefix(d, 10))
  }

  /**
   * The unique identifier, stated on the message itself: absent unless forwarded;
   * otherwise at most one identity segment (USER > PRIVATE > CHAT) followed by the
   * date segment, and absent when neither exists.
   */
  lemma IdentifierLayout(f: ForwardFields, md5: string -> HexDigest)
    ensures Resolve(f, md5).uniqueIdentifier ==
              if IsForwarded(f) then Assemble(ExpectedIdentity(f.forwardOrigin, md5), DateString(ExpectedDate(f))) else None
  {
    var oi := OriginInfoOf(f.forwardOrigin);
    IdentitySegmentReadsOrigin(f.forwardOrigin, md5);
    OriginDateWheneverDated(f.forwardOrigin);
    assert DateSource(oi, f.forwardDate) == DateString(ExpectedDate(f));
    JoinedParts(IdentitySegment(oi, md5), DateSource(oi, f.forwardDate));
  }

  /** The identity segment computed from `origin_info` is the one read off the origin. */
  lemma IdentitySegmentReadsOrigin(origin: Option<ForwardOrigin>, md5: string -> HexDigest)
    ensures IdentitySegment(OriginInfoOf(origin), md5) == ExpectedIdentity(origin, md5)
  {
    if origin.Some? && origin.value.shape.OriginUser? {
      UserSegment(origin.value, md5);
    } else if origin.Some? && origin.value.shape.OriginHiddenUser? {
      HiddenSegment(origin.value, md5);
    } else if origin.Some? && origin.value.shape.OriginChannel? {
      ChannelSegment(origin.value, md5);
    } else {
      OriginBranchOnly(origin, SenderUserId);
      OriginBranchOnly(origin, SenderName);
      OriginBranchOnly(origin, ChatId);
    }
  }

  lemma UserSegment(o: ForwardOrigin, md5: string -> HexDigest)
    requires o.shape.OriginUser?
    ensures IdentitySegment(OriginInfoOf(Some(o)), md5) == ExpectedIdentity(Some(o), md5)
  {
    var oi := OriginInfoOf(Some(o));
    var u := o.shape.senderUser;
    OriginBranchContents(o);
    if u.id != 0 {
      assert Truthy(Get(oi, SenderUserId)) && Render(Get(oi, SenderUserId)) == IntToDecimal(u.id);
    } else if FullName(u) != "" {
      assert Render(Get(oi, SenderName)) == FullName(u);
    } else {
      OriginBranchOnly(Some(o), ChatId);
    }
  }

  lemma HiddenSegment(o: ForwardOrigin, md5: string -> HexDigest)
    requires o.shape.OriginHiddenUser?
    ensures IdentitySegment(OriginInfoOf(Some(o)), md5) == ExpectedIdentity(Some(o), md5)
  {
    OriginBranchOnly(Some(o), SenderUserId);
    OriginBranchOnly(Some(o), ChatId);
    if o.shape.senderUserName != "" {
      OriginBranchContents(o);
    } else {
      OriginBranchOnly(Some(o), SenderName);
    }
  }

  lemma ChannelSegment(o: ForwardOrigin, md5: string -> HexDigest)
    requires o.shape.OriginChannel?
    ensures IdentitySegment(OriginInfoOf(Some(o)), md5) == ExpectedIdentity(Some(o), md5)
  {
    OriginBranchContents(o);
    OriginBranchOnly(Some(o), SenderUserId);
    OriginBranchOnly(Some(o), SenderName);
  }

  /** Joining the parts list with "_" is the segment-by-segment assembly. */
  lemma JoinedParts(identity: Option<string>, date: Option<string>)
    ensures var parts := OptionList(identity) + OptionList(if date.Some? then Some("DATE_" + Prefix(date.value, 10)) else None);
            (if parts == [] then None else Some(Join("_", parts))) == Assemble(identity, date)
  {
    if identity.Some? && date.Some? {
      var seg := "DATE_" + Prefix(date.value, 10);
      var parts := [identity.value] + [seg];
      assert parts[1..] == [seg];
      assert Join("_", parts) == identity.value + "_" + seg;
      assert identity.value + "_" + seg == identity.value + "_DATE_" + Prefix(date.value, 10);
    }
  }

  /** A forward whose only signal is `is_automatic_forward` is forwarded but has no identifier. */
  lemma AutomaticForwardOnly(f: ForwardFields, md5: string -> HexDigest)
    requires f.forwardFrom.None? && f.forwardFromChat.None? && !Present(f.forwardSenderName)
    requires f.forwardDate.None? && f.forwardOrigin.None? && f.isAutomaticForward == Flag(true)
    ensures Resolve(f, md5).isForwarded
    ensures Resolve(f, md5).uniqueIdentifier == None
  {
    IdentifierLayout(f, md5);
  }

  /** The day part of the date an identifier carries. */
  function DayOf(f: ForwardFields): Option<string> {
    var d := ExpectedDate(f);
    if d.Some? then Some(Prefix(d.value, 10)) else None
  }

  /**
   * Two forwards from the same privacy-shielded name on the same day get the same
   * identifier: the dedup key depends on the name only through its hash.
   */
  lemma PrivateIdentifierStable(f1: ForwardFields, f2: ForwardFields, md5: string -> HexDigest)
    requires f1.forwardOrigin.Some? && f1.forwardOrigin.value.shape.OriginHiddenUser?
    requires f2.forwardOrigin.Some? && f2.forwardOrigin.value.shape == f1.forwardOrigin.value.shape
    requires DayOf(f1) == DayOf(f2)
    ensures Resolve(f1, md5).uniqueIdentifier == Resolve(f2, md5).uniqueIdentifier
  {
    IdentifierLayout(f1, md5);
    IdentifierLayout(f2, md5);
    assert IsForwarded(f1) && IsForwarded(f2);
    var id := ExpectedIdentity(f1.forwardOrigin, md5);
    assert ExpectedIdentity(f2.forwardOrigin, md5) == id;
    AssembleDependsOnDay(id, ExpectedDate(f1), ExpectedDate(f2));
  }

  /** The identifier reads the date only through its first ten characters. */
  lemma AssembleDependsOnDay(id: Option<string>, d1: Option<IsoDate>, d2: Option<IsoDate>)
    requires d1.Some? <==> d2.Some?
    requires d1.Some? ==> Prefix(d1.value, 10) == Prefix(d2.value, 10)
    ensures Assemble(id, DateString(d1)) == Assemble(id, DateString(d2))
  {
  }

  lemma AppendCancel(x: string, y: string, t: string)
    requires x + t == y + t
    ensures x == y
  {
    assert |x| == |y|;
    assert x == (x + t)[..|x|];
    assert y == (y + t)[..|y|];
  }

  /** A visible user with a truthy id is identified as `USER_<id>`, followed by the day. */
  lemma UserIdentifier(f: ForwardFields, md5: string -> HexDigest)
    requires f.forwardOrigin.Some? && f.forwardOrigin.value.shape.OriginUser?
    requires f.forwardOrigin.value.shape.senderUser.id != 0
    ensures Resolve(f, md5).uniqueIdentifier
              == Assemble(Some("USER_" + IntToDecimal(f.forwardOrigin.value.shape.senderUser.id)), DateString(ExpectedDate(f)))
  {
    IdentifierLayout(f, md5);
  }

  /** Forwards from two different visible users on the same day get different identifiers. */
  lemma UserIdentifiersDistinct(f1: ForwardFields, f2: ForwardFields, md5: string -> HexDigest)
    requires f1.forwardOrigin.Some? && f1.forwardOrigin.value.shape.OriginUser?
    requires f2.forwardOrigin.Some? && f2.forwardOrigin.value.shape.OriginUser?
    requires f1.forwardOrigin.value.shape.senderUser.id != 0 && f2.forwardOrigin.value.shape.senderUser.id != 0
    requires f1.forwardOrigin.value.shape.senderUser.id != f2.forwardOrigin.value.shape.senderUser.id
    requires DayOf(f1) == DayOf(f2)
    ensures Resolve(f1, md5).uniqueIdentifier != Resolve(f2, md5).uniqueIdentifier
  {
    var a := f1.forwardOrigin.value.shape.senderUser.id;
    var b := f2.forwardOrigin.value.shape.senderUser.id;
    UserIdentifier(f1, md5);
    UserIdentifier(f2, md5);
    var x := "USER_" + IntToDecimal(a);
    var y := "USER_" + IntToDecimal(b);
    var d1 := DateString(ExpectedDate(f1));
    var d2 := DateString(ExpectedDate(f2));
    if Assemble(Some(x), d1) == Assemble(Some(y), d2) {
      if d1.Some? {
        var day := Prefix(d1.value, 10);
        assert day == Prefix(d2.value, 10);
        AppendCancel(x + "_DATE_", y + "_DATE_", day);
        AppendCancel(x, y, "_DATE_");
      }
      assert IntToDecimal(a) == x[5..] == y[5..] == IntToDecimal(b);
      IntToDecimalInjective(a, b);
    }
  }

  // ---------------------------------------------------------------------------
  // Worked examples

  /** A forward from the visible user Ana (id 42, handle ana_tip), dated 2024-03-05. */
  const AnaForward: ForwardFields := ForwardFields(None, None, None, None, FlagMissing,
    Some(ForwardOrigin("user", OriginUser(User(42, Some("Ana"), Some(""), Some("ana_tip"))), Some("2024-03-05T10:00:00"))))

  /** A forward from the channel "Tips Canal" (id -100123, no handle), dated 2024-01-01. */
  const ChannelForward: ForwardFields := ForwardFields(None, None, None, None, FlagMissing,
    Some(ForwardOrigin("channel", OriginChannel(Chat(-100123, Some("Tips Canal"), None)), Some("2024-01-01T00:00:00"))))

  /** A forward from the hidden sender "Juan Privado", without a date. */
  const HiddenForward: ForwardFields := ForwardFields(None, None, None, None, FlagMissing,
    Some(ForwardOrigin("hidden_user", OriginHiddenUser("Juan Privado"), None)))

  /** An old-style forward from the channel "OldChannel" (id -5), with no modern origin. */
  const LegacyChannelForward: ForwardFields := ForwardFields(None, Some(Chat(-5, Some("OldChannel"), None)),
    None, None, FlagMissing, None)

  lemma ResolveAnaExample(md5: string -> HexDigest)
    ensures Get(Resolve(AnaForward, md5).originInfo, SenderUserId) == Int(42)
    ensures Get(Resolve(AnaForward, md5).originInfo, SenderName) == Str("Ana")
    ensures Resolve(AnaForward, md5).uniqueIdentifier == Some("USER_42_DATE_2024-03-05")
  {
    var u := AnaForward.forwardOrigin.value.shape.senderUser;
    FullNameFirstOnly(u);
    OriginBranchContents(AnaForward.forwardOrigin.value);
    UserIdentifier(AnaForward, md5);
    AnaStrings();
  }

  lemma AnaStrings()
    ensures Assemble(Some("USER_" + IntToDecimal(42)), DateString(ExpectedDate(AnaForward)))
              == Some("USER_42_DATE_2024-03-05")
  {
    assert IntToDecimal(42) == "42";
    assert DateString(ExpectedDate(AnaForward)) == Some("2024-03-05T10:00:00");
    assert Prefix("2024-03-05T10:00:00", 10) == "2024-03-05";
    assert "USER_" + "42" + "_DATE_" + "2024-03-05" == "USER_42_DATE_2024-03-05";
  }

  lemma ResolveChannelExample(md5: string -> HexDigest)
    ensures Resolve(ChannelForward, md5).uniqueIdentifier == Some("CHAT_-100123_DATE_2024-01-01")
  {
    IdentifierLayout(ChannelForward, md5);
    ChannelStrings(md5);
  }

  lemma ChannelDecimal()
    ensures IntToDecimal(-100123) == "-100123"
  {
    assert NatToDecimal(10) == "10";
    assert NatToDecimal(100) == "100";
    assert NatToDecimal(1001) == "1001";
    assert NatToDecimal(10012) == "10012";
    assert NatToDecimal(100123) == "100123";
  }

  lemma ChannelStrings(md5: string -> HexDigest)
    ensures Assemble(ExpectedIdentity(ChannelForward.forwardOrigin, md5), DateString(ExpectedDate(ChannelForward)))
              == Some("CHAT_-100123_DATE_2024-01-01")
  {
    ChannelIdentity(md5);
    ChannelDay();
    AssembleChannel("CHAT_-100123", "2024-01-01T00:00:00");
  }

  lemma AssembleChannel(id: string, d: string)
    requires id == "CHAT_-100123" && d == "2024-01-01T00:00:00"
    ensures Assemble(Some(id), Some(d)) == Some("CHAT_-100123_DATE_2024-01-01")
  {
    assert Prefix(d, 10) == "2024-01-01";
    assert id + "_DATE_" + "2024-01-01" == "CHAT_-100123_DATE_2024-01-01";
  }

  lemma ChannelIdentity(md5: string -> HexDigest)
    ensures ExpectedIdentity(ChannelForward.forwardOrigin, md5) == Some("CHAT_-100123")
  {
    ChannelDecimal();
    assert "CHAT_" + "-100123" == "CHAT_-100123";
  }

  lemma ChannelDay()
    ensures DateString(ExpectedDate(ChannelForward)) == Some("2024-01-01T00:00:00")
    ensures Prefix("2024-01-01T00:00:00", 10) == "2024-01-01"
  {
  }

  lemma ResolveHiddenExample(md5: string -> HexDigest)
    ensures Get(Resolve(HiddenForward, md5).originInfo, SenderName) == Str("Juan Privado")
    ensures Resolve(HiddenForward, md5).uniqueIdentifier == Some("PRIVATE_" + md5("Juan Privado")[..8])
  {
    IdentifierLayout(HiddenForward, md5);
  }

  lemma ResolveLegacyChannelExample(md5: string -> HexDigest)
    ensures Resolve(LegacyChannelForward, md5).isForwarded
    ensures forall k | IsIdentityKey(k) :: Get(Resolve(LegacyChannelForward, md5).originInfo, k) == Null
    ensures Resolve(LegacyChannelForward, md5).legacyChat == Some(LegacyChat(-5, Some("OldChannel"), None))
    ensures Resolve(LegacyChannelForward, md5).uniqueIdentifier == None
  {
    IdentifierLayout(LegacyChannelForward, md5);
  }

  // ---------------------------------------------------------------------------
  // The source's construction, step by step

  /** Fills the shared variant's `origin_info` from `forward_origin`, key by key. */
  method FillOriginInfo(origin: Option<ForwardOrigin>) returns (originInfo: OriginInfo)
    ensures originInfo == OriginInfoOf(origin)
  {
    originInfo := NoOrigin;
    if origin.Some? {
      var o := origin.value;
      originInfo := originInfo.(originType := Held(Str(o.originType)));
      match o.shape {
        case OriginUser(u) =>
          originInfo := originInfo.(senderUserId := Held(Int(u.id)));
          originInfo := originInfo.(senderName := Held(Str(FullName(u))));
          originInfo := originInfo.(senderUsername := Held(ValueOf(u.username)));
        case OriginHiddenUser(n) =>
          if n != "" {
            originInfo := originInfo.(senderName := Held(Str(n)));
          }
        case OriginChannel(c) =>
          originInfo := originInfo.(chatId := Held(Int(c.id)));
          originInfo := originInfo.(chatTitle := Held(ValueOf(c.title)));
          originInfo := originInfo.(chatUsername := Held(ValueOf(c.username)));
        case OriginOther =>
      }
      if o.date.Some? {
        originInfo := originInfo.(originDate := Held(Str(o.date.value)));
      }
    }
  }

  /** Builds `identifier_parts` by appending the identity segment, then the date segment. */
  method CollectIdentifierParts(originInfo: OriginInfo, forwardDate: Option<IsoDate>, md5: string -> HexDigest)
    returns (identifierParts: seq<string>)
    ensures identifierParts == IdentifierParts(originInfo, forwardDate, md5)
  {
    identifierParts := [];
    if Truthy(Get(originInfo, SenderUserId)) {
      identifierParts := identifierParts + ["USER_" + Render(Get(originInfo, SenderUserId))];
    } else if Truthy(Get(originInfo, SenderName)) {
      var nameHash := md5(Render(Get(originInfo, SenderName)))[..8];
      identifierParts := identifierParts + ["PRIVATE_" + nameHash];
    } else if Truthy(Get(originInfo, ChatId)) {
      identifierParts := identifierParts + ["CHAT_" + Render(Get(originInfo, ChatId))];
    }
    var dateStr: Option<string> := None;
    if Truthy(Get(originInfo, OriginDate)) {
      dateStr := Some(Render(Get(originInfo, OriginDate)));
    } else if forwardDate.Some? {
      dateStr := Some(forwardDate.value);
    }
    if dateStr.Some? && dateStr.value != "" {
      identifierParts := identifierParts + ["DATE_" + Prefix(dateStr.value, 10)];
    }
  }

  method AnalyzeForwardOrigin(f: ForwardFields, md5: string -> HexDigest) returns (info: ForwardInfo)
    ensures info == Resolve(f, md5)
  {
    var originInfo := FillOriginInfo(f.forwardOrigin);

    var isForwarded := f.forwardFrom.Some? || f.forwardFromChat.Some? || Present(f.forwardSenderName)
      || f.forwardDate.Some? || f.forwardOrigin.Some? || f.isAutomaticForward == Flag(true);

    var uniqueIdentifier: Option<string> := None;
    if isForwarded {
      var identifierParts := CollectIdentifierParts(originInfo, f.forwardDate, md5);
      if identifierParts != [] {
        uniqueIdentifier := Some(Join("_", identifierParts));
      }
    }

    info := ForwardInfo(isForwarded, DateString(f.forwardDate), AutoForwardValue(f.isAutomaticForward),
                        uniqueIdentifier, originInfo, None, None, None);
    if f.forwardFrom.Some? {
      info := info.(legacySender := Some(LegacySenderOf(f.forwardFrom.value)));
    }
    if f.forwardFromChat.Some? {
      info := info.(legacyChat := Some(LegacyChatOf(f.forwardFromChat.value)));
    }
    if Present(f.forwardSenderName) {
      info := info.(legacySenderName := f.forwardSenderName);
    }
  }
}
