/**
 * The read-only view of a Telegram message that the bots consume: the sender,
 * text and media fields, and the two generations of forwarding metadata.
 * Every field the bots read with `getattr(..., None)` is an `Option`.
 */
module Telegram {
  import opened PyText

  /** A `datetime` already rendered by `.isoformat()`; that string is never empty. */
  type IsoDate = s: string | s != [] witness "1970-01-01T00:00:00"

  /** The 32 lower-case hex digits of `hashlib.md5(...).hexdigest()`. */
  type HexDigest = s: string | |s| == 32 && forall i | 0 <= i < |s| :: IsHexDigit(s[i])
    witness "00000000000000000000000000000000"

  predicate IsHexDigit(c: char) {
    ('0' <= c <= '9') || ('a' <= c <= 'f')
  }

  datatype User = User(id: int, firstName: Option<string>, lastName: Option<string>, username: Option<string>)

  datatype Chat = Chat(id: int, title: Option<string>, username: Option<string>)

  /**
   * The shape of a Bot API `MessageOrigin`, as the bots probe it: an attribute
   * `sender_user` (MessageOriginUser), `sender_user_name` (MessageOriginHiddenUser)
   * or `chat` (MessageOriginChannel). MessageOriginChat carries `sender_chat`
   * instead, which none of the probes matches, so it is `OriginOther`.
   */
  datatype OriginShape =
    | OriginUser(senderUser: User)
    | OriginHiddenUser(senderUserName: string)
    | OriginChannel(chat: Chat)
    | OriginOther

  /** `message.forward_origin`: its `type` tag, its shape and its `date`. */
  datatype ForwardOrigin = ForwardOrigin(originType: string, shape: OriginShape, date: Option<IsoDate>)

  /**
   * `message.is_automatic_forward`: the attribute may be missing altogether,
   * present with value `None`, or a boolean.
   */
  datatype AutoForwardFlag = FlagMissing | FlagNull | Flag(b: bool)

  /** The forwarding fields of a message, legacy and modern. */
  datatype ForwardFields = ForwardFields(
    forwardFrom: Option<User>,
    forwardFromChat: Option<Chat>,
    forwardSenderName: Option<string>,
    forwardDate: Option<IsoDate>,
    isAutomaticForward: AutoForwardFlag,
    forwardOrigin: Option<ForwardOrigin>)

  datatype PhotoSize = PhotoSize(fileId: string)

  datatype Document = Document(fileId: string, fileName: Option<string>, mimeType: Option<string>, fileSize: Option<int>)

  /** A message; `photo` is the list of sizes of a photo, empty when there is none. */
  datatype Message = Message(
    fromUser: Option<User>,
    text: Option<string>,
    caption: Option<string>,
    photo: seq<PhotoSize>,
    document: Option<Document>,
    forward: ForwardFields)

  /**
   * The name-join rule used for every user in the bots:
   * `f"{first or ''} {last or ''}".strip()`.
   */
  function FullName(u: User): string {
    Strip(OrEmpty(u.firstName) + " " + OrEmpty(u.lastName))
  }

  /** A missing half of a name contributes nothing, never a placeholder. */
  lemma FullNameFirstOnly(u: User)
    requires Stripped(OrEmpty(u.firstName)) && OrEmpty(u.lastName) == ""
    ensures FullName(u) == OrEmpty(u.firstName)
  {
    var f := OrEmpty(u.firstName);
    var t := f + " " + "";
    if f == [] {
      TrimStartDropsSpaces(" ", "");
      assert t == " " + "";
    } else {
      assert t == f + " " && !IsSpace(t[0]);
      assert TrimStart(t) == t;
      TrimEndDropsSpaces(f, " ");
    }
  }

  lemma FullNameLastOnly(u: User)
    requires OrEmpty(u.firstName) == "" && Stripped(OrEmpty(u.lastName))
    ensures FullName(u) == OrEmpty(u.lastName)
  {
    var l := OrEmpty(u.lastName);
    TrimStartDropsSpaces(" ", l);
    assert "" + " " + l == " " + l;
    StripOfStripped(l);
  }

  lemma FullNameBoth(u: User)
    requires OrEmpty(u.firstName) != "" && OrEmpty(u.lastName) != ""
    requires Stripped(OrEmpty(u.firstName)) && Stripped(OrEmpty(u.lastName))
    ensures FullName(u) == OrEmpty(u.firstName) + " " + OrEmpty(u.lastName)
  {
    var t := OrEmpty(u.firstName) + " " + OrEmpty(u.lastName);
    assert Stripped(t);
    StripOfStripped(t);
  }
}
