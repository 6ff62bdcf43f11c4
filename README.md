# Forwarded-message provenance for a Telegram → Notion bot

This project models, in Dafny, the decision logic of a Telegram bot that files
betting tips ("apuestas") into a Notion database. The bot has several variants,
and each one classifies incoming messages.

When a message is forwarded, the bot works out where it came from:

- the visible user, the privacy-shielded sender name, or the channel;
- a deduplication key `USER_<id>` / `PRIVATE_<hash8>` / `CHAT_<id>`, with an
  optional `_DATE_<day>` suffix.

From that record it derives the tipster's name, the confirmation reply and the
text lines stored with the Notion page. The small pure helpers around this are
modelled as well:

- the image test;
- the generated file name;
- the sender display name;
- the message type, title and additional text of the original bot.

Modules, one per file:

- `PyText` (`py_text.dfy`): the Python value semantics the bots rely on.
  - Truthiness of `None`, `0` and `""`.
  - `str()` of a dictionary value, with `str(int)` and its parser.
  - `strip`, ASCII `lower`, slicing `s[:n]`, `startswith`/`endswith` and `join`.
- `Telegram` (`telegram.dfy`): the message fields the bots read.
  - Users, chats and photo sizes.
  - Documents.
  - The legacy `forward_*` fields and the modern `forward_origin`, with four
    shapes: user, hidden user, channel and other.
- `ForwardResolver` (`forward_resolver.dfy`): `_analyze_forward_origin` of the
  shared variant (bot_hybrid.py, bot_notion.py and bot_test.py are identical).
  - `Resolve` is the specification function.
  - `AnalyzeForwardOrigin`, `FillOriginInfo` and `CollectIdentifierParts` are
    the step-by-step code, proved equal to it.
- `Attribution` (`attribution.dfy`): the shared `_get_tipster_name` and
  `_format_forward_response`.
- `MainVariant` (`main_variant.dfy`): how bot_main.py deviates from the shared
  variant.
  - `origin_info` starts as `{}`.
  - `is_automatic_forward` defaults to `False`.
  - Its reply templates are different.
- `NotionRecord` (`notion_record.dfy`): from bot_main.py, `_get_user_name`, the
  record title, and the `additional_info` lines that `_create_notion_record`
  assembles before calling Notion.
- `MediaFiles` (`media_files.dfy`): `_is_image_file`, and `_generate_filename`
  with POSIX `os.path.splitext`.
- `MessageRecord` (`message_record.dfy`): bot.py's `_get_message_type`,
  `_get_file_url`, `_get_title` and `_get_additional_text`.

Abstractions used throughout:

- MD5 is a parameter `md5: string -> HexDigest`, a total function to 32-hex-digit
  strings.
- The clock readings are string parameters.
- Dates are the non-empty ISO strings that `.isoformat()` produces.
- An `origin_info` dictionary is a record of eight slots. Each slot is `Unset`
  (the key is absent) or `Held(v)`. `Get` is `dict.get`: an absent key reads as
  `None`.

## Model

| member | source | states |
|---|---|---|
| PyText.IntToDecimalRoundTrip | bot_hybrid.py:299 | `str(i)` of an id parses back to `i`, so distinct ids render distinctly |
| PyText.IntToDecimalInjective | bot_hybrid.py:304 | two ids with the same decimal rendering are equal |
| PyText.Strip | bot_hybrid.py:270 | `.strip()` yields the contiguous slice of its input left after removing only whitespace before and after it, with no space at either end |
| PyText.StripOfStripped | bot_hybrid.py:270 | stripping a string without surrounding spaces leaves it unchanged |
| PyText.Lower | bot_hybrid.py:183 | `.lower()` keeps the length and lowers each character |
| PyText.Prefix | bot_hybrid.py:308 | `s[:n]` has length `min(n, len(s))` and is a prefix of `s` |
| Telegram.FullNameFirstOnly | bot_hybrid.py:270 | with no last name the joined name is the first name alone: a missing half never shows as "None" and leaves no stray space |
| Telegram.FullNameLastOnly | bot_hybrid.py:270 | with no first name the joined name is the last name alone |
| Telegram.FullNameBoth | bot_hybrid.py:270 | with both halves the joined name is "first last" |
| ForwardResolver.Resolve | bot_hybrid.py:241-340 | `is_forwarded` holds iff one of the six forwarding signals is truthy; no identifier unless forwarded; all eight `origin_info` keys exist; `forward_date` and `is_automatic_forward` are passed through; each legacy block exists iff its source field is truthy; `legacy_sender` copies the user's id, handle and stripped full name, `legacy_chat` the chat's id, title and handle |
| ForwardResolver.WithBranch | bot_hybrid.py:264-280 | the matching origin branch sets exactly its own keys and leaves every other key as it was |
| ForwardResolver.OriginInfoOf | bot_notion.py:192-205 | the shared `origin_info` always holds all eight keys |
| ForwardResolver.OriginBranchOnly | bot_notion.py:192-205 | without an origin every key is `None`; with one, `origin_type` copies its type and every identity key outside the matched branch stays `None` |
| ForwardResolver.OriginDateWheneverDated | bot_hybrid.py:282-285 | `origin_date` is the origin's date whenever it has one, whichever branch matched, and `None` otherwise |
| ForwardResolver.OriginBranchContents | bot_hybrid.py:267-280 | a user origin stores its id, stripped full name and handle; a hidden user stores its name; a channel stores its id, title and handle |
| ForwardResolver.IdentifierLayout | bot_hybrid.py:293-311 | the identifier, read off the message: none unless forwarded; otherwise the USER > PRIVATE > CHAT segment (each only if truthy), then `DATE_` and the first 10 characters of the origin date, else the forward date, joined by "_"; none when neither segment exists |
| ForwardResolver.DateSource | bot_hybrid.py:306 | the date used for the identifier is non-empty whenever there is one |
| ForwardResolver.JoinedParts | bot_hybrid.py:296-311 | `"_".join` of the collected segments is the identity segment, then the date segment |
| ForwardResolver.AutomaticForwardOnly | bot_hybrid.py:288-311 | a message whose only signal is `is_automatic_forward` is forwarded but gets no identifier |
| ForwardResolver.IdentitySegmentReadsOrigin | bot_hybrid.py:298-304 | the identity segment chosen from `origin_info` is the one read off the origin itself: a user's non-zero id, else the hash of the user's joined name or of the hidden name, else a channel's non-zero id |
| ForwardResolver.PrivateIdentifierStable | bot_notion.py:243-246 | two forwards from the same hidden name on the same day get the same identifier |
| ForwardResolver.UserIdentifier | bot_notion.py:241-253 | a visible user with a truthy id yields `USER_<id>`, followed by the date segment |
| ForwardResolver.UserIdentifiersDistinct | bot_hybrid.py:298-299 | two visible users with different ids never share an identifier on the same day |
| ForwardResolver.ResolveAnaExample | bot_hybrid.py:267-311 | user 42 "Ana", forwarded on 2024-03-05, gets `USER_42_DATE_2024-03-05` |
| ForwardResolver.ResolveChannelExample | bot_notion.py:218-223 | channel -100123 gets `CHAT_-100123_DATE_2024-01-01` |
| ForwardResolver.ResolveHiddenExample | bot_notion.py:214-216 | hidden name "Juan Privado" gets `PRIVATE_` and the first 8 hash characters |
| ForwardResolver.ResolveLegacyChannelExample | bot_hybrid.py:330-335 | a legacy-only channel forward keeps `legacy_chat`, has no modern identity and no identifier |
| ForwardResolver.FillOriginInfo | bot_hybrid.py:252-285 | the step-by-step filling of `origin_info` equals `OriginInfoOf` |
| ForwardResolver.CollectIdentifierParts | bot_hybrid.py:296-308 | the step-by-step `identifier_parts` list equals `IdentifierParts` |
| ForwardResolver.AnalyzeForwardOrigin | bot_hybrid.py:241-340 | the method computes exactly `Resolve` |
| Attribution.TipsterName | bot_hybrid.py:342-371 | the tipster name is never empty, and is "Usuario directo" when the message is not forwarded |
| Attribution.FirstNonEmpty | bot_hybrid.py:350-371 | a priority chain returns the first non-empty candidate when there is one, and the default when all are empty |
| Attribution.FirstNonEmptyAppend | bot_hybrid.py:350-371 | searching two chains in a row consults the second only when the first has no non-empty candidate |
| Attribution.TipsterIsFirstCandidate | bot_hybrid.py:342-371 | for a forward, the name is the first non-empty of: chat title, "@"+handle, sender name, legacy chat title, "@"+legacy handle, legacy full name, legacy sender name; else "Tipster desconocido" |
| Attribution.LegacyChainIsSearch | bot_hybrid.py:358-371 | the legacy chain is the if/elif order chat title > "@"+handle > full name > hidden name > "Tipster desconocido" |
| Attribution.ModernChainIsSearch | bot_hybrid.py:349-355 | the modern chain is the if/elif order chat title > "@"+handle > sender name |
| Attribution.TipsterIgnoresLegacy | bot_notion.py:294-319 | legacy fields are not consulted when a modern candidate is truthy |
| Attribution.TipsterFallsBackToLegacy | bot_notion.py:294-319 | with no truthy modern candidate, the legacy chain decides |
| Attribution.LegacyTipsterOfMessage | bot_hybrid.py:322-370 | with no truthy modern candidate, the tipster of a forwarded message is its chat's title, else "@" and its sender's handle, else the sender's full name, else the hidden sender's name, else "Tipster desconocido", read straight from the message |
| Attribution.FormatForwardResponse | bot_hybrid.py:373-440 | the response is empty iff the message was not forwarded |
| Attribution.ResponseArrow | bot_hybrid.py:373-440 | every response to a forwarded message, modern, legacy, private or generic, begins with "\n🔄" |
| Attribution.IdLineOnlyWhenPrivate | bot_hybrid.py:392-397 | the "🆔 ID:" line is appended only in the two private-name branches and only when an identifier is set; otherwise the identifier does not affect the response |
| Attribution.LegacyFallbackOrder | bot_notion.py:360-391 | the fallback order is legacy sender (ending in its id) > legacy chat (ending in its id) > legacy name (private) > "\n🔄 Mensaje reenviado" |
| Attribution.NotForwardedRendering | bot_hybrid.py:344-345 | a message that is not forwarded gets "Usuario directo" and an empty response |
| Attribution.UserOriginResponse | bot_test.py:245-254 | a visible user is shown by "@handle" when there is one, else by name, always with its id |
| Attribution.ChannelOriginResponse | bot_test.py:264-273 | a channel is shown by "@handle" when there is one, else by title or "Canal", always with its id |
| Attribution.HiddenOriginResponse | bot_hybrid.py:392-397 | a hidden user gets the private response followed by its `PRIVATE_<hash8>` identifier |
| Attribution.UserOriginTipster | bot_hybrid.py:352-353 | a visible user with a handle is named "@handle" |
| Attribution.ChannelOriginTipster | bot_hybrid.py:350-351 | a channel with a title is named by its title |
| Attribution.HiddenOriginTipster | bot_hybrid.py:354-355 | a hidden user is named by its shown name |
| Attribution.ChannelTipster | bot_hybrid.py:350-351 | any forward from the worked channel is named "Tips Canal" |
| Attribution.HiddenTipster | bot_hybrid.py:354-355 | any forward from the worked hidden sender is named "Juan Privado" |
| Attribution.LegacyChannelTipster | bot_hybrid.py:362-363 | the legacy-only channel example is named "OldChannel" |
| MainVariant.MainOriginInfoOf | bot_main.py:166-192 | bot_main's `origin_info` never holds `origin_type` |
| MainVariant.MainOriginKeys | bot_main.py:166-192 | a key is present iff the matched branch sets it, or it is `origin_date` and the origin has a date |
| MainVariant.MainReadsLikeShared | bot_main.py:166-192 | apart from `origin_type`, reading any key gives the same value as in the shared variant |
| MainVariant.ResolveMain | bot_main.py:154-251 | forwarded iff one of the six signals is truthy; no identifier unless forwarded; `forward_date` passed through; a missing `is_automatic_forward` counts as `False` |
| MainVariant.MainResolvesLikeShared | bot_main.py:200-222 | bot_main gives the same forwarded flag, identifier, date and legacy blocks as the shared variant; the automatic-forward value differs only when the attribute is missing |
| MainVariant.FillMainOriginInfo | bot_main.py:166-192 | the step-by-step filling of `origin_info` equals `MainOriginInfoOf` |
| MainVariant.AnalyzeForwardOriginMain | bot_main.py:154-251 | the method computes exactly `ResolveMain` |
| MainVariant.CollectIdentifierPartsMain | bot_main.py:203-219 | the parts list built with the repeated name guard is the shared `IdentifierParts`: at most one identity segment, then the date segment |
| MainVariant.FormatForwardResponseMain | bot_main.py:253-300 | the response is empty iff the message was not forwarded |
| MainVariant.MainResponseHeader | bot_main.py:253-300 | every response to a forwarded message begins with the "🔄 **Mensaje reenviado" header |
| MainVariant.MainResponseIgnoresLegacyChatAndName | bot_main.py:295-300 | `legacy_chat` and `legacy_sender_name` never affect the response |
| MainVariant.MainFallback | bot_main.py:295-300 | without a modern identity, the response ends with the legacy sender's id, else with "ID único: " and the identifier or "N/A" |
| MainVariant.MainUserOriginResponse | bot_main.py:262-274 | a visible user shows "ID: <id>", then " (@handle)" if any, else " (name)" if non-empty |
| MainVariant.MainChannelOriginResponse | bot_main.py:281-293 | a channel shows "ID: <id>", then " (@handle)" if any, else " (title)" if truthy |
| NotionRecord.DisplayName | bot_main.py:754-771 | the sender's display name is never empty |
| NotionRecord.GetUserName | bot_main.py:754-771 | the step-by-step `parts` join equals `DisplayName`: "Usuario desconocido", else the truthy names joined by a space, else "@handle", else "Usuario <id>" |
| NotionRecord.DisplayNameIsFullName | bot_main.py:754-767 | for a sender with a name and no stray spaces, the display name is the same joined name the resolver stores |
| NotionRecord.RecordTitle | bot_main.py:570-571 | the title is exactly "Apuesta ", the sender's display name, " - " and the time, and the display name can be cut back out of it |
| NotionRecord.RecordTitleNamesSender | bot_main.py:570-571 | two titles made at the same time are equal iff the senders' display names are |
| NotionRecord.AppendOriginLines | bot_main.py:590-615 | the step-by-step origin lines equal `OriginLines` appended to the list |
| NotionRecord.AppendForwardLines | bot_main.py:584-628 | the forward block is the marker, the origin lines, the date line, the id line and the forwarder line, in that order |
| NotionRecord.CollectTextLines | bot_main.py:574-581 | the list opens with "Texto: " and the first 300 characters of the text (else caption) exactly when it is not blank, as `TextLines` says |
| NotionRecord.AssembleAdditionalInfo | bot_main.py:579-635 | the step-by-step list equals `AdditionalInfoLines`, and `market_info` is its "\n" join |
| NotionRecord.FileLineLast | bot_main.py:632-633 | the file line always closes the list, after at least one other line |
| NotionRecord.TextLineWhenNotBlank | bot_main.py:580-581 | the list opens with "Texto: " iff the text is not blank, and that line holds at most 300 characters of the text |
| NotionRecord.ForwardingLines | bot_main.py:584-630 | a forward puts the marker right after the text line and includes the id line when it has an identifier; other messages get "📤 Usuario:" right before the file line |
| NotionRecord.IdLineOnlyWithIdentifier | bot_main.py:622-623 | an "🆔 ID único:" line appears only for a forward with an identifier |
| MediaFiles.IsImageFile | bot_hybrid.py:173-188 | any photo is an image; no photo and no document is not; a document is one iff its lower-cased name ends in an image extension or its MIME type starts with "image/" |
| MediaFiles.ImageExtensionIgnoresCase | bot_notion.py:120-121 | the extension test ignores letter case |
| MediaFiles.UpperCaseJpgIsImage | bot_notion.py:120-121 | a document named "….JPG" is an image whatever its MIME type |
| MediaFiles.PlainDocumentIsNotImage | bot_notion.py:116-124 | a document with neither an image extension nor an image MIME type is not an image |
| MediaFiles.RFind | bot_notion.py:135 | the last index holding a character, or -1 |
| MediaFiles.SplitExt | bot_notion.py:135 | `splitext` splits the name into a stem and an extension that concatenate back to it |
| MediaFiles.SplitExtShape | bot_notion.py:135 | the extension is empty, or a dot followed by characters that are neither dots nor slashes |
| MediaFiles.GenerateFilename | bot_notion.py:128-138 | a photo gives "photo_<ts>.jpg"; anything without a named document gives "image_<ts>.bin" |
| MediaFiles.GeneratedNameKeepsExtension | bot_notion.py:134-136 | inserting "_<ts>" between stem and extension keeps both: the result splits into "<stem>_<ts>" and the original extension |
| MediaFiles.NamedDocumentKeepsExtension | bot_hybrid.py:196-198 | the name generated for a named document has the document's own extension |
| MediaFiles.PhotoFilenameIsImage | bot_hybrid.py:194-195 | the name generated for a photo passes the image-extension test |
| MessageRecord.MessageType | bot.py:87-96 | the type is "Foto" iff a photo, "Archivo" iff a document without a photo, "Texto" iff text without either, "Otro" otherwise |
| MessageRecord.FileUrl | bot.py:98-105 | no reference iff no photo and no document; otherwise the last (largest) photo size's id, else the document's id |
| MessageRecord.FileUrlMatchesType | bot.py:87-105 | a message has a file reference exactly when its type is "Foto" or "Archivo" |
| MessageRecord.Truncated | bot.py:112-117 | text of up to 50 characters is kept whole; longer text becomes its first 50 characters and "..." |
| MessageRecord.TruncatedBounds | bot.py:112-117 | the truncated form has at most 53 characters |
| MessageRecord.Title | bot.py:107-126 | the title is the truncated text, else the truncated caption, else exactly "<type> - <timestamp>" |
| MessageRecord.TitleFromContentIsShort | bot.py:112-123 | a title drawn from text or caption has at most 53 characters |
| MessageRecord.LongTextTitle | bot.py:112-117 | text over 50 characters gives a 53-character title ending in "..." |
| MessageRecord.TitlePrefersText | bot.py:112-118 | the caption does not affect the title when there is text |
| MessageRecord.DefaultTitleShowsTimestamp | bot.py:124-126 | two clock readings give two different default titles |
| MessageRecord.ShortTitleExample | test_bot.py:67-74 | "Mensaje corto" is its own title |
| MessageRecord.LongTitleExample | test_bot.py:76-80 | the long sample text gives a title of at most 53 characters containing "..." |
| MessageRecord.BodyText | bot.py:130-135 | the body is the text when non-empty, else the caption, else "" |
| MessageRecord.FileNameOrDefault | bot.py:139 | the file name, or "Sin nombre" when it is missing or empty |
| MessageRecord.FileSizeOrDefault | bot.py:140 | a non-zero size renders as a decimal that parses back to it; otherwise "Desconocido" |
| MessageRecord.AdditionalText | bot.py:128-145 | the additional text is exactly the body followed by the media lines |
| MessageRecord.GetAdditionalText | bot.py:128-145 | the `+=` accumulation equals `AdditionalText` |
| MessageRecord.PlainMessageText | bot.py:137-143 | a message with neither a document nor a photo contributes only its body |
| MessageRecord.DocumentTextMentionsFile | bot.py:137-141 | a document's additional text contains the body, the file name and the size |
| MessageRecord.PhotoTextMarksImage | bot.py:142-143 | a photo without a document appends "\nTipo: Imagen" |
| MessageRecord.TextOnlyExample | test_bot.py:98-105 | plain "Texto de prueba" is stored as it is |
| MessageRecord.CaptionedDocumentExample | test_bot.py:107-117 | the captioned 1024-byte "documento.pdf" mentions the caption, the name and "1024" |

## Left out

- The Telegram runtime is not modelled: polling, the async handlers, replies,
  and downloading files.
- The Notion client calls are not modelled. Only the text built for them is:
  the title and `additional_info` of bot_main.py; the page bodies of the other
  variants are not part of this model.
- The MD5 algorithm is a parameter, as are the clock readings
  (`datetime.now()`, `strftime`) and date formatting (`isoformat()`). Dates
  enter the model as already-formatted ISO strings.
- Configuration and environment checks, logging and `print` output,
  `stats_command` and `json.dumps` are not modelled.
- `_extract_forward_info` is reduced to what the record lines read from it. The
  "sender" entry is taken from `message.from_user`, because that entry exists
  exactly when there is a sender and holds the same stripped full name and id.
  The chat and timestamp entries are not modelled.
- MediaFiles.IsImageFile: `lower()` is modelled for ASCII letters only, while
  Python lowers all of Unicode. The only non-ASCII characters that Python lowers
  to ASCII letters are the Kelvin sign (to `k`) and dotted capital I (to `i` plus
  a combining dot). Neither occurs in an image extension, so the result of the
  extension test is unaffected.
- MediaFiles.SplitExt: follows POSIX `os.path.splitext`. The Windows variant,
  which also splits on backslashes and drive letters, is not modelled.
- Python `str()` for a user or chat id is modelled for integers. Other ids (a
  string or a mock) are outside the model.
- Attribution.TipsterName: states "never empty" and "'Usuario directo' when not
  forwarded" but not the converse, because the converse is false. A forwarded
  message from a channel titled "Usuario directo" also yields that name.
  `TipsterIsFirstCandidate` states exactly what a forwarded message yields.
- MainVariant.CollectIdentifierPartsMain keeps bot_main.py's extra
  `if sender_name:` guard at bot_main.py:210. The guard can never be false
  there, because the `elif` before it already checked the same value, so it
  does not change the result.
- ForwardResolver.ExpectedIdentity: a visible user whose id is falsy (0) falls
  through to the name hash. Telegram never issues id 0, but the code allows it,
  and the model follows the code.
- The origin variant has a fourth shape, `OriginOther`, for origins that carry
  none of `sender_user`, `sender_user_name` or `chat`. Such an origin still sets
  `origin_type` and `origin_date`.
