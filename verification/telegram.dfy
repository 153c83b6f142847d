/**
 * The Telegram-side helpers: hashtag extraction, message text composition
 * and the choice between the link and the download path for media.
 */
module TelegramHandler {
  import opened Wrappers
  import opened PyStr
  import opened Messages
  import Markdown

  /** The hashtag entities of a message, in entity order. */
  function HashtagEntities(es: seq<Entity>): (r: seq<Entity>)
    ensures |r| <= |es|
    ensures forall e :: e in r <==> e in es && e.kind == Hashtag
  {
    if es == [] then []
    else (if es[0].kind == Hashtag then [es[0]] else []) + HashtagEntities(es[1..])
  }

  /** The filter keeps order and repeats: it maps a concatenation to the concatenation of its results. */
  lemma {:induction false} HashtagEntitiesAppend(a: seq<Entity>, b: seq<Entity>)
    ensures HashtagEntities(a + b) == HashtagEntities(a) + HashtagEntities(b)
    decreases |a|
  {
    if a == [] {
      assert a + b == b;
    } else {
      assert (a + b)[0] == a[0] && (a + b)[1..] == a[1..] + b;
      HashtagEntitiesAppend(a[1..], b);
    }
  }

  /** A single entity is kept exactly when it is a hashtag. */
  lemma HashtagEntitiesSingle(e: Entity)
    ensures HashtagEntities([e]) == if e.kind == Hashtag then [e] else []
  {
    assert [e][1..] == [];
  }

  /** The text an entity covers, as Python slices it. */
  function Covered(text: string, e: Entity): string {
    Slice(text, e.offset, e.offset + e.length)
  }

  /** `tags` holds, in order, the text under each entity of `hs`. */
  predicate TextsOf(text: string, hs: seq<Entity>, tags: seq<string>) {
    |tags| == |hs| && forall i :: 0 <= i < |hs| ==> tags[i] == Covered(text, hs[i])
  }

  lemma TextsOfCons(text: string, e: Entity, hs: seq<Entity>, tags: seq<string>)
    requires TextsOf(text, hs, tags)
    ensures TextsOf(text, [e] + hs, [Covered(text, e)] + tags)
  {
    var hs', tags' := [e] + hs, [Covered(text, e)] + tags;
    forall i | 0 <= i < |hs'|
      ensures tags'[i] == Covered(text, hs'[i])
    {
      if i > 0 {
        assert hs'[i] == hs[i - 1] && tags'[i] == tags[i - 1];
      }
    }
  }

  /** The text under each hashtag entity of `es`, in entity order. */
  function HashtagTexts(text: string, es: seq<Entity>): (tags: seq<string>)
    ensures TextsOf(text, HashtagEntities(es), tags)
    decreases |es|
  {
    if es == [] then []
    else
      var rest := HashtagTexts(text, es[1..]);
      if es[0].kind == Hashtag then
        assert HashtagEntities(es) == [es[0]] + HashtagEntities(es[1..]);
        TextsOfCons(text, es[0], HashtagEntities(es[1..]), rest);
        [Covered(text, es[0])] + rest
      else
        assert HashtagEntities(es) == HashtagEntities(es[1..]);
        rest
  }

  /**
   * `get_message_forward_hashtags`: the text under each hashtag entity, with
   * its case unchanged, in entity order.
   */
  function ForwardHashtags(m: Message): (tags: seq<string>)
    ensures m.entities == [] ==> tags == []
    ensures var hs := HashtagEntities(m.entities);
            && |tags| == |hs|
            && forall i :: 0 <= i < |hs| ==> tags[i] == Slice(m.text, hs[i].offset, hs[i].offset + hs[i].length)
  {
    var tags := HashtagTexts(m.text, m.entities);
    assert TextsOf(m.text, HashtagEntities(m.entities), tags);
    tags
  }

  /** The hashtags of two runs of entities are those of the first run followed by those of the second. */
  lemma {:induction false} HashtagTextsAppend(text: string, a: seq<Entity>, b: seq<Entity>)
    ensures HashtagTexts(text, a + b) == HashtagTexts(text, a) + HashtagTexts(text, b)
    decreases |a|
  {
    if a == [] {
      assert a + b == b;
    } else {
      assert (a + b)[0] == a[0] && (a + b)[1..] == a[1..] + b;
      HashtagTextsAppend(text, a[1..], b);
    }
  }

  lemma ForwardHashtagsAppend(m: Message, a: seq<Entity>, b: seq<Entity>)
    ensures ForwardHashtags(m.(entities := a + b))
            == ForwardHashtags(m.(entities := a)) + ForwardHashtags(m.(entities := b))
  {
    HashtagTextsAppend(m.text, a, b);
  }

  /** An entity that no hashtag entity precedes adds nothing. */
  lemma ForwardHashtagsIgnoreOthers(m: Message, e: Entity)
    requires e.kind != Hashtag
    ensures ForwardHashtags(m.(entities := [e] + m.entities)) == ForwardHashtags(m)
  {
    assert ([e] + m.entities)[1..] == m.entities;
  }

  /** A hashtag entity covering a range of the text yields exactly that text. */
  lemma HashtagTextIsSlice(text: string, offset: nat, length: nat)
    requires offset + length <= |text|
    ensures ForwardHashtags(Message(0, text, [Entity(Hashtag, offset, length)], false, None))
            == [text[offset..offset + length]]
  {
    var es := [Entity(Hashtag, offset, length)];
    assert HashtagEntities(es) == es by {
      assert es[1..] == [];
    }
  }

  /** The line appended when everyone is to be mentioned. */
  const EveryoneSuffix: string := "\n@everyone"

  /** The line prepended for role mentions: the roles joined by `", "`, then a newline. */
  function RolesPrefix(roles: seq<string>): string {
    if roles == [] then [] else Join(roles, ", ") + "\n"
  }

  /**
   * The text `process_message_text` builds before the markdown step: the
   * message text, the AI suggestions when enabled, the `@everyone` line, and
   * the role line in front.
   */
  function ComposeText(text: string, suggestions: Option<string>, mentionEveryone: bool, roles: seq<string>): (r: string)
    ensures var body := if suggestions.Some? then text + "\n" + suggestions.value else text;
            var pre := RolesPrefix(roles);
            var suf := if mentionEveryone then EveryoneSuffix else [];
            && |r| == |pre| + |body| + |suf|
            && r[..|pre|] == pre
            && r[|pre|..|pre| + |body|] == body
            && r[|pre| + |body|..] == suf
  {
    var body := if suggestions.Some? then text + "\n" + suggestions.value else text;
    var withEveryone := if mentionEveryone then body + EveryoneSuffix else body;
    var r := RolesPrefix(roles) + withEveryone;
    assert r == RolesPrefix(roles) + body + (if mentionEveryone then EveryoneSuffix else []);
    r
  }

  /** Without AI suggestions and mentions, the composed text is the message text itself. */
  lemma ComposeTextPlain(text: string)
    ensures ComposeText(text, None, false, []) == text
  {
  }

  /** Why `process_message_text` fails as written. */
  datatype TextError = TypeError | ImportError

  /**
   * `process_message_text` as written: it calls `telegram_entities_to_markdown`
   * with three arguments while the function takes two, so the call raises.
   */
  function ProcessMessageTextAsWritten(m: Message, suggestions: Option<string>, mentionEveryone: bool,
                                       roles: seq<string>, stripOffLinks: bool): (r: Result<string, TextError>)
    ensures r.Failure?
  {
    Failure(TypeError)
  }

  /**
   * `process_message_text` with the call repaired to two arguments: the
   * composed text converted to markdown. `stripOffLinks` has no effect.
   */
  function ProcessMessageText(m: Message, suggestions: Option<string>, mentionEveryone: bool,
                              roles: seq<string>, stripOffLinks: bool): (r: Result<string, TextError>)
    ensures r.Success?
    ensures m.entities == [] ==> r.value == ComposeText(m.text, suggestions, mentionEveryone, roles)
  {
    Success(Markdown.ToMarkdown(ComposeText(m.text, suggestions, mentionEveryone, roles), m.entities))
  }

  /** The repaired version keeps the message text between the mention lines. */
  lemma ProcessMessageTextKeepsText(m: Message, mentionEveryone: bool, roles: seq<string>, strip: bool)
    requires m.entities == []
    ensures var r := ProcessMessageText(m, None, mentionEveryone, roles, strip).value;
            var pre := |RolesPrefix(roles)|;
            && r[pre..pre + |m.text|] == m.text
            && (mentionEveryone <==> |r| == pre + |m.text| + |EveryoneSuffix|)
  {
  }

  /** The names the legacy `utils.py` binds at module level: its imports, constant, logger and four functions. */
  const LegacyUtilsNames: set<string> :=
    {"json", "List", "app_logger", "MESSAGES_MAPPING_FILE_HISTORY", "logger",
     "load_mapping_data", "save_mapping_data", "get_discord_message_id", "split_message"}

  /** The name the legacy handler imports from `utils` for the markdown step. */
  const LegacyMarkdownName: string := "telegram_entities_to_markdown"

  /**
   * `process_message_text` of the legacy handler as written: its module
   * imports the converter from `utils`, which does not define it, so the
   * import raises before any message is processed.
   */
  function ProcessMessageTextLegacyAsWritten(m: Message, mentionEveryone: bool, overrideMentionEveryone: bool)
    : (r: Result<string, TextError>)
    ensures r == Failure(ImportError)
  {
    assert LegacyMarkdownName[0] == 't';
    if LegacyMarkdownName in LegacyUtilsNames then
      Success(ProcessMessageTextLegacy(m, mentionEveryone, overrideMentionEveryone))
    else Failure(ImportError)
  }

  /** Every call of the legacy text step fails on the import. */
  lemma LegacyTextImportFails(m: Message, mentionEveryone: bool, overrideMentionEveryone: bool)
    ensures ProcessMessageTextLegacyAsWritten(m, mentionEveryone, overrideMentionEveryone) == Failure(ImportError)
  {
    assert LegacyMarkdownName[0] == 't';
  }

  /**
   * `process_message_text` of the legacy handler with the converter imported
   * from where it is defined, the first version's: `@everyone` when either
   * flag is set, then the markdown step over the message's entities.
   */
  function ProcessMessageTextLegacy(m: Message, mentionEveryone: bool, overrideMentionEveryone: bool): (r: string)
    ensures m.entities == [] ==> |r| >= |m.text| && r[..|m.text|] == m.text
    ensures m.entities == [] ==> ((mentionEveryone || overrideMentionEveryone) <==> r[|m.text|..] == EveryoneSuffix)
    ensures m.entities == [] && !(mentionEveryone || overrideMentionEveryone) ==> r == m.text
  {
    var text := if mentionEveryone || overrideMentionEveryone then m.text + EveryoneSuffix else m.text;
    Markdown.ToMarkdownV1(text, m.entities)
  }

  /**
   * Without entities, the legacy text step and the bridge's agree: either
   * flag of the legacy handler does what the bridge's single flag does.
   */
  lemma LegacyTextMatchesBridge(m: Message, mentionEveryone: bool, overrideMentionEveryone: bool, strip: bool)
    requires m.entities == []
    ensures ProcessMessageTextLegacy(m, mentionEveryone, overrideMentionEveryone)
            == ProcessMessageText(m, None, mentionEveryone || overrideMentionEveryone, [], strip).value
  {
    assert RolesPrefix([]) == [];
  }

  /** The two ways a media message is delivered. */
  datatype MediaPath = LinkPath | DownloadPath

  predicate IsLink(e: Entity) {
    e.kind.TextUrl? || e.kind == Url
  }

  /**
   * `handle_message_media`'s branch: the text-only link path whenever a URL
   * entity is present. `ChooseMediaPathAppend` states how the choice
   * composes over runs of entities.
   */
  function ChooseMediaPath(m: Message): (p: MediaPath)
    ensures p == LinkPath <==> exists e :: e in m.entities && IsLink(e)
  {
    if exists e :: e in m.entities && IsLink(e) then LinkPath else DownloadPath
  }

  /**
   * `handle_message_media` of the bridge: on the link path, the messages
   * posted with the text; on the download path, what `process_media_message`
   * returns, `None` when opening the downloaded file raised `OSError`.
   */
  function HandleMessageMedia(m: Message, linkSent: seq<int>, downloaded: Option<seq<int>>): (r: Option<seq<int>>)
    ensures (exists e :: e in m.entities && IsLink(e)) ==> r == Some(linkSent)
    ensures (forall e :: e in m.entities ==> !IsLink(e)) ==> r == downloaded
    ensures r.None? <==> ChooseMediaPath(m) == DownloadPath && downloaded.None?
  {
    match ChooseMediaPath(m)
    case LinkPath => Some(linkSent)
    case DownloadPath => downloaded
  }

  /**
   * `handle_message_media` of the legacy handler: its `return` sits inside
   * the `else`, so the link path returns `None` whatever was sent. The
   * download path has no `OSError` handler of its own.
   */
  function LegacyHandleMessageMedia(m: Message, linkSent: seq<int>, downloaded: seq<int>): (r: Option<seq<int>>)
    ensures r.None? <==> exists e :: e in m.entities && IsLink(e)
    ensures r.Some? ==> r.value == downloaded
  {
    match ChooseMediaPath(m)
    case LinkPath => None
    case DownloadPath => Some(downloaded)
  }

  /**
   * A media message with a link whose parts were all sent still comes back
   * as `None` from the legacy handler, so its caller records no mapping;
   * the bridge's version returns what was sent.
   */
  lemma LegacyLinkMediaLosesResult()
    ensures var m := Message(1, "see x", [Entity(Url, 4, 1)], true, None);
            && LegacyHandleMessageMedia(m, [42], [7]) == None
            && HandleMessageMedia(m, [42], Some([7])) == Some([42])
  {
    var m := Message(1, "see x", [Entity(Url, 4, 1)], true, None);
    assert m.entities[0] in m.entities && IsLink(m.entities[0]);
  }

  /**
   * The path depends only on whether some entity is a link: the entities of
   * two runs choose the link path exactly when either run does, and an entity
   * that is not a link never changes the path.
   */
  lemma ChooseMediaPathAppend(m: Message, es1: seq<Entity>, es2: seq<Entity>, e: Entity)
    ensures ChooseMediaPath(m.(entities := es1 + es2)) == LinkPath
            <==> ChooseMediaPath(m.(entities := es1)) == LinkPath || ChooseMediaPath(m.(entities := es2)) == LinkPath
    ensures !IsLink(e) ==> ChooseMediaPath(m.(entities := [e] + es1)) == ChooseMediaPath(m.(entities := es1))
    ensures IsLink(e) ==> ChooseMediaPath(m.(entities := [e] + es1)) == LinkPath
  {
  }

  /** Both handlers agree on a message without links whose file could be opened. */
  lemma MediaHandlersAgreeWithoutLinks(m: Message, linkSent: seq<int>, downloaded: seq<int>)
    requires forall e :: e in m.entities ==> !IsLink(e)
    ensures LegacyHandleMessageMedia(m, linkSent, downloaded) == HandleMessageMedia(m, linkSent, Some(downloaded))
  {
  }
}
