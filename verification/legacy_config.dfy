/**
 * The legacy configuration check: a flat YAML dictionary validated by hand,
 * where each failure logs and exits the process. Exiting is modelled as a
 * `Failure` carrying the reason; shared hashtags only produce warnings. A
 * key the check reads with `[...]` and does not find raises `KeyError`,
 * which ends the check as well.
 */
module LegacyConfig {
  import opened Wrappers
  import opened PyStr

  /** A YAML scalar as the check sees it. */
  datatype Scalar = IntValue(i: int) | BoolValue(b: bool) | TextValue(s: string) | NullValue

  /** `isinstance(v, int)`: Python booleans are integers too. */
  predicate IsInt(v: Scalar) {
    v.IntValue? || v.BoolValue?
  }

  /** The integer an `int`-typed scalar denotes; `True == 1` and `False == 0`. */
  function IntOf(v: Scalar): int
    requires IsInt(v)
  {
    if v.IntValue? then v.i else if v.b then 1 else 0
  }

  /** A tag as read from YAML: `name` is `None` when the key is absent; an absent override reads as `False`. */
  datatype LegacyTag = LegacyTag(name: Option<string>, overrideMentionEveryone: bool)

  /** A forwarder as read from YAML: each field is `None` when its key is absent. */
  datatype LegacyForwarder = LegacyForwarder(
    tgChannelId: Option<Scalar>,
    discordChannelId: Option<Scalar>,
    mentionEveryone: Option<bool>,
    forwardHashtags: Option<seq<LegacyTag>>)

  datatype OpenAiSettings = OpenAiSettings(enabled: bool, apiKey: Scalar, organization: Scalar, prompt: Option<seq<string>>)

  /** Why the process exits. */
  datatype ConfigError =
    | OpenAiIncomplete
    | TgChannelNotInt(value: Scalar)
    | DiscordChannelNotInt(forwarderTg: Scalar)
    | DuplicatePair(pairTg: int, pairDiscord: int)
    | OverrideConflict(channel: int)
    | KeyError(key: string)

  /** The warning about hashtags shared on one Telegram channel. */
  datatype Warning = SharedHashtags(channel: int, shared: set<string>)

  /** The OpenAI settings are refused when enabled with an empty key or organization, or no prompt. */
  predicate OpenAiIncompleteSettings(o: OpenAiSettings) {
    o.enabled && (o.apiKey == TextValue("") || o.organization == TextValue("") || o.prompt.None?)
  }

  predicate HasKeys(f: LegacyForwarder) {
    f.tgChannelId.Some? && f.discordChannelId.Some? && f.mentionEveryone.Some? && f.forwardHashtags.Some?
  }

  /** The first key the forwarder loop reads and does not find, in the order it reads them. */
  function MissingKey(f: LegacyForwarder): (k: Option<string>)
    ensures k.None? <==> HasKeys(f)
    ensures k == Some("tg_channel_id") <==> f.tgChannelId.None?
    ensures k == Some("discord_channel_id") <==> f.tgChannelId.Some? && f.discordChannelId.None?
    ensures k == Some("mention_everyone")
            <==> f.tgChannelId.Some? && f.discordChannelId.Some? && f.mentionEveryone.None?
    ensures k == Some("forward_hashtags")
            <==> f.tgChannelId.Some? && f.discordChannelId.Some? && f.mentionEveryone.Some? && f.forwardHashtags.None?
  {
    if f.tgChannelId.None? then Some("tg_channel_id")
    else if f.discordChannelId.None? then Some("discord_channel_id")
    else if f.mentionEveryone.None? then Some("mention_everyone")
    else if f.forwardHashtags.None? then Some("forward_hashtags")
    else None
  }

  predicate HasIntIds(f: LegacyForwarder) {
    f.tgChannelId.Some? && f.discordChannelId.Some? && IsInt(f.tgChannelId.value) && IsInt(f.discordChannelId.value)
  }

  function PairOf(f: LegacyForwarder): (int, int)
    requires HasIntIds(f)
  {
    (IntOf(f.tgChannelId.value), IntOf(f.discordChannelId.value))
  }

  /** The forwarder's tags; none when the key is absent. */
  function Tags(f: LegacyForwarder): seq<LegacyTag> {
    if f.forwardHashtags.Some? then f.forwardHashtags.value else []
  }

  predicate AnyOverride(tags: seq<LegacyTag>) {
    exists t :: t in tags && t.overrideMentionEveryone
  }

  /** The checks made on one forwarder, given the pairs of the forwarders before it. */
  function ForwarderError(f: LegacyForwarder, seen: set<(int, int)>): Option<ConfigError> {
    match MissingKey(f)
    case Some(k) => Some(KeyError(k))
    case None =>
      if !IsInt(f.tgChannelId.value) then Some(TgChannelNotInt(f.tgChannelId.value))
      else if !IsInt(f.discordChannelId.value) then Some(DiscordChannelNotInt(f.tgChannelId.value))
      else if PairOf(f) in seen then Some(DuplicatePair(PairOf(f).0, PairOf(f).1))
      else if f.mentionEveryone.value && AnyOverride(Tags(f)) then Some(OverrideConflict(PairOf(f).0))
      else None
  }

  /** The first loop of `validate_config`: the first failing forwarder stops the check. */
  function CheckForwarders(fs: seq<LegacyForwarder>, seen: set<(int, int)>): Option<ConfigError> {
    if fs == [] then None
    else match ForwarderError(fs[0], seen)
      case Some(e) => Some(e)
      case None => CheckForwarders(fs[1..], seen + {PairOf(fs[0])})
  }

  /** What the first loop accepts, stated over the whole list. */
  predicate ForwardersAccepted(fs: seq<LegacyForwarder>, seen: set<(int, int)>) {
    && (forall i :: 0 <= i < |fs| ==> HasKeys(fs[i]) && HasIntIds(fs[i]))
    && (forall i :: 0 <= i < |fs| ==> !(fs[i].mentionEveryone == Some(true) && AnyOverride(Tags(fs[i]))))
    && (forall i :: 0 <= i < |fs| ==> PairOf(fs[i]) !in seen)
    && (forall i, j :: 0 <= i < j < |fs| ==> PairOf(fs[i]) != PairOf(fs[j]))
  }

  lemma {:induction false} CheckForwardersAccepts(fs: seq<LegacyForwarder>, seen: set<(int, int)>)
    ensures CheckForwarders(fs, seen).None? <==> ForwardersAccepted(fs, seen)
  {
    if fs != [] {
      if ForwarderError(fs[0], seen).None? {
        CheckForwardersAccepts(fs[1..], seen + {PairOf(fs[0])});
        if ForwardersAccepted(fs[1..], seen + {PairOf(fs[0])}) {
          forall i, j | 0 <= i < j < |fs|
            ensures PairOf(fs[i]) != PairOf(fs[j])
          {
            if i > 0 {
              assert fs[i] == fs[1..][i - 1] && fs[j] == fs[1..][j - 1];
            } else {
              assert fs[j] == fs[1..][j - 1];
            }
          }
          forall i | 0 <= i < |fs|
            ensures HasKeys(fs[i]) && HasIntIds(fs[i]) && PairOf(fs[i]) !in seen
            ensures !(fs[i].mentionEveryone == Some(true) && AnyOverride(Tags(fs[i])))
          {
            if i > 0 {
              assert fs[i] == fs[1..][i - 1];
            }
          }
        }
        if ForwardersAccepted(fs, seen) {
          assert ForwardersAccepted(fs[1..], seen + {PairOf(fs[0])}) by {
            forall i | 0 <= i < |fs[1..]|
              ensures PairOf(fs[1..][i]) !in seen + {PairOf(fs[0])}
            {
              assert fs[1..][i] == fs[i + 1];
            }
            forall i, j | 0 <= i < j < |fs[1..]|
              ensures PairOf(fs[1..][i]) != PairOf(fs[1..][j])
            {
              assert fs[1..][i] == fs[i + 1] && fs[1..][j] == fs[j + 1];
            }
          }
        }
      }
    }
  }

  /** The lowercased hashtag names of a forwarder, as a set. */
  function Names(f: LegacyForwarder): set<string> {
    set t | t in Tags(f) && t.name.Some? :: Lower(t.name.value)
  }

  function Channel(f: LegacyForwarder): int
    requires HasIntIds(f)
  {
    IntOf(f.tgChannelId.value)
  }

  /** Every tag of every forwarder has a name, which the second loop reads with `[...]`. */
  predicate AllNamed(fs: seq<LegacyForwarder>) {
    forall i :: 0 <= i < |fs| ==> forall t :: t in Tags(fs[i]) ==> t.name.Some?
  }

  predicate AllIntIds(fs: seq<LegacyForwarder>) {
    forall i :: 0 <= i < |fs| ==> HasIntIds(fs[i])
  }

  /** The channels of the forwarders before position `i`. */
  function ChannelsBefore(fs: seq<LegacyForwarder>, i: int): set<int>
    requires AllIntIds(fs)
    requires 0 <= i <= |fs|
    decreases i
  {
    if i == 0 then {} else ChannelsBefore(fs, i - 1) + {Channel(fs[i - 1])}
  }

  /** A channel is among those before `i` exactly when some earlier forwarder has it. */
  lemma {:induction false} ChannelsBeforeMeans(fs: seq<LegacyForwarder>, i: int, c: int)
    requires AllIntIds(fs)
    requires 0 <= i <= |fs|
    ensures c in ChannelsBefore(fs, i) <==> exists m :: 0 <= m < i && Channel(fs[m]) == c
    decreases i
  {
    if i > 0 {
      ChannelsBeforeMeans(fs, i - 1, c);
      if c == Channel(fs[i - 1]) {
        assert 0 <= i - 1 < i;
      }
      if exists m :: 0 <= m < i && Channel(fs[m]) == c {
        var m :| 0 <= m < i && Channel(fs[m]) == c;
        if m < i - 1 {
          assert 0 <= m < i - 1;
        }
      }
    }
  }

  /** Forwarder `j` is the first one on its channel. */
  predicate FirstOnChannel(fs: seq<LegacyForwarder>, j: int)
    requires AllIntIds(fs)
    requires 0 <= j < |fs|
  {
    Channel(fs[j]) !in ChannelsBefore(fs, j)
  }

  /** Being first on a channel means no earlier forwarder shares it. */
  lemma {:induction false} FirstOnChannelMeans(fs: seq<LegacyForwarder>, j: int)
    requires AllIntIds(fs)
    requires 0 <= j < |fs|
    ensures FirstOnChannel(fs, j) <==> forall m :: 0 <= m < j ==> Channel(fs[m]) != Channel(fs[j])
  {
    ChannelsBeforeMeans(fs, j, Channel(fs[j]));
  }

  /** The channel of a forwarder is among those before any later position. */
  lemma {:induction false} EarlierChannelSeen(fs: seq<LegacyForwarder>, m: int, i: int)
    requires AllIntIds(fs)
    requires 0 <= m < i <= |fs|
    ensures Channel(fs[m]) in ChannelsBefore(fs, i)
    decreases i
  {
    if m < i - 1 {
      EarlierChannelSeen(fs, m, i - 1);
    }
  }

  /** Two forwarders first on their channels are on different channels. */
  lemma FirstsDiffer(fs: seq<LegacyForwarder>, a: int, b: int)
    requires AllIntIds(fs)
    requires 0 <= a < b < |fs|
    requires FirstOnChannel(fs, b)
    ensures Channel(fs[a]) != Channel(fs[b])
  {
    EarlierChannelSeen(fs, a, b);
  }

  /** The warning forwarder `k` draws against the first forwarder `j` of its channel. */
  predicate WarningFor(fs: seq<LegacyForwarder>, j: int, k: int, w: Warning)
    requires AllIntIds(fs)
  {
    && 0 <= j < k < |fs|
    && FirstOnChannel(fs, j)
    && Channel(fs[j]) == Channel(fs[k])
    && w == SharedHashtags(Channel(fs[k]), Names(fs[j]) * Names(fs[k]))
    && w.shared != {}
  }

  /** Every channel seen before `i` has its first forwarder before `i`. */
  lemma {:induction false} FirstOfChannel(fs: seq<LegacyForwarder>, i: int, c: int) returns (j0: int)
    requires AllIntIds(fs)
    requires 0 <= i <= |fs|
    requires c in ChannelsBefore(fs, i)
    ensures 0 <= j0 < i && FirstOnChannel(fs, j0) && Channel(fs[j0]) == c
    decreases i
  {
    if c in ChannelsBefore(fs, i - 1) {
      j0 := FirstOfChannel(fs, i - 1, c);
    } else {
      j0 := i - 1;
    }
  }

  /** Some forwarder before position `i` draws warning `w`. */
  ghost predicate WarnedBefore(fs: seq<LegacyForwarder>, i: int, w: Warning)
    requires AllIntIds(fs)
  {
    exists j, k :: k < i && WarningFor(fs, j, k, w)
  }

  /** A forwarder first on its channel draws no warning. */
  lemma NewChannelStep(fs: seq<LegacyForwarder>, i: int)
    requires AllIntIds(fs)
    requires 0 <= i < |fs|
    requires FirstOnChannel(fs, i)
    ensures forall w :: WarnedBefore(fs, i + 1, w) <==> WarnedBefore(fs, i, w)
  {
    forall w | WarnedBefore(fs, i + 1, w)
      ensures WarnedBefore(fs, i, w)
    {
      var j, k :| k < i + 1 && WarningFor(fs, j, k, w);
      if k == i {
        FirstsDiffer(fs, j, i);
        assert false;
      }
    }
  }

  /**
   * A forwarder on a channel whose first forwarder is `j0` draws the warning
   * for its overlap with `j0`'s set, if that overlap is not empty.
   */
  lemma KnownChannelStep(fs: seq<LegacyForwarder>, i: int, j0: int)
    requires AllIntIds(fs)
    requires 0 <= j0 < i < |fs|
    requires FirstOnChannel(fs, j0) && Channel(fs[j0]) == Channel(fs[i])
    ensures forall w :: WarnedBefore(fs, i + 1, w) <==>
              WarnedBefore(fs, i, w) || (w == SharedHashtags(Channel(fs[i]), Names(fs[j0]) * Names(fs[i])) && w.shared != {})
  {
    forall w | WarnedBefore(fs, i + 1, w) && !WarnedBefore(fs, i, w)
      ensures w == SharedHashtags(Channel(fs[i]), Names(fs[j0]) * Names(fs[i]))
    {
      var j, k :| k < i + 1 && WarningFor(fs, j, k, w);
      assert k == i;
      if j < j0 {
        FirstsDiffer(fs, j, j0);
      } else if j0 < j {
        FirstsDiffer(fs, j0, j);
      }
    }
    forall w | w == SharedHashtags(Channel(fs[i]), Names(fs[j0]) * Names(fs[i])) && w.shared != {}
      ensures WarnedBefore(fs, i + 1, w)
    {
      assert WarningFor(fs, j0, i, w);
    }
  }

  /**
   * What the second loop remembers after `i` forwarders: the channels seen so
   * far, each with the set of its first forwarder.
   */
  ghost predicate Seen(fs: seq<LegacyForwarder>, i: int, first: map<int, set<string>>)
    requires AllIntIds(fs)
    requires 0 <= i <= |fs|
  {
    && first.Keys == ChannelsBefore(fs, i)
    && (forall j :: 0 <= j < i && FirstOnChannel(fs, j) ==> Channel(fs[j]) in first && first[Channel(fs[j])] == Names(fs[j]))
  }

  /** The warnings after `i` forwarders are those the first `i` forwarders draw. */
  ghost predicate WarnedExactly(fs: seq<LegacyForwarder>, i: int, warnings: seq<Warning>)
    requires AllIntIds(fs)
  {
    forall w :: w in warnings <==> WarnedBefore(fs, i, w)
  }

  /** A forwarder on a new channel is remembered as its first and adds no warning. */
  lemma NewChannelInvariant(fs: seq<LegacyForwarder>, i: int, first: map<int, set<string>>, warnings: seq<Warning>)
    requires AllIntIds(fs)
    requires 0 <= i < |fs|
    requires Seen(fs, i, first) && WarnedExactly(fs, i, warnings)
    requires Channel(fs[i]) !in first
    ensures Seen(fs, i + 1, first[Channel(fs[i]) := Names(fs[i])])
    ensures WarnedExactly(fs, i + 1, warnings)
  {
    var c := Channel(fs[i]);
    assert FirstOnChannel(fs, i);
    NewChannelStep(fs, i);
    var first' := first[c := Names(fs[i])];
    assert first'.Keys == ChannelsBefore(fs, i + 1);
    forall j | 0 <= j < i + 1 && FirstOnChannel(fs, j)
      ensures Channel(fs[j]) in first' && first'[Channel(fs[j])] == Names(fs[j])
    {
      if j < i {
        assert Channel(fs[j]) in first && first[Channel(fs[j])] == Names(fs[j]);
        assert Channel(fs[j]) != c;
      } else {
        assert j == i;
      }
    }
  }

  /**
   * A forwarder on a known channel changes nothing remembered and adds the
   * warning for its overlap with the channel's first set, if there is one.
   */
  lemma KnownChannelInvariant(fs: seq<LegacyForwarder>, i: int, first: map<int, set<string>>, warnings: seq<Warning>)
    requires AllIntIds(fs)
    requires 0 <= i < |fs|
    requires Seen(fs, i, first) && WarnedExactly(fs, i, warnings)
    requires Channel(fs[i]) in first
    ensures Seen(fs, i + 1, first)
    ensures var shared := first[Channel(fs[i])] * Names(fs[i]);
            WarnedExactly(fs, i + 1, if shared != {} then warnings + [SharedHashtags(Channel(fs[i]), shared)] else warnings)
  {
    var c := Channel(fs[i]);
    var j0 := FirstOfChannel(fs, i, c);
    KnownChannelStep(fs, i, j0);
    assert first[c] == Names(fs[j0]);
    SeenKnownChannel(fs, i, first);
  }

  /** A forwarder on a known channel adds nothing to what is remembered. */
  lemma SeenKnownChannel(fs: seq<LegacyForwarder>, i: int, first: map<int, set<string>>)
    requires AllIntIds(fs)
    requires 0 <= i < |fs|
    requires Seen(fs, i, first)
    requires Channel(fs[i]) in first
    ensures Seen(fs, i + 1, first)
  {
    var c := Channel(fs[i]);
    assert c in ChannelsBefore(fs, i);
    assert !FirstOnChannel(fs, i);
    assert ChannelsBefore(fs, i + 1) == ChannelsBefore(fs, i);
    forall j | 0 <= j < i + 1 && FirstOnChannel(fs, j)
      ensures Channel(fs[j]) in first && first[Channel(fs[j])] == Names(fs[j])
    {
      if j == i {
        assert false;
      }
    }
  }

  /**
   * The second loop of `validate_config`: the set of the first forwarder on
   * each channel is remembered and never extended, and every later forwarder
   * on that channel is compared with it alone.
   */
  method SharedHashtagWarnings(fs: seq<LegacyForwarder>) returns (warnings: seq<Warning>)
    requires AllIntIds(fs)
    ensures forall w :: w in warnings <==> exists j, k :: WarningFor(fs, j, k, w)
  {
    var first: map<int, set<string>> := map[];
    warnings := [];
    var i := 0;
    while i < |fs|
      invariant 0 <= i <= |fs|
      invariant Seen(fs, i, first)
      invariant WarnedExactly(fs, i, warnings)
    {
      var c := Channel(fs[i]);
      if c !in first {
        NewChannelInvariant(fs, i, first, warnings);
        first := first[c := Names(fs[i])];
      } else {
        KnownChannelInvariant(fs, i, first, warnings);
        var shared := first[c] * Names(fs[i]);
        if shared != {} {
          warnings := warnings + [SharedHashtags(c, shared)];
        }
      }
      i := i + 1;
    }
  }

  /** A key error of the forwarder loop names a key some forwarder lacks. */
  lemma {:induction false} ForwarderKeyErrorMeans(fs: seq<LegacyForwarder>, seen: set<(int, int)>, k: string)
    requires CheckForwarders(fs, seen) == Some(KeyError(k))
    ensures exists i :: 0 <= i < |fs| && MissingKey(fs[i]) == Some(k)
    decreases |fs|
  {
    if ForwarderError(fs[0], seen).Some? {
      assert MissingKey(fs[0]) == Some(k);
    } else {
      ForwarderKeyErrorMeans(fs[1..], seen + {PairOf(fs[0])}, k);
      var i :| 0 <= i < |fs[1..]| && MissingKey(fs[1..][i]) == Some(k);
      assert fs[i + 1] == fs[1..][i];
    }
  }

  /**
   * `validate_config`: the OpenAI settings first, then each forwarder in
   * order; when both pass, the shared-hashtag warnings, unless a tag has no
   * name, which raises `KeyError` in the second loop.
   */
  method ValidateConfig(openAi: OpenAiSettings, fs: seq<LegacyForwarder>) returns (r: Result<seq<Warning>, ConfigError>)
    ensures OpenAiIncompleteSettings(openAi) ==> r == Failure(OpenAiIncomplete)
    ensures r.Success? <==> !OpenAiIncompleteSettings(openAi) && ForwardersAccepted(fs, {}) && AllNamed(fs)
    ensures !OpenAiIncompleteSettings(openAi) && ForwardersAccepted(fs, {}) && !AllNamed(fs) ==> r == Failure(KeyError("name"))
    ensures r.Failure? && r.error.KeyError? && r.error.key != "name" ==> exists i :: 0 <= i < |fs| && !HasKeys(fs[i])
    ensures r.Success? ==> AllIntIds(fs) && forall w :: w in r.value <==> exists j, k :: WarningFor(fs, j, k, w)
  {
    if OpenAiIncompleteSettings(openAi) {
      return Failure(OpenAiIncomplete);
    }
    CheckForwardersAccepts(fs, {});
    var e := CheckForwarders(fs, {});
    if e.Some? {
      if e.value.KeyError? {
        ForwarderKeyErrorMeans(fs, {}, e.value.key);
      }
      return Failure(e.value);
    }
    if !AllNamed(fs) {
      return Failure(KeyError("name"));
    }
    var warnings := SharedHashtagWarnings(fs);
    return Success(warnings);
  }

  /**
   * The check reads `forward_hashtags` with `[...]`, although the handler
   * setup reads it with a default of `[]`: a forwarder without the key is
   * refused with `KeyError`.
   */
  lemma MissingHashtagsRefused()
    ensures CheckForwarders([LegacyForwarder(Some(IntValue(1)), Some(IntValue(2)), Some(false), None)], {})
            == Some(KeyError("forward_hashtags"))
  {
  }

  /** `True` and `1` are the same channel to the duplicate check. */
  lemma BoolChannelCollidesWithOne()
    ensures var a := LegacyForwarder(Some(IntValue(1)), Some(IntValue(9)), Some(false), Some([]));
            var b := LegacyForwarder(Some(BoolValue(true)), Some(IntValue(9)), Some(false), Some([]));
            CheckForwarders([a, b], {}) == Some(DuplicatePair(1, 9))
  {
  }

  /**
   * Only the first forwarder's set is compared against: the second and
   * third forwarders on channel 5 share `#b`, yet the check warns about nothing.
   */
  lemma OnlyFirstSetCompared()
    ensures var fs := [LegacyForwarder(Some(IntValue(5)), Some(IntValue(1)), Some(false), Some([LegacyTag(Some("#a"), false)])),
                       LegacyForwarder(Some(IntValue(5)), Some(IntValue(2)), Some(false), Some([LegacyTag(Some("#b"), false)])),
                       LegacyForwarder(Some(IntValue(5)), Some(IntValue(3)), Some(false), Some([LegacyTag(Some("#b"), false)]))];
            && Names(fs[1]) * Names(fs[2]) != {}
            && forall j, k, w :: !WarningFor(fs, j, k, w)
  {
    var fs := [LegacyForwarder(Some(IntValue(5)), Some(IntValue(1)), Some(false), Some([LegacyTag(Some("#a"), false)])),
               LegacyForwarder(Some(IntValue(5)), Some(IntValue(2)), Some(false), Some([LegacyTag(Some("#b"), false)])),
               LegacyForwarder(Some(IntValue(5)), Some(IntValue(3)), Some(false), Some([LegacyTag(Some("#b"), false)]))];
    assert Lower("#a") == "#a" && Lower("#b") == "#b";
    assert Names(fs[0]) == {"#a"};
    assert Names(fs[1]) == {"#b"} && Names(fs[2]) == {"#b"};
    assert "#b" in Names(fs[1]) * Names(fs[2]);
  }
}
