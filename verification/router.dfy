/**
 * Which forwarders an incoming Telegram message concerns, and what each of
 * them decides: whether to forward and whether to mention everyone.
 */
module Router {
  import opened Wrappers
  import opened PyStr
  import opened Config

  /** `get_matching_forwarders`: the forwarders configured for a channel, in configuration order. */
  function MatchingForwarders(fs: seq<Forwarder>, channel: int): (r: seq<Forwarder>)
    ensures |r| <= |fs|
    ensures forall f :: f in r <==> f in fs && f.tgChannelId == channel
  {
    if fs == [] then []
    else (if fs[0].tgChannelId == channel then [fs[0]] else []) + MatchingForwarders(fs[1..], channel)
  }

  /** Matching distributes over concatenation, so configuration order is kept. */
  lemma {:induction false} MatchingForwardersAppend(a: seq<Forwarder>, b: seq<Forwarder>, channel: int)
    ensures MatchingForwarders(a + b, channel) == MatchingForwarders(a, channel) + MatchingForwarders(b, channel)
  {
    if a == [] {
      assert a + b == b;
    } else {
      assert (a + b)[0] == a[0];
      assert (a + b)[1..] == a[1..] + b;
      MatchingForwardersAppend(a[1..], b, channel);
    }
  }

  /**
   * The configured tags whose lowercased name is among the message's hashtags
   * as written; `name` reads a tag's name, so this serves both the allowed
   * and the excluded list.
   */
  function Matching<T(!new)>(tags: seq<T>, name: T -> string, messageTags: seq<string>): (r: seq<T>)
    ensures forall t :: t in r <==> t in tags && Lower(name(t)) in messageTags
  {
    if tags == [] then []
    else (if Lower(name(tags[0])) in messageTags then [tags[0]] else []) + Matching(tags[1..], name, messageTags)
  }

  /** The allowed tags the message carries. */
  function MatchingTags(tags: seq<ForwardTag>, messageTags: seq<string>): seq<ForwardTag> {
    Matching(tags, (t: ForwardTag) => t.name, messageTags)
  }

  /** The excluded tags the message carries. */
  function MatchingExcluded(tags: seq<ExcludedTag>, messageTags: seq<string>): seq<ExcludedTag> {
    Matching(tags, (t: ExcludedTag) => t.name, messageTags)
  }

  predicate AnyOverridesEveryone(tags: seq<ForwardTag>) {
    exists t :: t in tags && t.overrideMentionEveryone
  }

  /**
   * The outcome for one forwarder. `hashtagsRead` records whether the
   * handler read the message's hashtags while deciding, which is what binds
   * the variable the mention step later uses.
   */
  datatype Decision = Decision(shouldForward: bool, mentionEveryone: bool, hashtagsRead: bool)

  /** The allow step: run only when not forwarding everything or when overrides exist. */
  function AllowStep(f: Forwarder, messageTags: seq<string>): Decision {
    var start := Decision(f.forwardEverything, f.mentionEveryone, false);
    if !f.forwardEverything || Items(f.mentionOverride) != [] then
      var matching := if messageTags != [] && Items(f.forwardHashtags) != []
                      then MatchingTags(Items(f.forwardHashtags), messageTags) else [];
      if |matching| > 0 then Decision(true, AnyOverridesEveryone(matching), true)
      else start.(hashtagsRead := true)
    else start
  }

  /** The deny step: any excluded tag present turns forwarding off. */
  function DenyStep(f: Forwarder, messageTags: seq<string>, d: Decision): Decision {
    if Items(f.excludedHashtags) != [] then
      var matching := MatchingExcluded(Items(f.excludedHashtags), messageTags);
      if |matching| > 0 then d.(shouldForward := false, hashtagsRead := true)
      else d.(hashtagsRead := true)
    else d
  }

  /** The decision `_handle_new_message` takes for one forwarder. */
  function Decide(f: Forwarder, messageTags: seq<string>): Decision {
    DenyStep(f, messageTags, AllowStep(f, messageTags))
  }

  /** Some configured tag, lowercased, is among the message's hashtags. */
  predicate AllowMatch(f: Forwarder, messageTags: seq<string>) {
    exists t :: t in Items(f.forwardHashtags) && Lower(t.name) in messageTags
  }

  /** Some excluded tag, lowercased, is among the message's hashtags. */
  predicate DenyMatch(f: Forwarder, messageTags: seq<string>) {
    exists t :: t in Items(f.excludedHashtags) && Lower(t.name) in messageTags
  }

  /** Forward when everything is forwarded or an allowed tag is present, and no excluded tag is. */
  lemma ShouldForwardExactly(f: Forwarder, messageTags: seq<string>)
    ensures Decide(f, messageTags).shouldForward <==> (f.forwardEverything || AllowMatch(f, messageTags)) && !DenyMatch(f, messageTags)
  {
    var ms := MatchingTags(Items(f.forwardHashtags), messageTags);
    var xs := MatchingExcluded(Items(f.excludedHashtags), messageTags);
    if AllowMatch(f, messageTags) {
      var t :| t in Items(f.forwardHashtags) && Lower(t.name) in messageTags;
      assert t in ms;
    }
    if |ms| > 0 {
      assert ms[0] in ms;
    }
    if DenyMatch(f, messageTags) {
      var t :| t in Items(f.excludedHashtags) && Lower(t.name) in messageTags;
      assert t in xs;
    }
    if |xs| > 0 {
      assert xs[0] in xs;
    }
  }

  /** Deny wins: an excluded tag in the message stops forwarding whatever else holds. */
  lemma DenyWins(f: Forwarder, messageTags: seq<string>)
    requires DenyMatch(f, messageTags)
    ensures !Decide(f, messageTags).shouldForward
  {
    ShouldForwardExactly(f, messageTags);
  }

  /**
   * The forwarder's own `mention_everyone` stands unless the allow step ran
   * and matched; then it is whether some matched tag overrides it.
   */
  lemma MentionEveryoneExactly(f: Forwarder, messageTags: seq<string>)
    ensures var d := Decide(f, messageTags);
            && ((!f.forwardEverything || Items(f.mentionOverride) != []) && AllowMatch(f, messageTags) ==>
                  (d.mentionEveryone <==> exists t :: t in Items(f.forwardHashtags) && Lower(t.name) in messageTags && t.overrideMentionEveryone))
            && (!((!f.forwardEverything || Items(f.mentionOverride) != []) && AllowMatch(f, messageTags)) ==>
                  d.mentionEveryone == f.mentionEveryone)
  {
    var ms := MatchingTags(Items(f.forwardHashtags), messageTags);
    if AllowMatch(f, messageTags) {
      var t :| t in Items(f.forwardHashtags) && Lower(t.name) in messageTags;
      assert t in ms;
    }
    if |ms| > 0 {
      assert ms[0] in ms;
    }
  }

  /** The hashtags are read exactly when one of the two filter branches runs. */
  lemma HashtagsReadExactly(f: Forwarder, messageTags: seq<string>)
    ensures Decide(f, messageTags).hashtagsRead <==>
              !f.forwardEverything || Items(f.mentionOverride) != [] || Items(f.excludedHashtags) != []
  {
  }

  /** The forwarder of the walkthrough: only `#alert` is forwarded. */
  function AlertOnly(): Forwarder {
    Forwarder("news", 10, 20, false, false, false, Some([ForwardTag("#alert", false)]), None, None)
  }

  /** A message tagged `#alert` is forwarded; one without tags is not. */
  lemma AlertScenario()
    ensures Decide(AlertOnly(), ["#alert"]).shouldForward
    ensures !Decide(AlertOnly(), []).shouldForward
  {
    ShouldForwardExactly(AlertOnly(), ["#alert"]);
    assert Lower("#alert") == "#alert";
  }

  /** Allowing `#news` and excluding `#draft`: a message tagged with both is not forwarded. */
  lemma DenyOverridesAllowScenario()
    ensures var f := Forwarder("news", 10, 20, false, false, false,
                               Some([ForwardTag("#news", false)]), Some([ExcludedTag("#draft")]), None);
            !Decide(f, ["#news", "#draft"]).shouldForward
  {
    var f := Forwarder("news", 10, 20, false, false, false,
                       Some([ForwardTag("#news", false)]), Some([ExcludedTag("#draft")]), None);
    assert Lower("#draft") == "#draft";
    assert ExcludedTag("#draft") in Items(f.excludedHashtags);
    DenyWins(f, ["#news", "#draft"]);
  }

  /**
   * The configuration check compares allow and deny names exactly while the
   * decision lowercases them: allowing `#News` and excluding `#news` is
   * accepted, and that forwarder never forwards anything.
   */
  lemma CaseVariantAllowNeverForwards(messageTags: seq<string>)
    ensures var f := Forwarder("news", 10, 20, false, false, false,
                               Some([ForwardTag("#News", false)]), Some([ExcludedTag("#news")]), None);
            && ForwarderErrors(f) == {}
            && !Decide(f, messageTags).shouldForward
  {
    var f := Forwarder("news", 10, 20, false, false, false,
                       Some([ForwardTag("#News", false)]), Some([ExcludedTag("#news")]), None);
    assert Lower("#News") == "#news" && Lower("#news") == "#news";
    assert ForwarderErrors(f) == {} by {
      ForwarderAcceptedIffWellFormed(f);
      assert "#News" != "#news";
    }
    ShouldForwardExactly(f, messageTags);
  }

  /**
   * Configured names are lowercased but the message's hashtags are not, so a
   * message tagged `#News` does not match an allowed `#News`.
   */
  lemma MixedCaseMessageTagMissed()
    ensures var f := Forwarder("news", 10, 20, false, false, false, Some([ForwardTag("#News", false)]), None, None);
            !Decide(f, ["#News"]).shouldForward
  {
    var f := Forwarder("news", 10, 20, false, false, false, Some([ForwardTag("#News", false)]), None, None);
    assert Lower("#News") == "#news";
    ShouldForwardExactly(f, ["#News"]);
  }

  /** A channel entry of the first version of the bridge. */
  datatype RouteV1 = RouteV1(discordChannelId: int, mentionEveryone: bool, forwardEverything: bool, hashtags: seq<ForwardTag>)

  /** The first version's decision: whether to forward and whether a matched tag overrides `@everyone`. */
  datatype DecisionV1 = DecisionV1(shouldForward: bool, overrideMentionEveryone: bool)

  /** The allowed tags whose name, case unchanged, is among the message's hashtags. */
  function ExactMatches(tags: seq<ForwardTag>, messageTags: seq<string>): (r: seq<ForwardTag>)
    ensures forall t :: t in r <==> t in tags && t.name in messageTags
  {
    if tags == [] then []
    else (if tags[0].name in messageTags then [tags[0]] else []) + ExactMatches(tags[1..], messageTags)
  }

  /**
   * The filter of the first version's `handler`: a route is looked up by
   * channel (none means the message is dropped); exact matches force
   * forwarding; there is no deny list.
   */
  function DecideV1(routes: map<int, RouteV1>, channel: int, messageTags: seq<string>): (d: Option<DecisionV1>)
    ensures d.None? <==> channel !in routes
    ensures d.Some? ==> (d.value.shouldForward <==>
              routes[channel].forwardEverything || exists t :: t in routes[channel].hashtags && t.name in messageTags)
    ensures d.Some? ==> (d.value.overrideMentionEveryone <==>
              exists t :: t in routes[channel].hashtags && t.name in messageTags && t.overrideMentionEveryone)
  {
    if channel !in routes then None
    else
      var route := routes[channel];
      var matching := if route.hashtags != [] then ExactMatches(route.hashtags, messageTags) else [];
      if |matching| > 0 then
        assert matching[0] in matching;
        Some(DecisionV1(true, AnyOverridesEveryone(matching)))
      else Some(DecisionV1(route.forwardEverything, false))
  }
}
