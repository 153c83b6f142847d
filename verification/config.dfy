/**
 * The forwarder configuration of the bridge: the rules the validators of
 * `ForwarderConfig` check for each forwarder when the file is loaded, and the
 * cross-forwarder rules of `ConfigYAMLSchema`, which the loading path does
 * not apply.
 */
module Config {
  import opened Wrappers
  import opened PyStr

  /** An entry of `forward_hashtags`; a missing `override_mention_everyone` is `false`. */
  datatype ForwardTag = ForwardTag(name: string, overrideMentionEveryone: bool)

  /** An entry of `excluded_hashtags`. */
  datatype ExcludedTag = ExcludedTag(name: string)

  /** An entry of `mention_override`: a tag and the role names it mentions. */
  datatype MentionOverride = MentionOverride(tag: string, roles: seq<string>)

  /** `ForwarderConfig`. The optional lists are `None` when absent from the file. */
  datatype Forwarder = Forwarder(
    name: string,
    tgChannelId: int,
    discordChannelId: int,
    stripOffLinks: bool,
    mentionEveryone: bool,
    forwardEverything: bool,
    forwardHashtags: Option<seq<ForwardTag>>,
    excludedHashtags: Option<seq<ExcludedTag>>,
    mentionOverride: Option<seq<MentionOverride>>)

  /** The list behind an optional field; Python treats `None` and `[]` alike as false. */
  function Items<T>(o: Option<seq<T>>): seq<T> {
    o.GetOr([])
  }

  /** `max_anystr_length` of the forwarder model: no string field may be longer. */
  const MaxStringLength: nat := 64

  /** The reasons a forwarder is rejected. */
  datatype ForwarderError =
    | NameTooLong
    | EmptyName
    | NegativeTgChannelId
    | NegativeDiscordChannelId
    | ForwardTagWithoutHash
    | ExcludedTagWithoutHash
    | OverrideTagWithoutHash
    | OverrideWithoutRoles
    | NothingToForward
    | TagForwardedAndExcluded
    | OverrideWithMentionEveryone

  predicate StartsWithHash(s: string) {
    |s| > 0 && s[0] == '#'
  }

  /** The loop of `forward_hashtags_validator`. */
  function ForwardNamesHashed(tags: seq<ForwardTag>): bool {
    tags == [] || (StartsWithHash(tags[0].name) && ForwardNamesHashed(tags[1..]))
  }

  /** The loop of `excluded_hashtags_validator`. */
  function ExcludedNamesHashed(tags: seq<ExcludedTag>): bool {
    tags == [] || (StartsWithHash(tags[0].name) && ExcludedNamesHashed(tags[1..]))
  }

  /** The tag half of the loop of `mention_override_validator`. */
  function OverrideTagsHashed(os: seq<MentionOverride>): bool {
    os == [] || (StartsWithHash(os[0].tag) && OverrideTagsHashed(os[1..]))
  }

  /** The roles half of the loop of `mention_override_validator`. */
  function OverrideRolesPresent(os: seq<MentionOverride>): bool {
    os == [] || (os[0].roles != [] && OverrideRolesPresent(os[1..]))
  }

  /** The inner loop of `forward_hashtags_excluded_hashtags_validator` for one forward tag. */
  function ExcludedAvoids(name: string, excluded: seq<ExcludedTag>): bool {
    excluded == [] || (excluded[0].name != name && ExcludedAvoids(name, excluded[1..]))
  }

  /** The outer loop of `forward_hashtags_excluded_hashtags_validator`. */
  function ForwardAvoidsExcluded(tags: seq<ForwardTag>, excluded: seq<ExcludedTag>): bool {
    tags == [] || (ExcludedAvoids(tags[0].name, excluded) && ForwardAvoidsExcluded(tags[1..], excluded))
  }

  /** `tg_channel_id_validator` as written: `assert val < 0` under `if val < 0` always passes. */
  function ChannelIdValidAsWritten(id: int): bool {
    if id < 0 then id < 0 else true
  }

  /** The channel-id validators as their message says: a negative id is refused. */
  function ChannelIdValid(id: int): bool {
    id >= 0
  }

  /** Every rule of `ForwarderConfig` that the forwarder breaks, channel ids judged by `idValid`. */
  function ErrorsWith(f: Forwarder, idValid: int -> bool): set<ForwarderError> {
    (if |f.name| > MaxStringLength then {NameTooLong} else {})
    + (if f.name == [] then {EmptyName} else {})
    + (if !idValid(f.tgChannelId) then {NegativeTgChannelId} else {})
    + (if !idValid(f.discordChannelId) then {NegativeDiscordChannelId} else {})
    + (if !ForwardNamesHashed(Items(f.forwardHashtags)) then {ForwardTagWithoutHash} else {})
    + (if !ExcludedNamesHashed(Items(f.excludedHashtags)) then {ExcludedTagWithoutHash} else {})
    + (if !OverrideTagsHashed(Items(f.mentionOverride)) then {OverrideTagWithoutHash} else {})
    + (if !OverrideRolesPresent(Items(f.mentionOverride)) then {OverrideWithoutRoles} else {})
    + (if !f.forwardEverything && Items(f.forwardHashtags) == [] then {NothingToForward} else {})
    + (if !ForwardAvoidsExcluded(Items(f.forwardHashtags), Items(f.excludedHashtags))
       then {TagForwardedAndExcluded} else {})
    + (if Items(f.mentionOverride) != [] && f.mentionEveryone then {OverrideWithMentionEveryone} else {})
  }

  /** The error kinds the validators check for a forwarder, as they are written. */
  function ForwarderErrorsAsWritten(f: Forwarder): set<ForwarderError> {
    ErrorsWith(f, ChannelIdValidAsWritten)
  }

  /** The errors with the channel-id validators repaired. */
  function ForwarderErrors(f: Forwarder): set<ForwarderError> {
    ErrorsWith(f, ChannelIdValid)
  }

  /** What an accepted forwarder looks like, stated rule by rule. */
  predicate WellFormed(f: Forwarder) {
    && 0 < |f.name| <= MaxStringLength
    && f.tgChannelId >= 0
    && f.discordChannelId >= 0
    && (forall t :: t in Items(f.forwardHashtags) ==> StartsWithHash(t.name))
    && (forall t :: t in Items(f.excludedHashtags) ==> StartsWithHash(t.name))
    && (forall o :: o in Items(f.mentionOverride) ==> StartsWithHash(o.tag) && o.roles != [])
    && (f.forwardEverything || Items(f.forwardHashtags) != [])
    && (forall t, e :: t in Items(f.forwardHashtags) && e in Items(f.excludedHashtags) ==> t.name != e.name)
    && !(Items(f.mentionOverride) != [] && f.mentionEveryone)
  }

  lemma {:induction false} ForwardNamesHashedMeans(tags: seq<ForwardTag>)
    ensures ForwardNamesHashed(tags) <==> forall t :: t in tags ==> StartsWithHash(t.name)
  {
    if tags != [] {
      ForwardNamesHashedMeans(tags[1..]);
      assert forall t :: t in tags ==> t == tags[0] || t in tags[1..];
    }
  }

  lemma {:induction false} ExcludedNamesHashedMeans(tags: seq<ExcludedTag>)
    ensures ExcludedNamesHashed(tags) <==> forall t :: t in tags ==> StartsWithHash(t.name)
  {
    if tags != [] {
      ExcludedNamesHashedMeans(tags[1..]);
      assert forall t :: t in tags ==> t == tags[0] || t in tags[1..];
    }
  }

  lemma {:induction false} OverridesMean(os: seq<MentionOverride>)
    ensures OverrideTagsHashed(os) <==> forall o :: o in os ==> StartsWithHash(o.tag)
    ensures OverrideRolesPresent(os) <==> forall o :: o in os ==> o.roles != []
  {
    if os != [] {
      OverridesMean(os[1..]);
      assert forall o :: o in os ==> o == os[0] || o in os[1..];
    }
  }

  lemma {:induction false} ExcludedAvoidsMeans(name: string, excluded: seq<ExcludedTag>)
    ensures ExcludedAvoids(name, excluded) <==> forall e :: e in excluded ==> e.name != name
  {
    if excluded != [] {
      ExcludedAvoidsMeans(name, excluded[1..]);
      assert forall e :: e in excluded ==> e == excluded[0] || e in excluded[1..];
    }
  }

  lemma {:induction false} ForwardAvoidsExcludedMeans(tags: seq<ForwardTag>, excluded: seq<ExcludedTag>)
    ensures ForwardAvoidsExcluded(tags, excluded)
            <==> forall t, e :: t in tags && e in excluded ==> t.name != e.name
  {
    if tags != [] {
      ForwardAvoidsExcludedMeans(tags[1..], excluded);
      ExcludedAvoidsMeans(tags[0].name, excluded);
      assert forall t :: t in tags ==> t == tags[0] || t in tags[1..];
    }
  }

  /** A forwarder passes every repaired validator exactly when it is well formed. */
  lemma ForwarderAcceptedIffWellFormed(f: Forwarder)
    ensures ForwarderErrors(f) == {} <==> WellFormed(f)
  {
    ForwardNamesHashedMeans(Items(f.forwardHashtags));
    ExcludedNamesHashedMeans(Items(f.excludedHashtags));
    OverridesMean(Items(f.mentionOverride));
    ForwardAvoidsExcludedMeans(Items(f.forwardHashtags), Items(f.excludedHashtags));
  }

  /**
   * As written the channel-id validators never reject: a forwarder on channel
   * -5 passes them, while the repaired check refuses it.
   */
  lemma NegativeChannelIdAccepted()
    ensures var f := Forwarder("news", -5, 7, false, false, true, None, None, None);
            ForwarderErrorsAsWritten(f) == {} && ForwarderErrors(f) == {NegativeTgChannelId}
  {
  }

  /** The `(tg_channel_id, discord_channel_id)` pair of a forwarder. */
  function Pair(f: Forwarder): (int, int) {
    (f.tgChannelId, f.discordChannelId)
  }

  predicate PairsDistinct(fs: seq<Forwarder>) {
    forall i, j :: 0 <= i < j < |fs| ==> Pair(fs[i]) != Pair(fs[j])
  }

  /**
   * `forwarder_validator`: walks the forwarders remembering their pairs and
   * reports the first pair seen twice.
   */
  method CheckPairs(fs: seq<Forwarder>) returns (dup: Option<(int, int)>)
    ensures dup.None? <==> PairsDistinct(fs)
    ensures dup.Some? ==> exists i, j :: 0 <= i < j < |fs| && Pair(fs[i]) == dup.value && Pair(fs[j]) == dup.value
  {
    var seen: set<(int, int)> := {};
    var i := 0;
    while i < |fs|
      invariant 0 <= i <= |fs|
      invariant PairsDistinct(fs[..i])
      invariant forall p :: p in seen <==> exists k :: 0 <= k < i && Pair(fs[k]) == p
    {
      var p := Pair(fs[i]);
      if p in seen {
        var k :| 0 <= k < i && Pair(fs[k]) == p;
        return Some(p);
      }
      seen := seen + {p};
      assert forall a, b :: 0 <= a < b < i + 1 ==> fs[..i + 1][a] == fs[a] && fs[..i + 1][b] == fs[b];
      i := i + 1;
    }
    assert fs[..i] == fs;
    return None;
  }

  /** The lowercased names of a forwarder's `forward_hashtags`. */
  function TagSet(f: Forwarder): set<string> {
    set t | t in Items(f.forwardHashtags) :: Lower(t.name)
  }

  /** No two forwarders on one Telegram channel allow a common (lowercased) hashtag. */
  predicate NoSharedHashtags(fs: seq<Forwarder>) {
    forall i, j :: 0 <= i < j < |fs| && fs[i].tgChannelId == fs[j].tgChannelId ==> TagSet(fs[i]) !! TagSet(fs[j])
  }

  /** Extending a forwarder list by one whose tags avoid every earlier forwarder on its channel. */
  lemma NoSharedExtend(fs: seq<Forwarder>, i: nat)
    requires i < |fs|
    requires NoSharedHashtags(fs[..i])
    requires forall k :: 0 <= k < i && fs[k].tgChannelId == fs[i].tgChannelId ==> TagSet(fs[k]) !! TagSet(fs[i])
    ensures NoSharedHashtags(fs[..i + 1])
  {
    var p := fs[..i + 1];
    forall a, b | 0 <= a < b < |p| && p[a].tgChannelId == p[b].tgChannelId
      ensures TagSet(p[a]) !! TagSet(p[b])
    {
      if b < i {
        assert p[a] == fs[..i][a] && p[b] == fs[..i][b];
      }
    }
  }

  /** The position of the first set in `sets` that meets `tags`, if any. */
  method FindOverlap(sets: seq<set<string>>, tags: set<string>) returns (r: Option<nat>)
    ensures r.None? <==> forall m :: 0 <= m < |sets| ==> sets[m] !! tags
    ensures r.Some? ==> r.value < |sets| && !(sets[r.value] !! tags)
  {
    var j := 0;
    while j < |sets|
      invariant 0 <= j <= |sets|
      invariant forall m :: 0 <= m < j ==> sets[m] !! tags
    {
      if !(sets[j] !! tags) {
        return Some(j);
      }
      j := j + 1;
    }
    return None;
  }

  /**
   * Every set remembered for a channel is the tag set of an earlier forwarder
   * on it; `origin` names that forwarder.
   */
  ghost predicate SeenSound(fs: seq<Forwarder>, i: int, seen: map<int, seq<set<string>>>, origin: map<int, seq<int>>) {
    && (forall c :: c in seen ==> c in origin && |origin[c]| == |seen[c]|)
    && (forall c, m :: c in seen && c in origin && 0 <= m < |seen[c]| && m < |origin[c]| ==>
          && 0 <= origin[c][m] < i && origin[c][m] < |fs|
          && fs[origin[c][m]].tgChannelId == c && TagSet(fs[origin[c][m]]) == seen[c][m])
  }

  /** Every non-empty tag set of an earlier forwarder is remembered for its channel. */
  ghost predicate SeenComplete(fs: seq<Forwarder>, i: int, seen: map<int, seq<set<string>>>) {
    forall k :: 0 <= k < i && k < |fs| && TagSet(fs[k]) != {} ==>
      fs[k].tgChannelId in seen && TagSet(fs[k]) in seen[fs[k].tgChannelId]
  }

  /** Remembering forwarder `i`'s non-empty set keeps both facts. */
  lemma SeenAfterAdd(fs: seq<Forwarder>, i: int, seen: map<int, seq<set<string>>>, origin: map<int, seq<int>>)
    requires 0 <= i < |fs|
    requires SeenSound(fs, i, seen, origin) && SeenComplete(fs, i, seen)
    ensures var c := fs[i].tgChannelId;
            var prev := if c in seen then seen[c] else [];
            var from := if c in seen then origin[c] else [];
            var seen' := seen[c := prev + [TagSet(fs[i])]];
            SeenSound(fs, i + 1, seen', origin[c := from + [i]]) && SeenComplete(fs, i + 1, seen')
  {
    var c := fs[i].tgChannelId;
    var prev := if c in seen then seen[c] else [];
    var from := if c in seen then origin[c] else [];
    var seen' := seen[c := prev + [TagSet(fs[i])]];
    var origin' := origin[c := from + [i]];
    forall d | d in seen'
      ensures d in origin' && |origin'[d]| == |seen'[d]|
    {
    }
    forall d, m | d in seen' && d in origin' && 0 <= m < |seen'[d]| && m < |origin'[d]|
      ensures && 0 <= origin'[d][m] < i + 1 && origin'[d][m] < |fs|
              && fs[origin'[d][m]].tgChannelId == d && TagSet(fs[origin'[d][m]]) == seen'[d][m]
    {
      if d == c && m < |prev| {
        assert seen'[d][m] == seen[c][m] && origin'[d][m] == origin[c][m];
      } else if d != c {
        assert seen'[d] == seen[d] && origin'[d] == origin[d];
      }
    }
    forall k | 0 <= k < i + 1 && k < |fs| && TagSet(fs[k]) != {}
      ensures fs[k].tgChannelId in seen' && TagSet(fs[k]) in seen'[fs[k].tgChannelId]
    {
      if k == i {
        assert seen'[c][|prev|] == TagSet(fs[i]);
      } else if fs[k].tgChannelId == c {
        assert TagSet(fs[k]) in prev;
        assert seen'[c] == prev + [TagSet(fs[i])];
      }
    }
  }

  /** An empty set is not remembered, and nothing remembered changes. */
  lemma SeenAfterSkip(fs: seq<Forwarder>, i: int, seen: map<int, seq<set<string>>>, origin: map<int, seq<int>>)
    requires 0 <= i < |fs|
    requires SeenSound(fs, i, seen, origin) && SeenComplete(fs, i, seen)
    requires TagSet(fs[i]) == {}
    ensures SeenSound(fs, i + 1, seen, origin) && SeenComplete(fs, i + 1, seen)
  {
    forall k | 0 <= k < i + 1 && k < |fs| && TagSet(fs[k]) != {}
      ensures fs[k].tgChannelId in seen && TagSet(fs[k]) in seen[fs[k].tgChannelId]
    {
      assert k < i;
    }
  }

  /** When forwarder `i`'s set meets none remembered for its channel, it meets no earlier one there. */
  lemma NoOverlapSoFar(fs: seq<Forwarder>, i: int, seen: map<int, seq<set<string>>>)
    requires 0 <= i < |fs|
    requires SeenComplete(fs, i, seen)
    requires var c := fs[i].tgChannelId;
             var prev := if c in seen then seen[c] else [];
             forall m :: 0 <= m < |prev| ==> prev[m] !! TagSet(fs[i])
    ensures forall k :: 0 <= k < i && fs[k].tgChannelId == fs[i].tgChannelId ==> TagSet(fs[k]) !! TagSet(fs[i])
  {
    var c := fs[i].tgChannelId;
    var prev := if c in seen then seen[c] else [];
    forall k | 0 <= k < i && fs[k].tgChannelId == c
      ensures TagSet(fs[k]) !! TagSet(fs[i])
    {
      if TagSet(fs[k]) != {} {
        var m :| 0 <= m < |prev| && prev[m] == TagSet(fs[k]);
      }
    }
  }

  /** Two forwarders on one channel with a common tag break the property. */
  lemma OverlapBreaks(fs: seq<Forwarder>, k: int, i: int)
    requires 0 <= k < i < |fs|
    requires fs[k].tgChannelId == fs[i].tgChannelId
    requires !(TagSet(fs[k]) !! TagSet(fs[i]))
    ensures !NoSharedHashtags(fs)
  {
  }

  /** What the validator knows after the first `i` forwarders. */
  ghost predicate Scanned(fs: seq<Forwarder>, i: int, seen: map<int, seq<set<string>>>, origin: map<int, seq<int>>)
    requires 0 <= i <= |fs|
  {
    NoSharedHashtags(fs[..i]) && SeenSound(fs, i, seen, origin) && SeenComplete(fs, i, seen)
  }

  /** A remembered set meeting forwarder `i`'s set is a shared hashtag between two forwarders. */
  lemma HitBreaks(fs: seq<Forwarder>, i: int, seen: map<int, seq<set<string>>>, origin: map<int, seq<int>>, m: int)
    requires 0 <= i < |fs| && Scanned(fs, i, seen, origin)
    requires fs[i].tgChannelId in seen && 0 <= m < |seen[fs[i].tgChannelId]|
    requires !(seen[fs[i].tgChannelId][m] !! TagSet(fs[i]))
    ensures !NoSharedHashtags(fs)
    ensures seen[fs[i].tgChannelId][m] * TagSet(fs[i]) != {}
  {
    var c := fs[i].tgChannelId;
    var k := origin[c][m];
    var w :| w in seen[c][m] && w in TagSet(fs[i]);
    assert w in seen[c][m] * TagSet(fs[i]);
    OverlapBreaks(fs, k, i);
  }

  /** A non-empty set meeting nothing remembered is remembered, and the property extends. */
  lemma NoHitStep(fs: seq<Forwarder>, i: int, seen: map<int, seq<set<string>>>, origin: map<int, seq<int>>)
    requires 0 <= i < |fs| && Scanned(fs, i, seen, origin)
    requires var c := fs[i].tgChannelId;
             var prev := if c in seen then seen[c] else [];
             forall m :: 0 <= m < |prev| ==> prev[m] !! TagSet(fs[i])
    ensures var c := fs[i].tgChannelId;
            var prev := if c in seen then seen[c] else [];
            var from := if c in seen then origin[c] else [];
            Scanned(fs, i + 1, seen[c := prev + [TagSet(fs[i])]], origin[c := from + [i]])
  {
    NoOverlapSoFar(fs, i, seen);
    SeenAfterAdd(fs, i, seen, origin);
    NoSharedExtend(fs, i);
  }

  /** A forwarder without tags is skipped, and the property extends. */
  lemma EmptyStep(fs: seq<Forwarder>, i: int, seen: map<int, seq<set<string>>>, origin: map<int, seq<int>>)
    requires 0 <= i < |fs| && Scanned(fs, i, seen, origin)
    requires TagSet(fs[i]) == {}
    ensures Scanned(fs, i + 1, seen, origin)
  {
    SeenAfterSkip(fs, i, seen, origin);
    NoSharedExtend(fs, i);
  }

  /**
   * `shared_forward_hashtags_validator`: keeps, per channel, the non-empty
   * tag sets seen so far and reports the channel and the shared tags on the
   * first overlap.
   */
  method CheckSharedHashtags(fs: seq<Forwarder>) returns (shared: Option<(int, set<string>)>)
    ensures shared.None? <==> NoSharedHashtags(fs)
    ensures shared.Some? ==> shared.value.1 != {}
  {
    var seen: map<int, seq<set<string>>> := map[];
    ghost var origin: map<int, seq<int>> := map[];
    var i := 0;
    while i < |fs|
      invariant 0 <= i <= |fs|
      invariant Scanned(fs, i, seen, origin)
    {
      var c := fs[i].tgChannelId;
      var tags := TagSet(fs[i]);
      if tags != {} {
        var prev := if c in seen then seen[c] else [];
        var hit := FindOverlap(prev, tags);
        if hit.Some? {
          HitBreaks(fs, i, seen, origin, hit.value);
          return Some((c, prev[hit.value] * tags));
        }
        NoHitStep(fs, i, seen, origin);
        origin := origin[c := (if c in seen then origin[c] else []) + [i]];
        seen := seen[c := prev + [tags]];
      } else {
        EmptyStep(fs, i, seen, origin);
      }
      i := i + 1;
    }
    assert fs[..i] == fs;
    return None;
  }

  /** `Config.get_telegram_channel_by_forwarder_name`: the channel of the first forwarder with that name. */
  function ChannelOfForwarder(fs: seq<Forwarder>, name: string): (r: Option<int>)
    ensures r.None? <==> forall k :: 0 <= k < |fs| ==> fs[k].name != name
    ensures r.Some? ==> exists k :: 0 <= k < |fs| && fs[k].name == name && fs[k].tgChannelId == r.value
                          && forall j :: 0 <= j < k ==> fs[j].name != name
  {
    if fs == [] then None
    else if fs[0].name == name then Some(fs[0].tgChannelId)
    else
      var r := ChannelOfForwarder(fs[1..], name);
      if r.Some? then
        var k :| 0 <= k < |fs[1..]| && fs[1..][k].name == name && fs[1..][k].tgChannelId == r.value
                 && forall j :: 0 <= j < k ==> fs[1..][j].name != name;
        assert fs[k + 1] == fs[1..][k];
        r
      else r
  }

  /**
   * The override map the handlers look tags up in: `{o.tag.lower(): o.roles}`.
   */
  function OverrideMap(os: seq<MentionOverride>): (m: map<string, seq<string>>)
    ensures forall k :: k in m <==> exists i :: 0 <= i < |os| && Lower(os[i].tag) == k
    decreases |os|
  {
    if os == [] then map[]
    else
      var init := os[..|os| - 1];
      assert forall i :: 0 <= i < |init| ==> init[i] == os[i];
      OverrideMap(init)[Lower(os[|os| - 1].tag) := os[|os| - 1].roles]
  }

  /** Each tag maps to the roles of the last entry with that lowercased tag. */
  lemma {:induction false} OverrideMapLastWins(os: seq<MentionOverride>, i: nat)
    requires i < |os|
    requires forall j :: i < j < |os| ==> Lower(os[j].tag) != Lower(os[i].tag)
    ensures Lower(os[i].tag) in OverrideMap(os)
    ensures OverrideMap(os)[Lower(os[i].tag)] == os[i].roles
    decreases |os|
  {
    var init := os[..|os| - 1];
    if i < |os| - 1 {
      assert forall j :: 0 <= j < |init| ==> init[j] == os[j];
      OverrideMapLastWins(init, i);
    }
  }

  /** A value under a key of a tag dict as read from YAML: a string, or anything else. */
  datatype RawValue = Str(s: string) | NonString

  /** A `forward_hashtags` entry as read; `None` is a missing key. */
  datatype RawForwardTag = RawForwardTag(name: Option<RawValue>, overrideMentionEveryone: bool)

  /** An `excluded_hashtags` entry as read. */
  datatype RawExcludedTag = RawExcludedTag(name: Option<RawValue>)

  /** A `mention_override` entry as read. */
  datatype RawOverride = RawOverride(tag: Option<RawValue>, roles: Option<seq<string>>)

  /** The input of `ForwarderConfig`: the typed fields, and the tag lists as plain dicts. */
  datatype RawForwarder = RawForwarder(
    name: string,
    tgChannelId: int,
    discordChannelId: int,
    stripOffLinks: bool,
    mentionEveryone: bool,
    forwardEverything: bool,
    forwardHashtags: Option<seq<RawForwardTag>>,
    excludedHashtags: Option<seq<RawExcludedTag>>,
    mentionOverride: Option<seq<RawOverride>>)

  /**
   * An exception a validator raises that pydantic does not turn into a
   * validation error: a missing key, or `startswith` on a value that is not
   * a string.
   */
  datatype Uncaught = KeyError(key: string) | AttributeError

  /** How a validator loop's step over one entry ends: it passes, its assertion fails, or it raises. */
  datatype Step = Pass | Refuse | Raise(exception: Uncaught)

  /** `entry[key].startswith('#')` as a step of a validator loop. */
  function HashStep(key: string, v: Option<RawValue>): Step {
    match v
    case None => Raise(KeyError(key))
    case Some(NonString) => Raise(AttributeError)
    case Some(Str(s)) => if StartsWithHash(s) then Pass else Refuse
  }

  /** One step of `mention_override_validator`: the tag first, then the roles. */
  function OverrideStep(o: RawOverride): Step {
    var t := HashStep("tag", o.tag);
    if !t.Pass? then t
    else match o.roles
      case None => Raise(KeyError("roles"))
      case Some(rs) => if rs == [] then Refuse else Pass
  }

  /**
   * A validator loop over its steps: the first step that does not pass ends
   * it, a failed assertion as much as an exception.
   */
  function FirstStop(steps: seq<Step>): (r: Step)
    ensures r.Pass? <==> forall k :: 0 <= k < |steps| ==> steps[k].Pass?
    ensures !r.Pass? ==> exists k :: 0 <= k < |steps| && steps[k] == r && forall j :: 0 <= j < k ==> steps[j].Pass?
  {
    if steps == [] then Pass
    else if steps[0].Pass? then
      var r := FirstStop(steps[1..]);
      assert forall k :: 1 <= k < |steps| ==> steps[k] == steps[1..][k - 1];
      assert !r.Pass? ==> exists k :: 0 <= k < |steps| && steps[k] == r && forall j :: 0 <= j < k ==> steps[j].Pass? by {
        if !r.Pass? {
          var k :| 0 <= k < |steps[1..]| && steps[1..][k] == r && forall j :: 0 <= j < k ==> steps[1..][j].Pass?;
          assert steps[k + 1] == r && forall j :: 0 <= j < k + 1 ==> steps[j].Pass?;
        }
      }
      r
    else steps[0]
  }

  /** The steps of a `name` loop over tag dicts, `name` reading the key from one. */
  function NameSteps<T>(ts: seq<T>, name: T -> Option<RawValue>): (r: seq<Step>)
    ensures |r| == |ts| && forall k :: 0 <= k < |ts| ==> r[k] == HashStep("name", name(ts[k]))
  {
    seq(|ts|, k requires 0 <= k < |ts| => HashStep("name", name(ts[k])))
  }

  function ForwardSteps(ts: seq<RawForwardTag>): seq<Step> {
    NameSteps(ts, (t: RawForwardTag) => t.name)
  }

  function ExcludedSteps(ts: seq<RawExcludedTag>): seq<Step> {
    NameSteps(ts, (t: RawExcludedTag) => t.name)
  }

  function OverrideSteps(os: seq<RawOverride>): (r: seq<Step>)
    ensures |r| == |os| && forall k :: 0 <= k < |os| ==> r[k] == OverrideStep(os[k])
  {
    seq(|os|, k requires 0 <= k < |os| => OverrideStep(os[k]))
  }

  /**
   * The exception that escapes the field validators of the three tag lists,
   * run in field order, each loop ending at its first entry that does not
   * pass; `None` when none escapes.
   */
  function LoadRaise(r: RawForwarder): Option<Uncaught> {
    var fw := FirstStop(ForwardSteps(Items(r.forwardHashtags)));
    var ex := FirstStop(ExcludedSteps(Items(r.excludedHashtags)));
    var mo := FirstStop(OverrideSteps(Items(r.mentionOverride)));
    if fw.Raise? then Some(fw.exception)
    else if ex.Raise? then Some(ex.exception)
    else if mo.Raise? then Some(mo.exception)
    else None
  }

  /** The string under a key, `""` for a value no loop reads once a validator has failed. */
  function TextOf(v: Option<RawValue>): string {
    if v.Some? && v.value.Str? then v.value.s else ""
  }

  function TypedForward(ts: seq<RawForwardTag>): (r: seq<ForwardTag>)
    ensures |r| == |ts| && forall k :: 0 <= k < |ts| ==> r[k] == ForwardTag(TextOf(ts[k].name), ts[k].overrideMentionEveryone)
  {
    seq(|ts|, k requires 0 <= k < |ts| => ForwardTag(TextOf(ts[k].name), ts[k].overrideMentionEveryone))
  }

  function TypedExcluded(ts: seq<RawExcludedTag>): (r: seq<ExcludedTag>)
    ensures |r| == |ts| && forall k :: 0 <= k < |ts| ==> r[k] == ExcludedTag(TextOf(ts[k].name))
  {
    seq(|ts|, k requires 0 <= k < |ts| => ExcludedTag(TextOf(ts[k].name)))
  }

  function TypedOverrides(os: seq<RawOverride>): (r: seq<MentionOverride>)
    ensures |r| == |os| && forall k :: 0 <= k < |os| ==> r[k] == MentionOverride(TextOf(os[k].tag), os[k].roles.GetOr([]))
  {
    seq(|os|, k requires 0 <= k < |os| => MentionOverride(TextOf(os[k].tag), os[k].roles.GetOr([])))
  }

  /** The forwarder the raw input describes, its tag dicts read as typed entries. */
  function Typed(r: RawForwarder): Forwarder {
    Forwarder(r.name, r.tgChannelId, r.discordChannelId, r.stripOffLinks, r.mentionEveryone, r.forwardEverything,
              if r.forwardHashtags.Some? then Some(TypedForward(r.forwardHashtags.value)) else None,
              if r.excludedHashtags.Some? then Some(TypedExcluded(r.excludedHashtags.value)) else None,
              if r.mentionOverride.Some? then Some(TypedOverrides(r.mentionOverride.value)) else None)
  }

  function LiftForward(ts: seq<ForwardTag>): (r: seq<RawForwardTag>)
    ensures |r| == |ts| && forall k :: 0 <= k < |ts| ==> r[k] == RawForwardTag(Some(Str(ts[k].name)), ts[k].overrideMentionEveryone)
  {
    seq(|ts|, k requires 0 <= k < |ts| => RawForwardTag(Some(Str(ts[k].name)), ts[k].overrideMentionEveryone))
  }

  function LiftExcluded(ts: seq<ExcludedTag>): (r: seq<RawExcludedTag>)
    ensures |r| == |ts| && forall k :: 0 <= k < |ts| ==> r[k] == RawExcludedTag(Some(Str(ts[k].name)))
  {
    seq(|ts|, k requires 0 <= k < |ts| => RawExcludedTag(Some(Str(ts[k].name))))
  }

  function LiftOverrides(os: seq<MentionOverride>): (r: seq<RawOverride>)
    ensures |r| == |os| && forall k :: 0 <= k < |os| ==> r[k] == RawOverride(Some(Str(os[k].tag)), Some(os[k].roles))
  {
    seq(|os|, k requires 0 <= k < |os| => RawOverride(Some(Str(os[k].tag)), Some(os[k].roles)))
  }

  /** The raw input of a typed forwarder: every tag dict carries its keys with string values. */
  function Lift(f: Forwarder): RawForwarder {
    RawForwarder(f.name, f.tgChannelId, f.discordChannelId, f.stripOffLinks, f.mentionEveryone, f.forwardEverything,
                 if f.forwardHashtags.Some? then Some(LiftForward(f.forwardHashtags.value)) else None,
                 if f.excludedHashtags.Some? then Some(LiftExcluded(f.excludedHashtags.value)) else None,
                 if f.mentionOverride.Some? then Some(LiftOverrides(f.mentionOverride.value)) else None)
  }

  /** Reading back the dicts of a typed forwarder gives the forwarder. */
  lemma TypedLift(f: Forwarder)
    ensures Typed(Lift(f)) == f
  {
    if f.forwardHashtags.Some? {
      var ts := f.forwardHashtags.value;
      assert TypedForward(LiftForward(ts)) == ts;
    }
    if f.excludedHashtags.Some? {
      var ts := f.excludedHashtags.value;
      assert TypedExcluded(LiftExcluded(ts)) == ts;
    }
    if f.mentionOverride.Some? {
      var os := f.mentionOverride.value;
      assert TypedOverrides(LiftOverrides(os)) == os;
    }
  }

  /** Why a forwarder does not load: the error kinds its validators check, or an exception that escapes them. */
  datatype LoadError = Invalid(errors: set<ForwarderError>) | Escaped(exception: Uncaught)

  /**
   * `ForwarderConfig(**entry)` with the channel-id checks repaired: an
   * exception escaping a tag validator ends the load; otherwise the
   * forwarder loads exactly when it is well formed.
   */
  function LoadForwarder(r: RawForwarder): (res: Result<Forwarder, LoadError>)
    ensures res.Success? <==> LoadRaise(r).None? && WellFormed(Typed(r))
    ensures res.Success? ==> res.value == Typed(r)
    ensures res.Failure? && res.error.Escaped? <==> LoadRaise(r).Some?
  {
    ForwarderAcceptedIffWellFormed(Typed(r));
    match LoadRaise(r)
    case Some(e) => Failure(Escaped(e))
    case None =>
      var f := Typed(r);
      if ForwarderErrors(f) == {} then Success(f) else Failure(Invalid(ForwarderErrors(f)))
  }

  /** A tag dict with a string under every key the validators read. */
  predicate WellTyped(r: RawForwarder) {
    && (forall t :: t in Items(r.forwardHashtags) ==> t.name.Some? && t.name.value.Str?)
    && (forall t :: t in Items(r.excludedHashtags) ==> t.name.Some? && t.name.value.Str?)
    && (forall o :: o in Items(r.mentionOverride) ==> o.tag.Some? && o.tag.value.Str? && o.roles.Some?)
  }

  /** Steps over entries that all carry their keys never raise. */
  lemma WellTypedNeverRaises(r: RawForwarder)
    requires WellTyped(r)
    ensures LoadRaise(r).None?
  {
    var fs := ForwardSteps(Items(r.forwardHashtags));
    var es := ExcludedSteps(Items(r.excludedHashtags));
    var os := OverrideSteps(Items(r.mentionOverride));
    assert forall k :: 0 <= k < |fs| ==> Items(r.forwardHashtags)[k] in Items(r.forwardHashtags) && !fs[k].Raise?;
    assert forall k :: 0 <= k < |es| ==> Items(r.excludedHashtags)[k] in Items(r.excludedHashtags) && !es[k].Raise?;
    assert forall k :: 0 <= k < |os| ==> Items(r.mentionOverride)[k] in Items(r.mentionOverride) && !os[k].Raise?;
  }

  /**
   * A forwarder whose tag dicts are written out in full loads exactly when it
   * is well formed, as itself, and otherwise fails with its errors.
   */
  lemma LiftLoads(f: Forwarder)
    ensures Typed(Lift(f)) == f
    ensures LoadForwarder(Lift(f)) == if WellFormed(f) then Success(f) else Failure(Invalid(ForwarderErrors(f)))
  {
    var r := Lift(f);
    TypedLift(f);
    assert WellTyped(r) by {
      forall t | t in Items(r.forwardHashtags) ensures t.name.Some? && t.name.value.Str? {
        var k :| 0 <= k < |Items(r.forwardHashtags)| && Items(r.forwardHashtags)[k] == t;
      }
      forall t | t in Items(r.excludedHashtags) ensures t.name.Some? && t.name.value.Str? {
        var k :| 0 <= k < |Items(r.excludedHashtags)| && Items(r.excludedHashtags)[k] == t;
      }
      forall o | o in Items(r.mentionOverride) ensures o.tag.Some? && o.tag.value.Str? && o.roles.Some? {
        var k :| 0 <= k < |Items(r.mentionOverride)| && Items(r.mentionOverride)[k] == o;
      }
    }
    WellTypedNeverRaises(r);
    ForwarderAcceptedIffWellFormed(f);
  }

  /**
   * A `forward_hashtags` dict without `name`, reached because every earlier
   * one is named with a `#`, raises `KeyError('name')` out of the load.
   */
  lemma MissingForwardNameRaises(r: RawForwarder, k: nat)
    requires k < |Items(r.forwardHashtags)| && Items(r.forwardHashtags)[k].name.None?
    requires forall j :: 0 <= j < k ==> HashStep("name", Items(r.forwardHashtags)[j].name).Pass?
    ensures LoadForwarder(r) == Failure(Escaped(KeyError("name")))
  {
    var steps := ForwardSteps(Items(r.forwardHashtags));
    assert steps[k] == Raise(KeyError("name"));
    assert FirstStop(steps) == steps[k];
  }

  /**
   * An override whose `#` tag is read but whose `roles` key is missing raises
   * `KeyError('roles')` once the two hashtag lists and the earlier overrides
   * pass.
   */
  lemma MissingRolesRaises(r: RawForwarder, k: nat)
    requires forall t :: t in Items(r.forwardHashtags) ==> HashStep("name", t.name).Pass?
    requires forall t :: t in Items(r.excludedHashtags) ==> HashStep("name", t.name).Pass?
    requires k < |Items(r.mentionOverride)|
    requires HashStep("tag", Items(r.mentionOverride)[k].tag).Pass? && Items(r.mentionOverride)[k].roles.None?
    requires forall j :: 0 <= j < k ==> OverrideStep(Items(r.mentionOverride)[j]).Pass?
    ensures LoadForwarder(r) == Failure(Escaped(KeyError("roles")))
  {
    var fs := ForwardSteps(Items(r.forwardHashtags));
    var es := ExcludedSteps(Items(r.excludedHashtags));
    assert forall j :: 0 <= j < |fs| ==> Items(r.forwardHashtags)[j] in Items(r.forwardHashtags) && fs[j].Pass?;
    assert forall j :: 0 <= j < |es| ==> Items(r.excludedHashtags)[j] in Items(r.excludedHashtags) && es[j].Pass?;
    var steps := OverrideSteps(Items(r.mentionOverride));
    assert steps[k] == Raise(KeyError("roles"));
    assert FirstStop(steps) == steps[k];
  }

  /** `List[ForwarderConfig]` of the loaded file: the first escaping exception ends the load, else all must load. */
  datatype ConfigLoadError = ForwarderRaised(exception: Uncaught) | ForwardersInvalid
                           | DuplicatePair(pair: (int, int)) | SharedHashtags(channel: int, shared: set<string>)

  /** Some forwarder of the list lets an exception escape. */
  predicate SomeRaises(rs: seq<RawForwarder>) {
    exists k :: 0 <= k < |rs| && LoadRaise(rs[k]).Some?
  }

  /** Every forwarder of the list loads. */
  predicate AllLoad(rs: seq<RawForwarder>) {
    forall k :: 0 <= k < |rs| ==> LoadForwarder(rs[k]).Success?
  }

  /** `fs` are the forwarders the entries `rs` describe, in order; what each loads as when it loads. */
  predicate LoadedAs(rs: seq<RawForwarder>, fs: seq<Forwarder>) {
    |fs| == |rs| && forall k :: 0 <= k < |rs| ==> fs[k] == Typed(rs[k])
  }

  lemma SomeRaisesCons(rs: seq<RawForwarder>)
    requires rs != []
    ensures SomeRaises(rs) <==> LoadRaise(rs[0]).Some? || SomeRaises(rs[1..])
  {
    if SomeRaises(rs[1..]) {
      var k :| 0 <= k < |rs[1..]| && LoadRaise(rs[1..][k]).Some?;
      assert rs[k + 1] == rs[1..][k];
    }
  }

  lemma AllLoadCons(rs: seq<RawForwarder>)
    requires rs != []
    ensures AllLoad(rs) <==> LoadForwarder(rs[0]).Success? && AllLoad(rs[1..])
  {
    assert forall k :: 1 <= k < |rs| ==> rs[k] == rs[1..][k - 1];
  }

  lemma LoadedAsCons(rs: seq<RawForwarder>, fs: seq<Forwarder>)
    requires rs != [] && LoadedAs(rs[1..], fs)
    ensures LoadedAs(rs, [Typed(rs[0])] + fs)
  {
    forall k | 0 < k < |rs|
      ensures ([Typed(rs[0])] + fs)[k] == Typed(rs[k])
    {
      assert rs[k] == rs[1..][k - 1];
    }
  }

  /**
   * The forwarder list as `Config.from_yaml` and `Config.load_instance`
   * validate it: each entry on its own, in order; an escaping exception ends
   * the load whichever entry it comes from. The cross-forwarder rules are
   * root validators of `ConfigYAMLSchema`, which neither builds, so they
   * never run here.
   */
  function LoadForwarders(rs: seq<RawForwarder>): (res: Result<seq<Forwarder>, ConfigLoadError>)
    ensures res.Success? <==> AllLoad(rs)
    ensures res.Success? ==> LoadedAs(rs, res.value)
    ensures res.Failure? ==> (res.error.ForwarderRaised? <==> SomeRaises(rs))
    ensures res.Failure? ==> res.error.ForwarderRaised? || res.error == ForwardersInvalid
  {
    if rs == [] then Success([])
    else
      var rest := LoadForwarders(rs[1..]);
      var first := LoadForwarder(rs[0]);
      SomeRaisesCons(rs);
      AllLoadCons(rs);
      if first.Failure? && first.error.Escaped? then Failure(ForwarderRaised(first.error.exception))
      else if first.Failure? then
        if rest.Failure? && rest.error.ForwarderRaised? then rest else Failure(ForwardersInvalid)
      else if rest.Success? then
        LoadedAsCons(rs, rest.value);
        Success([first.value] + rest.value)
      else rest
  }

  /**
   * As loaded, two entries of the same channel pair both load: nothing
   * refuses the duplicate.
   */
  lemma DuplicatePairLoads()
    ensures var f := Forwarder("news", 1, 2, false, false, true, None, None, None);
            var res := LoadForwarders([Lift(f), Lift(f)]);
            res == Success([f, f]) && !PairsDistinct(res.value)
  {
    var f := Forwarder("news", 1, 2, false, false, true, None, None, None);
    LiftLoads(f);
    assert WellFormed(f);
    var r := Lift(f);
    var res := LoadForwarders([r, r]);
    assert forall k :: 0 <= k < 2 ==> [r, r][k] == r;
    assert res.Success? && |res.value| == 2 && res.value[0] == f && res.value[1] == f;
    assert res.value == [f, f];
    assert Pair(res.value[0]) == Pair(res.value[1]);
  }

  /**
   * Loading the forwarder list with the cross-forwarder rules applied, as
   * `ConfigYAMLSchema` states them: every entry loads, the channel pairs are
   * distinct, and no two forwarders of a channel share a hashtag.
   */
  method LoadConfig(rs: seq<RawForwarder>) returns (res: Result<seq<Forwarder>, ConfigLoadError>)
    ensures res.Success? <==> && LoadForwarders(rs).Success?
                              && PairsDistinct(LoadForwarders(rs).value)
                              && NoSharedHashtags(LoadForwarders(rs).value)
    ensures res.Success? ==> res.value == LoadForwarders(rs).value
    ensures res.Failure? && res.error.DuplicatePair? ==> LoadForwarders(rs).Success? && !PairsDistinct(LoadForwarders(rs).value)
    ensures res.Failure? && res.error.SharedHashtags? ==> res.error.shared != {}
  {
    var loaded := LoadForwarders(rs);
    if loaded.Failure? {
      return Failure(loaded.error);
    }
    var dup := CheckPairs(loaded.value);
    if dup.Some? {
      return Failure(DuplicatePair(dup.value));
    }
    var shared := CheckSharedHashtags(loaded.value);
    if shared.Some? {
      return Failure(SharedHashtags(shared.value.0, shared.value.1));
    }
    return Success(loaded.value);
  }
}
