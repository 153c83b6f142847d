/**
 * The Discord-side helpers: mention-role resolution, sending the split parts
 * of a message, and resolving the reply reference.
 */
module DiscordHandler {
  import opened Wrappers
  import opened PyStr
  import Split

  /** A role of the Discord server: its name and its mention token. */
  datatype Role = Role(name: string, mention: string)

  /** `is_builtin_mention`: the lowercased role name is in the built-in list, compared as given. */
  predicate IsBuiltinMention(roleName: string, builtIns: seq<string>) {
    Lower(roleName) in builtIns
  }

  /** `discord.utils.get(roles, name=n)`: the first role with exactly that name. */
  function FirstRoleNamed(roles: seq<Role>, name: string): (r: Option<Role>)
    ensures r.None? <==> forall k :: 0 <= k < |roles| ==> roles[k].name != name
    ensures r.Some? ==> exists k :: 0 <= k < |roles| && roles[k] == r.value && r.value.name == name
                          && forall j :: 0 <= j < k ==> roles[j].name != name
  {
    if roles == [] then None
    else if roles[0].name == name then Some(roles[0])
    else
      var r := FirstRoleNamed(roles[1..], name);
      if r.Some? then
        var k :| 0 <= k < |roles[1..]| && roles[1..][k] == r.value && r.value.name == name
                 && forall j :: 0 <= j < k ==> roles[1..][j].name != name;
        assert roles[k + 1] == r.value;
        r
      else r
  }

  /** What one configured role name contributes: `@name` for a built-in, else the server role's mention. */
  function MentionFor(roleName: string, builtIns: seq<string>, server: seq<Role>): Option<string> {
    if IsBuiltinMention(roleName, builtIns) then Some("@" + roleName)
    else match FirstRoleNamed(server, roleName)
      case Some(role) => Some(role.mention)
      case None => None
  }

  /** The inner loop over the role names configured for one tag. */
  function RoleMentions(names: seq<string>, builtIns: seq<string>, server: seq<Role>): (r: set<string>)
    ensures forall x :: x in r <==> exists j :: 0 <= j < |names| && MentionFor(names[j], builtIns, server) == Some(x)
  {
    if names == [] then {}
    else
      var head := MentionFor(names[0], builtIns, server);
      var rest := RoleMentions(names[1..], builtIns, server);
      assert forall j :: 0 < j < |names| ==> names[j] == names[1..][j - 1];
      (if head.Some? then {head.value} else {}) + rest
  }

  /**
   * `get_mention_roles`: for each message hashtag whose lowercase form is a
   * key of the override map, the mentions of its configured roles. The
   * Python list built from a set is modelled by the set itself.
   */
  function GetMentionRoles(hashtags: seq<string>, overrides: map<string, seq<string>>,
                           builtIns: seq<string>, server: seq<Role>): (r: set<string>)
    ensures hashtags == [] ==> r == {}
  {
    if hashtags == [] then {}
    else
      var tag := Lower(hashtags[0]);
      (if tag in overrides then RoleMentions(overrides[tag], builtIns, server) else {})
      + GetMentionRoles(hashtags[1..], overrides, builtIns, server)
  }

  /** A mention is produced exactly when some overridden hashtag names a role that resolves to it. */
  predicate Produces(hashtags: seq<string>, overrides: map<string, seq<string>>,
                     builtIns: seq<string>, server: seq<Role>, x: string) {
    exists i, j :: 0 <= i < |hashtags| && Lower(hashtags[i]) in overrides
      && 0 <= j < |overrides[Lower(hashtags[i])]|
      && MentionFor(overrides[Lower(hashtags[i])][j], builtIns, server) == Some(x)
  }

  lemma {:induction false} GetMentionRolesExactly(hashtags: seq<string>, overrides: map<string, seq<string>>,
                                                  builtIns: seq<string>, server: seq<Role>, x: string)
    ensures x in GetMentionRoles(hashtags, overrides, builtIns, server) <==> Produces(hashtags, overrides, builtIns, server, x)
  {
    if hashtags != [] {
      GetMentionRolesExactly(hashtags[1..], overrides, builtIns, server, x);
      var tail := hashtags[1..];
      if Produces(tail, overrides, builtIns, server, x) {
        var i, j :| 0 <= i < |tail| && Lower(tail[i]) in overrides
          && 0 <= j < |overrides[Lower(tail[i])]|
          && MentionFor(overrides[Lower(tail[i])][j], builtIns, server) == Some(x);
        assert hashtags[i + 1] == tail[i];
      }
      if Produces(hashtags, overrides, builtIns, server, x) {
        var i, j :| 0 <= i < |hashtags| && Lower(hashtags[i]) in overrides
          && 0 <= j < |overrides[Lower(hashtags[i])]|
          && MentionFor(overrides[Lower(hashtags[i])][j], builtIns, server) == Some(x);
        if i > 0 {
          assert tail[i - 1] == hashtags[i];
        }
      }
    }
  }

  /** A hashtag without an override contributes nothing. */
  lemma UnconfiguredTagAddsNothing(tag: string, hashtags: seq<string>, overrides: map<string, seq<string>>,
                                   builtIns: seq<string>, server: seq<Role>)
    requires Lower(tag) !in overrides
    ensures GetMentionRoles([tag] + hashtags, overrides, builtIns, server)
            == GetMentionRoles(hashtags, overrides, builtIns, server)
  {
    assert ([tag] + hashtags)[1..] == hashtags;
  }

  /** A built-in role keeps its configured case after the `@`. */
  lemma BuiltinRoleMentioned(tag: string, role: string, overrides: map<string, seq<string>>,
                             builtIns: seq<string>, server: seq<Role>)
    requires Lower(tag) in overrides && role in overrides[Lower(tag)]
    requires IsBuiltinMention(role, builtIns)
    ensures "@" + role in GetMentionRoles([tag], overrides, builtIns, server)
  {
    var j :| 0 <= j < |overrides[Lower(tag)]| && overrides[Lower(tag)][j] == role;
    GetMentionRolesExactly([tag], overrides, builtIns, server, "@" + role);
  }

  /** What one `channel.send` does. `NotFound` and `Forbidden` are kinds of `HTTPException`. */
  datatype SendResult = Sent(id: int) | Forbidden | HttpFailure | OtherFailure

  /** A message posted to Discord: its id, text, whether the image is attached, and its reference. */
  datatype Posted = Posted(id: int, text: string, withFile: bool, reference: Option<int>)

  /** An exception that escapes: from `forward_to_discord`, one that is not an `HTTPException`. */
  datatype SendError = Uncaught

  /** The send loop of `forward_to_discord` from part `i` on; `send(i)` is the outcome for part `i`. */
  function SendParts(parts: seq<string>, i: nat, withImage: bool, reference: Option<int>,
                     send: nat -> SendResult): (r: Result<seq<Posted>, SendError>)
    requires i <= |parts|
    ensures r.Success? ==> |r.value| <= |parts| - i
    ensures r.Success? ==> forall k :: 0 <= k < |r.value| ==>
              && send(i + k) == Sent(r.value[k].id)
              && r.value[k] == Posted(send(i + k).id, parts[i + k], withImage && i + k == 0, reference)
    ensures r.Success? && |r.value| < |parts| - i ==> send(i + |r.value|) in {Forbidden, HttpFailure}
    ensures r.Failure? <==> RaisesFirst(|parts|, i, send)
    decreases |parts| - i
  {
    if i == |parts| then Success([])
    else match send(i)
      case Sent(id) =>
        var rest := SendParts(parts, i + 1, withImage, reference, send);
        FirstFailureAfterSent(|parts|, i, send);
        if rest.Success? then Success([Posted(id, parts[i], withImage && i == 0, reference)] + rest.value)
        else rest
      case Forbidden => Success([])
      case HttpFailure => Success([])
      case OtherFailure => Failure(Uncaught)
  }

  /**
   * Some send from part `i` on, before part `n`, raises something other than
   * an `HTTPException`, and every send before it succeeded.
   */
  predicate RaisesFirst(n: nat, i: nat, send: nat -> SendResult) {
    exists k: nat :: i <= k < n && send(k) == OtherFailure && forall j: nat :: i <= j < k ==> send(j).Sent?
  }

  /** Past a successful send, the same send raises first. */
  lemma FirstFailureAfterSent(n: nat, i: nat, send: nat -> SendResult)
    requires send(i).Sent?
    ensures RaisesFirst(n, i, send) <==> RaisesFirst(n, i + 1, send)
  {
    if RaisesFirst(n, i + 1, send) {
      var k: nat :| i + 1 <= k < n && send(k) == OtherFailure && forall j: nat :: i + 1 <= j < k ==> send(j).Sent?;
      assert forall j: nat :: i <= j < k ==> send(j).Sent?;
    }
  }

  /** A `Forbidden` before a raising send ends the loop quietly: the later send never happens. */
  lemma ForbiddenStopsBeforeRaise(parts: seq<string>, send: nat -> SendResult)
    requires |parts| >= 2 && send(0) == Forbidden && send(1) == OtherFailure
    ensures SendParts(parts, 0, false, None, send) == Success([])
  {
  }

  /**
   * `forward_to_discord`: the parts of the split text in order, the image on
   * the first; a `Forbidden` or `HTTPException` stops the loop and what was
   * sent so far is returned.
   */
  function ForwardToDiscord(text: string, withImage: bool, reference: Option<int>,
                            send: nat -> SendResult): (r: Result<seq<Posted>, SendError>)
    ensures var parts := Split.SplitMessage(text, Split.DefaultMaxLength);
            r.Success? ==> && |r.value| <= |parts|
                           && (forall k :: 0 <= k < |r.value| ==> r.value[k].text == parts[k])
                           && (forall k :: 0 <= k < |r.value| ==> (r.value[k].withFile <==> withImage && k == 0))
    ensures (forall k :: send(k).Sent?) ==> r.Success? && |r.value| == |Split.SplitMessage(text, Split.DefaultMaxLength)|
  {
    SendParts(Split.SplitMessage(text, Split.DefaultMaxLength), 0, withImage, reference, send)
  }

  /** The legacy loop: nothing is caught, so any failed send raises. */
  function SendPartsLegacy(parts: seq<string>, i: nat, withImage: bool, reference: Option<int>,
                           send: nat -> SendResult): (r: Result<seq<Posted>, SendResult>)
    requires i <= |parts|
    ensures r.Success? ==> |r.value| == |parts| - i
    ensures r.Success? ==> forall k :: 0 <= k < |r.value| ==>
              && send(i + k).Sent?
              && r.value[k] == Posted(send(i + k).id, parts[i + k], withImage && i + k == 0, reference)
    ensures r.Failure? <==> exists k :: i <= k < |parts| && !send(k).Sent?
    decreases |parts| - i
  {
    if i == |parts| then Success([])
    else match send(i)
      case Sent(id) =>
        var rest := SendPartsLegacy(parts, i + 1, withImage, reference, send);
        if rest.Success? then Success([Posted(id, parts[i], withImage && i == 0, reference)] + rest.value)
        else rest
      case other => Failure(other)
  }

  /** `forward_to_discord` of the legacy handler: one posted message per part, or the failure raised. */
  function ForwardToDiscordLegacy(text: string, withImage: bool, reference: Option<int>,
                                  send: nat -> SendResult): (r: Result<seq<Posted>, SendResult>)
    ensures var parts := Split.SplitMessage(text, Split.DefaultMaxLength);
            r.Success? ==> && |r.value| == |parts|
                           && (forall k :: 0 <= k < |parts| ==> r.value[k].text == parts[k])
                           && (forall k :: 0 <= k < |parts| ==> (r.value[k].withFile <==> withImage && k == 0))
  {
    SendPartsLegacy(Split.SplitMessage(text, Split.DefaultMaxLength), 0, withImage, reference, send)
  }

  /**
   * What `channel.history(around=…)` yields: the ids near the target,
   * `NotFound`, or another HTTP failure (`Forbidden` among them), which the
   * caller does not catch.
   */
  datatype HistoryResult = Around(ids: seq<int>) | HistoryNotFound | HistoryRaised

  /**
   * `fetch_discord_reference`: the mapped Discord id of the replied-to
   * message, if the mapping exists (and is not the falsy 0) and the message is
   * among those around it. Only `NotFound` is caught; any other failure of the
   * history call propagates as `Failure(Uncaught)`.
   */
  function FetchDiscordReference(mapped: Option<int>, around: int -> HistoryResult): (r: Result<Option<int>, SendError>)
    ensures mapped.None? || mapped == Some(0) ==> r == Success(None)
    ensures r.Failure? <==> mapped.Some? && mapped.value != 0 && around(mapped.value) == HistoryRaised
    ensures r.Success? && r.value.Some? ==> mapped == Some(r.value.value) && r.value.value != 0
    ensures (r.Success? && r.value.Some?) <==> mapped.Some? && mapped.value != 0
                                               && around(mapped.value).Around? && mapped.value in around(mapped.value).ids
  {
    match mapped
    case None => Success(None)
    case Some(d) =>
      if d == 0 then Success(None)
      else match around(d)
        case HistoryRaised => Failure(Uncaught)
        case HistoryNotFound => Success(None)
        case Around(ids) => Success(if d in ids then Some(d) else None)
  }
}
