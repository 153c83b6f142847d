/**
 * `Bridge._handle_new_message`: for each forwarder of the message's channel,
 * decide, post through an abstract Discord side, and record the outcome in
 * the history: the mapping on success, a missed record on failure.
 */
module Bridge {
  import opened Wrappers
  import opened Messages
  import opened Config
  import opened Router
  import History
  import DiscordHandler
  import TelegramHandler
  import Split

  /** A message that could not be delivered to a forwarder's Discord channel. */
  datatype Missed = Missed(forwarder: string, tgId: int, discordChannelId: int)

  /** What the bridge keeps between events: the mapping history and the missed records. */
  datatype State = State(history: History.Store, missed: seq<Missed>)

  /** What the handler asks the Discord side to post for one forwarder. */
  datatype Request = Request(
    forwarder: Forwarder,
    messageId: int,
    mentionEveryone: bool,
    roles: set<string>,
    reference: Option<int>,
    withMedia: bool)

  /** A request and the ids of the Discord messages it produced (none when sending failed). */
  datatype Delivery = Delivery(request: Request, sent: seq<int>)

  /**
   * Everything outside the handler: the configured forwarders and built-in
   * roles, the roles of the server behind each Discord channel, the history
   * around a Discord message, and the outcome of posting a request: the ids of
   * the messages posted (none when the post failed and was caught), or `None`
   * when an exception escaped the posting code.
   */
  datatype Env = Env(
    forwarders: seq<Forwarder>,
    builtIns: seq<string>,
    serverRoles: int -> seq<DiscordHandler.Role>,
    around: int -> DiscordHandler.HistoryResult,
    send: Request -> Option<seq<int>>)

  /** A reply id counts only when it is truthy: present and not 0. */
  predicate RepliesTo(m: Message) {
    m.replyTo.Some? && m.replyTo.value != 0
  }

  /**
   * The request for one forwarder that decided to forward. Fetching the
   * reference raises when the Discord history does, and then there is no
   * request.
   */
  function RequestFor(st: State, env: Env, f: Forwarder, m: Message, d: Decision): (r: Result<Request, DiscordHandler.SendError>)
    ensures r.Success? ==> r.value.forwarder == f && r.value.messageId == m.id && r.value.mentionEveryone == d.mentionEveryone
    ensures !RepliesTo(m) ==> r.Success? && r.value.reference.None?
    ensures r.Failure? <==> RepliesTo(m) && DiscordHandler.FetchDiscordReference(
                              History.Lookup(st.history, f.name, m.replyTo.value), env.around).Failure?
    ensures r.Success? && r.value.reference.Some? ==> History.Lookup(st.history, f.name, m.replyTo.value) == r.value.reference
  {
    var tags := TelegramHandler.ForwardHashtags(m);
    var roles := DiscordHandler.GetMentionRoles(tags, OverrideMap(Items(f.mentionOverride)), env.builtIns,
                                                env.serverRoles(f.discordChannelId));
    var reference := if RepliesTo(m)
                     then DiscordHandler.FetchDiscordReference(History.Lookup(st.history, f.name, m.replyTo.value), env.around)
                     else Success(None);
    match reference
    case Failure(e) => Failure(e)
    case Success(ref) => Success(Request(f, m.id, d.mentionEveryone, roles, ref, m.hasMedia))
  }

  /** No exception can escape: every post returns, and no history call fails other than with `NotFound`. */
  ghost predicate NeverRaises(env: Env) {
    && (forall req :: env.send(req).Some?)
    && (forall id :: env.around(id) != DiscordHandler.HistoryRaised)
  }

  /** The bookkeeping after posting: the first Discord id is mapped, or a missed record is kept. */
  function Record(st: State, f: Forwarder, tgId: int, sent: seq<int>): State {
    if sent != [] then st.(history := History.SaveMapping(st.history, f.name, tgId, sent[0]))
    else st.(missed := st.missed + [Missed(f.name, tgId, f.discordChannelId)])
  }

  /** The forwarders among `ms` whose decision is to forward, in order. */
  function Forwarding(ms: seq<Forwarder>, tags: seq<string>): (r: seq<Forwarder>)
    ensures forall f :: f in r <==> f in ms && Decide(f, tags).shouldForward
  {
    if ms == [] then []
    else (if Decide(ms[0], tags).shouldForward then [ms[0]] else []) + Forwarding(ms[1..], tags)
  }

  function Forwarders(ds: seq<Delivery>): seq<Forwarder> {
    seq(|ds|, k requires 0 <= k < |ds| => ds[k].request.forwarder)
  }

  /** The missed records the failed deliveries leave, in order. */
  function MissedOf(ds: seq<Delivery>, tgId: int): seq<Missed> {
    if ds == [] then []
    else (if ds[0].sent == [] then [Missed(ds[0].request.forwarder.name, tgId, ds[0].request.forwarder.discordChannelId)] else [])
         + MissedOf(ds[1..], tgId)
  }

  /** The mapping a forwarder name ends with for the message: the last successful delivery's first id. */
  function MappedAfter(ds: seq<Delivery>, name: string, prior: Option<int>): Option<int> {
    if ds == [] then prior
    else MappedAfter(ds[1..], name,
                     if ds[0].sent != [] && ds[0].request.forwarder.name == name then Some(ds[0].sent[0]) else prior)
  }

  /**
   * The loop over the matching forwarders. The third component says whether
   * an exception escaped: it ends the handler, so the remaining forwarders are
   * not served and the failing one leaves no missed record.
   */
  function HandleForwarders(st: State, env: Env, ms: seq<Forwarder>, m: Message): (r: (State, seq<Delivery>, bool))
    ensures forall k :: 0 <= k < |r.1| ==> env.send(r.1[k].request) == Some(r.1[k].sent) && r.1[k].request.messageId == m.id
    decreases |ms|
  {
    if ms == [] then (st, [], false)
    else
      var f := ms[0];
      var d := Decide(f, TelegramHandler.ForwardHashtags(m));
      if !d.shouldForward then
        HandleForwarders(st, env, ms[1..], m)
      else
        match RequestFor(st, env, f, m, d)
        case Failure(_) => (st, [], true)
        case Success(req) =>
          match env.send(req)
          case None => (st, [], true)
          case Some(sent) =>
            var rest := HandleForwarders(Record(st, f, m.id, sent), env, ms[1..], m);
            (rest.0, [Delivery(req, sent)] + rest.1, rest.2)
  }

  lemma ForwardersCons(d: Delivery, ds: seq<Delivery>)
    ensures Forwarders([d] + ds) == [d.request.forwarder] + Forwarders(ds)
  {
  }

  /**
   * The deliveries are made for the forwarders that decide to forward, in
   * order: all of them when no exception escaped, and otherwise those before
   * the one whose reference fetch or post raised.
   */
  lemma {:induction false} HandleForwardersDelivers(st: State, env: Env, ms: seq<Forwarder>, m: Message)
    ensures var r := HandleForwarders(st, env, ms, m);
            var fw := Forwarding(ms, TelegramHandler.ForwardHashtags(m));
            var fs := Forwarders(r.1);
            && |fs| <= |fw| && fs == fw[..|fs|]
            && (!r.2 ==> fs == fw)
            && (r.2 ==> |fs| < |fw|)
    decreases |ms|
  {
    if ms != [] {
      var tags := TelegramHandler.ForwardHashtags(m);
      var d := Decide(ms[0], tags);
      ForwardingCons(ms, tags);
      if !d.shouldForward {
        HandleForwardersDelivers(st, env, ms[1..], m);
      } else {
        HandleForwardersStep(st, env, ms, m);
        var req := RequestFor(st, env, ms[0], m, d);
        if req.Success? && env.send(req.value).Some? {
          var sent := env.send(req.value).value;
          var rest := HandleForwarders(Record(st, ms[0], m.id, sent), env, ms[1..], m);
          HandleForwardersDelivers(Record(st, ms[0], m.id, sent), env, ms[1..], m);
          ForwardersCons(Delivery(req.value, sent), rest.1);
          PrefixCons(ms[0], Forwarders(rest.1), Forwarding(ms[1..], tags));
        }
      }
    }
  }

  lemma ForwardingCons(ms: seq<Forwarder>, tags: seq<string>)
    requires ms != []
    ensures Forwarding(ms, tags) == (if Decide(ms[0], tags).shouldForward then [ms[0]] else []) + Forwarding(ms[1..], tags)
  {
  }

  lemma PrefixCons<T>(x: T, a: seq<T>, b: seq<T>)
    requires |a| <= |b| && a == b[..|a|]
    ensures [x] + a == ([x] + b)[..|[x] + a|]
  {
  }

  /** One step of the loop, for a forwarder that forwards. */
  lemma HandleForwardersStep(st: State, env: Env, ms: seq<Forwarder>, m: Message)
    requires ms != [] && Decide(ms[0], TelegramHandler.ForwardHashtags(m)).shouldForward
    ensures var req := RequestFor(st, env, ms[0], m, Decide(ms[0], TelegramHandler.ForwardHashtags(m)));
            var r := HandleForwarders(st, env, ms, m);
            && (req.Failure? ==> r == (st, [], true))
            && (req.Success? && env.send(req.value).None? ==> r == (st, [], true))
            && (req.Success? && env.send(req.value).Some? ==>
                  var sent := env.send(req.value).value;
                  var rest := HandleForwarders(Record(st, ms[0], m.id, sent), env, ms[1..], m);
                  r == (rest.0, [Delivery(req.value, sent)] + rest.1, rest.2))
  {
  }

  /**
   * An exception from fetching the reference or from posting ends the
   * handler: nothing is delivered to this or any later forwarder, and nothing
   * is mapped or recorded as missed.
   */
  lemma ExceptionEndsHandler(st: State, env: Env, ms: seq<Forwarder>, m: Message)
    requires ms != [] && Decide(ms[0], TelegramHandler.ForwardHashtags(m)).shouldForward
    requires var req := RequestFor(st, env, ms[0], m, Decide(ms[0], TelegramHandler.ForwardHashtags(m)));
             req.Failure? || env.send(req.value).None?
    ensures HandleForwarders(st, env, ms, m) == (st, [], true)
  {
    HandleForwardersStep(st, env, ms, m);
  }

  /** When no exception can escape, the loop runs to its end. */
  lemma {:induction false} NeverRaisesRunsToEnd(st: State, env: Env, ms: seq<Forwarder>, m: Message)
    requires NeverRaises(env)
    ensures !HandleForwarders(st, env, ms, m).2
    decreases |ms|
  {
    if ms != [] {
      var d := Decide(ms[0], TelegramHandler.ForwardHashtags(m));
      if !d.shouldForward {
        NeverRaisesRunsToEnd(st, env, ms[1..], m);
      } else {
        HandleForwardersStep(st, env, ms, m);
        var req := RequestFor(st, env, ms[0], m, d);
        if req.Failure? {
          assert false;
        }
        assert env.send(req.value).Some?;
        var sent := env.send(req.value).value;
        NeverRaisesRunsToEnd(Record(st, ms[0], m.id, sent), env, ms[1..], m);
      }
    }
  }

  /** The bookkeeping of a sequence of deliveries of one message, in order. */
  function RecordAll(st: State, ds: seq<Delivery>, tgId: int): State
    decreases |ds|
  {
    if ds == [] then st
    else RecordAll(Record(st, ds[0].request.forwarder, tgId, ds[0].sent), ds[1..], tgId)
  }

  /** The loop's final state is its deliveries' bookkeeping applied in order. */
  lemma {:induction false} HandleForwardersRecords(st: State, env: Env, ms: seq<Forwarder>, m: Message)
    ensures var r := HandleForwarders(st, env, ms, m);
            r.0 == RecordAll(st, r.1, m.id)
    decreases |ms|
  {
    if ms != [] {
      var d := Decide(ms[0], TelegramHandler.ForwardHashtags(m));
      if !d.shouldForward {
        HandleForwardersRecords(st, env, ms[1..], m);
      } else {
        HandleForwardersStep(st, env, ms, m);
        var req := RequestFor(st, env, ms[0], m, d);
        if req.Success? && env.send(req.value).Some? {
          var sent := env.send(req.value).value;
          var st1 := Record(st, ms[0], m.id, sent);
          var rest := HandleForwarders(st1, env, ms[1..], m);
          HandleForwardersRecords(st1, env, ms[1..], m);
          assert ([Delivery(req.value, sent)] + rest.1)[1..] == rest.1;
        }
      }
    }
  }

  lemma RecordAllCons(st: State, ds: seq<Delivery>, tgId: int)
    requires ds != []
    ensures RecordAll(st, ds, tgId) == RecordAll(Record(st, ds[0].request.forwarder, tgId, ds[0].sent), ds[1..], tgId)
  {
  }

  lemma MissedOfCons(ds: seq<Delivery>, tgId: int)
    requires ds != []
    ensures var f := ds[0].request.forwarder;
            MissedOf(ds, tgId)
            == (if ds[0].sent == [] then [Missed(f.name, tgId, f.discordChannelId)] else []) + MissedOf(ds[1..], tgId)
  {
  }

  lemma RecordMissed(st: State, f: Forwarder, tgId: int, sent: seq<int>)
    ensures Record(st, f, tgId, sent).missed
            == st.missed + (if sent == [] then [Missed(f.name, tgId, f.discordChannelId)] else [])
  {
  }

  /** The missed records grow by the failed deliveries, in order. */
  lemma {:induction false} RecordAllMissed(st: State, ds: seq<Delivery>, tgId: int)
    ensures RecordAll(st, ds, tgId).missed == st.missed + MissedOf(ds, tgId)
    decreases |ds|
  {
    if ds != [] {
      var f := ds[0].request.forwarder;
      var st1 := Record(st, f, tgId, ds[0].sent);
      RecordAllMissed(st1, ds[1..], tgId);
      var here := if ds[0].sent == [] then [Missed(f.name, tgId, f.discordChannelId)] else [];
      RecordMissed(st, f, tgId, ds[0].sent);
      MissedOfCons(ds, tgId);
      RecordAllCons(st, ds, tgId);
      Split.Associate(st.missed, here, MissedOf(ds[1..], tgId));
    }
  }

  /** The history after a sequence of deliveries: valid, other ids untouched, this id as `MappedAfter` says. */
  lemma {:induction false} RecordAllHistory(st: State, ds: seq<Delivery>, tgId: int)
    ensures var h := RecordAll(st, ds, tgId).history;
            && (History.Valid(st.history) ==> History.Valid(h))
            && (forall n, t :: t != tgId ==> History.Lookup(h, n, t) == History.Lookup(st.history, n, t))
            && (forall n :: History.Lookup(h, n, tgId) == MappedAfter(ds, n, History.Lookup(st.history, n, tgId)))
    decreases |ds|
  {
    if ds != [] {
      var st1 := Record(st, ds[0].request.forwarder, tgId, ds[0].sent);
      RecordAllHistory(st1, ds[1..], tgId);
      forall n
        ensures History.Lookup(st1.history, n, tgId)
                == (if ds[0].sent != [] && ds[0].request.forwarder.name == n then Some(ds[0].sent[0])
                    else History.Lookup(st.history, n, tgId))
      {
      }
    }
  }

  /** The missed records grow by the failed deliveries, in order. */
  lemma HandleForwardersMissed(st: State, env: Env, ms: seq<Forwarder>, m: Message)
    ensures var r := HandleForwarders(st, env, ms, m);
            r.0.missed == st.missed + MissedOf(r.1, m.id)
  {
    HandleForwardersRecords(st, env, ms, m);
    RecordAllMissed(st, HandleForwarders(st, env, ms, m).1, m.id);
  }

  /**
   * Only this message's entries change: the history stays valid, every other
   * Telegram id keeps its mapping, and each forwarder name ends with the first
   * id of its last successful delivery.
   */
  lemma HandleForwardersHistory(st: State, env: Env, ms: seq<Forwarder>, m: Message)
    ensures var r := HandleForwarders(st, env, ms, m);
            && (History.Valid(st.history) ==> History.Valid(r.0.history))
            && (forall n, t :: t != m.id ==> History.Lookup(r.0.history, n, t) == History.Lookup(st.history, n, t))
            && (forall n :: History.Lookup(r.0.history, n, m.id) == MappedAfter(r.1, n, History.Lookup(st.history, n, m.id)))
  {
    HandleForwardersRecords(st, env, ms, m);
    RecordAllHistory(st, HandleForwarders(st, env, ms, m).1, m.id);
  }

  /**
   * `_handle_new_message` with the two call errors repaired (see
   * `HandleNewMessageAsWritten`): only forwarders of the channel that decide
   * to forward are delivered to, and all of them unless an exception escaped.
   */
  function HandleNewMessage(st: State, env: Env, m: Message, channel: int): (r: (State, seq<Delivery>, bool))
    ensures forall f :: f in Forwarders(r.1) ==>
              f in env.forwarders && f.tgChannelId == channel && Decide(f, TelegramHandler.ForwardHashtags(m)).shouldForward
    ensures !r.2 ==> forall f :: (f in env.forwarders && f.tgChannelId == channel
                                  && Decide(f, TelegramHandler.ForwardHashtags(m)).shouldForward) ==> f in Forwarders(r.1)
  {
    var ms := MatchingForwarders(env.forwarders, channel);
    var r := HandleForwarders(st, env, ms, m);
    HandleForwardersDelivers(st, env, ms, m);
    var fw := Forwarding(ms, TelegramHandler.ForwardHashtags(m));
    assert forall f :: f in Forwarders(r.1) ==> f in fw by {
      forall f | f in Forwarders(r.1)
        ensures f in fw
      {
        var k :| 0 <= k < |Forwarders(r.1)| && Forwarders(r.1)[k] == f;
        assert fw[k] == f;
      }
    }
    r
  }

  /** A channel with no forwarder: nothing is sent, mapped or recorded as missed. */
  lemma NoForwarderNoEffect(st: State, env: Env, m: Message, channel: int)
    requires forall f :: f in env.forwarders ==> f.tgChannelId != channel
    ensures HandleNewMessage(st, env, m, channel) == (st, [], false)
  {
  }

  /** A delivery that produced messages maps the message to its first Discord id and records nothing missed. */
  lemma DeliveredMessageMapped(st: State, env: Env, f: Forwarder, m: Message)
    requires Decide(f, TelegramHandler.ForwardHashtags(m)).shouldForward
    requires RequestFor(st, env, f, m, Decide(f, TelegramHandler.ForwardHashtags(m))).Success?
    requires var req := RequestFor(st, env, f, m, Decide(f, TelegramHandler.ForwardHashtags(m))).value;
             env.send(req).Some? && env.send(req).value != []
    ensures var r := HandleForwarders(st, env, [f], m);
            var req := RequestFor(st, env, f, m, Decide(f, TelegramHandler.ForwardHashtags(m))).value;
            && History.Lookup(r.0.history, f.name, m.id) == Some(env.send(req).value[0])
            && r.0.missed == st.missed
            && !r.2
  {
    assert [f][1..] == [];
    HandleForwardersStep(st, env, [f], m);
    HandleForwardersHistory(st, env, [f], m);
    HandleForwardersMissed(st, env, [f], m);
  }

  /** A delivery that produced nothing leaves the mappings alone and records one missed message. */
  lemma FailedDeliveryRecorded(st: State, env: Env, f: Forwarder, m: Message)
    requires Decide(f, TelegramHandler.ForwardHashtags(m)).shouldForward
    requires RequestFor(st, env, f, m, Decide(f, TelegramHandler.ForwardHashtags(m))).Success?
    requires env.send(RequestFor(st, env, f, m, Decide(f, TelegramHandler.ForwardHashtags(m))).value) == Some([])
    ensures var r := HandleForwarders(st, env, [f], m);
            && r.0.history == st.history
            && r.0.missed == st.missed + [Missed(f.name, m.id, f.discordChannelId)]
            && !r.2
  {
    assert [f][1..] == [];
    HandleForwardersStep(st, env, [f], m);
    HandleForwardersMissed(st, env, [f], m);
  }

  /** Why `_handle_new_message` raises as written. */
  datatype Crash =
    | UnboundHashtags      // `message_forward_hashtags` read before any branch assigned it
    | OverrideNotIterable  // `tag.lower() in None` when the forwarder has no `mention_override`
    | MarkdownArity        // `telegram_entities_to_markdown` called with one argument too many

  /**
   * The handler loop as written. `bound` says whether an earlier iteration
   * already assigned `message_forward_hashtags`, which outlives its iteration.
   * The override list is passed where a dict is expected, so a non-empty list
   * matches no tag; `None` raises as soon as there is a hashtag to look up.
   */
  function HandleForwardersAsWritten(st: State, ms: seq<Forwarder>, m: Message, bound: bool): (r: Result<State, Crash>)
    ensures r.Success? ==> r.value == st
    ensures r.Success? <==> forall k :: 0 <= k < |ms| ==> !Decide(ms[k], TelegramHandler.ForwardHashtags(m)).shouldForward
  {
    if ms == [] then Success(st)
    else
      var tags := TelegramHandler.ForwardHashtags(m);
      var d := Decide(ms[0], tags);
      var nowBound := bound || d.hashtagsRead;
      if !d.shouldForward then
        var rest := HandleForwardersAsWritten(st, ms[1..], m, nowBound);
        assert forall k :: 1 <= k < |ms| ==> ms[k] == ms[1..][k - 1];
        rest
      else if !nowBound then Failure(UnboundHashtags)
      else if ms[0].mentionOverride.None? && tags != [] then Failure(OverrideNotIterable)
      else Failure(MarkdownArity)
  }

  function HandleNewMessageAsWritten(st: State, env: Env, m: Message, channel: int): Result<State, Crash> {
    HandleForwardersAsWritten(st, MatchingForwarders(env.forwarders, channel), m, false)
  }

  /** A forwarder that forwards everything and has no tag lists. */
  function Plain(): Forwarder {
    Forwarder("all", 10, 20, false, false, true, None, None, None)
  }

  /**
   * As written, a forwarder with `forward_everything` and no tag lists
   * raises before posting, while the repaired handler posts the message.
   */
  lemma PlainForwarderCrashes(st: State, env: Env, m: Message)
    requires env.forwarders == [Plain()]
    ensures HandleNewMessageAsWritten(st, env, m, 10) == Failure(UnboundHashtags)
    ensures NeverRaises(env) ==> |HandleNewMessage(st, env, m, 10).1| == 1
  {
    assert MatchingForwarders([Plain()], 10) == [Plain()] by {
      assert [Plain()][1..] == [];
    }
    assert Decide(Plain(), TelegramHandler.ForwardHashtags(m)).shouldForward;
    if NeverRaises(env) {
      var r := HandleForwarders(st, env, [Plain()], m);
      assert Forwarding([Plain()], TelegramHandler.ForwardHashtags(m)) == [Plain()] by {
        assert [Plain()][1..] == [];
      }
      HandleForwardersDelivers(st, env, [Plain()], m);
      NeverRaisesRunsToEnd(st, env, [Plain()], m);
      assert |Forwarders(r.1)| == 1;
    }
  }

  /**
   * The variable outlives its iteration: after a filtering forwarder has read
   * the hashtags, the same plain forwarder no longer fails on it and the
   * handler reaches the markdown call instead.
   */
  lemma EarlierForwarderBindsHashtags(st: State, m: Message)
    requires m.entities == []
    ensures var filter := Forwarder("tagged", 10, 21, false, false, false, Some([ForwardTag("#x", false)]), None, None);
            HandleForwardersAsWritten(st, [filter, Plain()], m, false) == Failure(MarkdownArity)
  {
    var filter := Forwarder("tagged", 10, 21, false, false, false, Some([ForwardTag("#x", false)]), None, None);
    assert TelegramHandler.ForwardHashtags(m) == [];
    assert [filter, Plain()][1..] == [Plain()];
  }
}
