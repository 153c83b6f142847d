/**
 * One round of `Bridge.on_restored_connectivity`: when the connection and
 * Telegram are up, replay what each forwarder's channel received after its
 * last mapped message, then sleep until the next round.
 */
module Recovery {
  import opened Wrappers
  import opened Messages
  import opened Config
  import opened History
  import opened Bridge

  /** What a round does, in order. */
  datatype TickEvent =
    | Fetched(forwarder: string, channel: int, after: int)  // messages after `after` fetched from `channel`
    | Skipped(messageId: int)                               // Discord unhealthy: not delivered
    | Waited(seconds: real)                                 // the delay before a replay
    | Replayed(messageId: int)                              // handed to the new-message handler
    | Caught                                                // fetching raised; caught, ending the round's work
    | ResolveRaised                                         // resolving the channel's peer raised for the next message; caught, ending the round's work
    | HandlerRaised                                         // the handler raised for the message just replayed; caught, ending the round's work
    | Slept(interval: int)                                  // the pause before the next round

  /** The settings and health flags read at the start of a round. */
  datatype Settings = Settings(internetConnected: bool, telegramHealthy: bool, recovererDelay: real, healthcheckInterval: int)

  /**
   * The outside world during a round: the messages after an id in a channel
   * (`None` when fetching raises), whether resolving the channel's input
   * entity returns when a message of it comes up, and whether Discord is
   * healthy when a forwarder's message comes up.
   */
  datatype Sources = Sources(fetchAfter: (int, int) -> Option<seq<Message>>,
                             peerResolves: (int, int) -> bool,
                             discordHealthy: (string, int) -> bool)

  /** The events that handle a message, skipped or replayed, in order. */
  function Handled(evs: seq<TickEvent>): seq<TickEvent> {
    if evs == [] then []
    else (if evs[0].Skipped? || evs[0].Replayed? then [evs[0]] else []) + Handled(evs[1..])
  }

  lemma {:induction false} HandledAppend(a: seq<TickEvent>, b: seq<TickEvent>)
    ensures Handled(a + b) == Handled(a) + Handled(b)
  {
    if a != [] {
      assert (a + b)[0] == a[0];
      assert (a + b)[1..] == a[1..] + b;
      HandledAppend(a[1..], b);
    } else {
      assert a + b == b;
    }
  }

  /** The handled part of each message's own events. */
  lemma HandledHeads(id: int, delay: real)
    ensures Handled([Skipped(id)]) == [Skipped(id)]
    ensures Handled([Waited(delay), Replayed(id)]) == [Replayed(id)]
    ensures Handled([HandlerRaised]) == []
  {
    assert [Skipped(id)][1..] == [] && [HandlerRaised][1..] == [];
    var head := [Waited(delay), Replayed(id)];
    assert head[1..] == [Replayed(id)] && head[1..][1..] == [];
  }

  /** What the health check makes of one fetched message: a skip while Discord is unhealthy, else a replay. */
  function Verdict(src: Sources, name: string, m: Message): TickEvent {
    if src.discordHealthy(name, m.id) then Replayed(m.id) else Skipped(m.id)
  }

  /** The handled events are the verdicts of the first messages, in order. */
  predicate VerdictsOf(src: Sources, name: string, ms: seq<Message>, h: seq<TickEvent>) {
    |h| <= |ms| && forall k :: 0 <= k < |h| ==> h[k] == Verdict(src, name, ms[k])
  }

  lemma VerdictsCons(src: Sources, name: string, ms: seq<Message>, h: seq<TickEvent>)
    requires ms != [] && VerdictsOf(src, name, ms[1..], h)
    ensures VerdictsOf(src, name, ms, [Verdict(src, name, ms[0])] + h)
  {
    var all := [Verdict(src, name, ms[0])] + h;
    forall k | 0 <= k < |all|
      ensures all[k] == Verdict(src, name, ms[k])
    {
      if k > 0 {
        assert all[k] == h[k - 1] && ms[1..][k - 1] == ms[k];
      }
    }
  }

  /** A replay is always directly preceded by the delay. */
  predicate DelayedReplays(evs: seq<TickEvent>, delay: real) {
    forall k :: 0 <= k < |evs| && evs[k].Replayed? ==> k > 0 && evs[k - 1] == Waited(delay)
  }

  lemma DelayedAppend(a: seq<TickEvent>, b: seq<TickEvent>, delay: real)
    requires DelayedReplays(a, delay) && DelayedReplays(b, delay)
    requires b == [] || !b[0].Replayed?
    ensures DelayedReplays(a + b, delay)
  {
    var evs := a + b;
    forall k | 0 <= k < |evs| && evs[k].Replayed?
      ensures k > 0 && evs[k - 1] == Waited(delay)
    {
      if k >= |a| {
        assert evs[k] == b[k - |a|];
        assert evs[k - 1] == b[k - 1 - |a|];
      }
    }
  }

  /** Events of the inner loop: handling messages and at most one caught exception; no fetch, no sleep. */
  predicate MessageOnly(evs: seq<TickEvent>) {
    forall e :: e in evs ==> e.Skipped? || e.Replayed? || e.Waited? || e == ResolveRaised || e == HandlerRaised
  }

  /** The handled messages all had their peer resolved. */
  predicate ResolvedBefore(src: Sources, channel: int, ms: seq<Message>, n: int) {
    forall k :: 0 <= k < n && k < |ms| ==> src.peerResolves(channel, ms[k].id)
  }

  /**
   * What the inner loop promises of its events `evs` for the messages `ms`
   * fetched from `channel`: the k-th handled event is the verdict on the k-th
   * message, whose peer was resolved; every message is handled unless
   * something raised; `raised` holds exactly when a resolution's or the
   * handler's exception is among the events, and a resolution raised only
   * for the first message not handled; every replay directly follows the
   * delay; and nothing but message handling happens.
   */
  predicate ReplayedAs(src: Sources, name: string, channel: int, ms: seq<Message>, delay: real,
                       evs: seq<TickEvent>, raised: bool) {
    && VerdictsOf(src, name, ms, Handled(evs))
    && ResolvedBefore(src, channel, ms, |Handled(evs)|)
    && (!raised ==> |Handled(evs)| == |ms|)
    && (raised <==> ResolveRaised in evs || HandlerRaised in evs)
    && (ResolveRaised in evs ==> |Handled(evs)| < |ms| && !src.peerResolves(channel, ms[|Handled(evs)|].id))
    && DelayedReplays(evs, delay) && MessageOnly(evs)
    && (evs == [] || !evs[0].Replayed?)
  }

  /** The events of the first message, put in front of those of the rest, keep the inner loop's promise. */
  lemma PrependHandled(src: Sources, name: string, channel: int, ms: seq<Message>, delay: real,
                       head: seq<TickEvent>, rest: seq<TickEvent>, raised: bool)
    requires ms != [] && head != [] && !head[0].Replayed?
    requires src.peerResolves(channel, ms[0].id)
    requires Handled(head) == [Verdict(src, name, ms[0])]
    requires DelayedReplays(head, delay) && MessageOnly(head) && ResolveRaised !in head && HandlerRaised !in head
    requires ReplayedAs(src, name, channel, ms[1..], delay, rest, raised)
    ensures ReplayedAs(src, name, channel, ms, delay, head + rest, raised)
  {
    HandledAppend(head, rest);
    DelayedAppend(head, rest, delay);
    VerdictsCons(src, name, ms, Handled(rest));
    assert (head + rest)[0] == head[0];
    var n := |Handled(rest)|;
    forall k | 0 <= k < n + 1 && k < |ms|
      ensures src.peerResolves(channel, ms[k].id)
    {
      if k > 0 {
        assert ms[k] == ms[1..][k - 1];
      }
    }
    if ResolveRaised in head + rest {
      assert ResolveRaised in rest;
      assert ms[1..][n] == ms[n + 1];
    }
  }

  /** A message whose peer does not resolve ends the inner loop before it is handled. */
  lemma ResolveEnds(src: Sources, name: string, channel: int, ms: seq<Message>, delay: real)
    requires ms != [] && !src.peerResolves(channel, ms[0].id)
    ensures ReplayedAs(src, name, channel, ms, delay, [ResolveRaised], true)
  {
    assert [ResolveRaised][1..] == [];
    assert Handled([ResolveRaised]) == [];
  }

  /**
   * The inner loop: for each fetched message, in fetch order, the channel's
   * peer is resolved first; then the message is skipped while Discord is
   * unhealthy and otherwise replayed after the delay. The third component
   * says whether the resolution or the new-message handler raised, which
   * ends the loop.
   */
  function Replay(st: State, env: Env, name: string, channel: int, ms: seq<Message>, src: Sources, delay: real)
    : (r: (State, seq<TickEvent>, bool))
    ensures ReplayedAs(src, name, channel, ms, delay, r.1, r.2)
    decreases |ms|
  {
    if ms == [] then (st, [], false)
    else
      var m := ms[0];
      if !src.peerResolves(channel, m.id) then
        ResolveEnds(src, name, channel, ms, delay);
        (st, [ResolveRaised], true)
      else if !src.discordHealthy(name, m.id) then
        var rest := Replay(st, env, name, channel, ms[1..], src, delay);
        var head := [Skipped(m.id)];
        HandledHeads(m.id, delay);
        PrependHandled(src, name, channel, ms, delay, head, rest.1, rest.2);
        (rest.0, head + rest.1, rest.2)
      else
        var h := HandleNewMessage(st, env, m, channel);
        var head := [Waited(delay), Replayed(m.id)];
        HandledHeads(m.id, delay);
        if h.2 then
          assert ReplayedAs(src, name, channel, ms[1..], delay, [HandlerRaised], true);
          PrependHandled(src, name, channel, ms, delay, head, [HandlerRaised], true);
          (h.0, head + [HandlerRaised], true)
        else
          var rest := Replay(h.0, env, name, channel, ms[1..], src, delay);
          PrependHandled(src, name, channel, ms, delay, head, rest.1, rest.2);
          (rest.0, head + rest.1, rest.2)
  }

  /**
   * While Discord stays unhealthy, the state is untouched and every fetched
   * message is skipped, unless resolving a peer raised, which ends the loop.
   */
  lemma {:induction false} UnhealthyReplaySkipsAll(st: State, env: Env, name: string, channel: int, ms: seq<Message>,
                                                   src: Sources, delay: real)
    requires forall k :: 0 <= k < |ms| ==> !src.discordHealthy(name, ms[k].id)
    ensures var r := Replay(st, env, name, channel, ms, src, delay);
            && r.0 == st
            && (forall e :: e in r.1 ==> e.Skipped? || e == ResolveRaised)
            && (!r.2 ==> |r.1| == |ms|)
    decreases |ms|
  {
    if ms != [] && src.peerResolves(channel, ms[0].id) {
      assert forall k :: 0 <= k < |ms[1..]| ==> ms[1..][k] == ms[k + 1];
      UnhealthyReplaySkipsAll(st, env, name, channel, ms[1..], src, delay);
    }
  }

  /**
   * The channel the recovery uses for a forwarder: that of the first
   * configuration entry with its name, and only when truthy (not 0).
   */
  function RecoveryChannel(fs: seq<Forwarder>, name: string): (c: Option<int>)
    ensures c.Some? <==> exists k :: 0 <= k < |fs| && fs[k].name == name && fs[k].tgChannelId != 0
                                     && forall j :: 0 <= j < k ==> fs[j].name != name
    ensures c.Some? ==> exists k :: 0 <= k < |fs| && fs[k].name == name && fs[k].tgChannelId == c.value
                                    && forall j :: 0 <= j < k ==> fs[j].name != name
  {
    var c := ChannelOfForwarder(fs, name);
    if c.Some? && c.value != 0 then c else None
  }

  /** Whether the round's work ran to the end or an exception was caught. */
  datatype Work = Work(st: State, events: seq<TickEvent>, caught: bool)

  /** A fetch event that matches one of the last-message records and its forwarder's channel. */
  predicate FetchOf(fs: seq<Forwarder>, lms: seq<LastMessage>, e: TickEvent)
    requires e.Fetched?
  {
    exists i :: 0 <= i < |lms| && lms[i].forwarder == e.forwarder && lms[i].telegramId == e.after
                && RecoveryChannel(fs, e.forwarder) == Some(e.channel)
  }

  /** The outer loop over the last-message records. */
  function ReplayAll(st: State, env: Env, lms: seq<LastMessage>, src: Sources, delay: real): (r: Work)
    ensures DelayedReplays(r.events, delay)
    ensures r.events == [] || !r.events[0].Replayed?
    ensures forall e :: e in r.events ==> !e.Slept?
    ensures r.caught <==> Caught in r.events || ResolveRaised in r.events || HandlerRaised in r.events
    decreases |lms|
  {
    if lms == [] then Work(st, [], false)
    else
      var lm := lms[0];
      match RecoveryChannel(env.forwarders, lm.forwarder)
      case None => ReplayAll(st, env, lms[1..], src, delay)
      case Some(channel) =>
        match src.fetchAfter(lm.telegramId, channel)
        case None => Work(st, [Caught], true)
        case Some(ms) =>
          var rep := Replay(st, env, lm.forwarder, channel, ms, src, delay);
          var fetched := [Fetched(lm.forwarder, channel, lm.telegramId)];
          if rep.2 then
            FetchShape(fetched, rep.1, [], delay);
            assert fetched + rep.1 + [] == fetched + rep.1;
            Work(rep.0, fetched + rep.1, true)
          else
            var rest := ReplayAll(rep.0, env, lms[1..], src, delay);
            FetchShape(fetched, rep.1, rest.events, delay);
            Work(rest.st, fetched + rep.1 + rest.events, rest.caught)
  }

  /** The events of one fetch followed by the rest of the outer loop keep its shape. */
  lemma FetchShape(fetched: seq<TickEvent>, evs: seq<TickEvent>, rest: seq<TickEvent>, delay: real)
    requires |fetched| == 1 && fetched[0].Fetched?
    requires DelayedReplays(evs, delay) && MessageOnly(evs) && (evs == [] || !evs[0].Replayed?)
    requires DelayedReplays(rest, delay) && (rest == [] || !rest[0].Replayed?)
    requires forall e :: e in rest ==> !e.Slept?
    ensures var all := fetched + evs + rest;
            && DelayedReplays(all, delay)
            && !all[0].Replayed?
            && (forall e :: e in all ==> !e.Slept?)
            && (Caught in all <==> Caught in rest)
            && (ResolveRaised in all <==> ResolveRaised in evs || ResolveRaised in rest)
            && (HandlerRaised in all <==> HandlerRaised in evs || HandlerRaised in rest)
  {
    DelayedAppend(fetched, evs, delay);
    DelayedAppend(fetched + evs, rest, delay);
    var all := fetched + evs + rest;
    forall e | e in all
      ensures !e.Slept? && (e == Caught ==> e in rest)
              && (e == ResolveRaised ==> e in evs || e in rest) && (e == HandlerRaised ==> e in evs || e in rest)
    {
      if e !in rest {
        assert e in fetched || e in evs;
      }
    }
  }

  /** A fetch that matches a record of the rest matches one of the whole. */
  lemma FetchOfRest(fs: seq<Forwarder>, lms: seq<LastMessage>, e: TickEvent)
    requires lms != [] && e.Fetched?
    requires FetchOf(fs, lms[1..], e)
    ensures FetchOf(fs, lms, e)
  {
    var i :| 0 <= i < |lms[1..]| && lms[1..][i].forwarder == e.forwarder && lms[1..][i].telegramId == e.after
             && RecoveryChannel(fs, e.forwarder) == Some(e.channel);
    assert lms[i + 1] == lms[1..][i];
  }

  /** Every fetch of the outer loop starts after a last-message record, on its forwarder's truthy channel. */
  lemma {:induction false} ReplayAllFetches(st: State, env: Env, lms: seq<LastMessage>, src: Sources, delay: real)
    ensures forall e :: e in ReplayAll(st, env, lms, src, delay).events && e.Fetched? ==> FetchOf(env.forwarders, lms, e)
    decreases |lms|
  {
    if lms != [] {
      var lm := lms[0];
      match RecoveryChannel(env.forwarders, lm.forwarder)
      case None =>
        ReplayAllFetches(st, env, lms[1..], src, delay);
        forall e | e in ReplayAll(st, env, lms, src, delay).events && e.Fetched?
          ensures FetchOf(env.forwarders, lms, e)
        {
          FetchOfRest(env.forwarders, lms, e);
        }
      case Some(channel) =>
        match src.fetchAfter(lm.telegramId, channel)
        case None =>
        case Some(ms) =>
          var rep := Replay(st, env, lm.forwarder, channel, ms, src, delay);
          var rest := if rep.2 then Work(rep.0, [], true) else ReplayAll(rep.0, env, lms[1..], src, delay);
          var fetched := Fetched(lm.forwarder, channel, lm.telegramId);
          if !rep.2 {
            ReplayAllFetches(rep.0, env, lms[1..], src, delay);
          }
          assert ReplayAll(st, env, lms, src, delay).events == [fetched] + rep.1 + rest.events;
          forall e | e in [fetched] + rep.1 + rest.events && e.Fetched?
            ensures FetchOf(env.forwarders, lms, e)
          {
            if e in rest.events {
              FetchOfRest(env.forwarders, lms, e);
            } else if e in rep.1 {
              assert false;
            } else {
              assert lms[0].forwarder == e.forwarder && lms[0].telegramId == e.after;
            }
          }
    }
  }

  /**
   * The events from `j` to `k` are the fetch of `ms` after `after` from
   * `channel`, followed by every one of those messages handled in order
   * with nothing raised.
   */
  predicate ReplayedAt(src: Sources, name: string, channel: int, after: int, ms: seq<Message>, delay: real,
                       evs: seq<TickEvent>, j: int, k: int) {
    && 0 <= j < k <= |evs|
    && evs[j] == Fetched(name, channel, after)
    && ReplayedAs(src, name, channel, ms, delay, evs[j + 1..k], false)
  }

  /**
   * A last-message record whose forwarder has a truthy channel is fetched
   * without raising, and somewhere in `evs` that fetch is followed by the
   * whole replay of what it returned.
   */
  ghost predicate Covered(fs: seq<Forwarder>, src: Sources, delay: real, lm: LastMessage, evs: seq<TickEvent>) {
    var c := RecoveryChannel(fs, lm.forwarder);
    c.Some? ==>
      && Fetched(lm.forwarder, c.value, lm.telegramId) in evs
      && src.fetchAfter(lm.telegramId, c.value).Some?
      && exists j, k :: ReplayedAt(src, lm.forwarder, c.value, lm.telegramId,
                                   src.fetchAfter(lm.telegramId, c.value).value, delay, evs, j, k)
  }

  /** Events put in front of or after a covered record keep it covered. */
  lemma CoveredWithin(fs: seq<Forwarder>, src: Sources, delay: real, lm: LastMessage,
                      pre: seq<TickEvent>, evs: seq<TickEvent>, post: seq<TickEvent>)
    requires Covered(fs, src, delay, lm, evs)
    ensures Covered(fs, src, delay, lm, pre + evs + post)
  {
    var c := RecoveryChannel(fs, lm.forwarder);
    if c.Some? {
      var ms := src.fetchAfter(lm.telegramId, c.value).value;
      var j, k :| ReplayedAt(src, lm.forwarder, c.value, lm.telegramId, ms, delay, evs, j, k);
      var all := pre + evs + post;
      assert all[j + |pre|] == evs[j];
      assert all[j + |pre| + 1..k + |pre|] == evs[j + 1..k];
      assert ReplayedAt(src, lm.forwarder, c.value, lm.telegramId, ms, delay, all, j + |pre|, k + |pre|);
      assert Fetched(lm.forwarder, c.value, lm.telegramId) in evs;
    }
  }

  /** A record's fetch, followed by its whole replay, covers the record whatever comes after. */
  lemma CoveredHead(fs: seq<Forwarder>, src: Sources, delay: real, lm: LastMessage, channel: int,
                    ms: seq<Message>, evs: seq<TickEvent>, rest: seq<TickEvent>)
    requires RecoveryChannel(fs, lm.forwarder) == Some(channel)
    requires src.fetchAfter(lm.telegramId, channel) == Some(ms)
    requires ReplayedAs(src, lm.forwarder, channel, ms, delay, evs, false)
    ensures Covered(fs, src, delay, lm, [Fetched(lm.forwarder, channel, lm.telegramId)] + evs + rest)
  {
    var all := [Fetched(lm.forwarder, channel, lm.telegramId)] + evs + rest;
    var seg := all[1..1 + |evs|];
    assert seg == evs;
    assert ReplayedAs(src, lm.forwarder, channel, ms, delay, seg, false);
    assert ReplayedAt(src, lm.forwarder, channel, lm.telegramId, ms, delay, all, 0, 1 + |evs|);
    assert all[0] in all;
  }

  /** Every record in `lms` is covered by `evs`. */
  ghost predicate AllCovered(fs: seq<Forwarder>, src: Sources, delay: real, lms: seq<LastMessage>, evs: seq<TickEvent>) {
    forall i :: 0 <= i < |lms| ==> Covered(fs, src, delay, lms[i], evs)
  }

  /** Records covered by the rest of the outer loop stay covered behind the first record's events. */
  lemma CoveredTail(fs: seq<Forwarder>, src: Sources, delay: real, lms: seq<LastMessage>,
                    pre: seq<TickEvent>, rest: seq<TickEvent>)
    requires lms != []
    requires AllCovered(fs, src, delay, lms[1..], rest)
    ensures forall i :: 1 <= i < |lms| ==> Covered(fs, src, delay, lms[i], pre + rest)
  {
    forall i | 1 <= i < |lms|
      ensures Covered(fs, src, delay, lms[i], pre + rest)
    {
      assert lms[i] == lms[1..][i - 1];
      CoveredWithin(fs, src, delay, lms[i], pre, rest, []);
      assert pre + rest + [] == pre + rest;
    }
  }

  /**
   * An outer loop that ends without a caught exception fetched every record
   * whose forwarder has a truthy channel and replayed all it fetched.
   */
  lemma {:induction false} ReplayAllCovers(st: State, env: Env, lms: seq<LastMessage>, src: Sources, delay: real)
    ensures var r := ReplayAll(st, env, lms, src, delay);
            !r.caught ==> AllCovered(env.forwarders, src, delay, lms, r.events)
    decreases |lms|
  {
    if lms != [] {
      var r := ReplayAll(st, env, lms, src, delay);
      var lm := lms[0];
      match RecoveryChannel(env.forwarders, lm.forwarder)
      case None =>
        if !r.caught {
          ReplayAllCovers(st, env, lms[1..], src, delay);
          CoveredTail(env.forwarders, src, delay, lms, [], r.events);
          assert [] + r.events == r.events;
        }
      case Some(channel) =>
        match src.fetchAfter(lm.telegramId, channel)
        case None =>
        case Some(ms) =>
          var rep := Replay(st, env, lm.forwarder, channel, ms, src, delay);
          if !rep.2 {
            var rest := ReplayAll(rep.0, env, lms[1..], src, delay);
            var own := [Fetched(lm.forwarder, channel, lm.telegramId)] + rep.1;
            assert r == Work(rest.st, own + rest.events, rest.caught);
            if !rest.caught {
              ReplayAllCovers(rep.0, env, lms[1..], src, delay);
              CoveredStep(env.forwarders, src, delay, lms, channel, ms, rep.1, rest.events);
            }
          }
    }
  }

  /** The first record's fetch and replay, followed by events covering the rest, cover every record. */
  lemma CoveredStep(fs: seq<Forwarder>, src: Sources, delay: real, lms: seq<LastMessage>, channel: int,
                    ms: seq<Message>, evs: seq<TickEvent>, rest: seq<TickEvent>)
    requires lms != []
    requires RecoveryChannel(fs, lms[0].forwarder) == Some(channel)
    requires src.fetchAfter(lms[0].telegramId, channel) == Some(ms)
    requires ReplayedAs(src, lms[0].forwarder, channel, ms, delay, evs, false)
    requires AllCovered(fs, src, delay, lms[1..], rest)
    ensures AllCovered(fs, src, delay, lms, [Fetched(lms[0].forwarder, channel, lms[0].telegramId)] + evs + rest)
  {
    var own := [Fetched(lms[0].forwarder, channel, lms[0].telegramId)] + evs;
    CoveredHead(fs, src, delay, lms[0], channel, ms, evs, rest);
    CoveredTail(fs, src, delay, lms, own, rest);
  }

  /** A record whose forwarder has a truthy channel but whose history fetch raises. */
  predicate FetchFails(fs: seq<Forwarder>, src: Sources, lm: LastMessage) {
    var c := RecoveryChannel(fs, lm.forwarder);
    c.Some? && src.fetchAfter(lm.telegramId, c.value).None?
  }

  /**
   * The round's work is cut short exactly when some record's fetch raises,
   * resolving a fetched message's peer raised, or the handler raised on a
   * replayed message.
   */
  lemma {:induction false} ReplayAllCaughtExactly(st: State, env: Env, lms: seq<LastMessage>, src: Sources, delay: real)
    ensures var r := ReplayAll(st, env, lms, src, delay);
            r.caught <==> (exists i :: 0 <= i < |lms| && FetchFails(env.forwarders, src, lms[i]))
                          || ResolveRaised in r.events || HandlerRaised in r.events
    decreases |lms|
  {
    if lms != [] {
      assert forall i :: 1 <= i < |lms| ==> lms[i] == lms[1..][i - 1];
      var lm := lms[0];
      match RecoveryChannel(env.forwarders, lm.forwarder)
      case None =>
        ReplayAllCaughtExactly(st, env, lms[1..], src, delay);
      case Some(channel) =>
        match src.fetchAfter(lm.telegramId, channel)
        case None =>
          assert FetchFails(env.forwarders, src, lms[0]);
        case Some(ms) =>
          var rep := Replay(st, env, lm.forwarder, channel, ms, src, delay);
          if !rep.2 {
            ReplayAllCaughtExactly(rep.0, env, lms[1..], src, delay);
          }
    }
  }

  /** When every peer resolves, no resolution cuts the round's work short. */
  lemma {:induction false} ResolvedPeersNeverRaise(st: State, env: Env, lms: seq<LastMessage>, src: Sources, delay: real)
    ensures (forall c, id :: src.peerResolves(c, id)) ==> ResolveRaised !in ReplayAll(st, env, lms, src, delay).events
    decreases |lms|
  {
    if lms != [] && forall c, id :: src.peerResolves(c, id) {
      var lm := lms[0];
      match RecoveryChannel(env.forwarders, lm.forwarder)
      case None =>
        ResolvedPeersNeverRaise(st, env, lms[1..], src, delay);
      case Some(channel) =>
        match src.fetchAfter(lm.telegramId, channel)
        case None =>
        case Some(ms) =>
          var rep := Replay(st, env, lm.forwarder, channel, ms, src, delay);
          if !rep.2 {
            ResolvedPeersNeverRaise(rep.0, env, lms[1..], src, delay);
          }
    }
  }

  /** Closing a round's events with a sleep makes it the only sleep and keeps replays delayed. */
  lemma CloseWithSleep(evs: seq<TickEvent>, interval: int, delay: real)
    requires DelayedReplays(evs, delay)
    requires forall e :: e in evs ==> !e.Slept?
    ensures var all := evs + [Slept(interval)];
            && all[|all| - 1] == Slept(interval)
            && (forall k :: 0 <= k < |all| - 1 ==> !all[k].Slept?)
            && DelayedReplays(all, delay)
  {
    var all := evs + [Slept(interval)];
    forall k | 0 <= k < |all| - 1
      ensures !all[k].Slept?
    {
      assert all[k] == evs[k] && evs[k] in evs;
    }
    DelayedAppend(evs, [Slept(interval)], delay);
  }

  /**
   * One round: the last records are read once at its start; the round always
   * ends by sleeping the health-check interval.
   */
  function Tick(st: State, env: Env, settings: Settings, src: Sources): (r: (State, seq<TickEvent>))
    requires Valid(st.history)
    ensures |r.1| >= 1 && r.1[|r.1| - 1] == Slept(settings.healthcheckInterval)
    ensures forall k :: 0 <= k < |r.1| - 1 ==> !r.1[k].Slept?
    ensures !(settings.internetConnected && settings.telegramHealthy) ==> r == (st, [Slept(settings.healthcheckInterval)])
    ensures DelayedReplays(r.1, settings.recovererDelay)
  {
    if settings.internetConnected && settings.telegramHealthy then
      var lms := LastMessages(st.history);
      var w := ReplayAll(st, env, lms, src, settings.recovererDelay);
      CloseWithSleep(w.events, settings.healthcheckInterval, settings.recovererDelay);
      (w.st, w.events + [Slept(settings.healthcheckInterval)])
    else (st, [Slept(settings.healthcheckInterval)])
  }

  /**
   * Every fetch of a round starts right after the largest Telegram id the
   * history maps for its forwarder, as read at the round's start.
   */
  lemma TickFetchesAfterLast(st: State, env: Env, settings: Settings, src: Sources)
    requires Valid(st.history)
    ensures forall e :: e in Tick(st, env, settings, src).1 && e.Fetched? ==>
              Lookup(st.history, e.forwarder, e.after).Some?
              && forall u :: Lookup(st.history, e.forwarder, u).Some? ==> u <= e.after
  {
    if settings.internetConnected && settings.telegramHealthy {
      var lms := LastMessages(st.history);
      var w := ReplayAll(st, env, lms, src, settings.recovererDelay);
      ReplayAllFetches(st, env, lms, src, settings.recovererDelay);
      var evs := w.events + [Slept(settings.healthcheckInterval)];
      assert Tick(st, env, settings, src).1 == evs;
      forall e | e in evs && e.Fetched?
        ensures Lookup(st.history, e.forwarder, e.after).Some?
        ensures forall u :: Lookup(st.history, e.forwarder, u).Some? ==> u <= e.after
      {
        assert e in w.events;
        var i :| 0 <= i < |lms| && lms[i].forwarder == e.forwarder && lms[i].telegramId == e.after
                 && RecoveryChannel(env.forwarders, e.forwarder) == Some(e.channel);
      }
    }
  }

  /**
   * A round with internet and a healthy Telegram that catches nothing
   * fetches, after its largest mapped id, every forwarder of the history
   * that has a truthy channel, and replays everything it fetched.
   */
  lemma TickReplaysEveryRecord(st: State, env: Env, settings: Settings, src: Sources)
    requires Valid(st.history)
    ensures var evs := Tick(st, env, settings, src).1;
            settings.internetConnected && settings.telegramHealthy
            && Caught !in evs && ResolveRaised !in evs && HandlerRaised !in evs
            ==> forall i :: 0 <= i < |LastMessages(st.history)| ==>
                  Covered(env.forwarders, src, settings.recovererDelay, LastMessages(st.history)[i], evs)
  {
    if settings.internetConnected && settings.telegramHealthy {
      var lms := LastMessages(st.history);
      var w := ReplayAll(st, env, lms, src, settings.recovererDelay);
      var evs := w.events + [Slept(settings.healthcheckInterval)];
      assert Tick(st, env, settings, src).1 == evs;
      if Caught !in evs && ResolveRaised !in evs && HandlerRaised !in evs {
        assert !w.caught;
        ReplayAllCovers(st, env, lms, src, settings.recovererDelay);
        forall i | 0 <= i < |lms|
          ensures Covered(env.forwarders, src, settings.recovererDelay, lms[i], evs)
        {
          CoveredWithin(env.forwarders, src, settings.recovererDelay, lms[i], [], w.events, [Slept(settings.healthcheckInterval)]);
          assert [] + w.events + [Slept(settings.healthcheckInterval)] == evs;
        }
      }
    }
  }

  /** While Discord stays unhealthy, the outer loop leaves the state as it was. */
  lemma {:induction false} UnhealthyKeepsState(st: State, env: Env, lms: seq<LastMessage>, src: Sources, delay: real)
    requires forall n, i :: !src.discordHealthy(n, i)
    ensures ReplayAll(st, env, lms, src, delay).st == st
    decreases |lms|
  {
    if lms != [] {
      var lm := lms[0];
      match RecoveryChannel(env.forwarders, lm.forwarder)
      case None =>
        UnhealthyKeepsState(st, env, lms[1..], src, delay);
      case Some(channel) =>
        match src.fetchAfter(lm.telegramId, channel)
        case None =>
        case Some(ms) =>
          UnhealthyReplaySkipsAll(st, env, lm.forwarder, channel, ms, src, delay);
          UnhealthyKeepsState(st, env, lms[1..], src, delay);
    }
  }

  /** While Discord stays unhealthy, the outer loop replays nothing. */
  lemma {:induction false} UnhealthyReplaysNothing(st: State, env: Env, lms: seq<LastMessage>, src: Sources, delay: real)
    requires forall n, i :: !src.discordHealthy(n, i)
    ensures forall e :: e in ReplayAll(st, env, lms, src, delay).events ==> !e.Replayed?
    decreases |lms|
  {
    if lms != [] {
      var lm := lms[0];
      match RecoveryChannel(env.forwarders, lm.forwarder)
      case None =>
        UnhealthyReplaysNothing(st, env, lms[1..], src, delay);
      case Some(channel) =>
        match src.fetchAfter(lm.telegramId, channel)
        case None =>
        case Some(ms) =>
          var rep := Replay(st, env, lm.forwarder, channel, ms, src, delay);
          UnhealthyReplaySkipsAll(st, env, lm.forwarder, channel, ms, src, delay);
          var fetched := [Fetched(lm.forwarder, channel, lm.telegramId)];
          var rest := if rep.2 then [] else ReplayAll(rep.0, env, lms[1..], src, delay).events;
          if !rep.2 {
            UnhealthyReplaysNothing(rep.0, env, lms[1..], src, delay);
          }
          assert ReplayAll(st, env, lms, src, delay).events == fetched + rep.1 + rest;
          forall e | e in fetched + rep.1 + rest
            ensures !e.Replayed?
          {
            if e !in rest && e !in rep.1 {
              assert e in fetched;
            }
          }
    }
  }

  /** A round in which Discord stays unhealthy delivers nothing and leaves the state as it was. */
  lemma UnhealthyDiscordChangesNothing(st: State, env: Env, lms: seq<LastMessage>, src: Sources, delay: real)
    requires forall n, i :: !src.discordHealthy(n, i)
    ensures ReplayAll(st, env, lms, src, delay).st == st
    ensures forall e :: e in ReplayAll(st, env, lms, src, delay).events ==> !e.Replayed?
  {
    UnhealthyKeepsState(st, env, lms, src, delay);
    UnhealthyReplaysNothing(st, env, lms, src, delay);
  }
}
