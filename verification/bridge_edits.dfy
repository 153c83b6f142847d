/**
 * `Bridge._handle_edit_message` and `Bridge._handle_deleted_message`: they
 * read the mapping history to find the Discord copies and act on them; they
 * never write the history.
 */
module BridgeEdits {
  import opened Wrappers
  import opened Config
  import opened Router
  import opened History

  /** What `channel.fetch_message` does: the message, `None`, or one of three exceptions. */
  datatype Fetch = Found | FoundNothing | FetchNotFound | FetchForbidden | FetchHttpError

  /** What `message.edit` or `message.delete` does; every failure is an `HTTPException`. */
  datatype Apply = Applied | ApplyFailed

  /** The Discord side as the two handlers see it, by channel id and Discord message id. */
  datatype Discord = Discord(channelExists: int -> bool, fetch: (int, int) -> Fetch, apply: (int, int) -> Apply)

  /** An edit or delete carried out on a Discord message. */
  datatype Action = Action(channel: int, discordId: int)

  /** The actions carried out, and whether the handler returned early. */
  datatype EditOutcome = EditOutcome(actions: seq<Action>, stopped: bool)

  /** A forwarder whose Discord copy exists and is reached, but fetching or editing it fails. */
  predicate EditFails(store: Store, f: Forwarder, tgId: int, dc: Discord) {
    && Lookup(store, f.name, tgId).Some?
    && dc.channelExists(f.discordChannelId)
    && var id := Lookup(store, f.name, tgId).value;
       (dc.fetch(f.discordChannelId, id) in {FetchNotFound, FetchForbidden, FetchHttpError}
        || (dc.fetch(f.discordChannelId, id) == Found && dc.apply(f.discordChannelId, id) == ApplyFailed))
  }

  /** A forwarder whose Discord copy is edited. */
  predicate EditReaches(store: Store, f: Forwarder, tgId: int, dc: Discord) {
    && Lookup(store, f.name, tgId).Some?
    && dc.channelExists(f.discordChannelId)
    && var id := Lookup(store, f.name, tgId).value;
       dc.fetch(f.discordChannelId, id) == Found && dc.apply(f.discordChannelId, id) == Applied
  }

  /**
   * The loop of `_handle_edit_message`: a missing mapping, channel or
   * message skips to the next forwarder; a failing fetch or edit returns.
   */
  function EditLoop(store: Store, ms: seq<Forwarder>, tgId: int, dc: Discord): (r: EditOutcome)
    ensures r.stopped <==> exists k :: 0 <= k < |ms| && EditFails(store, ms[k], tgId, dc)
    ensures forall a :: a in r.actions ==> exists k :: 0 <= k < |ms| && EditReaches(store, ms[k], tgId, dc)
                                                 && a == Action(ms[k].discordChannelId, Lookup(store, ms[k].name, tgId).value)
    ensures !r.stopped ==> forall k :: 0 <= k < |ms| && EditReaches(store, ms[k], tgId, dc) ==>
                             Action(ms[k].discordChannelId, Lookup(store, ms[k].name, tgId).value) in r.actions
  {
    if ms == [] then EditOutcome([], false)
    else
      var f := ms[0];
      var rest := EditLoop(store, ms[1..], tgId, dc);
      assert forall k :: 1 <= k < |ms| ==> ms[k] == ms[1..][k - 1];
      assert forall k :: 0 <= k < |ms[1..]| ==> ms[1..][k] == ms[k + 1];
      match Lookup(store, f.name, tgId)
      case None => rest
      case Some(id) =>
        if !dc.channelExists(f.discordChannelId) then rest
        else match dc.fetch(f.discordChannelId, id)
          case FoundNothing => rest
          case Found =>
            (match dc.apply(f.discordChannelId, id)
             case ApplyFailed => EditOutcome([], true)
             case Applied => EditOutcome([Action(f.discordChannelId, id)] + rest.actions, rest.stopped))
          case _ => EditOutcome([], true)
  }

  /** `_handle_edit_message`: nothing without a message or without a forwarder for the channel. */
  function HandleEdit(store: Store, fs: seq<Forwarder>, hasMessage: bool, channel: int, tgId: int, dc: Discord): (r: EditOutcome)
    ensures !hasMessage ==> r == EditOutcome([], false)
    ensures forall a :: a in r.actions ==> exists f :: f in fs && f.tgChannelId == channel
                                              && Lookup(store, f.name, tgId) == Some(a.discordId)
                                              && a.channel == f.discordChannelId
  {
    if !hasMessage then EditOutcome([], false)
    else
      var ms := MatchingForwarders(fs, channel);
      if |ms| < 1 then EditOutcome([], false)
      else
        var r := EditLoop(store, ms, tgId, dc);
        assert forall k :: 0 <= k < |ms| ==> ms[k] in ms;
        r
  }

  /**
   * A Discord copy that turns out to be gone when edited makes the handler
   * return quietly, with nothing edited after it.
   */
  lemma EditNotFoundReturns(store: Store, f: Forwarder, tgId: int, dc: Discord)
    requires Lookup(store, f.name, tgId).Some?
    requires dc.channelExists(f.discordChannelId)
    requires dc.fetch(f.discordChannelId, Lookup(store, f.name, tgId).value) == Found
    requires dc.apply(f.discordChannelId, Lookup(store, f.name, tgId).value) == ApplyFailed
    ensures HandleEdit(store, [f], true, f.tgChannelId, tgId, dc) == EditOutcome([], true)
  {
    assert MatchingForwarders([f], f.tgChannelId) == [f] by {
      assert [f][1..] == [];
    }
  }

  /** How `_handle_deleted_message` ends: after the loops, by `return`, or by an exception it does not catch. */
  datatype End = Finished | Returned | Raised

  datatype DeleteOutcome = DeleteOutcome(actions: seq<Action>, end: End)

  /** The end a mapped deleted id meets: `None` for going on to the next id. */
  function DeleteEnd(store: Store, f: Forwarder, id: int, dc: Discord): Option<End>
    requires Lookup(store, f.name, id).Some?
  {
    var did := Lookup(store, f.name, id).value;
    if !dc.channelExists(f.discordChannelId) then Some(Returned)
    else match dc.fetch(f.discordChannelId, did)
      case FetchNotFound => Some(Returned)
      case FetchForbidden => Some(Raised)
      case FetchHttpError => Some(Raised)
      case FoundNothing => Some(Raised)   // `None.delete()` raises
      case Found => if dc.apply(f.discordChannelId, did) == ApplyFailed then Some(Returned) else None
  }

  predicate DeleteStops(store: Store, f: Forwarder, id: int, dc: Discord) {
    Lookup(store, f.name, id).Some? && DeleteEnd(store, f, id, dc).Some?
  }

  /** The inner loop over the deleted ids for one forwarder. */
  function DeleteIds(store: Store, f: Forwarder, ids: seq<int>, dc: Discord): (r: DeleteOutcome)
    ensures r.end != Finished <==> exists k :: 0 <= k < |ids| && DeleteStops(store, f, ids[k], dc)
    ensures forall a :: a in r.actions ==> exists k :: 0 <= k < |ids| && Lookup(store, f.name, ids[k]) == Some(a.discordId)
                                                 && a.channel == f.discordChannelId
    ensures r.end == Finished ==> forall k :: 0 <= k < |ids| && Lookup(store, f.name, ids[k]).Some? ==>
                                   Action(f.discordChannelId, Lookup(store, f.name, ids[k]).value) in r.actions
  {
    if ids == [] then DeleteOutcome([], Finished)
    else
      var rest := DeleteIds(store, f, ids[1..], dc);
      assert forall k :: 1 <= k < |ids| ==> ids[k] == ids[1..][k - 1];
      assert forall k :: 0 <= k < |ids[1..]| ==> ids[1..][k] == ids[k + 1];
      match Lookup(store, f.name, ids[0])
      case None => rest
      case Some(did) =>
        match DeleteEnd(store, f, ids[0], dc)
        case Some(e) => DeleteOutcome([], e)
        case None => DeleteOutcome([Action(f.discordChannelId, did)] + rest.actions, rest.end)
  }

  /** The outer loop over the matching forwarders. */
  function DeleteLoop(store: Store, ms: seq<Forwarder>, ids: seq<int>, dc: Discord): DeleteOutcome
    decreases |ms|
  {
    if ms == [] then DeleteOutcome([], Finished)
    else
      var first := DeleteIds(store, ms[0], ids, dc);
      if first.end != Finished then first
      else
        var rest := DeleteLoop(store, ms[1..], ids, dc);
        DeleteOutcome(first.actions + rest.actions, rest.end)
  }

  /** Some matching forwarder and deleted id stop the outer loop. */
  ghost predicate SomeDeleteStops(store: Store, ms: seq<Forwarder>, ids: seq<int>, dc: Discord) {
    exists k, j :: 0 <= k < |ms| && 0 <= j < |ids| && DeleteStops(store, ms[k], ids[j], dc)
  }

  /** The outer loop ends early exactly when some forwarder and id stop it. */
  lemma {:induction false} DeleteLoopEnds(store: Store, ms: seq<Forwarder>, ids: seq<int>, dc: Discord)
    ensures DeleteLoop(store, ms, ids, dc).end != Finished <==> SomeDeleteStops(store, ms, ids, dc)
    decreases |ms|
  {
    if ms != [] {
      DeleteLoopEnds(store, ms[1..], ids, dc);
      var first := DeleteIds(store, ms[0], ids, dc);
      if first.end != Finished {
        var j :| 0 <= j < |ids| && DeleteStops(store, ms[0], ids[j], dc);
        assert 0 <= 0 < |ms|;
      } else {
        assert DeleteLoop(store, ms, ids, dc).end == DeleteLoop(store, ms[1..], ids, dc).end;
        if SomeDeleteStops(store, ms[1..], ids, dc) {
          var k, j :| 0 <= k < |ms[1..]| && 0 <= j < |ids| && DeleteStops(store, ms[1..][k], ids[j], dc);
          assert ms[1..][k] == ms[k + 1];
        }
        if SomeDeleteStops(store, ms, ids, dc) {
          var k, j :| 0 <= k < |ms| && 0 <= j < |ids| && DeleteStops(store, ms[k], ids[j], dc);
          assert k != 0;
          assert ms[1..][k - 1] == ms[k];
        }
      }
    }
  }

  /** Every action of the outer loop is on the mapped copy of one deleted id for one forwarder. */
  lemma {:induction false} DeleteLoopActions(store: Store, ms: seq<Forwarder>, ids: seq<int>, dc: Discord)
    ensures forall a :: a in DeleteLoop(store, ms, ids, dc).actions ==>
              exists k, j :: 0 <= k < |ms| && 0 <= j < |ids|
                             && Lookup(store, ms[k].name, ids[j]) == Some(a.discordId)
                             && a.channel == ms[k].discordChannelId
    decreases |ms|
  {
    if ms != [] {
      var first := DeleteIds(store, ms[0], ids, dc);
      if first.end == Finished {
        DeleteLoopActions(store, ms[1..], ids, dc);
        var rest := DeleteLoop(store, ms[1..], ids, dc);
        forall a | a in DeleteLoop(store, ms, ids, dc).actions
          ensures exists k, j :: 0 <= k < |ms| && 0 <= j < |ids|
                                 && Lookup(store, ms[k].name, ids[j]) == Some(a.discordId)
                                 && a.channel == ms[k].discordChannelId
        {
          if a in first.actions {
            var j :| 0 <= j < |ids| && Lookup(store, ms[0].name, ids[j]) == Some(a.discordId) && a.channel == ms[0].discordChannelId;
            assert 0 <= 0 < |ms|;
          } else {
            assert a in rest.actions;
            var k, j :| 0 <= k < |ms[1..]| && 0 <= j < |ids|
                        && Lookup(store, ms[1..][k].name, ids[j]) == Some(a.discordId) && a.channel == ms[1..][k].discordChannelId;
            assert ms[1..][k] == ms[k + 1];
          }
        }
      } else {
        forall a | a in DeleteLoop(store, ms, ids, dc).actions
          ensures exists k, j :: 0 <= k < |ms| && 0 <= j < |ids|
                                 && Lookup(store, ms[k].name, ids[j]) == Some(a.discordId)
                                 && a.channel == ms[k].discordChannelId
        {
          var j :| 0 <= j < |ids| && Lookup(store, ms[0].name, ids[j]) == Some(a.discordId) && a.channel == ms[0].discordChannelId;
          assert 0 <= 0 < |ms|;
        }
      }
    }
  }

  /** An outer loop that runs to the end deletes the copy of every mapped id for every forwarder. */
  lemma {:induction false} DeleteLoopComplete(store: Store, ms: seq<Forwarder>, ids: seq<int>, dc: Discord)
    ensures var r := DeleteLoop(store, ms, ids, dc);
            r.end == Finished ==>
              forall k, j :: 0 <= k < |ms| && 0 <= j < |ids| && Lookup(store, ms[k].name, ids[j]).Some? ==>
                Action(ms[k].discordChannelId, Lookup(store, ms[k].name, ids[j]).value) in r.actions
    decreases |ms|
  {
    if ms != [] {
      var first := DeleteIds(store, ms[0], ids, dc);
      if first.end == Finished {
        DeleteLoopComplete(store, ms[1..], ids, dc);
        var rest := DeleteLoop(store, ms[1..], ids, dc);
        var r := DeleteLoop(store, ms, ids, dc);
        assert r.actions == first.actions + rest.actions && r.end == rest.end;
        if r.end == Finished {
          forall k, j | 0 <= k < |ms| && 0 <= j < |ids| && Lookup(store, ms[k].name, ids[j]).Some?
            ensures Action(ms[k].discordChannelId, Lookup(store, ms[k].name, ids[j]).value) in r.actions
          {
            var a := Action(ms[k].discordChannelId, Lookup(store, ms[k].name, ids[j]).value);
            if k > 0 {
              assert ms[1..][k - 1] == ms[k];
              assert a in rest.actions;
            } else {
              assert a in first.actions;
            }
          }
        }
      }
    }
  }

  /** `_handle_deleted_message`: nothing without a forwarder for the channel. */
  function HandleDelete(store: Store, fs: seq<Forwarder>, channel: int, ids: seq<int>, dc: Discord): (r: DeleteOutcome)
    ensures (forall f :: f in fs ==> f.tgChannelId != channel) ==> r == DeleteOutcome([], Finished)
    ensures forall a :: a in r.actions ==> exists f, id :: f in fs && f.tgChannelId == channel && id in ids
                                              && Lookup(store, f.name, id) == Some(a.discordId)
                                              && a.channel == f.discordChannelId
  {
    var ms := MatchingForwarders(fs, channel);
    if |ms| < 1 then DeleteOutcome([], Finished)
    else
      var r := DeleteLoop(store, ms, ids, dc);
      assert ms[0] in ms;
      DeleteLoopActions(store, ms, ids, dc);
      forall a | a in r.actions
        ensures exists f, id :: f in fs && f.tgChannelId == channel && id in ids
                                && Lookup(store, f.name, id) == Some(a.discordId) && a.channel == f.discordChannelId
      {
        var k, j :| 0 <= k < |ms| && 0 <= j < |ids| && Lookup(store, ms[k].name, ids[j]) == Some(a.discordId)
                    && a.channel == ms[k].discordChannelId;
        assert ms[k] in ms && ids[j] in ids;
      }
      r
  }
}
