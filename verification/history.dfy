/**
 * `MessageHistoryHandler`: the in-memory mapping from forwarder name to
 * (Telegram message id -> first Discord message id). The outer names are
 * kept in the order a Python dict iterates them: first insertion first.
 */
module History {
  import Maxima
  import opened Wrappers

  datatype Store = Store(names: seq<string>, data: map<string, map<int, int>>)

  /** The store as loaded from a missing file: `{}`. */
  const Empty: Store := Store([], map[])

  /**
   * The shape every reachable store has: each forwarder appears once in the
   * iteration order, and each has at least one entry, so `max` is defined.
   */
  predicate Valid(s: Store) {
    && (forall i, j :: 0 <= i < j < |s.names| ==> s.names[i] != s.names[j])
    && (forall n :: n in s.names ==> n in s.data)
    && (forall n :: n in s.data ==> n in s.names)
    && (forall n :: n in s.data ==> exists t :: t in s.data[n])
  }

  /** `get_discord_message_id`: `None` for an unknown forwarder or an unmapped id. */
  function Lookup(s: Store, forwarder: string, tgId: int): (r: Option<int>)
    ensures r.Some? <==> forwarder in s.data && tgId in s.data[forwarder]
  {
    if forwarder in s.data && tgId in s.data[forwarder] then Some(s.data[forwarder][tgId]) else None
  }

  /** `save_mapping_data`: creates the forwarder's map when absent, then sets (or overwrites) one entry. */
  function SaveMapping(s: Store, forwarder: string, tgId: int, discordId: int): (r: Store)
    ensures Valid(s) ==> Valid(r)
    ensures Lookup(r, forwarder, tgId) == Some(discordId)
    ensures forall n, t :: (n != forwarder || t != tgId) ==> Lookup(r, n, t) == Lookup(s, n, t)
    ensures r.data.Keys == s.data.Keys + {forwarder}
    ensures forwarder in s.data ==> r.names == s.names
  {
    var entries := if forwarder in s.data then s.data[forwarder] else map[];
    var data := s.data[forwarder := entries[tgId := discordId]];
    LookupAfterPut(s, data, forwarder, tgId, discordId);
    if forwarder !in s.data then
      var r := Store(s.names + [forwarder], data);
      if Valid(s) then ValidAfterNew(s, forwarder, tgId, discordId); r else r
    else
      var r := Store(s.names, data);
      if Valid(s) then ValidAfterUpdate(s, forwarder, entries[tgId := discordId], tgId); r else r
  }

  /** Putting one entry into a forwarder's map changes the lookup of that entry only. */
  lemma LookupAfterPut(s: Store, data: map<string, map<int, int>>, forwarder: string, tgId: int, discordId: int)
    requires data == s.data[forwarder := (if forwarder in s.data then s.data[forwarder] else map[])[tgId := discordId]]
    ensures Lookup(Store([], data), forwarder, tgId) == Some(discordId)
    ensures forall n, t :: (n != forwarder || t != tgId) ==> Lookup(Store([], data), n, t) == Lookup(s, n, t)
    ensures data.Keys == s.data.Keys + {forwarder}
  {
  }

  /** A forwarder's first save appends its name once and gives it an entry. */
  lemma ValidAfterNew(s: Store, forwarder: string, tgId: int, discordId: int)
    requires Valid(s) && forwarder !in s.data
    ensures Valid(Store(s.names + [forwarder], s.data[forwarder := map[tgId := discordId]]))
  {
    var names := s.names + [forwarder];
    var data := s.data[forwarder := map[tgId := discordId]];
    assert forwarder !in s.names;
    forall i, j | 0 <= i < j < |names|
      ensures names[i] != names[j]
    {
      assert names[i] == s.names[i];
      if j < |s.names| {
        assert names[j] == s.names[j];
      } else {
        assert names[i] in s.names;
      }
    }
    assert forall n :: n in names ==> n in s.names || n == forwarder;
    assert tgId in data[forwarder];
  }

  /** Replacing a known forwarder's map by one with an entry keeps the store valid. */
  lemma ValidAfterUpdate(s: Store, forwarder: string, inner: map<int, int>, tgId: int)
    requires Valid(s) && forwarder in s.data && tgId in inner
    ensures Valid(Store(s.names, s.data[forwarder := inner]))
  {
    var data := s.data[forwarder := inner];
    assert forall n :: n in data ==> n in s.data;
    assert forall n :: n in data && n != forwarder ==> data[n] == s.data[n];
  }

  /** Saving the same mapping twice leaves the store as saving it once: replay is idempotent. */
  lemma SaveIdempotent(s: Store, forwarder: string, tgId: int, discordId: int)
    ensures SaveMapping(SaveMapping(s, forwarder, tgId, discordId), forwarder, tgId, discordId)
            == SaveMapping(s, forwarder, tgId, discordId)
  {
    var inner := if forwarder in s.data then s.data[forwarder][tgId := discordId] else map[tgId := discordId];
    var names := if forwarder in s.data then s.names else s.names + [forwarder];
    var once := Store(names, s.data[forwarder := inner]);
    assert SaveMapping(s, forwarder, tgId, discordId) == once;
    assert inner[tgId := discordId] == inner;
    assert once.data[forwarder := inner] == once.data;
  }

  /** The largest element of a finite set of integers that has one. */
  function MaxOf(keys: set<int>): (k: int)
    requires exists w :: w in keys
    ensures k in keys && forall j :: j in keys ==> j <= k
  {
    Maxima.IntMaxExists(keys);
    var k :| k in keys && forall j :: j in keys ==> j <= k;
    k
  }

  /** `max(forwarder_data, key=int)`: the largest Telegram id mapped. */
  function MaxKey(m: map<int, int>): (k: int)
    requires exists w :: w in m
    ensures k in m && forall j :: j in m ==> j <= k
  {
    MaxOf(m.Keys)
  }

  /** One record of `get_last_messages_for_all_forwarders`. */
  datatype LastMessage = LastMessage(forwarder: string, telegramId: int, discordId: int)

  /**
   * `get_last_messages_for_all_forwarders`: one record per forwarder, in
   * iteration order, holding its largest mapped Telegram id and that id's
   * Discord id.
   */
  function LastMessages(s: Store): (r: seq<LastMessage>)
    requires Valid(s)
    ensures |r| == |s.names|
    ensures forall i :: 0 <= i < |r| ==>
              && r[i].forwarder == s.names[i]
              && Lookup(s, r[i].forwarder, r[i].telegramId) == Some(r[i].discordId)
              && forall t :: Lookup(s, r[i].forwarder, t).Some? ==> t <= r[i].telegramId
  {
    seq(|s.names|, i requires 0 <= i < |s.names| =>
      var n := s.names[i];
      assert n in s.data;
      var t := MaxKey(s.data[n]);
      LastMessage(n, t, s.data[n][t]))
  }

  /**
   * The recovery window only moves forward: after a save, a forwarder's last
   * Telegram id is the larger of its previous last id and the saved id.
   */
  lemma LastMessageAfterSave(s: Store, forwarder: string, tgId: int, discordId: int)
    requires Valid(s) && forwarder in s.data
    ensures var r := SaveMapping(s, forwarder, tgId, discordId);
            var before := MaxKey(s.data[forwarder]);
            MaxKey(r.data[forwarder]) == if tgId > before then tgId else before
  {
    var r := SaveMapping(s, forwarder, tgId, discordId);
    var before := MaxKey(s.data[forwarder]);
    var after := MaxKey(r.data[forwarder]);
    assert r.data[forwarder].Keys == s.data[forwarder].Keys + {tgId};
    assert tgId <= after && before <= after;
    assert after == tgId || after <= before;
  }

  /** Saving mappings one after another. */
  function SaveAll(s: Store, saves: seq<(string, int, int)>): (r: Store)
    ensures Valid(s) ==> Valid(r)
    decreases |saves|
  {
    if saves == [] then s else SaveAll(SaveMapping(s, saves[0].0, saves[0].1, saves[0].2), saves[1..])
  }

  /** The Telegram ids mapped for a forwarder. */
  function MappedIds(s: Store, forwarder: string): set<int> {
    if forwarder in s.data then s.data[forwarder].Keys else {}
  }

  /** The Telegram ids a run of saves writes for a forwarder. */
  function SavedIds(saves: seq<(string, int, int)>, forwarder: string): set<int>
    decreases |saves|
  {
    if saves == [] then {}
    else (if saves[0].0 == forwarder then {saves[0].1} else {}) + SavedIds(saves[1..], forwarder)
  }

  lemma {:induction false} SaveAllIds(s: Store, saves: seq<(string, int, int)>, forwarder: string)
    ensures MappedIds(SaveAll(s, saves), forwarder) == MappedIds(s, forwarder) + SavedIds(saves, forwarder)
    decreases |saves|
  {
    if saves != [] {
      SaveAllIds(SaveMapping(s, saves[0].0, saves[0].1, saves[0].2), saves[1..], forwarder);
    }
  }

  /**
   * Whatever the order of the saves, a forwarder's last Telegram id is the
   * largest id saved for it.
   */
  lemma {:induction false} LastIdIsLargestSaved(saves: seq<(string, int, int)>, forwarder: string)
    requires exists t :: t in SavedIds(saves, forwarder)
    ensures var s := SaveAll(Empty, saves);
            forwarder in s.data && MaxKey(s.data[forwarder]) == MaxOf(SavedIds(saves, forwarder))
  {
    var s := SaveAll(Empty, saves);
    SaveAllIds(Empty, saves, forwarder);
    assert MappedIds(s, forwarder) == SavedIds(saves, forwarder);
    assert forwarder in s.data;
    var a := MaxKey(s.data[forwarder]);
    var b := MaxOf(SavedIds(saves, forwarder));
    assert a <= b && b <= a;
  }
}
