/**
 * The legacy flat mapping file of the first application: Telegram message id
 * -> Discord message id, with the Telegram id turned into a string key.
 */
module LegacyStore {
  import opened Wrappers
  import opened PyStr

  /** A Telegram id as the caller passes it: an integer or already a string. */
  datatype TgKey = IntKey(n: int) | StrKey(s: string)

  /** `str(tg_message_id)`. */
  function KeyOf(k: TgKey): string {
    match k
    case IntKey(n) => IntToString(n)
    case StrKey(s) => s
  }

  type Mapping = map<string, int>

  /** `save_mapping_data`: sets (or overwrites) the entry under the stringified key. */
  function Save(m: Mapping, tgId: TgKey, discordId: int): (r: Mapping)
    ensures Get(r, tgId) == Some(discordId)
    ensures forall k :: KeyOf(k) != KeyOf(tgId) ==> Get(r, k) == Get(m, k)
    ensures r.Keys == m.Keys + {KeyOf(tgId)}
  {
    m[KeyOf(tgId) := discordId]
  }

  /** `get_discord_message_id`: `None` for an absent key. */
  function Get(m: Mapping, tgId: TgKey): (r: Option<int>)
    ensures r.None? <==> KeyOf(tgId) !in m
  {
    if KeyOf(tgId) in m then Some(m[KeyOf(tgId)]) else None
  }

  /** An integer id and its decimal string address the same entry. */
  lemma IntAndStringKeysAgree(m: Mapping, n: int, d: int)
    ensures Get(m, IntKey(n)) == Get(m, StrKey(IntToString(n)))
    ensures Get(Save(m, IntKey(n), d), StrKey(IntToString(n))) == Some(d)
    ensures Get(Save(m, StrKey(IntToString(n)), d), IntKey(n)) == Some(d)
  {
  }

  /** Saving one integer id leaves every other integer id as it was. */
  lemma SaveKeepsOtherIds(m: Mapping, n: int, other: int, d: int)
    requires other != n
    ensures Get(Save(m, IntKey(n), d), IntKey(other)) == Get(m, IntKey(other))
  {
    IntToStringInjective(n, other);
  }
}
