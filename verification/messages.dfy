/** Telegram messages and the formatting entities attached to them. */
module Messages {
  import opened Wrappers

  /** The entity classes the bridge distinguishes; every other class is `Other`. */
  datatype EntityKind =
    | Bold | Italic | Strike | Code | Pre
    | TextUrl(url: string)
    | Url
    | Hashtag
    | Other

  /** A formatting entity: a kind over `length` characters starting at `offset`. */
  datatype Entity = Entity(kind: EntityKind, offset: nat, length: nat)

  /**
   * A Telegram message: its id, raw text, entities (Python's `None` is the
   * empty sequence), whether it carries media, and the id it replies to.
   */
  datatype Message = Message(
    id: int,
    text: string,
    entities: seq<Entity>,
    hasMedia: bool,
    replyTo: Option<int>)
}
