/**
 Replay cursors (cloud/src/events/cursor.rs). Times are microseconds since the epoch, the
 resolution the store keeps; a cursor carries whole milliseconds. The base64 and JSON
 wrapping is taken as an injective code, so a cursor is the anchor it carries.
 */
module Cursor {
  import opened Prelude

  const MINUTE := 60_000_000

  datatype Anchor = Anchor(v: int, since: int)

  function Encode(since: int): Anchor {
    Anchor(1, since / 1000)
  }

  /** None stands for a cursor refused as malformed, foreign or from the future. */
  function Decode(cursor: Anchor, now: int): Option<int> {
    if cursor.v == 1 && cursor.since * 1000 <= now + MINUTE then Some(cursor.since * 1000) else None
  }

  /** A decoded cursor names the last whole millisecond not after the encoded time. */
  lemma CursorRoundTrip(since: int, now: int)
    ensures since - since % 1000 <= now + MINUTE ==> Decode(Encode(since), now) == Some(since - since % 1000)
    ensures since - since % 1000 > now + MINUTE ==> Decode(Encode(since), now) == None
    ensures Decode(Encode(since), now).Some? ==> since - 1000 < Decode(Encode(since), now).value <= since
  {
    assert since == since / 1000 * 1000 + since % 1000;
  }
}
