/**
 The relay frame header (edge/src/index.ts): two length bytes, the client id in UTF-8,
 then the payload. Client ids are modelled by their UTF-8 bytes: decoding keeps the byte
 order mark and is therefore injective, so equal ids are equal byte strings.
 */
module RelayFrame {
  import opened Prelude

  type Byte = b: int | 0 <= b < 256
  type Id = seq<Byte>

  const MAX_CLIENT_ID_BYTES := 128
  const TILDE: Byte := 126

  predicate Continuation(b: Byte) {
    0x80 <= b <= 0xBF
  }

  /** The length of the well-formed UTF-8 sequence at the head of `s`, or 0. */
  function Utf8Head(s: seq<Byte>): nat {
    if s == [] then 0
    else if s[0] <= 0x7F then 1
    else if 0xC2 <= s[0] <= 0xDF then (if |s| >= 2 && Continuation(s[1]) then 2 else 0)
    else if 0xE0 <= s[0] <= 0xEF then
      if |s| >= 3 && Continuation(s[1]) && Continuation(s[2])
         && (s[0] == 0xE0 ==> s[1] >= 0xA0) && (s[0] == 0xED ==> s[1] <= 0x9F) then 3 else 0
    else if 0xF0 <= s[0] <= 0xF4 then
      if |s| >= 4 && Continuation(s[1]) && Continuation(s[2]) && Continuation(s[3])
         && (s[0] == 0xF0 ==> s[1] >= 0x90) && (s[0] == 0xF4 ==> s[1] <= 0x8F) then 4 else 0
    else 0
  }

  /** What a fatal UTF-8 decoder accepts. */
  predicate ValidUtf8(s: seq<Byte>) {
    s == [] || (0 < Utf8Head(s) <= |s| && ValidUtf8(s[Utf8Head(s)..]))
  }

  /** The client id a frame names, or None when the header is malformed. */
  function FrameClientId(message: seq<Byte>): Option<Id> {
    if |message| < 3 then None
    else
      var idLength := message[0] as int * 256 + message[1];
      if idLength == 0 || idLength > MAX_CLIENT_ID_BYTES || |message| <= idLength + 2 then None
      else
        var id := message[2..idLength + 2];
        if ValidUtf8(id) then Some(id) else None
  }

  function Header(id: Id): seq<Byte> {
    [(|id| / 256) % 256, |id| % 256]
  }

  function DisconnectFrame(id: Id): seq<Byte> {
    Header(id) + id
  }

  /** The frame a peer sends for `id`. */
  function DataFrame(id: Id, payload: seq<Byte>): seq<Byte> {
    Header(id) + id + payload
  }

  /** "~mcp", the client id of the object's own calls to the runtime. */
  const MCP_CLIENT_ID: Id := [TILDE, 109, 99, 112]

  predicate Reserved(id: Id) {
    id != [] && id[0] == TILDE
  }

  /**
   The header names exactly the id it was built from, and only when the id has 1 to 128
   bytes of well-formed UTF-8 and a payload follows.
   */
  lemma FrameRoundTrip(id: Id, payload: seq<Byte>)
    requires |id| < 0x10000
    ensures FrameClientId(DataFrame(id, payload)) ==
            if 1 <= |id| <= MAX_CLIENT_ID_BYTES && payload != [] && ValidUtf8(id) then Some(id) else None
  {
    var frame := DataFrame(id, payload);
    assert frame[0] as int * 256 + frame[1] == |id|;
    if |id| <= MAX_CLIENT_ID_BYTES && payload != [] {
      assert frame[2..|id| + 2] == id;
    }
  }

  /** A disconnect notice is never read as a data frame, and names its client exactly. */
  lemma DisconnectFrameIsNotData(id: Id, other: Id)
    requires |id| < 0x10000
    ensures FrameClientId(DisconnectFrame(id)) == None
    ensures DisconnectFrame(id) == DisconnectFrame(other) <==> id == other
  {
    var frame := DisconnectFrame(id);
    assert frame[0] as int * 256 + frame[1] == |id|;
    assert DisconnectFrame(id)[2..] == id;
    assert DisconnectFrame(other)[2..] == other;
  }
}
