/**
 * Message and field validation (internal/shared/protocol/validator.go).
 * Payloads are taken as already decoded: for each payload record, the
 * message carries what the JSON round trip of `ExtractPayload` would give,
 * or nothing when that round trip fails. Go strings are byte strings: a
 * string here is a sequence of Unicode scalar values, and its Go length is
 * the length of its UTF-8 encoding.
 */
module Protocol {
  import opened Wrappers
  import opened Constants

  datatype ValidationError =
    | MessageNil
    | TypeEmpty
    | PayloadUndecodable
    | RoomNameEmpty
    | MaxPlayersOutOfRange
    | UsernameEmpty
    | RoomIdEmpty
    | UsernameLengthOutOfRange
    | UsernameTooShort
    | UsernameTooLong
    | UsernameInvalidChars
    | RoomNameTooShort
    | RoomNameTooLong

  datatype CreateRoomPayload = CreateRoomPayload(
    name: string, maxPlayers: int, gameMode: string, isPrivate: bool, password: string, userId: int, username: string)
  datatype JoinRoomPayload = JoinRoomPayload(roomId: string, userId: int, username: string, password: string)
  datatype ConnectPayload = ConnectPayload(username: string, token: string, version: string)

  /** The payload as each validator would decode it; None where decoding fails. */
  datatype Payload = Payload(
    asCreateRoom: Option<CreateRoomPayload>, asJoinRoom: Option<JoinRoomPayload>, asConnect: Option<ConnectPayload>)

  /** A network message (timestamp, player id and room id are not validated and left out). */
  datatype NetworkMessage = NetworkMessage(msgType: string, payload: Payload)

  const UsernameMin: int := 3
  const UsernameMax: int := 20
  const RoomNameMin: int := 3
  const RoomNameMax: int := 50

  /** Bytes of c in UTF-8. */
  function Utf8Width(c: char): (w: int)
    ensures 1 <= w <= 4
    ensures w == 1 <==> c as int < 0x80
  {
    if c as int < 0x80 then 1
    else if c as int < 0x800 then 2
    else if c as int < 0x10000 then 3
    else 4
  }

  /** Go's `len`: the number of bytes of s in UTF-8. */
  function ByteLen(s: string): (n: nat)
    ensures |s| <= n <= 4 * |s|
    ensures n == |s| <==> forall i :: 0 <= i < |s| ==> s[i] as int < 0x80
  {
    if s == [] then 0 else Utf8Width(s[0]) + ByteLen(s[1..])
  }

  /** Go's `unicode.IsSpace`: the ASCII and Latin-1 spaces and the other Unicode White_Space characters. */
  predicate IsSpace(c: char)
  {
    var n := c as int;
    || (0x09 <= n <= 0x0D) || n == 0x20 || n == 0x85 || n == 0xA0 || n == 0x1680
    || (0x2000 <= n <= 0x200A) || n == 0x2028 || n == 0x2029 || n == 0x202F || n == 0x205F || n == 0x3000
  }

  /** s without its leading white space. */
  function TrimStart(s: string): (r: string)
    ensures |r| <= |s| && r == s[|s| - |r|..]
    ensures forall i :: 0 <= i < |s| - |r| ==> IsSpace(s[i])
    ensures r == [] || !IsSpace(r[0])
  {
    if s != [] && IsSpace(s[0]) then TrimStart(s[1..]) else s
  }

  /** s without its trailing white space. */
  function TrimEnd(s: string): (r: string)
    ensures |r| <= |s| && r == s[..|r|]
    ensures forall i :: |r| <= i < |s| ==> IsSpace(s[i])
    ensures r == [] || !IsSpace(r[|r| - 1])
  {
    if s != [] && IsSpace(s[|s| - 1]) then TrimEnd(s[..|s| - 1]) else s
  }

  /** How many characters `TrimStart` cuts from s. */
  function LeadingSpaces(s: string): (n: nat)
    ensures n <= |s|
  {
    |s| - |TrimStart(s)|
  }

  /**
   * Go's `strings.TrimSpace`: the infix of s left once white space is cut
   * from both ends, which then starts and ends with a non-space.
   */
  function Trim(s: string): (r: string)
    ensures LeadingSpaces(s) + |r| <= |s| && r == s[LeadingSpaces(s)..LeadingSpaces(s) + |r|]
    ensures forall j :: 0 <= j < LeadingSpaces(s) ==> IsSpace(s[j])
    ensures forall j :: LeadingSpaces(s) + |r| <= j < |s| ==> IsSpace(s[j])
    ensures r == [] || (!IsSpace(r[0]) && !IsSpace(r[|r| - 1]))
  {
    var t := TrimStart(s);
    var r := TrimEnd(t);
    assert r == s[|s| - |t|..][..|r|];
    r
  }

  lemma {:induction false} TrimStartKeeps(s: string)
    requires s == [] || !IsSpace(s[0])
    ensures TrimStart(s) == s
  {
  }

  lemma {:induction false} TrimEndKeeps(s: string)
    requires s == [] || !IsSpace(s[|s| - 1])
    ensures TrimEnd(s) == s
  {
  }

  /** Trimming twice trims nothing more. */
  lemma {:induction false} TrimIdempotent(s: string)
    ensures Trim(Trim(s)) == Trim(s)
  {
    var t := Trim(s);
    TrimStartKeeps(t);
    TrimEndKeeps(t);
  }

  /** `isValidUsernameChar`: an ASCII letter or digit, '_' or '-'. */
  predicate IsUsernameChar(c: char)
  {
    ('a' <= c <= 'z') || ('A' <= c <= 'Z') || ('0' <= c <= '9') || c == '_' || c == '-'
  }

  /**
   * `ValidateUsername`: after trimming, refuses an empty name, fewer than 3
   * bytes, more than 20 bytes, then any character outside the alphabet.
   * The verdict depends on the trimmed name only.
   */
  method ValidateUsername(username: string) returns (err: Option<ValidationError>)
    ensures var t := Trim(username);
              && (t == [] ==> err == Some(UsernameEmpty))
              && (t != [] && ByteLen(t) < UsernameMin ==> err == Some(UsernameTooShort))
              && (ByteLen(t) > UsernameMax ==> err == Some(UsernameTooLong))
              && (UsernameMin <= ByteLen(t) <= UsernameMax ==>
                    && (err.None? <==> forall i :: 0 <= i < |t| ==> IsUsernameChar(t[i]))
                    && (err.Some? ==> err == Some(UsernameInvalidChars)))
  {
    var t := Trim(username);
    if t == [] {
      return Some(UsernameEmpty);
    }
    if ByteLen(t) < UsernameMin {
      return Some(UsernameTooShort);
    }
    if ByteLen(t) > UsernameMax {
      return Some(UsernameTooLong);
    }
    var i := 0;
    while i < |t|
      invariant 0 <= i <= |t|
      invariant forall j :: 0 <= j < i ==> IsUsernameChar(t[j])
    {
      if !IsUsernameChar(t[i]) {
        return Some(UsernameInvalidChars);
      }
      i := i + 1;
    }
    return None;
  }

  /** An accepted username is ASCII: its Go length is its number of characters, 3 to 20. */
  lemma AcceptedUsernameIsAscii(t: string)
    requires UsernameMin <= ByteLen(t) <= UsernameMax
    requires forall i :: 0 <= i < |t| ==> IsUsernameChar(t[i])
    ensures ByteLen(t) == |t| && UsernameMin <= |t| <= UsernameMax
  {
  }

  /** `ValidateRoomName`: after trimming, refuses an empty name, fewer than 3 bytes, then more than 50. */
  function ValidateRoomName(name: string): (err: Option<ValidationError>)
    ensures err.None? <==> RoomNameMin <= ByteLen(Trim(name)) <= RoomNameMax
    ensures Trim(name) == [] ==> err == Some(RoomNameEmpty)
    ensures Trim(name) != [] && ByteLen(Trim(name)) < RoomNameMin ==> err == Some(RoomNameTooShort)
    ensures ByteLen(Trim(name)) > RoomNameMax ==> err == Some(RoomNameTooLong)
  {
    var t := Trim(name);
    if t == [] then Some(RoomNameEmpty)
    else if ByteLen(t) < RoomNameMin then Some(RoomNameTooShort)
    else if ByteLen(t) > RoomNameMax then Some(RoomNameTooLong)
    else None
  }

  /** A room name and its trimmed form get the same verdict. */
  lemma RoomNameVerdictIgnoresSpaces(name: string)
    ensures ValidateRoomName(Trim(name)) == ValidateRoomName(name)
  {
    TrimIdempotent(name);
  }

  /**
   * `validateCreateRoom`: refuses an undecodable payload, then a blank
   * trimmed name, then a capacity outside 2..4, then an empty username,
   * which is not trimmed.
   */
  function ValidateCreateRoom(payload: Option<CreateRoomPayload>): (err: Option<ValidationError>)
    ensures err.None? <==>
              payload.Some? && Trim(payload.value.name) != []
              && MinPlayers <= payload.value.maxPlayers <= MaxPlayers && payload.value.username != []
    ensures payload.None? ==> err == Some(PayloadUndecodable)
    ensures payload.Some? && Trim(payload.value.name) == [] ==> err == Some(RoomNameEmpty)
    ensures payload.Some? && Trim(payload.value.name) != [] && !(MinPlayers <= payload.value.maxPlayers <= MaxPlayers) ==>
              err == Some(MaxPlayersOutOfRange)
    ensures (payload.Some? && Trim(payload.value.name) != [] && MinPlayers <= payload.value.maxPlayers <= MaxPlayers
             && payload.value.username == []) ==> err == Some(UsernameEmpty)
  {
    match payload
    case None => Some(PayloadUndecodable)
    case Some(data) =>
      if Trim(data.name) == [] then Some(RoomNameEmpty)
      else if data.maxPlayers < 2 || data.maxPlayers > 4 then Some(MaxPlayersOutOfRange)
      else if data.username == "" then Some(UsernameEmpty)
      else None
  }

  /** `validateJoinRoom`: refuses an undecodable payload, then an empty room id, then an empty username. */
  function ValidateJoinRoom(payload: Option<JoinRoomPayload>): (err: Option<ValidationError>)
    ensures err.None? <==> payload.Some? && payload.value.roomId != [] && payload.value.username != []
    ensures payload.None? ==> err == Some(PayloadUndecodable)
    ensures payload.Some? && payload.value.roomId == [] ==> err == Some(RoomIdEmpty)
    ensures payload.Some? && payload.value.roomId != [] && payload.value.username == [] ==> err == Some(UsernameEmpty)
  {
    match payload
    case None => Some(PayloadUndecodable)
    case Some(data) =>
      if data.roomId == "" then Some(RoomIdEmpty)
      else if data.username == "" then Some(UsernameEmpty)
      else None
  }

  /**
   * `validateConnect`: refuses an undecodable payload, then a blank trimmed
   * username, then a raw (untrimmed) length outside 3..20 bytes.
   */
  function ValidateConnect(payload: Option<ConnectPayload>): (err: Option<ValidationError>)
    ensures err.None? <==>
              payload.Some? && Trim(payload.value.username) != []
              && UsernameMin <= ByteLen(payload.value.username) <= UsernameMax
    ensures payload.None? ==> err == Some(PayloadUndecodable)
    ensures payload.Some? && Trim(payload.value.username) == [] ==> err == Some(UsernameEmpty)
    ensures (payload.Some? && Trim(payload.value.username) != []
             && !(UsernameMin <= ByteLen(payload.value.username) <= UsernameMax)) ==> err == Some(UsernameLengthOutOfRange)
  {
    match payload
    case None => Some(PayloadUndecodable)
    case Some(data) =>
      if Trim(data.username) == [] then Some(UsernameEmpty)
      else if ByteLen(data.username) < 3 || ByteLen(data.username) > 20 then Some(UsernameLengthOutOfRange)
      else None
  }

  /**
   * `ValidateMessage`: refuses a missing message and an empty type; only the
   * lower-case tags "create_room", "join_room" and "connect" have their
   * payload checked, and every other type passes.
   */
  function ValidateMessage(msg: Option<NetworkMessage>): (err: Option<ValidationError>)
    ensures msg.None? <==> err == Some(MessageNil)
    ensures msg.Some? && msg.value.msgType == [] ==> err == Some(TypeEmpty)
    ensures msg.Some? && msg.value.msgType !in {"", "create_room", "join_room", "connect"} ==> err.None?
    ensures msg.Some? && msg.value.msgType == "create_room" ==> err == ValidateCreateRoom(msg.value.payload.asCreateRoom)
    ensures msg.Some? && msg.value.msgType == "join_room" ==> err == ValidateJoinRoom(msg.value.payload.asJoinRoom)
    ensures msg.Some? && msg.value.msgType == "connect" ==> err == ValidateConnect(msg.value.payload.asConnect)
  {
    match msg
    case None => Some(MessageNil)
    case Some(m) =>
      if m.msgType == "" then Some(TypeEmpty)
      else if m.msgType == "create_room" then ValidateCreateRoom(m.payload.asCreateRoom)
      else if m.msgType == "join_room" then ValidateJoinRoom(m.payload.asJoinRoom)
      else if m.msgType == "connect" then ValidateConnect(m.payload.asConnect)
      else None
  }

  /** The message types the program sends are upper case, so none of their payloads is ever checked. */
  lemma ProgramTagsAreNotChecked(tag: string, p: Payload)
    requires tag in [MsgJoinRoom, MsgCreateRoom, MsgLeaveRoom, MsgRollDice, MsgMoveToken, MsgChatMessage, MsgReady]
    ensures ValidateMessage(Some(NetworkMessage(tag, p))) == None
  {
  }

  /** A create-room request may carry a room name and a username that the field validators refuse. */
  lemma CreateRoomLaxerThanFieldValidators()
    ensures ValidateCreateRoom(Some(CreateRoomPayload("ab", 2, "", false, "", 1, "  "))) == None
    ensures ValidateRoomName("ab") == Some(RoomNameTooShort)
  {
    var name := "ab";
    assert !IsSpace(name[0]) && !IsSpace(name[1]);
    TrimStartKeeps(name);
    TrimEndKeeps(name);
    assert Trim(name) == name;
    assert ByteLen(name[1..][1..]) == 0;
    assert ByteLen(name) == 2;
  }

  /** A connect request is length-checked before trimming: " ab" passes it but not `ValidateUsername`. */
  lemma ConnectCountsSurroundingSpaces()
    ensures ValidateConnect(Some(ConnectPayload(" ab", "", ""))) == None
    ensures Trim(" ab") == "ab" && ByteLen("ab") < UsernameMin
  {
    var t := "ab";
    var s := " ab";
    assert s[0] == ' ' && s[1..] == t && !IsSpace(t[0]) && !IsSpace(t[1]);
    TrimStartKeeps(t);
    assert TrimStart(s) == t;
    TrimEndKeeps(t);
    assert forall i :: 0 <= i < |s| ==> s[i] as int < 0x80;
    assert forall i :: 0 <= i < |t| ==> t[i] as int < 0x80;
  }
}
