/** The message types of common.h and the messages the server and the clients send. */
module Protocol {
  import opened Common
  import opened Message

  const SERVER_VALIDATION: uint32 := 0
  const NEW_PLAYER: uint32 := 1
  const REMOVE_PLAYER: uint32 := 2
  const START_GAME: uint32 := 3
  const UPDATE_PLAYER: uint32 := 4
  const NEW_POWERUP: uint32 := 5
  const POWERUP_EATEN: uint32 := 6
  const KILL_PLAYER: uint32 := 7

  function Empty(id: uint32): Msg {
    Msg(Header(id, 0), [])
  }

  /** A message with one `int` in its body. */
  function IntMsg(id: uint32, n: int32): Msg {
    Pushed(Empty(id), Int(n))
  }

  /** A message with one cell in its body. */
  function CellMsg(id: uint32, p: Position): Msg {
    Pushed(Empty(id), Cell(p))
  }

  function BodyMsg(id: uint32, body: seq<byte>): Msg {
    Msg(Header(id, |body| % TWO_32), body)
  }

  function RemovePlayerMsg(id: uint32): Msg {
    IntMsg(REMOVE_PLAYER, AsInt32(id))
  }

  predicate IsRemoval(m: Msg) {
    m.header.id == REMOVE_PLAYER
  }
}
