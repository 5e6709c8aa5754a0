/** The keyboard events the screens react to, and the screen change a handler asks for. */
module Input {

  /** The keys the game binds; every other key is `OtherKey`. */
  datatype Key =
    | LeftKey | RightKey | UpKey | DownKey | SpaceKey
    | QKey | EKey | ReturnKey | MKey | SKey | PKey
    | OtherKey

  /** A key going down (KEYDOWN), a key coming up (KEYUP), the window's quit request,
      or any other event (mouse and the like), which no screen handles. */
  datatype Event = Press(key: Key) | Release(key: Key) | QuitRequest | OtherEvent

  /** What a screen asks of the screen manager after handling an event or a frame:
      stay, switch to a fresh screen of the named kind, or shut the game down.
      The Lose screen carries what it shows: final score, high score, the new stored
      coin total and the coins earned in the session. */
  datatype Action =
    | Stay
    | ToMainMenu
    | ToStore
    | ToPlay
    | ToLose(score: int, highScore: int, totalCoins: int, coins: int)
    | Shutdown
}
