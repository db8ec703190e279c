// The screen-level state machine driven by key presses: menu, playing,
// paused and game over.

module GameFlow {

  datatype GameState = Menu | Playing | Paused | GameOver

  /** The keys handleEvents distinguishes; every other key is OtherKey. */
  datatype Key = Space | Return | Escape | P | OtherKey

  /** One polled event: the window's close request, a key press, or anything
      else (mouse motion, key release, ...). */
  datatype Event = Quit | KeyDown(key: Key) | OtherEvent

  /** What a key press does: the next state, whether the session is reset,
      and whether the main loop is asked to stop. */
  datatype Reaction = Reaction(next: GameState, reset: bool, stop: bool)

  predicate IsStart(k: Key) { k == Space || k == Return }
  predicate IsPause(k: Key) { k == Escape || k == P }

  /** The key table of handleEvents. */
  function OnKey(s: GameState, k: Key): (r: Reaction)
    // from the menu: start a fresh session, or quit
    ensures s == Menu ==>
      r == (if IsStart(k) then Reaction(Playing, true, false)
            else if k == Escape then Reaction(Menu, false, true)
            else Reaction(Menu, false, false))
    // while playing or paused: Escape and P toggle between the two
    ensures s == Playing || s == Paused ==>
      !r.reset && !r.stop &&
      (IsPause(k) ==> r.next == (if s == Playing then Paused else Playing)) &&
      (!IsPause(k) ==> r.next == s)
    // after a game over: start a fresh session, or back to the menu
    ensures s == GameOver ==>
      !r.stop && (r.reset <==> IsStart(k)) &&
      r.next == (if IsStart(k) then Playing else if k == Escape then Menu else GameOver)
    // a reset always comes with a fresh session
    ensures r.reset ==> r.next == Playing
    ensures k == OtherKey ==> r == Reaction(s, false, false)
  {
    match s
    case Menu =>
      var started := if IsStart(k) then Reaction(Playing, true, false) else Reaction(s, false, false);
      if k == Escape then started.(stop := true) else started
    case Playing =>
      if IsPause(k) then Reaction(Paused, false, false) else Reaction(s, false, false)
    case Paused =>
      if IsPause(k) then Reaction(Playing, false, false) else Reaction(s, false, false)
    case GameOver =>
      var started := if IsStart(k) then Reaction(Playing, true, false) else Reaction(s, false, false);
      if k == Escape then started.(next := Menu) else started
  }

  /** Only the menu and the game-over screen start a session, and only on
      Space or Return; every way into Playing from them is a reset. */
  lemma StartIsTheOnlyReset(s: GameState, k: Key)
    ensures OnKey(s, k).reset <==> (s == Menu || s == GameOver) && IsStart(k)
    ensures (s == Menu || s == GameOver) && OnKey(s, k).next == Playing ==> OnKey(s, k).reset
  {
  }

  /** Pausing and resuming with the same key gets back to playing. */
  lemma PauseRoundTrip(k: Key)
    requires IsPause(k)
    ensures OnKey(OnKey(Playing, k).next, k) == Reaction(Playing, false, false)
  {
  }

  /** A key press never stops the loop from any screen but the menu, and
      there only Escape does. */
  lemma OnlyMenuEscapeStops(s: GameState, k: Key)
    ensures OnKey(s, k).stop <==> s == Menu && k == Escape
  {
  }
}
