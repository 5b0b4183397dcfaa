/** The two ends together: every message the phone sends reaches the host
    handler of its own type, and the host does what the phone meant. */
module Protocol {
  import opened Geometry
  import opened Wire
  import Client
  import opened Server

  /** Each message builder of the client produces a type the host routes to
      the matching handler. */
  lemma ClientFramesRoute(acc: Vec, key: string, message: string)
    ensures Route(Client.MoveFrame(acc).kind) == MoveHandler
    ensures Route(Client.ScrollFrame(acc).kind) == ScrollHandler
    ensures Route(Client.Click().kind) == ClickHandler
    ensures Route(Client.SendKey(key).kind) == KeyHandler
    ensures Route(Client.RightClick().kind) == RightClickHandler
    ensures Route(Client.MouseDown().kind) == MouseDownHandler
    ensures Route(Client.MouseUp().kind) == MouseUpHandler
    ensures Route(Client.Log(message).kind) == LogHandler
  {
  }

  /** A phone click is a left click on the host; a long press holds and then
      releases the left button; a right click is a right click. */
  lemma ClicksAgree(pos: Vec)
    ensures StatelessEffects(ClickHandler, Client.Click(), pos) == [ClickButton(Left)]
    ensures StatelessEffects(RightClickHandler, Client.RightClick(), pos) == [ClickButton(Right)]
    ensures StatelessEffects(MouseDownHandler, Client.MouseDown(), pos) == [PressButton(Left)]
    ensures StatelessEffects(MouseUpHandler, Client.MouseUp(), pos) == [ReleaseButton(Left)]
  {
  }

  /** The key the phone names is the key the host looks up: a media key is
      pressed and released, any other name does nothing. */
  lemma KeysAgree(key: string, pos: Vec)
    ensures StatelessEffects(KeyHandler, Client.SendKey(key), pos) == KeyEffects(key)
    ensures KeyFor(key).None? ==> StatelessEffects(KeyHandler, Client.SendKey(key), pos) == []
    ensures StatelessEffects(KeyHandler, Client.SendKey("audio_play"), pos) == [PressKey(AudioPlay), ReleaseKey(AudioPlay)]
    ensures StatelessEffects(KeyHandler, Client.SendKey("audio_vol_up"), pos) == [PressKey(AudioVolUp), ReleaseKey(AudioVolUp)]
    ensures StatelessEffects(KeyHandler, Client.SendKey("audio_vol_down"), pos)
         == [PressKey(AudioVolDown), ReleaseKey(AudioVolDown)]
    ensures StatelessEffects(KeyHandler, Client.SendKey("enter"), pos) == []
  {
  }
}
