/** The snackbar hook (src/shared/hooks/useSnackbar.ts): a notification that
    is shown with a message and a type and hidden by hand or by a timer that
    each show starts. The timers are explicit: `timersRunning` counts the
    auto-hide callbacks not yet fired, and `AutoHideFires` is one of them
    firing. */
module Snackbar {

  datatype SnackbarType = Success | Error | Info

  /** The whole displayed state, as one record. */
  datatype SnackbarState = SnackbarState(open: bool, message: string, kind: SnackbarType)

  const InitialSnackbar: SnackbarState := SnackbarState(false, "", Success)

  /** The update both the hide action and the auto-hide apply: close, and
      keep the message and the type. */
  function Closed(s: SnackbarState): (r: SnackbarState)
    ensures !r.open && r.message == s.message && r.kind == s.kind
  {
    s.(open := false)
  }

  class SnackbarHook {
    var state: SnackbarState
    var timersRunning: nat

    /** Closed, with an empty message and the success type. */
    constructor()
      ensures state == SnackbarState(false, "", Success) && timersRunning == 0
    {
      state := InitialSnackbar;
      timersRunning := 0;
    }

    /** `showSnackbar(message, type)`, the type defaulting to success; the
        state is replaced whole and one more auto-hide is scheduled. */
    method Show(message: string, kind: SnackbarType)
      modifies this
      ensures state == SnackbarState(true, message, kind)
      ensures timersRunning == old(timersRunning) + 1
    {
      state := SnackbarState(true, message, kind);
      timersRunning := timersRunning + 1;
    }

    /** `showSnackbar(message)` with the type left out. */
    method ShowDefault(message: string)
      modifies this
      ensures state == SnackbarState(true, message, Success)
      ensures timersRunning == old(timersRunning) + 1
    {
      Show(message, Success);
    }

    method Hide()
      modifies this
      ensures state == Closed(old(state)) && timersRunning == old(timersRunning)
    {
      state := Closed(state);
    }

    /** One of the scheduled auto-hides fires. None is ever cancelled, so the
        one started by an earlier show also closes a later message. */
    method AutoHideFires()
      requires timersRunning > 0
      modifies this
      ensures state == Closed(old(state)) && timersRunning == old(timersRunning) - 1
    {
      state := Closed(state);
      timersRunning := timersRunning - 1;
    }
  }

  /** Two shows in a row leave two auto-hides pending; the first to fire
      closes the second message early. */
  method EarlierTimerClosesLaterMessage() returns (s: SnackbarState)
    ensures s == SnackbarState(false, "second", Error)
  {
    var bar := new SnackbarHook();
    bar.ShowDefault("first");
    bar.Show("second", Error);
    bar.AutoHideFires();
    s := bar.state;
  }
}
