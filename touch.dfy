/**
 * touch.c: the pointer-to-touch translation. injectTouchEvent turns a mouse
 * action into one multi-touch packet on the touch panel's input device,
 * nudging a coordinate that repeats the previous one; the trim5 gestures
 * send fixed key-and-tap scripts.
 */
module Touch {
  import opened Evdev

  // enum MouseAction (touch.h)
  const MouseDrag: int := -1
  const MouseRelease: int := 0
  const MousePress: int := 1

  /** The largest x and y a nudge may produce before it steps back by two. */
  const MaxX: int := 799
  const MaxY: int := 599

  /** The tap point of the trim5 gestures lies on this row. */
  const TapY: int := 535

  /**
   * The coordinate injectTouchEvent sends: a value equal to the previous one
   * is moved by `step`, and pulled back by two if that passes `limit`.
   */
  function Nudge(v: int, last: int, step: int, limit: int): (r: int)
  {
    if v == last then (if v + step > limit then v + step - 2 else v + step) else v
  }

  /**
   * With a step of one (either way) the sent coordinate never repeats the
   * previous one, a new coordinate passes unchanged, and an on-screen
   * repeat stays at most `limit`, dropping at most to -1.
   */
  lemma {:induction false} NudgeMoves(v: int, last: int, step: int, limit: int)
    requires step == 1 || step == -1
    ensures Nudge(v, last, step, limit) != last
    ensures v != last ==> Nudge(v, last, step, limit) == v
    ensures 0 <= v <= limit ==> -1 <= Nudge(v, last, step, limit) <= limit
  {
  }

  /** A repeat of 0 with a downward step leaves the screen. */
  lemma NudgeLeavesScreenAtZero()
    ensures Nudge(0, 0, -1, MaxY) == -1
  {
  }

  /**
   * The packet of one touch action: tracking id, BTN_TOUCH, the
   * multi-touch position, the single-touch position, SYN.
   */
  function TouchPacket(trk: int, touch: int, x: int, y: int): seq<InputEvent>
  {
    [ InputEvent(EV_ABS, ABS_MT_TRACKING_ID, trk), InputEvent(EV_KEY, BTN_TOUCH, touch),
      InputEvent(EV_ABS, ABS_MT_POSITION_X, x), InputEvent(EV_ABS, ABS_MT_POSITION_Y, y),
      InputEvent(EV_ABS, ABS_X, x), InputEvent(EV_ABS, ABS_Y, y), Syn ]
  }

  /**
   * The script of trim5Menu, trim5Home, trim5Info and trim5Start: a new
   * tracking id, `key` pressed, a position at (x, TapY), BTN_TOUCH released,
   * SYN, then `key` released and SYN.
   */
  function TapPacket(trk: int, key: int, x: int): seq<InputEvent>
  {
    [ InputEvent(EV_ABS, ABS_MT_TRACKING_ID, trk), InputEvent(EV_KEY, key, 1),
      InputEvent(EV_ABS, ABS_MT_POSITION_X, x), InputEvent(EV_ABS, ABS_MT_POSITION_Y, TapY),
      InputEvent(EV_ABS, ABS_X, x), InputEvent(EV_ABS, ABS_Y, TapY),
      InputEvent(EV_KEY, BTN_TOUCH, 0), Syn,
      InputEvent(EV_KEY, key, 0), Syn ]
  }

  /** The script of trim5SysMenu: a new tracking id, KEY_MENU pressed, SYN, released, SYN. */
  function MenuPacket(trk: int): seq<InputEvent>
  {
    [ InputEvent(EV_ABS, ABS_MT_TRACKING_ID, trk), InputEvent(EV_KEY, KEY_MENU, 1), Syn,
      InputEvent(EV_KEY, KEY_MENU, 0), Syn ]
  }

  /** Every gesture script presses its key before it releases it, and ends with a SYN. */
  lemma {:induction false} GesturesBalanced(trk: int, key: int, x: int)
    requires key != BTN_TOUCH
    ensures var p := TapPacket(trk, key, x);
      p[|p| - 1] == Syn && p[1] == InputEvent(EV_KEY, key, 1) && p[|p| - 2] == InputEvent(EV_KEY, key, 0)
      && forall i :: 0 <= i < |p| && p[i].evType == EV_KEY && p[i].code == key ==> i == 1 || i == |p| - 2
    ensures var p := MenuPacket(trk);
      p[|p| - 1] == Syn && p[1] == InputEvent(EV_KEY, KEY_MENU, 1) && p[|p| - 2] == InputEvent(EV_KEY, KEY_MENU, 0)
      && forall i :: 0 <= i < |p| && p[i].evType == EV_KEY && p[i].code == KEY_MENU ==> i == 1 || i == |p| - 2
  {
    var p := TapPacket(trk, key, x);
    forall i | 0 <= i < |p| && p[i].evType == EV_KEY && p[i].code == key
      ensures i == 1 || i == |p| - 2
    {
      assert i != 6;
    }
  }

  /** The touch panel's device and the statics of touch.c. */
  class TouchPanel {
    const dev: Device
    /** trkg_id: the last tracking id handed out. */
    var trkgId: int
    /** last_x, last_y: the coordinates sent last. */
    var lastX: int
    var lastY: int
    /** last_x_k, last_y_k: the nudges; only the y nudge alternates. */
    var lastXK: int
    var lastYK: int
    /** The tracking ids handed out so far, oldest first. */
    ghost var ids: seq<int>

    /**
     * Tracking ids are handed out in increasing order, none above trkg_id,
     * and the nudges are single steps.
     */
    ghost predicate Valid()
      reads this
    {
      && lastXK == -1 && (lastYK == 1 || lastYK == -1)
      && trkgId >= -1
      && (forall i :: 0 <= i < |ids| ==> 0 <= ids[i] <= trkgId)
      && (forall i, j :: 0 <= i < j < |ids| ==> ids[i] < ids[j])
    }

    /** The statics' initial values (every one -1). */
    constructor (device: Device)
      ensures Valid() && dev == device && ids == []
      ensures trkgId == -1 && lastX == -1 && lastY == -1 && lastYK == -1
    {
      dev := device;
      trkgId, lastX, lastY, lastXK, lastYK := -1, -1, -1, -1, -1;
      ids := [];
    }

    /** ++trkg_id: a fresh tracking id, larger than every one handed out. */
    method NextId() returns (trk: int)
      requires Valid()
      modifies this`trkgId, this`ids
      ensures Valid() && trk == trkgId == old(trkgId) + 1 && ids == old(ids) + [trk]
    {
      trkgId := trkgId + 1;
      trk := trkgId;
      ids := ids + [trk];
    }

    /**
     * injectTouchEvent. The coordinates are nudged and remembered, the y
     * nudge flips, then the action's packet is written: a press takes a new
     * tracking id and touches, a release sends id -1 and lifts, a drag
     * sends id 0 and touches. Any other action ends the process (exited)
     * before anything is written.
     */
    method InjectTouchEvent(action: int, x: int, y: int) returns (exited: bool)
      requires Valid()
      modifies this, dev
      ensures Valid()
      ensures lastX == Nudge(x, old(lastX), old(lastXK), MaxX) && lastY == Nudge(y, old(lastY), old(lastYK), MaxY)
      ensures lastXK == old(lastXK) && lastYK == -old(lastYK)
      ensures lastX != old(lastX) && lastY != old(lastY)
      ensures exited <==> action != MousePress && action != MouseRelease && action != MouseDrag
      ensures action == MousePress ==>
        trkgId == old(trkgId) + 1 && ids == old(ids) + [trkgId] && dev.log == old(dev.log) + TouchPacket(trkgId, 1, lastX, lastY)
      ensures action != MousePress ==> trkgId == old(trkgId) && ids == old(ids)
      ensures action == MouseRelease ==> dev.log == old(dev.log) + TouchPacket(-1, 0, lastX, lastY)
      ensures action == MouseDrag ==> dev.log == old(dev.log) + TouchPacket(0, 1, lastX, lastY)
      ensures exited ==> dev.log == old(dev.log)
    {
      NudgeMoves(x, lastX, lastXK, MaxX);
      NudgeMoves(y, lastY, lastYK, MaxY);
      var sx := Nudge(x, lastX, lastXK, MaxX);
      var sy := Nudge(y, lastY, lastYK, MaxY);
      lastX, lastY := sx, sy;
      lastYK := -lastYK;
      var trk, touch;
      if action == MousePress {
        trk := NextId();
        touch := 1;
      } else if action == MouseRelease {
        trk, touch := -1, 0;
      } else if action == MouseDrag {
        trk, touch := 0, 1;
      } else {
        return true;
      }
      SendTouch(trk, touch, sx, sy);
      exited := false;
    }

    /** The writes of injectTouchEvent, one record at a time. */
    method SendTouch(trk: int, touch: int, x: int, y: int)
      modifies dev
      ensures dev.log == old(dev.log) + TouchPacket(trk, touch, x, y)
    {
      var ok := dev.Write(InputEvent(EV_ABS, ABS_MT_TRACKING_ID, trk));
      ok := dev.Write(InputEvent(EV_KEY, BTN_TOUCH, touch));
      ok := dev.Write(InputEvent(EV_ABS, ABS_MT_POSITION_X, x));
      ok := dev.Write(InputEvent(EV_ABS, ABS_MT_POSITION_Y, y));
      ok := dev.Write(InputEvent(EV_ABS, ABS_X, x));
      ok := dev.Write(InputEvent(EV_ABS, ABS_Y, y));
      ok := dev.Write(Syn);
    }

    /** trim5SysMenu: KEY_MENU pressed and released under a new tracking id. */
    method Trim5SysMenu()
      requires Valid()
      modifies this`trkgId, this`ids, dev
      ensures Valid() && trkgId == old(trkgId) + 1 && ids == old(ids) + [trkgId]
      ensures dev.log == old(dev.log) + MenuPacket(trkgId)
    {
      var trk := NextId();
      var ok := dev.Write(InputEvent(EV_ABS, ABS_MT_TRACKING_ID, trk));
      ok := dev.Write(InputEvent(EV_KEY, KEY_MENU, 1));
      ok := dev.Write(Syn);
      ok := dev.Write(InputEvent(EV_KEY, KEY_MENU, 0));
      ok := dev.Write(Syn);
    }

    /** The tap script shared by the four trim5 button gestures. */
    method Tap(key: int, x: int)
      requires Valid()
      modifies this`trkgId, this`ids, dev
      ensures Valid() && trkgId == old(trkgId) + 1 && ids == old(ids) + [trkgId]
      ensures dev.log == old(dev.log) + TapPacket(trkgId, key, x)
    {
      var trk := NextId();
      var ok := dev.Write(InputEvent(EV_ABS, ABS_MT_TRACKING_ID, trk));
      ok := dev.Write(InputEvent(EV_KEY, key, 1));
      ok := dev.Write(InputEvent(EV_ABS, ABS_MT_POSITION_X, x));
      ok := dev.Write(InputEvent(EV_ABS, ABS_MT_POSITION_Y, TapY));
      ok := dev.Write(InputEvent(EV_ABS, ABS_X, x));
      ok := dev.Write(InputEvent(EV_ABS, ABS_Y, TapY));
      ok := dev.Write(InputEvent(EV_KEY, BTN_TOUCH, 0));
      ok := dev.Write(Syn);
      ok := dev.Write(InputEvent(EV_KEY, key, 0));
      ok := dev.Write(Syn);
    }

    /** trim5Menu: F4 tapped at x = 300. */
    method Trim5Menu()
      requires Valid()
      modifies this`trkgId, this`ids, dev
      ensures Valid() && trkgId == old(trkgId) + 1 && ids == old(ids) + [trkgId]
      ensures dev.log == old(dev.log) + TapPacket(trkgId, KEY_F4, 300)
    {
      Tap(KEY_F4, 300);
    }

    /** trim5Home: F2 tapped at x = 85. */
    method Trim5Home()
      requires Valid()
      modifies this`trkgId, this`ids, dev
      ensures Valid() && trkgId == old(trkgId) + 1 && ids == old(ids) + [trkgId]
      ensures dev.log == old(dev.log) + TapPacket(trkgId, KEY_F2, 85)
    {
      Tap(KEY_F2, 85);
    }

    /** trim5Info: F1 tapped at x = 515. */
    method Trim5Info()
      requires Valid()
      modifies this`trkgId, this`ids, dev
      ensures Valid() && trkgId == old(trkgId) + 1 && ids == old(ids) + [trkgId]
      ensures dev.log == old(dev.log) + TapPacket(trkgId, KEY_F1, 515)
    {
      Tap(KEY_F1, 515);
    }

    /** trim5Start: F3 tapped at x = 720. */
    method Trim5Start()
      requires Valid()
      modifies this`trkgId, this`ids, dev
      ensures Valid() && trkgId == old(trkgId) + 1 && ids == old(ids) + [trkgId]
      ensures dev.log == old(dev.log) + TapPacket(trkgId, KEY_F3, 720)
    {
      Tap(KEY_F3, 720);
    }
  }
}
