/**
 * The input side of main.c: keyevent and ptrevent, the callbacks the RFB
 * server invokes for client key and pointer messages, with the statics they
 * keep between calls.
 */
module Server {
  import opened Evdev
  import opened Keyboard
  import Touch
  import FrameDiff
  import Pixels
  import Dirty

  /**
   * A key press that follows the previous key event by less than 0.1 s is
   * dropped; times are integer microseconds.
   */
  const DebounceUs: int := 100000

  // ---------------------------------------------------------------------
  // The key table scan

  /**
   * The first entry at or after `from` that holds `key` with the same down
   * state; |t| when there is none.
   */
  function FirstRepeat(t: seq<KeyStat>, key: int, down: int, from: nat): (j: nat)
    requires from <= |t|
    ensures from <= j <= |t|
    ensures forall i :: from <= i < j ==> !(t[i].code == key && t[i].down == down)
    ensures j < |t| ==> t[j].code == key && t[j].down == down
    decreases |t| - from
  {
    if from == |t| then |t|
    else if t[from].code == key && t[from].down == down then from
    else FirstRepeat(t, key, down, from + 1)
  }

  /**
   * The table after the scan of keyevent: every entry before the first
   * repeat (every entry, if there is none) takes the new down state.
   */
  function Scanned(t: seq<KeyStat>, key: int, down: int): (r: seq<KeyStat>)
    ensures |r| == |t| && Codes(r) == Codes(t)
  {
    var j := FirstRepeat(t, key, down, 0);
    seq(|t|, i requires 0 <= i < |t| => if i < j then t[i].(down := down) else t[i])
  }

  /**
   * Every entry of the table always holds the same down state: with all
   * entries at `held`, the scan finds a repeat exactly when the key is in
   * the table and `down` equals `held`, and afterwards all entries hold
   * `held` again on a repeat and `down` otherwise.
   */
  lemma {:induction false} ScanShared(t: seq<KeyStat>, key: int, down: int, held: int)
    requires forall i :: 0 <= i < |t| ==> t[i].down == held
    ensures FirstRepeat(t, key, down, 0) < |t| <==> key in Codes(t) && down == held
    ensures forall i :: 0 <= i < |t| ==>
      Scanned(t, key, down)[i].down == if FirstRepeat(t, key, down, 0) < |t| then held else down
  {
    var j := FirstRepeat(t, key, down, 0);
    if key in Codes(t) && down == held {
      var m :| 0 <= m < |t| && Codes(t)[m] == key;
      assert t[m].code == key && t[m].down == down;
      assert j <= m;
    }
    if j < |t| {
      assert Codes(t)[j] == key;
    }
  }

  // ---------------------------------------------------------------------
  // What keyevent does with one event

  datatype KeyReaction =
    | Debounced                           // a press too soon after the previous key event
    | Redrawn                             // a repeat of the table's state: the screen is refreshed
    | Injected(packet: seq<InputEvent>)   // the records written to the keyboard (possibly none)

  /**
   * keyevent's decision, given the state all table entries hold and the
   * microseconds since the previous key event.
   */
  function React(held: int, elapsed: int, down: int, key: int, trim5: int): KeyReaction
  {
    if elapsed < DebounceUs && down == 1 then Debounced
    else if IsTableKey(key) && down == held then Redrawn
    else if key == XK_F10 then Injected(RightPacket(trim5))
    else if Keysym2Scancode(key) != 0 then Injected(KeyPacket(Keysym2Scancode(key), down))
    else Injected([])
  }

  /** The table's shared state after a reaction. */
  function HeldAfter(r: KeyReaction, held: int, down: int): int
  {
    if r.Injected? then down else held
  }

  /**
   * A release is never dropped for timing; a tracked key other than F10 is
   * forwarded, as its own key code and state, exactly when its state differs
   * from the table's; an untracked key writes nothing; F10 always sends the
   * KEY_RIGHT sequence carrying trim5.
   */
  lemma {:induction false} ReactForwards(held: int, elapsed: int, down: int, key: int, trim5: int)
    ensures down != 1 ==> React(held, elapsed, down, key, trim5) != Debounced
    ensures IsTableKey(key) && key != XK_F10 && React(held, elapsed, down, key, trim5) != Debounced ==>
      (React(held, elapsed, down, key, trim5).Injected? <==> down != held)
    ensures React(held, elapsed, down, key, trim5) == Injected(KeyPacket(Keysym2Scancode(key), down)) <==>
      (elapsed >= DebounceUs || down != 1) && IsTableKey(key) && key != XK_F10 && down != held
    ensures !IsTableKey(key) && React(held, elapsed, down, key, trim5).Injected? ==>
      React(held, elapsed, down, key, trim5).packet == []
    ensures key == XK_F10 && React(held, elapsed, down, key, trim5).Injected? ==>
      React(held, elapsed, down, key, trim5).packet == RightPacket(trim5)
  {
    var r := React(held, elapsed, down, key, trim5);
    if r == Injected(KeyPacket(Keysym2Scancode(key), down)) {
      assert |r.packet| == 2;
      assert key != XK_F10;
    }
  }

  /** A key event as the server receives it: state, keysym, arrival time. */
  datatype KeyInput = KeyInput(down: int, key: int, at: int)

  /**
   * The records a run of key events writes to the keyboard, starting from
   * the table state `held` and the previous event time `since`.
   */
  function KeyTrace(held: int, since: int, evs: seq<KeyInput>, trim5: int): seq<InputEvent>
    decreases |evs|
  {
    if evs == [] then []
    else
      var e := evs[0];
      var r := React(held, e.at - since, e.down, e.key, trim5);
      (if r.Injected? then r.packet else []) + KeyTrace(HeldAfter(r, held, e.down), e.at, evs[1..], trim5)
  }

  /**
   * The table keeps one state for all keys: with Left held, a press of
   * Right is taken as a repeat and swallowed, Right's release is forwarded,
   * and Left's release is then swallowed, so the keyboard never sees Left
   * go up.
   */
  lemma {:induction false} OverlappingKeysLoseRelease(trim5: int)
    ensures KeyTrace(0, 0, [KeyInput(1, XK_Left, 1000000), KeyInput(1, XK_Right, 1200000),
                            KeyInput(0, XK_Right, 1400000), KeyInput(0, XK_Left, 1600000)], trim5)
      == KeyPacket(KEY_LEFT, 1) + KeyPacket(KEY_RIGHT, 0)
  {
    var evs := [KeyInput(1, XK_Left, 1000000), KeyInput(1, XK_Right, 1200000),
                KeyInput(0, XK_Right, 1400000), KeyInput(0, XK_Left, 1600000)];
    assert IsTableKey(XK_Left) && IsTableKey(XK_Right);
    assert KeyTrace(0, 1400000, evs[3..], trim5) == [] by {
      assert KeyTrace(0, 1600000, evs[4..], trim5) == [];
    }
    assert KeyTrace(1, 1200000, evs[2..], trim5) == KeyPacket(KEY_RIGHT, 0) by {
      assert evs[2..][1..] == evs[3..];
    }
    assert KeyTrace(1, 1000000, evs[1..], trim5) == KeyPacket(KEY_RIGHT, 0) by {
      assert evs[1..][1..] == evs[2..];
    }
  }

  // ---------------------------------------------------------------------
  // The server's input state

  class InputServer {
    const mirror: FrameDiff.FrameMirror
    const kbd: Device
    const touch: Touch.TouchPanel
    /** keys[13] of keyboard.h, as included by main.c. */
    const keys: array<KeyStat>
    /** Set by the -t option; the value sent with the F10 sequence. */
    const trim5: int
    /** keyevent's then3: the time of the previous key event, in microseconds. */
    var then3: int
    /** Key events that reached the scancode lookup. */
    var cnt: int
    /** ptrevent's statics. */
    var pressed: int
    var pressedX: int
    var pressedY: int
    /** The down state every key table entry holds. */
    ghost var held: int
    /** The mouse actions passed to the touch panel, oldest first. */
    ghost var actions: seq<int>

    /** The key table has its thirteen keysyms in order and all entries hold `held`. */
    ghost predicate KeysOk()
      reads this, keys
    {
      && keys.Length == SMH4_KEY_COUNT
      && Codes(keys[..]) == TableKeysyms
      && (forall k :: 0 <= k < keys.Length ==> keys[k].down == held)
    }

    /**
     * The touch panel has seen presses and releases strictly alternating,
     * starting with a press, and `pressed` tells which comes next.
     */
    ghost predicate PointerOk()
      reads this
    {
      && (pressed == 0 || pressed == 1)
      && pressed == |actions| % 2
      && (forall i :: 0 <= i < |actions| ==>
            actions[i] == if i % 2 == 0 then Touch.MousePress else Touch.MouseRelease)
    }

    ghost predicate Valid()
      reads this, keys, touch, mirror, mirror.shadow, mirror.remote
    {
      && KeysOk() && PointerOk() && mirror.Valid() && touch.Valid() && kbd != touch.dev
      && keys as object != mirror.shadow && keys as object != mirror.remote
    }

    /** The statics' initial values, keys[] as in keyboard.h. */
    constructor (m: FrameDiff.FrameMirror, keyboard: Device, panel: Touch.TouchPanel, t5: int)
      requires m.Valid() && panel.Valid() && keyboard != panel.dev
      ensures Valid() && fresh(keys)
      ensures mirror == m && kbd == keyboard && touch == panel && trim5 == t5
      ensures keys[..] == InitialKeys && held == 0
      ensures then3 == 0 && cnt == 0 && pressed == 0 && pressedX == 0 && pressedY == 0 && actions == []
    {
      mirror, kbd, touch, trim5 := m, keyboard, panel, t5;
      keys := new KeyStat[|InitialKeys|](i requires 0 <= i < |InitialKeys| => InitialKeys[i]);
      then3, cnt, pressed, pressedX, pressedY := 0, 0, 0, 0, 0;
      held := 0;
      actions := [];
      new;
      InitialKeysShape();
      assert keys[..] == InitialKeys;
    }

    /**
     * The loop of keyevent over keys[]: it stops at the first entry holding
     * `key` in state `down` (repeat), setting every entry before it to
     * `down`.
     */
    method ScanTable(key: int, down: int) returns (repeat: bool)
      modifies keys
      ensures repeat <==> FirstRepeat(old(keys[..]), key, down, 0) < keys.Length
      ensures keys[..] == Scanned(old(keys[..]), key, down)
    {
      ghost var t := keys[..];
      ghost var j := FirstRepeat(t, key, down, 0);
      var k := 0;
      while k < keys.Length
        invariant 0 <= k <= keys.Length && k <= j
        invariant forall i :: 0 <= i < k ==> keys[i] == t[i].(down := down)
        invariant forall i :: k <= i < keys.Length ==> keys[i] == t[i]
      {
        if keys[k].code == key && keys[k].down == down {
          assert j == k;
          assert keys[..] == Scanned(t, key, down);
          return true;
        }
        keys[k] := keys[k].(down := down);
        k := k + 1;
      }
      assert keys[..] == Scanned(t, key, down);
      return false;
    }

    /**
     * keyevent. The time is recorded; a press within 0.1 s of the previous
     * key event is dropped. Otherwise the table is scanned: a repeat refreshes
     * the screen (exited when update_screen ends the process), F10 sends the
     * KEY_RIGHT sequence, and any other key sends its key code when it has
     * one and is counted.
     */
    method KeyEvent(down: int, key: int, now: int) returns (exited: bool)
      requires Valid()
      modifies this, keys, kbd, mirror, mirror.shadow, mirror.remote
      ensures !exited ==> Valid()
      ensures then3 == now
      ensures var r := React(old(held), now - old(then3), down, key, trim5);
        && held == HeldAfter(r, old(held), down)
        && kbd.log == old(kbd.log) + (if r.Injected? then r.packet else [])
        && cnt == old(cnt) + (if r.Injected? && key != XK_F10 then 1 else 0)
        && (exited ==> r == Redrawn)
        && (r == Redrawn ==>
              (exited <==> (mirror.fmt.Kind() == FrameDiff.Unsupported
                            || (mirror.fmt.Kind().Rotated16? && !Pixels.ValidAngle(mirror.fmt.rotate) && old(mirror.shadow[..]) != mirror.fb[..]))))
        && (r == Redrawn && !exited ==>
              && mirror.shadow[..] == mirror.fb[..]
              && mirror.Tracked() == Dirty.Settle(Dirty.Scan(FrameDiff.RuleOf(mirror.fmt.Kind()),
                   FrameDiff.FrameHits(mirror.fmt, old(mirror.shadow[..]), mirror.fb[..])))
              && mirror.marked == old(mirror.marked) + match Dirty.MarkOf(mirror.Tracked()) case Some(m) => [m] case None => [])
        && (r != Redrawn ==>
              && mirror.shadow[..] == old(mirror.shadow[..]) && mirror.remote[..] == old(mirror.remote[..])
              && mirror.marked == old(mirror.marked))
      ensures pressed == old(pressed) && pressedX == old(pressedX) && pressedY == old(pressedY) && actions == old(actions)
    {
      var elapsed := now - then3;
      then3 := now;
      exited := false;
      if elapsed < DebounceUs && down == 1 {
        return;
      }
      var repeat := Lookup(key, down);
      if repeat {
        ghost var t := keys[..];
        exited := mirror.UpdateScreen();
        assert keys[..] == t;
        return;
      }
      Forward(down, key);
    }

    /**
     * The table scan of keyevent, with the state all entries share: a repeat
     * is found exactly when the key is tracked and its state is the shared
     * one; otherwise every entry takes the new state.
     */
    method Lookup(key: int, down: int) returns (repeat: bool)
      requires KeysOk()
      modifies keys, this`held
      ensures KeysOk()
      ensures repeat <==> IsTableKey(key) && down == old(held)
      ensures held == if repeat then old(held) else down
      ensures repeat ==> keys[..] == old(keys[..])
    {
      ghost var t := keys[..];
      ScanShared(t, key, down, held);
      repeat := ScanTable(key, down);
      if !repeat {
        held := down;
      }
      assert repeat ==> keys[..] == t;
    }

    /**
     * The end of keyevent once the event is neither dropped nor a repeat:
     * F10 sends the KEY_RIGHT sequence; any other key sends its key code if
     * it has one, and is counted.
     */
    method Forward(down: int, key: int)
      modifies this`cnt, kbd
      ensures kbd.log == old(kbd.log) +
        (if key == XK_F10 then RightPacket(trim5)
         else if Keysym2Scancode(key) != 0 then KeyPacket(Keysym2Scancode(key), down)
         else [])
      ensures cnt == old(cnt) + if key == XK_F10 then 0 else 1
    {
      if key == XK_F10 {
        InjectKeyEventSeq(kbd, down, trim5);
        return;
      }
      var scancode := Keysym2Scancode(key);
      if scancode != 0 {
        InjectKeyEvent(kbd, scancode, down);
      }
      cnt := cnt + 1;
    }

    /**
     * ptrevent. An odd button mask presses when not pressed (remembering
     * where), a zero mask releases when pressed; nothing else reaches the
     * touch panel, and drags are never sent.
     */
    method PtrEvent(mask: int, x: int, y: int)
      requires Valid()
      modifies this, touch, touch.dev
      ensures Valid()
      ensures var press := mask % 2 == 1 && old(pressed) != 1;
        var release := mask == 0 && old(pressed) == 1;
        && (press ==>
              && pressed == 1 && pressedX == x && pressedY == y && actions == old(actions) + [Touch.MousePress]
              && touch.trkgId == old(touch.trkgId) + 1 && touch.ids == old(touch.ids) + [touch.trkgId]
              && touch.lastXK == old(touch.lastXK) && touch.lastYK == -old(touch.lastYK)
              && touch.lastX == Touch.Nudge(x, old(touch.lastX), old(touch.lastXK), Touch.MaxX) && touch.lastY == Touch.Nudge(y, old(touch.lastY), old(touch.lastYK), Touch.MaxY)
              && touch.dev.log == old(touch.dev.log) + Touch.TouchPacket(touch.trkgId, 1, touch.lastX, touch.lastY))
        && (release ==>
              && pressed == 0 && pressedX == old(pressedX) && pressedY == old(pressedY) && actions == old(actions) + [Touch.MouseRelease]
              && touch.trkgId == old(touch.trkgId) && touch.ids == old(touch.ids)
              && touch.lastXK == old(touch.lastXK) && touch.lastYK == -old(touch.lastYK)
              && touch.lastX == Touch.Nudge(x, old(touch.lastX), old(touch.lastXK), Touch.MaxX) && touch.lastY == Touch.Nudge(y, old(touch.lastY), old(touch.lastYK), Touch.MaxY)
              && touch.dev.log == old(touch.dev.log) + Touch.TouchPacket(-1, 0, touch.lastX, touch.lastY))
        && (!press && !release ==>
              && pressed == old(pressed) && pressedX == old(pressedX) && pressedY == old(pressedY) && actions == old(actions)
              && touch.dev.log == old(touch.dev.log) && unchanged(touch))
      ensures then3 == old(then3) && cnt == old(cnt) && held == old(held)
    {
      if mask % 2 == 1 && pressed != 1 {
        Press(x, y);
      }
      if mask == 0 && pressed == 1 {
        Release(x, y);
      }
    }

    /** The press branch of ptrevent: remember where, and touch. */
    method Press(x: int, y: int)
      requires PointerOk() && touch.Valid() && pressed == 0
      modifies this`pressed, this`pressedX, this`pressedY, this`actions, touch, touch.dev
      ensures PointerOk() && touch.Valid()
      ensures pressed == 1 && pressedX == x && pressedY == y && actions == old(actions) + [Touch.MousePress]
      ensures touch.trkgId == old(touch.trkgId) + 1 && touch.ids == old(touch.ids) + [touch.trkgId]
      ensures touch.lastXK == old(touch.lastXK) && touch.lastYK == -old(touch.lastYK)
      ensures touch.lastX == Touch.Nudge(x, old(touch.lastX), old(touch.lastXK), Touch.MaxX) && touch.lastY == Touch.Nudge(y, old(touch.lastY), old(touch.lastYK), Touch.MaxY)
      ensures touch.dev.log == old(touch.dev.log) + Touch.TouchPacket(touch.trkgId, 1, touch.lastX, touch.lastY)
    {
      pressed, pressedX, pressedY := 1, x, y;
      actions := actions + [Touch.MousePress];
      var exited := touch.InjectTouchEvent(Touch.MousePress, x, y);
      assert !exited;
    }

    /** The release branch of ptrevent: lift the touch. */
    method Release(x: int, y: int)
      requires PointerOk() && touch.Valid() && pressed == 1
      modifies this`pressed, this`actions, touch, touch.dev
      ensures PointerOk() && touch.Valid()
      ensures pressed == 0 && actions == old(actions) + [Touch.MouseRelease]
      ensures touch.trkgId == old(touch.trkgId) && touch.ids == old(touch.ids)
      ensures touch.lastXK == old(touch.lastXK) && touch.lastYK == -old(touch.lastYK)
      ensures touch.lastX == Touch.Nudge(x, old(touch.lastX), old(touch.lastXK), Touch.MaxX) && touch.lastY == Touch.Nudge(y, old(touch.lastY), old(touch.lastYK), Touch.MaxY)
      ensures touch.dev.log == old(touch.dev.log) + Touch.TouchPacket(-1, 0, touch.lastX, touch.lastY)
    {
      pressed := 0;
      actions := actions + [Touch.MouseRelease];
      var exited := touch.InjectTouchEvent(Touch.MouseRelease, x, y);
      assert !exited;
    }
  }
}
