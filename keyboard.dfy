/**
 * keyboard.c and keyboard.h: the translation of X11 keysyms sent by a VNC
 * client into Linux key codes, the table of the thirteen keys the server
 * tracks, and the two injectors that write key packets to the keyboard's
 * input device.
 */
module Keyboard {
  import opened Evdev

  // X11 keysyms the device understands (rfb/keysym.h)
  const XK_Return: int := 0xff0d
  const XK_Escape: int := 0xff1b
  const XK_Left: int := 0xff51
  const XK_Up: int := 0xff52
  const XK_Right: int := 0xff53
  const XK_Down: int := 0xff54
  const XK_F1: int := 0xffbe
  const XK_F2: int := 0xffbf
  const XK_F3: int := 0xffc0
  const XK_F4: int := 0xffc1
  const XK_F5: int := 0xffc2
  const XK_F6: int := 0xffc3
  /** F10 stands for the device's start button. */
  const XK_F10: int := 0xffc7

  /** keysym2scancode: the Linux key code for a keysym, 0 for any other keysym. */
  function Keysym2Scancode(key: int): (scancode: int)
    ensures scancode != 0 <==> IsTableKey(key)
    ensures scancode != 0 ==> 1 <= scancode < 0x1_0000
  {
    if key == XK_Left then KEY_LEFT
    else if key == XK_Right then KEY_RIGHT
    else if key == XK_Up then KEY_UP
    else if key == XK_Down then KEY_DOWN
    else if key == XK_F10 then KEY_F7
    else if key == XK_Escape then KEY_ESC
    else if key == XK_Return then KEY_ENTER
    else if key == XK_F1 then KEY_F1
    else if key == XK_F2 then KEY_F2
    else if key == XK_F3 then KEY_F3
    else if key == XK_F4 then KEY_F4
    else if key == XK_F5 then KEY_F5
    else if key == XK_F6 then KEY_F6
    else 0
  }

  /** Two keysyms that translate to the same key code are the same keysym. */
  lemma ScancodeInjective(a: int, b: int)
    requires Keysym2Scancode(a) != 0 && Keysym2Scancode(a) == Keysym2Scancode(b)
    ensures a == b
  {
  }

  // ---------------------------------------------------------------------
  // The key table

  const SMH4_KEY_COUNT: nat := 13

  /** struct key_stat: a tracked keysym and the last down state stored for it. */
  datatype KeyStat = KeyStat(code: int, down: int)

  /** The tracked keysyms, in table order. */
  const TableKeysyms: seq<int> := [
    XK_Left, XK_Right, XK_Up, XK_Down, XK_F10, XK_Escape, XK_Return,
    XK_F1, XK_F2, XK_F3, XK_F4, XK_F5, XK_F6
  ]

  /** keys[13] as initialised: every tracked key up. */
  const InitialKeys: seq<KeyStat> := seq(|TableKeysyms|, j requires 0 <= j < |TableKeysyms| => KeyStat(TableKeysyms[j], 0))

  /** The keysyms of a table, in table order: a keysym is listed exactly when some entry has it. */
  function Codes(t: seq<KeyStat>): (c: seq<int>)
    ensures |c| == |t|
    ensures forall key :: key in c <==> exists j :: 0 <= j < |t| && t[j].code == key
  {
    var c := seq(|t|, j requires 0 <= j < |t| => t[j].code);
    assert forall j :: 0 <= j < |t| ==> c[j] == t[j].code;
    c
  }

  /** A keysym that has an entry in the key table. */
  predicate IsTableKey(key: int)
  {
    key in TableKeysyms
  }

  /**
   * The table has SMH4_KEY_COUNT entries, each keysym once, every key up.
   */
  lemma InitialKeysShape()
    ensures |InitialKeys| == SMH4_KEY_COUNT
    ensures forall i, j :: 0 <= i < j < |InitialKeys| ==> InitialKeys[i].code != InitialKeys[j].code
    ensures forall i :: 0 <= i < |InitialKeys| ==> InitialKeys[i].down == 0
    ensures Codes(InitialKeys) == TableKeysyms
  {
  }

  // ---------------------------------------------------------------------
  // Injection

  /** The packet injectKeyEvent writes: the key record, then a SYN. */
  function KeyPacket(code: int, value: int): seq<InputEvent>
  {
    [InputEvent(EV_KEY, U16(code), U16(value)), Syn]
  }

  /**
   * The packet injectKeyEventSeq writes: KEY_RIGHT with the given value, a
   * scan-code record 0x8b, then a SYN.
   */
  function RightPacket(value: int): seq<InputEvent>
  {
    [InputEvent(EV_KEY, KEY_RIGHT, U16(value)), InputEvent(EV_MSC, MSC_SCAN, 0x8b), Syn]
  }

  /** Both packets are closed by exactly one SYN, at their end. */
  lemma PacketsEndInSyn(code: int, value: int)
    ensures var p := KeyPacket(code, value); p[|p| - 1] == Syn && forall i :: 0 <= i < |p| - 1 ==> p[i].evType != EV_SYN
    ensures var p := RightPacket(value); p[|p| - 1] == Syn && forall i :: 0 <= i < |p| - 1 ==> p[i].evType != EV_SYN
  {
  }

  /**
   * injectKeyEvent: a key record with the (uint16_t) code and value, then a
   * SYN. A failed write is only reported.
   */
  method InjectKeyEvent(kbd: Device, code: int, value: int)
    modifies kbd
    ensures kbd.log == old(kbd.log) + KeyPacket(code, value)
  {
    var ok := kbd.Write(InputEvent(EV_KEY, U16(code), U16(value)));
    ok := kbd.Write(Syn);
  }

  /**
   * injectKeyEventSeq: whatever the code, KEY_RIGHT is sent with the value,
   * followed by the scan-code record and a SYN.
   */
  method InjectKeyEventSeq(kbd: Device, code: int, value: int)
    modifies kbd
    ensures kbd.log == old(kbd.log) + RightPacket(value)
  {
    var ok := kbd.Write(InputEvent(EV_KEY, KEY_RIGHT, U16(value)));
    ok := kbd.Write(InputEvent(EV_MSC, MSC_SCAN, 0x8b));
    ok := kbd.Write(Syn);
  }
}
