/**
 * Linux input-event records (struct input_event without its timestamp) and the
 * write-only device they are sent to. Each write(2) on the device is modelled
 * as appending one record to the device's ghost log.
 */
module Evdev {

  // Event types (linux/input-event-codes.h)
  const EV_SYN: int := 0
  const EV_KEY: int := 1
  const EV_ABS: int := 3
  const EV_MSC: int := 4

  // Miscellaneous event codes
  const MSC_SCAN: int := 4

  // Absolute axes
  const ABS_X: int := 0x00
  const ABS_Y: int := 0x01
  const ABS_MT_POSITION_X: int := 0x35
  const ABS_MT_POSITION_Y: int := 0x36
  const ABS_MT_TRACKING_ID: int := 0x39

  // Key and button codes
  const KEY_ESC: int := 1
  const KEY_ENTER: int := 28
  const KEY_F1: int := 59
  const KEY_F2: int := 60
  const KEY_F3: int := 61
  const KEY_F4: int := 62
  const KEY_F5: int := 63
  const KEY_F6: int := 64
  const KEY_F7: int := 65
  const KEY_UP: int := 103
  const KEY_LEFT: int := 105
  const KEY_RIGHT: int := 106
  const KEY_DOWN: int := 108
  const KEY_MENU: int := 139
  const BTN_TOUCH: int := 0x14a

  /** One input_event as written to the device: type, code, value. */
  datatype InputEvent = InputEvent(evType: int, code: int, value: int)

  /** The synchronisation record that closes every packet. */
  const Syn: InputEvent := InputEvent(EV_SYN, 0, 0)

  /** Conversion to uint16_t, as done when an int reaches a uint16_t parameter. */
  function U16(v: int): (r: int)
    ensures 0 <= r < 0x1_0000
    ensures 0 <= v < 0x1_0000 ==> r == v
    ensures (r - v) % 0x1_0000 == 0
  {
    v % 0x1_0000
  }

  /**
   * An open input device (keyboard or touch panel). A write may fail; the
   * callers only log the failure and go on, so the record is logged as sent
   * either way.
   */
  class Device {
    ghost var log: seq<InputEvent>

    constructor ()
      ensures log == []
    {
      log := [];
    }

    /** write(fd, &ev, sizeof ev): true when the kernel accepted the record. */
    method Write(ev: InputEvent) returns (ok: bool)
      modifies this
      ensures log == old(log) + [ev]
    {
      log := log + [ev];
      ok := *;
    }
  }
}
