# vncsrv core, modelled in Dafny

vncsrv is a VNC server for a Linux panel. It has three parts, and this
project models all three.

- **Screen mirroring.** `update_screen` compares the panel's framebuffer
  with a private shadow copy. It copies every changed unit into the shadow
  and writes the unit's remote form into the buffer the RFB server sends
  from: the 16-bit transcoding `PIXEL_FB_TO_RFB` (five bits per channel,
  with bit 15 carrying the sixth blue bit) at 16, 24 and 32 bpp, the raw
  word at 8 bpp, and one byte per pixel at 1 bpp. It grows the dirty bounds in
  `varblock` and marks the resulting rectangle as modified. There are four
  branches:
  - 24 bpp;
  - 1 bpp, expanded to one byte per pixel;
  - 8/16/32 bpp, one 32-bit word at a time;
  - 16 bpp rotated by 90, 180 or 270 degrees.
- **Keyboard.** `keyevent` debounces key presses and scans the 13-entry key
  table. A repeated state redraws the screen. Otherwise the keysym is
  translated into a Linux key code and a key packet is written to the
  keyboard device.
- **Touch panel.** `ptrevent` turns mouse button transitions into touch
  press and release packets. The packets go through `injectTouchEvent`.
  That function nudges a position equal to the previous one, so that the
  driver sees a move. It also numbers the touches with tracking ids. The
  five scripted gestures (`trim5SysMenu`, `trim5Menu`, `trim5Home`,
  `trim5Info`, `trim5Start`) write fixed tap sequences.

The project is organised by module:

| module | contents |
|---|---|
| `Evdev` (evdev.dfy) | The `input_event` record, the event constants, and a `Device` whose ghost `log` records every record written. |
| `Pixels` (pixels.dfy) | `PIXEL_FB_TO_RFB` with its six-bit `COLOR_MASK`, the 1 bpp expansion, the packed-word transcoding, and the rotation map with its inverse. |
| `Dirty` (dirty.dfy) | The dirty-bound rule. `Scan` folds the changed units in walk order. `Settle` and `MarkOf` give the rectangle that is marked. |
| `FrameDiff` (framediff.dfy) | The class `FrameMirror`, over byte arrays `fb`, `shadow` and `remote`. `UpdateScreen` is proved against `FrameHits`, the changed units in walk order, and against `Transcodes`, the invariant that the remote buffer is the transcoding of the shadow. |
| `Keyboard` (keyboard.dfy) | `keysym2scancode`, the key table, and the two key injectors. |
| `Touch` (touch.dfy) | The class `TouchPanel`, holding the statics of touch.c, plus the gesture scripts. |
| `Server` (server.dfy) | The class `InputServer`, holding the statics of `keyevent` and `ptrevent`, plus a pure reference model of `keyevent` (`React`, `KeyTrace`). |

Some behaviour is kept exactly as the code has it, and lemmas state it:

- **The mask overlaps.** `COLOR_MASK` is 63, not 31, so the sixth bit of
  red and of green leaks into the next remote channel (`DecodedChannels`,
  `Rgb565RedLeaksIntoBlue`).
- **Rows are tracked "else if".** The row bounds use the rule "if above the
  maximum, else if below the minimum". With a single changed pixel the
  row minimum therefore stays at 9999 (`SinglePixelKeepsMinJ`).
- **Keys share one down state.** Every table entry before the match takes
  the new down value. So when two keys overlap, the release of the first
  one is dropped (`OverlappingKeysLoseRelease`).
- **Positions can leave the screen.** Nudging y = 0 down gives -1
  (`NudgeLeavesScreenAtZero`).

Times are integer microseconds. The C test `elapsed < 0.1` on doubles is
modelled as `now - then3 < 100000`.

## Model

| member | source | states |
|---|---|---|
| Evdev.U16 | keyboard.c:84-109 | The `uint16_t` conversion of a code or value lies in [0, 65536), is congruent to its argument modulo 65536, and leaves a value already in range unchanged. |
| Evdev.Device.Write | keyboard.c:90-96 | Every write of an event record appends exactly that record to the device's log, whether or not the write succeeds. |
| Pixels.Transcode | main.c:334-336 | `PIXEL_FB_TO_RFB` always yields a value that fits in 16 bits. |
| Pixels.TranscodeZero | main.c:334-336 | A black framebuffer pixel transcodes to 0. |
| Pixels.DecodedChannels | main.c:334-336 | Reading the remote pixel back with 5-bit channels gives red exactly. Green and blue also carry the sixth bit of the channel below, because COLOR_MASK keeps six bits. |
| Pixels.Rgb565RedLeaksIntoBlue | main.c:311-313 | For an RGB565 panel the shifts are 11, 6 and 0, and a pure low-red pixel comes out with blue's channel changed. |
| Pixels.MonoPixel | main.c:426-429 | The 1 bpp expansion writes only 0x00 or 0xFF. |
| Pixels.MonoPixelBit | main.c:426-429 | A pixel becomes 0x00 exactly when its bit, most significant first, is set. |
| Pixels.PackedWordHalves | main.c:477-485 | At 2 bytes per pixel, a framebuffer word becomes two remote halfwords. The high half is the transcoding of the upper pixel alone. The low half is the transcoding of the whole 32-bit word, so bits of the upper pixel can reach it. |
| Pixels.PackedWordZero | main.c:472-491 | An all-zero framebuffer word becomes an all-zero remote word at every supported byte width. |
| Pixels.RotateInBounds | main.c:550-576 | For the angles 90, 180 and 270, the rotated point of an on-screen pixel lies inside the rotated screen, and its index `y2 * width + x2` lies inside the remote buffer. |
| Pixels.RotateBijective | main.c:518-576 | The rotation map and its inverse undo each other, so each rotated pixel is written from exactly one framebuffer pixel. |
| Pixels.RotatedIndexInjective | main.c:576 | Two distinct framebuffer pixels never write the same remote slot in the rotated branch. |
| Dirty.ScanAppend | main.c:387-395 | Folding one more changed unit into the bounds is one application of the growth rule. |
| Dirty.ScanShaped | main.c:356-357 | Starting from 9999/-1, the bounds stay well-shaped under any sequence of changes, and min_i never rises above 9999. |
| Dirty.ScanMinIExact | main.c:387-390 | The column minimum after a walk with changes is the smallest changed column. |
| Dirty.ScanMaxJExact | main.c:392-395 | In the unrotated branches, the row maximum after a walk with changes is the largest changed row. |
| Dirty.ScanFromHits | main.c:387-395 | max_i, min_j and max_j each keep their initial value or equal the column or row of some changed unit. |
| Dirty.MarkedIffChanged | main.c:601-608 | A rectangle is marked exactly when some unit changed. It is then at least two columns wide, starts at a non-negative column, and either has a row range or keeps y1 at the 9999 sentinel. |
| Dirty.SinglePixelKeepsMinJ | main.c:392-395 | A single changed unit leaves the row minimum at 9999. |
| Dirty.LaterSmallerColumnDropsMax | main.c:387-390 | Changes at column 5 and then at column 3 mark the columns from 3 up to 5, exclusive. The later, smaller column only lowers min_i, so column 5 is never recorded as the maximum and falls outside the rectangle. |
| FrameDiff.Rgb565ShiftsTakeTopBits | main.c:311-313 | On an RGB565 panel the shifts are 11, 6 and 0, and shifting a pixel right by each and masking five bits yields exactly the top five bits of that channel. |
| FrameDiff.Xrgb8888ShiftsTakeTopBits | main.c:311-313 | On an XRGB8888 or RGB888 panel the shifts are 19, 11 and 3, and shifting a pixel right by each and masking five bits yields exactly the top five bits of that channel. |
| FrameDiff.MakeFormat | main.c:311-313 | The geometry and branch are the panel's. For a channel that fits in the 32-bit pixel and is at least five bits wide, its shift lies in [0, 32) and not below the channel's offset. |
| FrameDiff.SupportedSteps | main.c:359-512 | Each supported depth advances a positive number of pixels per step, and the generic branch only meets widths of 1, 2 or 4 bytes. |
| FrameDiff.Geometry | main.c:274-281 | The walk's units tile the framebuffer (`frame_size`) and the remote buffer (`rframe_size`) exactly. |
| FrameDiff.Encode | main.c:381-385 | The remote encoding of one unit has the remote unit size of its branch. |
| FrameDiff.Rgb24HighByteZero | main.c:381-385 | In the 24-bit branch the third remote byte of a pixel is always 0. |
| FrameDiff.EncodeZero | main.c:279-281 | The initial remote fill is the encoding of an all-zero unit: 0xFF at 1 bpp, where a clear bit is white, and 0x00 otherwise. |
| FrameDiff.TranscodesInitial | main.c:274-281 | A zeroed shadow and the initial remote fill satisfy the transcoding invariant. |
| FrameDiff.TranscodesAfterUnit | main.c:377-385 | Rewriting one unit of the shadow and its remote slot keeps every other unit's correspondence. |
| FrameDiff.ChangedHitsNone | main.c:364-375 | No unit differs exactly when the framebuffer and shadow bytes are equal. The per-unit comparisons therefore agree with the up-front memcmp. |
| FrameDiff.UnitSame | main.c:372-375 | A unit compares equal exactly when its framebuffer and shadow bytes do. |
| FrameDiff.HitAtInFrame | main.c:387-395 | The columns and row a unit reports lie inside the screen: below `xres` and `yres` unrotated, below the rotated width and height on a rotated panel. Both coordinates are therefore below `xres + yres`. |
| FrameDiff.ChangedHitsInFrame | main.c:387-395 | Every reported change lies inside the screen, or inside the rotated screen on a rotated panel, and so below `xres + yres` in both coordinates. |
| FrameDiff.MarkIffFrameChanged | main.c:601-608 | On a screen whose extents sum to at most 9999, update_screen marks a rectangle exactly when the framebuffer differs from the shadow. |
| FrameDiff.UnitInFrame | main.c:462-466 | Unit (i, y) of the walk has flat number `w * y + i`, is a unit of the frame, and its bytes lie inside both buffers. |
| FrameDiff.FrameMirror.constructor | main.c:274-313 | The shadow is zeroed. The remote buffer is filled with 0xFF at 1 bpp and 0x00 otherwise. The whole screen is marked, and the shifts come from the panel's channels. The transcoding invariant holds from the start. |
| FrameDiff.FrameMirror.UpdateScreen | main.c:338-612 | The process exits exactly for a depth/rotation pair no branch handles, or for an invalid angle once the frame changed. Otherwise the shadow equals the framebuffer afterwards, and the remote buffer transcodes it. The bounds are the settled fold of the changed units in walk order. The one rectangle marked is the rectangle of those bounds. An unchanged frame writes nothing. |
| FrameDiff.FrameMirror.MarkDirty | main.c:601-608 | A missing maximum takes the minimum's value. A rectangle is marked only when the column minimum moved. |
| FrameDiff.FrameMirror.Walk | main.c:359-596 | The row-by-row walk copies every changed unit, keeps the transcoding invariant, and grows the bounds by the fold of the changes. It exits only for an invalid angle on a changed frame. |
| FrameDiff.FrameMirror.Step | main.c:373-400 | A unit that changed is copied into the shadow, its remote slot is rewritten, and the bounds grow by its hit. An unchanged unit changes nothing. |
| FrameDiff.FrameMirror.EmitRgb24 | main.c:381-385 | The 24-bit branch writes the low three bytes of the transcoded pixel at the pixel's remote offset, and nothing else. |
| FrameDiff.FrameMirror.EmitMono | main.c:426-429 | The 1 bpp branch writes eight remote bytes, one per bit, most significant first, and nothing else. |
| FrameDiff.FrameMirror.EmitPacked | main.c:472-491 | The generic branch writes one remote word per framebuffer word, transcoded per its byte width, and nothing else. |
| FrameDiff.FrameMirror.EmitRotated | main.c:550-576 | The rotated branch writes the transcoded pixel at `y2 * width + x2` of the rotated screen, and nothing else. |
| FrameDiff.FrameMirror.GrowStraight | main.c:387-395 | The unrotated bounds rule: the column minimum, else the maximum; the row maximum, else the minimum. |
| FrameDiff.FrameMirror.GrowRotated | main.c:578-589 | The rotated bounds rule: the column minimum, else the column maximum together with the row bounds. |
| Keyboard.Keysym2Scancode | keyboard.c:111-160 | A keysym has a non-zero key code exactly when it is one of the 13 table keysyms, and that code fits in 16 bits. |
| Keyboard.ScancodeInjective | keyboard.c:118-156 | No two keysyms share a non-zero key code. |
| Keyboard.Codes | main.c:208-210 | The keysyms the scan compares against: one per table entry, and a keysym is listed exactly when some entry carries it. |
| Keyboard.InitialKeysShape | keyboard.h:13-34 | The key table has SMH4_KEY_COUNT entries with distinct keysyms, all up, in the order of the translation table. |
| Keyboard.PacketsEndInSyn | keyboard.c:51-109 | Both key packets end in exactly one SYN record, at their end. |
| Keyboard.InjectKeyEvent | keyboard.c:84-109 | Writes the key record, with code and value truncated to 16 bits, followed by a SYN. |
| Keyboard.InjectKeyEventSeq | keyboard.c:51-81 | Whatever the code, writes KEY_RIGHT with the value, the MSC_SCAN record 0x8b, then a SYN. |
| Touch.NudgeMoves | touch.c:80-91 | A position equal to the last one always moves, by the step or back by the wrap. A different position is kept. An on-screen position stays within [-1, limit]. |
| Touch.NudgeLeavesScreenAtZero | touch.c:85-88 | Repeating y = 0 while the y step is -1 sends y = -1. |
| Touch.GesturesBalanced | touch.c:217-475 | In every gesture script the key is pressed as the second record and released as the second-last, appears nowhere else, and the script ends in a SYN. |
| Touch.TouchPanel.constructor | touch.c:27-31 | Every static starts at -1: the tracking id, the last position and both nudges. |
| Touch.TouchPanel.InjectTouchEvent | touch.c:75-215 | The new position is the nudged one, so it always differs from the last position. The y step flips sign. An invalid action exits with nothing written. A press takes the next tracking id and writes a touch-down packet. A release writes tracking id -1 with touch up. A drag writes tracking id 0 with touch down. |
| Touch.TouchPanel.Trim5SysMenu | touch.c:217-365 | Takes the next tracking id and writes the system-menu packet under it. |
| Touch.TouchPanel.Trim5Menu | touch.c:368-475 | Takes the next tracking id and writes a tap of KEY_F4 at x = 300. |
| Touch.TouchPanel.Trim5Home | touch.c:477-584 | Takes the next tracking id and writes a tap of KEY_F2 at x = 85. |
| Touch.TouchPanel.Trim5Info | touch.c:587-695 | Takes the next tracking id and writes a tap of KEY_F1 at x = 515. |
| Touch.TouchPanel.Trim5Start | touch.c:697-806 | Takes the next tracking id and writes a tap of KEY_F3 at x = 720. |
| Server.FirstRepeat | main.c:208-219 | The scan stops at the first entry holding the keysym with the same down state, and at the end if there is none. |
| Server.Scanned | main.c:208-219 | The scan changes only down states, never the keysyms or the table size. |
| Server.ScanShared | main.c:208-219 | When all entries share one down state, the scan finds a repeat exactly when the keysym is in the table and the state is unchanged. After a repeat every entry keeps its state; otherwise every entry takes the new one. |
| Server.ReactForwards | main.c:197-233 | A release is never debounced. A table key other than F10 that passes the debounce is forwarded exactly when its state differs from the table's, and then with its own key code and state. F10 goes out as the KEY_RIGHT packet with the trim5 value. An unknown keysym writes nothing. |
| Server.OverlappingKeysLoseRelease | main.c:197-233 | Left down, Right down, Right up, Left up, 200 ms apart, writes only Left's press and Right's release. |
| Server.InputServer.constructor | main.c:183-242 | The key table starts as initialised, and the debounce time, counter and pressed state start at 0. |
| Server.InputServer.ScanTable | main.c:208-219 | The loop reports a repeat exactly when the reference scan finds one, and leaves the table exactly as the reference scan does. |
| Server.InputServer.KeyEvent | main.c:183-234 | The time is always recorded. The event is debounced, redraws the screen, or is forwarded, exactly as `React` decides. A redraw exits exactly when `update_screen` would. Otherwise a redraw leaves the shadow equal to the framebuffer, sets the bounds to the settled scan of the changed units, and marks that rectangle, if any. Without a redraw the screen state is untouched. The counter grows by one for every non-F10 key that passes the debounce and the table scan, including a keysym with no scancode, for which nothing is written. The pointer state does not change. |
| Server.InputServer.PtrEvent | main.c:236-270 | Button 1 going down while not pressed injects one press at the position. An all-up mask while pressed injects one release. Otherwise nothing is written. The injected position is the nudged `x` and `y`, kept in `lastX` and `lastY`, and each injection flips the y nudge. A press takes the next tracking id; a release keeps it. A call that injects nothing leaves the touch panel unchanged. Presses and releases alternate. |

## Left out

- Device and server set-up is not modelled. This covers `init_fb`, `init_kbd`, `init_touch`, the cleanups, the timer and signal handling, and `main`'s argument parsing. It is all I/O; the buffers and devices are constructor parameters.
- libvncserver is not modelled. `rfbProcessEvents` calls are dropped. `rfbMarkRectAsModified` is recorded as a rectangle appended to the ghost `marked`.
- The FPS logging (`timeToLogFPS`, `pass_update_screen`) is only diagnostics and is not modelled.
- Evdev.Device.Write: the timestamps from `gettimeofday` are not part of the record, and failed writes are only reported by the source, so every write is logged.
- Server.InputServer.KeyEvent: `elapsed` is computed in double precision seconds; the model uses integer microseconds, so rounding at the 0.1 s boundary is not modelled.
- FrameDiff.FrameMirror.UpdateScreen: the model fixes a little-endian host. The byte order decides which three bytes the 24-bit branch's `& 0x00FFFFFF` keeps and how the 16- and 32-bit stores lay out bytes; a big-endian host is not modelled.
- FrameDiff.FrameMirror.UpdateScreen: the 24-bit branch reads four bytes at each 3-byte pixel; the model reads the three bytes the result depends on, so the overread of the final pixel is not modelled.
- FrameDiff.FrameMirror.UpdateScreen: depths other than 1, 8, 16, 24 and 32, and the generic branch's TODO for 3-byte pixels, are outside the supported configurations, and the exit on an unhandled depth/rotation pair is modelled as the `exited` result rather than a process exit.
- FrameDiff.FrameMirror.UpdateScreen: it is called from `main`'s loop (main.c:743) and directly from `keyevent` (main.c:212); the model has the same direct call from `KeyEvent`. The loop itself belongs to `main`, which is not modelled.
- FrameDiff.FrameMirror.UpdateScreen: the model requires a width that is a multiple of the pixels in one unit (8 at 1 bpp, 2 at 16 bpp, 4 at 8 bpp) and channel shifts in [0, 32). main.c accepts other configurations: with such a width the walk reads and writes past the end of each row, and such a shift is undefined behaviour in C. Neither is modelled.
- `server->height`, `paddedWidthInBytes`, `varblock.rfb_xres` and `varblock.rfb_maxy` (main.c:314-315) are computed but never read by the core, so they are not modelled.
- `pressed_x` and `pressed_y` are stored but never read; they are kept as fields with no further use.
- `init_touch`'s `xmin`, `xmax`, `ymin` and `ymax` are never used (the scaling is commented out), so they are not modelled.
- Keyboard.Keysym2Scancode: the unused client argument `cl` is dropped.
- Touch.TouchPanel.InjectTouchEvent: the process exit on an invalid action is modelled as the `exited` result.
- The gesture scripts are not called from main.c; they are modelled as methods of the touch panel and nothing calls them.
