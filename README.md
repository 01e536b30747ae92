# Console input path of the kernel, in Dafny

This project models how the kernel's console (`src/kernel/console.c`) receives input. It has two parts.

- **The keyboard scancode decoder** (`kbd_proc_data`) is module `Keyboard` in `keyboard.dfy`.
  - It is a state machine over the static `shift` bit mask: SHIFT, CTL, ALT, CAPSLOCK, NUMLOCK, SCROLLLOCK and the transient E0ESC.
  - It turns one scan-code-set-1 byte into a character or virtual-key code. 0 means "nothing to emit".
  - It writes the reset port on Ctrl-Alt-Del.
  - `Step` is one call, as the value `(shift, data) -> Decoded(shift', c, reset)`.
  - `Decode` runs `Step` over the bytes the controller holds. The end of that sequence stands for the source's "no data" answer (-1).
  - The tables `shiftcode`, `togglecode`, `normalmap`, `shiftmap`, `ctlmap` and `charcode` are copied entry for entry as match functions. This includes the ctlmap entry at index 0x97, which gives Home a second index.
- **The console input buffer** `cons` is a 512-byte circular queue with a read position, a write position and no test for fullness.
  - Module `InputRing` (`input_ring.dfy`) describes it as a value. `Drain` is `cons_intr` and `Pop` is the read of `cons_getc`. The queue laws are proved there.
  - Class `Console.Console` (`console.dfy`) holds the real state: an array and two indices, plus the decoder's `shift` mask and a count of reset-port writes.
  - Its methods are `ConsIntr`, `SerialIntr`, `KbdIntr`, `ConsGetc` and `GetChar`. They run the source's loops on that state. Each is proved to leave the state that the `InputRing` and `Keyboard` functions describe.
  - A device is given as the sequence of values it will deliver before it reports no data.
    - The serial port delivers its received bytes, and only when `serial_exists` is set.
    - The keyboard delivers its raw scancodes. `KbdIntr` passes each one through one decoder step before the drain stores it.

The virtual key codes `KEY_HOME` … `KEY_DEL` are defined in a keyboard header that is not part of this model. They are constants whose values are left open. The lemmas that need facts about them assume `KeyCodesAssumed()`:
- every key code is nonzero;
- no key code is an ASCII letter;
- the key codes are pairwise distinct.

Representation choices:
- The source keeps `shift` in a `uint32_t`. Only bits 0-6 are ever set, so it is a `bv8` here.
- The buffer holds `byte` values (0..255).
- A device reading is an integer in -1..255.

The source has four slips that would stop it compiling. The model follows what each evidently means:
- the missing `;` at line 79 (serial code, not modelled);
- `c` used undeclared at line 252 (taken as a local `int c`);
- the pointer assigned to a non-pointer `cp` at line 105 (CGA code, not modelled);
- `kbd_intr` calling `console_intr` at line 271 (taken as `cons_intr`).

The code and the design description of this console disagree in three places. The model follows the code.
- **The up arrow.** The design description says the bytes 0xE0, 0xC8 give the up arrow. In the code 0xC8 has bit 7 set, so it is the *release* of that key and emits nothing (`Keyboard.ExtendedReleaseEmitsNothing`). The up arrow is 0xE0, 0x48, which is looked up at index 0xC8 (`Keyboard.ExtendedUpArrow`).
- **Overflow.** The design description says a store into a full buffer overwrites the oldest unread byte, and that up to 512 bytes come back in order.
  - In the code, a store made while 511 bytes are unread brings `wpos` onto `rpos`. The buffer then reads as empty, so all 511 unread bytes and the new one are lost, not just the oldest (`InputRing.PushOverflow`).
  - After 512 stores into an empty buffer it also reads as empty (`InputRing.FullLapLooksEmpty`).
  - First-in first-out holds for at most 511 unread bytes (`InputRing.DrainAppends`, `InputRing.FirstInFirstOut`).
- **The blocking read.** The design description says `getchar` spins until a nonzero byte arrives. In the code, `getchar` retries only while `cons_getc` returns 0, and `cons_getc` never returns 0: it returns -1 at once when the buffer is empty. So `getchar` returns `cons_getc`'s first result, -1 included, and never waits (`Console.Console.GetChar`, `InputRing.PopNeverZero`).

## Model

| member | source | states |
|---|---|---|
| Keyboard.ToggleCase | src/kernel/console.c:253-259 | Caps Lock's adjustment: a lower-case ASCII letter becomes the upper-case one 32 below, an upper-case one the lower-case one 32 above, and every other code is returned unchanged |
| Keyboard.C | src/kernel/console.c:197 | the control-character macro maps a character at or above '@' to its distance from '@'; below '@' the difference wraps to a byte (plus 256), as the uint8_t tables store it (C('/') is 0xEF) |
| Keyboard.ShiftCode | src/kernel/console.c:142-149 | shiftcode holds only SHIFT, CTL and ALT bits |
| Keyboard.ToggleCode | src/kernel/console.c:151-155 | togglecode holds only lock bits, and only key 0x3A toggles CAPSLOCK |
| Keyboard.NormalMap | src/kernel/console.c:157-175 | normalmap has no capital letter on the main block (keys below 0x80) |
| Keyboard.ShiftMap | src/kernel/console.c:177-195 | on the main block shiftmap has no lower-case letter, and its capitals sit exactly where normalmap has lower-case letters and are their upper-case forms |
| Keyboard.CtlMap | src/kernel/console.c:198-212 | ctlmap has no letter on the main block |
| Keyboard.ExtendedKeys | src/kernel/console.c:169-174 | at extended indices (bit 7 set) shiftmap equals normalmap, and ctlmap does too except at 0x97, 0x9C, 0xB5 and 0xC7 |
| Keyboard.TableIndex | src/kernel/console.c:252 | the index shift & (CTL\|SHIFT) lies in 0..3, is at least 2 exactly when CTL is held, and is 1 exactly when SHIFT is held without CTL |
| Keyboard.CharCode | src/kernel/console.c:214-219 | on the main block a letter from charcode is upper-case exactly when it comes from the Shift table (index 1) |
| Keyboard.TableSelection | src/kernel/console.c:214-219 | the index selects ctlmap whenever CTL is held (with or without SHIFT), shiftmap for SHIFT alone and normalmap otherwise |
| Keyboard.Decode | src/kernel/console.c:226-229 | decoding a run of scancodes returns one code per scancode and writes the reset port at most once per scancode |
| Keyboard.PressKey | src/kernel/console.c:243-245 | the key a press is looked up at keeps the low seven bits of the byte and has bit 7 set exactly when an 0xE0 was pending (or the byte had it) |
| Keyboard.NextShift | src/kernel/console.c:234-250 | the shift update: 0xE0 and releases never set a modifier and never flip a lock, a press never clears a modifier, and bit 7 is never touched |
| Keyboard.Code | src/kernel/console.c:252-259 | the code of a press is the selected table's entry, except that under Caps Lock a letter entry comes out as a letter of the other case |
| Keyboard.Step | src/kernel/console.c:226-268 | one call of kbd_proc_data with data available: 0xE0 and releases return 0 and never write the reset port |
| Keyboard.EscapeSetsOnlyE0 | src/kernel/console.c:234-237 | byte 0xE0 returns 0, never resets, sets E0ESC and leaves every other bit of the shift state unchanged |
| Keyboard.StepRelease | src/kernel/console.c:238-242 | a release byte returns 0 and never resets; it clears E0ESC and exactly the shiftcode bits of the released key (the full byte after 0xE0, else its low seven bits) and keeps the lock bits and every other bit |
| Keyboard.StepPressShift | src/kernel/console.c:243-250 | a press clears E0ESC, ORs in shiftcode and XORs togglecode of the key it is looked up at (data\|0x80 after 0xE0), and changes no other bit |
| Keyboard.StepEscapeFlag | src/kernel/console.c:234-247 | after any byte, E0ESC is pending exactly when that byte was 0xE0 |
| Keyboard.CapsLockCase | src/kernel/console.c:252-259 | a press returns the entry of the table selected by the new shift state; under Caps Lock a letter entry has its case inverted, any other entry is returned unchanged, and without Caps Lock the entry itself is returned |
| Keyboard.LetterCase | src/kernel/console.c:249-259 | a letter from a main-block key is upper-case exactly when one, not both, of "Shift without Ctrl" and Caps Lock is in effect |
| Keyboard.StepReset | src/kernel/console.c:261-267 | the reset port is written exactly for a press whose new state holds both CTL and ALT and whose code is KEY_DEL; the code is returned either way |
| Keyboard.PressNonLetter | src/kernel/console.c:249-267 | a press whose table entry is not a letter returns that entry whatever the Caps Lock state, and resets exactly when CTL and ALT are held and the entry is KEY_DEL |
| Keyboard.UpEntries | src/kernel/console.c:170 | index 0xC8 holds KEY_UP in all four tables that charcode selects |
| Keyboard.BlankEntries | src/kernel/console.c:157-212 | the Ctrl, Alt and Caps Lock keys have no character in any table |
| Keyboard.LetterEntry | src/kernel/console.c:160 | normalmap maps the Q key (0x10) to 'q' |
| Keyboard.CtlEntries | src/kernel/console.c:198-212 | ctlmap has nothing at 0x53 and 0xC7, KEY_DEL at 0xD3, and KEY_HOME at 0x97 |
| Keyboard.KeyCodeFacts | src/kernel/console.c:206-211 | under the key-code assumption, KEY_UP, KEY_HOME and KEY_DEL are not letters, KEY_DEL is nonzero, and KEY_DEL differs from KEY_UP and KEY_HOME |
| Keyboard.DecodeShift | src/kernel/console.c:231-250 | the shift state after decoding a run is the one the shift updates alone produce |
| Keyboard.EscapePendingAfterRun | src/kernel/console.c:234-247 | after a nonempty run, E0ESC is pending exactly when the last byte was 0xE0 |
| Keyboard.PressCapsBit | src/kernel/console.c:249-250 | with no escape pending, a press leaves E0ESC clear and flips CAPSLOCK exactly when the key is Caps Lock (0x3A) |
| Keyboard.CapsLockParity | src/kernel/console.c:249-250 | over a run of presses, CAPSLOCK ends flipped exactly when Caps Lock was pressed an odd number of times |
| Keyboard.EscapedUpStep | src/kernel/console.c:243-247 | 0x48 with E0ESC pending is looked up at 0xC8: it returns KEY_UP, clears E0ESC and does not reset |
| Keyboard.ExtendedUpArrow | src/kernel/console.c:234-247 | 0xE0 then 0x48 returns 0 then KEY_UP, leaves E0ESC clear and every other bit as it was, and does not reset |
| Keyboard.ExtendedReleaseEmitsNothing | src/kernel/console.c:234-242 | 0xE0 then 0xC8 (the up-arrow release) returns 0 twice and leaves E0ESC clear |
| Keyboard.CapsLockTwice | src/kernel/console.c:249-250 | pressing Caps Lock flips CAPSLOCK and no other bit; pressing it twice restores the shift state |
| Keyboard.CapsLockPress | src/kernel/console.c:249-267 | pressing Caps Lock returns 0, flips CAPSLOCK and does not reset |
| Keyboard.LetterQ | src/kernel/console.c:252-259 | with no modifier held, the Q key returns 'q', or 'Q' when Caps Lock is on, and leaves the state unchanged |
| Keyboard.CapsLockInvertsLetter | src/kernel/console.c:249-259 | from a state with no modifier or lock, Q decodes to 'q', and Caps Lock then Q decodes to 0 then 'Q' |
| Keyboard.PressThenRelease | src/kernel/console.c:238-250 | a press then the release of the same key clears the key's modifier bit and keeps its lock flip |
| Keyboard.CtrlPress | src/kernel/console.c:249-250 | pressing left Ctrl returns 0, sets CTL and does not reset |
| Keyboard.AltPressUnderCtrl | src/kernel/console.c:249-250 | pressing left Alt while Ctrl is held returns 0, sets ALT and does not reset |
| Keyboard.ExtendedDelUnderCtrlAlt | src/kernel/console.c:243-267 | with Ctrl and Alt held, 0x53 after 0xE0 returns KEY_DEL and writes the reset port |
| Keyboard.KeypadDelUnderCtrlAlt | src/kernel/console.c:252-267 | with Ctrl and Alt held, the keypad Delete (0x53 without 0xE0) has no ctlmap entry: it returns 0 and does not reset |
| Keyboard.ExtendedDelRun | src/kernel/console.c:234-267 | with Ctrl and Alt held, 0xE0 then 0x53 returns 0 then KEY_DEL, with one reset-port write |
| Keyboard.CtrlAltDel | src/kernel/console.c:261-267 | Ctrl, Alt, 0xE0, 0x53 returns 0, 0, 0, KEY_DEL, with exactly one reset-port write |
| Keyboard.CtrlAltKeypadDel | src/kernel/console.c:261-267 | Ctrl, Alt and the keypad Delete return nothing and do not reset |
| Keyboard.CtrlHomeQuirk | src/kernel/console.c:206 | with Ctrl held, the Home key (0xE0 0x47, index 0xC7) returns 0, while 0xE0 0x17 (index 0x97) returns KEY_HOME |
| InputRing.Unread | src/kernel/console.c:285-289 | the unread bytes number (wpos - rpos) mod 512, which is always below 512 |
| InputRing.Push | src/kernel/console.c:302-305 | a store writes its byte at wpos, changes no other cell and not rpos, and moves wpos one place on modulo 512 |
| InputRing.Stored | src/kernel/console.c:297-302 | the stored bytes are never 0 and never more than the readings; with no -1 and no 0 among the readings every one is stored |
| InputRing.Pop | src/kernel/console.c:321-328 | the read returns -1 exactly when nothing is unread and then changes nothing; otherwise it returns a byte and leaves one byte fewer unread; the buffer and wpos never change |
| InputRing.Drain | src/kernel/console.c:295-307 | draining a source keeps rpos and wpos inside the 512-byte buffer |
| InputRing.PushAppends | src/kernel/console.c:302-305 | with fewer than 511 unread bytes, a store appends its byte to the unread bytes |
| InputRing.PushOverflow | src/kernel/console.c:302-305 | a store made with 511 unread bytes brings wpos onto rpos, so nothing reads as unread |
| InputRing.PushNoZeros | src/kernel/console.c:298-305 | storing a nonzero byte keeps every unread byte nonzero |
| InputRing.DrainNoZeros | src/kernel/console.c:295-307 | draining keeps every unread byte nonzero and leaves rpos alone |
| InputRing.DrainAppends | src/kernel/console.c:295-307 | while fewer than 512 bytes would be unread, draining appends exactly the nonzero readings before the first -1, in order |
| InputRing.DrainStopsAtNoData | src/kernel/console.c:297 | the drain stops at the first -1: whatever follows is neither read nor stored |
| InputRing.DrainAdvances | src/kernel/console.c:295-307 | draining moves wpos on by the number of stored readings, modulo 512, and leaves rpos alone |
| InputRing.FullLapLooksEmpty | src/kernel/console.c:302-321 | 512 stores into an empty buffer make it read as empty again |
| InputRing.PopTakesOldest | src/kernel/console.c:321-328 | the read returns -1 exactly when nothing is unread and then changes nothing; otherwise it returns the oldest unread byte, removes exactly that one and leaves the buffer and wpos alone |
| InputRing.FirstInFirstOut | src/kernel/console.c:295-328 | from an empty buffer, after storing fewer than 512 bytes, the read returns the first stored byte and the rest stay unread in order |
| InputRing.PopNeverZero | src/kernel/console.c:298-328 | when no unread byte is 0, the read never returns 0 and no unread byte is 0 afterwards |
| InputRing.PushThenPop | src/kernel/console.c:302-328 | a byte stored into an empty buffer is the next byte read, and the buffer is empty again afterwards |
| Console.SerialReadings | src/kernel/console.c:39-44 | the serial port delivers each received byte as the reading of the same value |
| Console.KbdReadings | src/kernel/console.c:267 | the keyboard delivers each decoded code as the reading of the same value |
| Console.AfterPoll | src/kernel/console.c:313-318 | cons_getc's polls (the serial port only if it exists, then the keyboard) keep the buffer well formed |
| Console.Console.constructor | src/kernel/console.c:285-289 | at boot every cell of the buffer is 0, rpos = wpos = 0, nothing is unread and no modifier is held |
| Console.Console.Store | src/kernel/console.c:302-305 | one store writes buf[wpos] and moves wpos on with wrap-around, as InputRing.Push describes, keeping every unread byte nonzero |
| Console.Console.ConsIntr | src/kernel/console.c:295-307 | the drain loop leaves exactly the buffer InputRing.Drain describes: nonzero readings stored in order up to the first -1, with rpos and wpos inside the buffer |
| Console.Console.SerialIntr | src/kernel/console.c:46-50 | the serial port is drained only when it exists; otherwise nothing changes |
| Console.Console.KbdStep | src/kernel/console.c:297-305 | one turn of the keyboard drain leaves the shift state of one decoder step, counts its reset-port write, and stores its code unless the code is 0 |
| Console.Console.KbdIntr | src/kernel/console.c:270-272 | the keyboard drain leaves the shift state and the reset count of decoding the scancodes, and the buffer with the decoded codes drained into it |
| Console.Console.ConsGetc | src/kernel/console.c:313-329 | after both polls, returns -1 when rpos == wpos and otherwise the oldest unread byte, which it removes; it never returns 0 |
| Console.Console.GetChar | src/kernel/console.c:357-363 | the retry loop returns the first result of cons_getc, -1 included, with the same state as one cons_getc |

## Left out

- Serial port driver (`serial_init`, `serial_putc`, `serial_proc_data`'s port reads, `delay`): these are raw port I/O. Serial input is the sequence of received bytes, gated by `serial_exists`.
- `lpt_putc`: parallel-port strobe protocol, hardware I/O only.
- `cga_init` and `cga_putc`: video memory probing and 6845 cursor registers. `cga_putc` is not defined in the file, so there is nothing to model for it.
- `console_init`, `cons_putc`, `cputchar`, `iscons`: wiring, a `cprintf` call and a constant stub.
- The keyboard controller status test (`inb(KBSTATP) & KBS_DIB`) and the data port read: the scancodes the controller holds are a sequence, and its end is the "no data" answer.
- The reset write `outb(0x92, 0x3)`: it is counted, not performed, and decoding goes on after it as if the machine had not rebooted.
- The values of `KEY_*`, `KBSTATP`, `KBS_DIB` and `KBDATAP`: they are defined in headers that are not part of this model. Only the facts in `KeyCodesAssumed` are relied on.
- Interrupt delivery and reentrancy: the code is polled and single-context, so there is no concurrency to model.
- Console.Console.GetChar: the model assumes a second poll would find no new input. Since cons_getc never returns 0, the loop runs once, so this assumption does not change the result.
- The width of `shift`: it is `uint32_t` in the source. It is held in 8 bits here because only bits 0-6 are ever set.
