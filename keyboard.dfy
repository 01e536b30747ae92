/**
 * The keyboard scancode decoder of the console (kbd_proc_data in
 * src/kernel/console.c): a state machine over the `shift` bit mask that
 * turns one raw scan-code-set-1 byte into a character or virtual-key code,
 * driven by constant 256-entry tables.
 */
module Keyboard {

  // Bits of the shift state.  SHIFT, CTL and ALT are held while the key is
  // down; the three locks flip on every press; E0ESC records a pending 0xE0.
  // The source keeps the mask in a 32-bit integer of which only these seven
  // bits are ever set, so eight bits hold it here.
  const SHIFT: bv8 := 1
  const CTL: bv8 := 2
  const ALT: bv8 := 4
  const CAPSLOCK: bv8 := 8
  const NUMLOCK: bv8 := 16
  const SCROLLLOCK: bv8 := 32
  const E0ESC: bv8 := 64

  const MODIFIERS: bv8 := SHIFT | CTL | ALT
  const LOCKS: bv8 := CAPSLOCK | NUMLOCK | SCROLLLOCK

  /** A character code as the source's uint8_t tables hold it. */
  type ByteChar = c: char | c < 256 as char witness '\0'

  // Virtual key codes.  They are defined by a keyboard header that is not part
  // of this model, so their values are left open; KeyCodesAssumed states the
  // little that the properties below need of them.
  const KEY_HOME: ByteChar
  const KEY_END: ByteChar
  const KEY_UP: ByteChar
  const KEY_DN: ByteChar
  const KEY_LF: ByteChar
  const KEY_RT: ByteChar
  const KEY_PGUP: ByteChar
  const KEY_PGDN: ByteChar
  const KEY_INS: ByteChar
  const KEY_DEL: ByteChar

  const KeyCodes: seq<char> :=
    [KEY_HOME, KEY_END, KEY_UP, KEY_DN, KEY_LF, KEY_RT, KEY_PGUP, KEY_PGDN, KEY_INS, KEY_DEL]

  /** Virtual key codes are not NO, are not ASCII letters and are pairwise distinct. */
  predicate KeyCodesAssumed()
  {
    && (forall i | 0 <= i < |KeyCodes| :: KeyCodes[i] != NO && !IsLetter(KeyCodes[i]))
    && (forall i, j | 0 <= i < j < |KeyCodes| :: KeyCodes[i] != KeyCodes[j])
  }

  predicate IsLower(c: char) { 'a' <= c <= 'z' }
  predicate IsUpper(c: char) { 'A' <= c <= 'Z' }
  predicate IsLetter(c: char) { IsLower(c) || IsUpper(c) }

  /** The Caps Lock adjustment: an ASCII letter changes case, anything else is kept. */
  function ToggleCase(c: char): (r: char)
    ensures IsLower(c) ==> IsUpper(r) && r as int == c as int - 32
    ensures IsUpper(c) ==> IsLower(r) && r as int == c as int + 32
    ensures !IsLetter(c) ==> r == c
  {
    if IsLower(c) then c - ('a' - 'A')
    else if IsUpper(c) then c + ('a' - 'A')
    else c
  }

  // ---------------------------------------------------------------------------
  // The tables, entry by entry; every entry not listed is NO (0).

  const NO: ByteChar := '\0'
  const ESC: ByteChar := 0x1B as char
  const BS: ByteChar := 0x08 as char

  /** The control character C(x) = x - '@', kept to a byte as in the source's uint8_t tables (C('/') is 0xEF). */
  function C(x: char): (r: ByteChar)
    requires x < 256 as char
    ensures x >= '@' ==> r == x - '@'
    ensures x < '@' ==> r as int == x as int - '@' as int + 256
  {
    ((x as int - '@' as int) % 256) as char
  }

  /** shiftcode: the modifier bit a key holds down. */
  function ShiftCode(key: bv8): (m: bv8)
    ensures m & !MODIFIERS == 0
  {
    match key
    case 0x1D => CTL
    case 0x2A => SHIFT
    case 0x36 => SHIFT
    case 0x38 => ALT
    case 0x9D => CTL
    case 0xB8 => ALT
    case _ => 0
  }

  /** togglecode: the lock bit a key flips. */
  function ToggleCode(key: bv8): (m: bv8)
    ensures m & !LOCKS == 0
    ensures m & CAPSLOCK != 0 <==> key == 0x3A
  {
    match key
    case 0x3A => CAPSLOCK
    case 0x45 => NUMLOCK
    case 0x46 => SCROLLLOCK
    case _ => 0
  }

  /** normalmap: no modifier held.  Extended keys sit at their 0xE0-prefixed index, with bit 7 set. */
  function NormalMap(key: bv8): (c: ByteChar)
    ensures key & 0x80 == 0 ==> !IsUpper(c)
  {
    match key
    case 0x01 => ESC  case 0x02 => '1'  case 0x03 => '2'  case 0x04 => '3'
    case 0x05 => '4'  case 0x06 => '5'  case 0x07 => '6'
    case 0x08 => '7'  case 0x09 => '8'  case 0x0A => '9'  case 0x0B => '0'
    case 0x0C => '-'  case 0x0D => '='  case 0x0E => BS  case 0x0F => '\t'
    case 0x10 => 'q'  case 0x11 => 'w'  case 0x12 => 'e'  case 0x13 => 'r'
    case 0x14 => 't'  case 0x15 => 'y'  case 0x16 => 'u'  case 0x17 => 'i'
    case 0x18 => 'o'  case 0x19 => 'p'  case 0x1A => '['  case 0x1B => ']'
    case 0x1C => '\n'  case 0x1E => 'a'  case 0x1F => 's'
    case 0x20 => 'd'  case 0x21 => 'f'  case 0x22 => 'g'  case 0x23 => 'h'
    case 0x24 => 'j'  case 0x25 => 'k'  case 0x26 => 'l'  case 0x27 => ';'
    case 0x28 => '\''  case 0x29 => '`'  case 0x2B => '\\'  case 0x2C => 'z'
    case 0x2D => 'x'  case 0x2E => 'c'  case 0x2F => 'v'
    case 0x30 => 'b'  case 0x31 => 'n'  case 0x32 => 'm'  case 0x33 => ','
    case 0x34 => '.'  case 0x35 => '/'  case 0x37 => '*'
    case 0x39 => ' '
    case 0x47 => '7'
    case 0x48 => '8'  case 0x49 => '9'  case 0x4A => '-'  case 0x4B => '4'
    case 0x4C => '5'  case 0x4D => '6'  case 0x4E => '+'  case 0x4F => '1'
    case 0x50 => '2'  case 0x51 => '3'  case 0x52 => '0'  case 0x53 => '.'
    case 0xC7 => KEY_HOME
    case 0x9C => '\n'
    case 0xB5 => '/'
    case 0xC8 => KEY_UP
    case 0xC9 => KEY_PGUP
    case 0xCB => KEY_LF
    case 0xCD => KEY_RT
    case 0xCF => KEY_END
    case 0xD0 => KEY_DN
    case 0xD1 => KEY_PGDN
    case 0xD2 => KEY_INS
    case 0xD3 => KEY_DEL
    case _ => NO
  }

  /**
   * shiftmap: Shift held.  On the main block (keys below 0x80) its capitals
   * sit exactly where normalmap has the lower-case letters.
   */
  function ShiftMap(key: bv8): (c: ByteChar)
    ensures key & 0x80 == 0 ==> !IsLower(c)
    ensures key & 0x80 == 0 ==> (IsUpper(c) <==> IsLower(NormalMap(key)))
    ensures key & 0x80 == 0 && IsUpper(c) ==> c == ToggleCase(NormalMap(key))
  {
    match key
    case 0x01 => ESC  case 0x02 => '!'  case 0x03 => '@'  case 0x04 => '#'
    case 0x05 => '$'  case 0x06 => '%'  case 0x07 => '^'
    case 0x08 => '&'  case 0x09 => '*'  case 0x0A => '('  case 0x0B => ')'
    case 0x0C => '_'  case 0x0D => '+'  case 0x0E => BS  case 0x0F => '\t'
    case 0x10 => 'Q'  case 0x11 => 'W'  case 0x12 => 'E'  case 0x13 => 'R'
    case 0x14 => 'T'  case 0x15 => 'Y'  case 0x16 => 'U'  case 0x17 => 'I'
    case 0x18 => 'O'  case 0x19 => 'P'  case 0x1A => '{'  case 0x1B => '}'
    case 0x1C => '\n'  case 0x1E => 'A'  case 0x1F => 'S'
    case 0x20 => 'D'  case 0x21 => 'F'  case 0x22 => 'G'  case 0x23 => 'H'
    case 0x24 => 'J'  case 0x25 => 'K'  case 0x26 => 'L'  case 0x27 => ':'
    case 0x28 => '"'  case 0x29 => '~'  case 0x2B => '|'  case 0x2C => 'Z'
    case 0x2D => 'X'  case 0x2E => 'C'  case 0x2F => 'V'
    case 0x30 => 'B'  case 0x31 => 'N'  case 0x32 => 'M'  case 0x33 => '<'
    case 0x34 => '>'  case 0x35 => '?'  case 0x37 => '*'
    case 0x39 => ' '
    case 0x47 => '7'
    case 0x48 => '8'  case 0x49 => '9'  case 0x4A => '-'  case 0x4B => '4'
    case 0x4C => '5'  case 0x4D => '6'  case 0x4E => '+'  case 0x4F => '1'
    case 0x50 => '2'  case 0x51 => '3'  case 0x52 => '0'  case 0x53 => '.'
    case 0xC7 => KEY_HOME
    case 0x9C => '\n'
    case 0xB5 => '/'
    case 0xC8 => KEY_UP
    case 0xC9 => KEY_PGUP
    case 0xCB => KEY_LF
    case 0xCD => KEY_RT
    case 0xCF => KEY_END
    case 0xD0 => KEY_DN
    case 0xD1 => KEY_PGDN
    case 0xD2 => KEY_INS
    case 0xD3 => KEY_DEL
    case _ => NO
  }

  // ctlmap: Ctrl held, with or without Shift.  Home sits at 0x97 in this map
  // (0xC7 in the other two), so Ctrl+Home decodes to NO; see CtrlHomeQuirk.
  function CtlMap(key: bv8): (c: ByteChar)
    ensures key & 0x80 == 0 ==> !IsLetter(c)
  {
    match key
    case 0x10 => C('Q')  case 0x11 => C('W')  case 0x12 => C('E')  case 0x13 => C('R')
    case 0x14 => C('T')  case 0x15 => C('Y')  case 0x16 => C('U')  case 0x17 => C('I')
    case 0x18 => C('O')  case 0x19 => C('P')  case 0x1C => '\r'  case 0x1E => C('A')
    case 0x1F => C('S')
    case 0x20 => C('D')  case 0x21 => C('F')  case 0x22 => C('G')  case 0x23 => C('H')
    case 0x24 => C('J')  case 0x25 => C('K')  case 0x26 => C('L')
    case 0x2B => C('\\')  case 0x2C => C('Z')  case 0x2D => C('X')  case 0x2E => C('C')
    case 0x2F => C('V')
    case 0x30 => C('B')  case 0x31 => C('N')  case 0x32 => C('M')  case 0x35 => C('/')
    case 0x97 => KEY_HOME
    case 0xB5 => C('/')
    case 0xC8 => KEY_UP
    case 0xC9 => KEY_PGUP
    case 0xCB => KEY_LF
    case 0xCD => KEY_RT
    case 0xCF => KEY_END
    case 0xD0 => KEY_DN
    case 0xD1 => KEY_PGDN
    case 0xD2 => KEY_INS
    case 0xD3 => KEY_DEL
    case _ => NO
  }

  /** The table index shift & (CTL | SHIFT) as a number. */
  function TableIndex(shift: bv8): (i: int)
    ensures 0 <= i < 4
    ensures i >= 2 <==> shift & CTL != 0
    ensures i == 1 <==> shift & (CTL | SHIFT) == SHIFT
  {
    match shift & (CTL | SHIFT)
    case 0 => 0
    case 1 => 1
    case 2 => 2
    case _ => 3
  }

  /**
   * charcode[index][key]: normalmap, shiftmap, ctlmap and ctlmap again.  On
   * the main block a letter comes out upper-case exactly from the Shift table.
   */
  function CharCode(index: int, key: bv8): (c: ByteChar)
    requires 0 <= index < 4
    ensures key & 0x80 == 0 && IsLetter(c) ==> (IsUpper(c) <==> index == 1)
  {
    match index
    case 0 => NormalMap(key)
    case 1 => ShiftMap(key)
    case _ => CtlMap(key)
  }

  /**
   * Extended keys ignore Shift, and Ctrl too except at four indices: Home
   * (0xC7, moved to 0x97 in ctlmap), keypad Enter (0x9C, NO in ctlmap) and
   * keypad divide (0xB5, C('/') in ctlmap).
   */
  lemma ExtendedKeys(key: bv8)
    requires key & 0x80 != 0
    ensures ShiftMap(key) == NormalMap(key)
    ensures key !in {0x97, 0x9C, 0xB5, 0xC7} ==> CtlMap(key) == NormalMap(key)
  {
    if key < 0xA0 {
    } else if key < 0xC0 {
    } else if key < 0xD0 {
    } else {
    }
  }

  /** Ctrl selects ctlmap whether or not Shift is held; Shift alone selects shiftmap. */
  lemma TableSelection(shift: bv8, key: bv8)
    ensures shift & CTL != 0 ==> CharCode(TableIndex(shift), key) == CtlMap(key)
    ensures shift & CTL == 0 && shift & SHIFT != 0 ==> CharCode(TableIndex(shift), key) == ShiftMap(key)
    ensures shift & (CTL | SHIFT) == 0 ==> CharCode(TableIndex(shift), key) == NormalMap(key)
  {
  }

  // ---------------------------------------------------------------------------
  // One step of the decoder: the shift update, then the lookup of a press.

  /** The new shift state, the returned code (NO for "nothing to emit") and whether the reset port was written. */
  datatype Decoded = Decoded(shift: bv8, c: ByteChar, reset: bool)

  /** A key release, as opposed to the 0xE0 prefix, has bit 7 set. */
  predicate IsRelease(data: bv8) { data != 0xE0 && data & 0x80 != 0 }

  /** A press is looked up at data | 0x80 when it follows 0xE0. */
  function PressKey(shift: bv8, data: bv8): (key: bv8)
    ensures key & 0x7F == data & 0x7F
    ensures key & 0x80 != 0 <==> data & 0x80 != 0 || shift & E0ESC != 0
  {
    if shift & E0ESC != 0 then data | 0x80 else data
  }

  /**
   * The shift state after one byte: 0xE0 sets E0ESC, a release clears, a press
   * sets and toggles.  Only a press can set a modifier or flip a lock, and a
   * press never releases a modifier; bit 7 is never touched.
   */
  function NextShift(shift: bv8, data: bv8): (s: bv8)
    ensures data & 0x80 != 0 ==> s & LOCKS == shift & LOCKS
    ensures data & 0x80 != 0 ==> s & MODIFIERS & !shift == 0
    ensures data & 0x80 == 0 ==> shift & MODIFIERS & !s == 0
    ensures s & 0x80 == shift & 0x80
  {
    if data == 0xE0 then shift | E0ESC
    else if data & 0x80 != 0 then
      var key := if shift & E0ESC != 0 then data else data & 0x7F;
      shift & !(ShiftCode(key) | E0ESC)
    else
      var s := if shift & E0ESC != 0 then shift & !E0ESC else shift;
      var key := PressKey(shift, data);
      (s | ShiftCode(key)) ^ ToggleCode(key)
  }

  /**
   * The code of a press of `key` once the shift state is `s`: the entry of the
   * selected table, whose letters swap case under Caps Lock.
   */
  function Code(s: bv8, key: bv8): (c: ByteChar)
    ensures var entry := CharCode(TableIndex(s), key);
            && (s & CAPSLOCK == 0 || !IsLetter(entry) ==> c == entry)
            && (s & CAPSLOCK != 0 && IsLetter(entry) ==> IsLetter(c) && IsUpper(c) != IsUpper(entry))
  {
    var c := CharCode(TableIndex(s), key);
    if s & CAPSLOCK != 0 then ToggleCase(c) else c
  }

  /** kbd_proc_data for one available byte: 0xE0 and releases return NO and never write the reset port. */
  function Step(shift: bv8, data: bv8): (d: Decoded)
    ensures data & 0x80 != 0 ==> d.c == NO && !d.reset
  {
    var s := NextShift(shift, data);
    if data & 0x80 != 0 then Decoded(s, NO, false)
    else
      var c := Code(s, PressKey(shift, data));
      Decoded(s, c, !s & (CTL | ALT) == 0 && c == KEY_DEL)
  }

  // ---------------------------------------------------------------------------
  // The decoder over a run of scancodes, read until the controller has none left.

  /** The final shift state, the code returned for each scancode, and the number of reset-port writes. */
  datatype Run = Run(shift: bv8, outputs: seq<ByteChar>, resets: nat)

  function Decode(shift: bv8, scancodes: seq<bv8>): (r: Run)
    ensures |r.outputs| == |scancodes| && r.resets <= |scancodes|
    decreases |scancodes|
  {
    if scancodes == [] then Run(shift, [], 0)
    else
      var d := Step(shift, scancodes[0]);
      var rest := Decode(d.shift, scancodes[1..]);
      Run(rest.shift, [d.c] + rest.outputs, (if d.reset then 1 else 0) + rest.resets)
  }

  /** The shift state after a run, following NextShift alone. */
  function ShiftAfter(shift: bv8, scancodes: seq<bv8>): bv8
    decreases |scancodes|
  {
    if scancodes == [] then shift else ShiftAfter(NextShift(shift, scancodes[0]), scancodes[1..])
  }

  predicate PressesOnly(scancodes: seq<bv8>)
  {
    forall i | 0 <= i < |scancodes| :: scancodes[i] & 0x80 == 0
  }

  function Occurrences(scancodes: seq<bv8>, b: bv8): nat
  {
    if scancodes == [] then 0
    else (if scancodes[0] == b then 1 else 0) + Occurrences(scancodes[1..], b)
  }

  // ---------------------------------------------------------------------------
  // Properties of one step.

  /** 0xE0 emits nothing and sets E0ESC, leaving every other bit as it was. */
  lemma EscapeSetsOnlyE0(shift: bv8)
    ensures Step(shift, 0xE0) == Decoded(shift | E0ESC, NO, false)
    ensures Step(shift, 0xE0).shift & E0ESC != 0
    ensures Step(shift, 0xE0).shift & !E0ESC == shift & !E0ESC
  {
  }

  /**
   * A release emits nothing, never resets, clears E0ESC and the modifier bits
   * of the released key (the full byte after 0xE0, else its low seven bits),
   * and keeps every other bit, the locks among them.
   */
  lemma StepRelease(shift: bv8, data: bv8)
    requires IsRelease(data)
    ensures var d := Step(shift, data);
            var key := if shift & E0ESC != 0 then data else data & 0x7F;
            && d.c == NO && !d.reset
            && d.shift & E0ESC == 0
            && d.shift & LOCKS == shift & LOCKS
            && d.shift & MODIFIERS == shift & MODIFIERS & !ShiftCode(key)
            && d.shift & 0x80 == shift & 0x80
  {
  }

  /**
   * A press clears E0ESC, ORs in the modifier bits of the key it is looked up
   * at and XORs its lock bits; nothing else changes.
   */
  lemma StepPressShift(shift: bv8, data: bv8)
    requires data & 0x80 == 0
    ensures var s := Step(shift, data).shift;
            var key := PressKey(shift, data);
            && s & E0ESC == 0
            && s & MODIFIERS == (shift | ShiftCode(key)) & MODIFIERS
            && s & LOCKS == (shift ^ ToggleCode(key)) & LOCKS
            && s & 0x80 == shift & 0x80
  {
  }

  /** After any byte, E0ESC is pending exactly when that byte was 0xE0. */
  lemma StepEscapeFlag(shift: bv8, data: bv8)
    ensures NextShift(shift, data) & E0ESC != 0 <==> data == 0xE0
  {
    if data == 0xE0 {
    } else if data & 0x80 != 0 {
      StepRelease(shift, data);
    } else {
      StepPressShift(shift, data);
    }
  }

  /**
   * The code of a press is the entry of the table selected by the new state;
   * with Caps Lock on a letter entry changes case and any other entry is kept,
   * and with Caps Lock off the entry is returned as it is.
   */
  lemma CapsLockCase(shift: bv8, data: bv8)
    requires data & 0x80 == 0
    ensures var s := Step(shift, data).shift;
            var entry := CharCode(TableIndex(s), PressKey(shift, data));
            var c := Step(shift, data).c;
            && (s & CAPSLOCK == 0 ==> c == entry)
            && (s & CAPSLOCK != 0 && IsLower(entry) ==> IsUpper(c) && c as int == entry as int - 32)
            && (s & CAPSLOCK != 0 && IsUpper(entry) ==> IsLower(c) && c as int == entry as int + 32)
            && (!IsLetter(entry) ==> c == entry)
  {
    var s := NextShift(shift, data);
    TableSelection(s, PressKey(shift, data));
  }

  /**
   * A letter from a main-block key (no 0xE0 before it) is upper-case exactly
   * when one of Shift alone and Caps Lock is in effect, not both.
   */
  lemma LetterCase(shift: bv8, data: bv8)
    requires data & 0x80 == 0 && shift & E0ESC == 0
    ensures var d := Step(shift, data);
            IsLetter(d.c) ==> (IsUpper(d.c) <==> ((d.shift & (CTL | SHIFT) == SHIFT) != (d.shift & CAPSLOCK != 0)))
  {
    var s := NextShift(shift, data);
    assert PressKey(shift, data) == data;
    var entry := CharCode(TableIndex(s), data);
    assert Step(shift, data).c == Code(s, data);
  }

  /** The reset port is written exactly for a press that leaves Ctrl and Alt held and returns KEY_DEL. */
  lemma StepReset(shift: bv8, data: bv8)
    ensures var d := Step(shift, data);
            d.reset <==> data & 0x80 == 0 && d.shift & CTL != 0 && d.shift & ALT != 0 && d.c == KEY_DEL
  {
  }

  /** A press whose table entry is not a letter returns that entry whatever the Caps Lock state. */
  lemma PressNonLetter(shift: bv8, data: bv8, v: char)
    requires data & 0x80 == 0
    requires CharCode(TableIndex(NextShift(shift, data)), PressKey(shift, data)) == v && !IsLetter(v)
    ensures var s := NextShift(shift, data);
            Step(shift, data) == Decoded(s, v, s & CTL != 0 && s & ALT != 0 && v == KEY_DEL)
  {
    StepReset(shift, data);
  }

  // ---------------------------------------------------------------------------
  // Entries of the tables used below, and the assumptions on key codes.

  lemma UpEntries(s: bv8)
    ensures CharCode(TableIndex(s), 0xC8) == KEY_UP
  {
    TableSelection(s, 0xC8);
  }

  /** Keys whose entry is NO in every table. */
  lemma BlankEntries(key: bv8)
    requires key in {0x1D, 0x38, 0x3A}
    ensures NormalMap(key) == NO && ShiftMap(key) == NO && CtlMap(key) == NO
  {
    if key == 0x1D {
    } else if key == 0x38 {
    } else {
    }
  }

  lemma LetterEntry()
    ensures NormalMap(0x10) == 'q'
  {
  }

  /** Entries of ctlmap: keypad and extended Delete, and Home at its two indices. */
  lemma CtlEntries()
    ensures CtlMap(0x53) == NO && CtlMap(0xD3) == KEY_DEL
    ensures CtlMap(0xC7) == NO && CtlMap(0x97) == KEY_HOME
  {
  }

  lemma KeyCodeFacts()
    requires KeyCodesAssumed()
    ensures !IsLetter(KEY_UP) && !IsLetter(KEY_HOME) && !IsLetter(KEY_DEL)
    ensures KEY_DEL != NO && KEY_UP != KEY_DEL && KEY_HOME != KEY_DEL
  {
    assert KeyCodes[0] == KEY_HOME && KeyCodes[2] == KEY_UP && KeyCodes[9] == KEY_DEL;
  }

  // ---------------------------------------------------------------------------
  // Runs of scancodes.

  /** Decoding follows NextShift: its final state is ShiftAfter's. */
  lemma {:induction false} DecodeShift(shift: bv8, scancodes: seq<bv8>)
    ensures Decode(shift, scancodes).shift == ShiftAfter(shift, scancodes)
    decreases |scancodes|
  {
    if scancodes != [] {
      DecodeShift(NextShift(shift, scancodes[0]), scancodes[1..]);
    }
  }

  /** Decoding a nonempty run is one step followed by the decoding of the rest. */
  lemma DecodeCons(shift: bv8, x: bv8, rest: seq<bv8>)
    ensures var d := Step(shift, x);
            var r := Decode(d.shift, rest);
            Decode(shift, [x] + rest) == Run(r.shift, [d.c] + r.outputs, (if d.reset then 1 else 0) + r.resets)
  {
    assert ([x] + rest)[0] == x && ([x] + rest)[1..] == rest;
  }

  lemma ShiftAfterCons(shift: bv8, x: bv8, rest: seq<bv8>)
    ensures ShiftAfter(shift, [x] + rest) == ShiftAfter(NextShift(shift, x), rest)
  {
    assert ([x] + rest)[0] == x && ([x] + rest)[1..] == rest;
  }

  /** After a nonempty run, E0ESC is pending exactly when the last scancode was 0xE0. */
  lemma {:induction false} EscapePendingAfterRun(shift: bv8, scancodes: seq<bv8>)
    requires scancodes != []
    ensures ShiftAfter(shift, scancodes) & E0ESC != 0 <==> scancodes[|scancodes| - 1] == 0xE0
    decreases |scancodes|
  {
    StepEscapeFlag(shift, scancodes[0]);
    if |scancodes| > 1 {
      EscapePendingAfterRun(NextShift(shift, scancodes[0]), scancodes[1..]);
    }
  }

  predicate CapsOn(shift: bv8) { shift & CAPSLOCK != 0 }

  /** A press leaves E0ESC clear and flips CAPSLOCK exactly when it is the Caps Lock key. */
  lemma PressCapsBit(shift: bv8, key: bv8)
    requires shift & E0ESC == 0 && key & 0x80 == 0
    ensures NextShift(shift, key) & E0ESC == 0
    ensures CapsOn(NextShift(shift, key)) == (CapsOn(shift) != (key == 0x3A))
  {
    StepPressShift(shift, key);
  }

  lemma {:induction false} CapsLockParity(shift: bv8, scancodes: seq<bv8>)
    requires shift & E0ESC == 0 && PressesOnly(scancodes)
    ensures ShiftAfter(shift, scancodes) & E0ESC == 0
    ensures CapsOn(ShiftAfter(shift, scancodes)) == (CapsOn(shift) != (Occurrences(scancodes, 0x3A) % 2 == 1))
    decreases |scancodes|
  {
    if scancodes != [] {
      var key := scancodes[0];
      var rest := scancodes[1..];
      assert key & 0x80 == 0;
      PressCapsBit(shift, key);
      var s := NextShift(shift, key);
      assert PressesOnly(rest) by {
        forall i | 0 <= i < |rest|
          ensures rest[i] & 0x80 == 0
        {
          assert rest[i] == scancodes[i + 1];
        }
      }
      CapsLockParity(s, rest);
      assert ShiftAfter(shift, scancodes) == ShiftAfter(s, rest);
      var n := Occurrences(rest, 0x3A);
      assert Occurrences(scancodes, 0x3A) == (if key == 0x3A then 1 else 0) + n;
    }
  }

  // ---------------------------------------------------------------------------
  // Concrete key sequences.

  /** 0x48 after 0xE0 is looked up at 0xC8: it yields KEY_UP in every table and clears E0ESC. */
  lemma EscapedUpStep(shift: bv8)
    requires KeyCodesAssumed() && shift & E0ESC == 0
    ensures Step(shift | E0ESC, 0x48) == Decoded(shift, KEY_UP, false)
  {
    assert NextShift(shift | E0ESC, 0x48) == shift;
    UpEntries(shift);
    KeyCodeFacts();
    PressNonLetter(shift | E0ESC, 0x48, KEY_UP);
  }

  /** 0xE0 then 0x48 decodes to nothing, then KEY_UP, and leaves E0ESC clear. */
  lemma ExtendedUpArrow(shift: bv8)
    requires KeyCodesAssumed()
    ensures Decode(shift, [0xE0, 0x48]) == Run(shift & !E0ESC, [NO, KEY_UP], 0)
  {
    var s := shift & !E0ESC;
    EscapeSetsOnlyE0(shift);
    assert Step(shift, 0xE0).shift == s | E0ESC;
    EscapedUpStep(s);
    DecodeCons(s | E0ESC, 0x48, []);
    DecodeCons(shift, 0xE0, [0x48]);
  }

  /** 0xE0 0xC8 is the release of the up-arrow key, so it emits nothing at all. */
  lemma ExtendedReleaseEmitsNothing(shift: bv8)
    ensures Decode(shift, [0xE0, 0xC8]).outputs == [NO, NO]
    ensures Decode(shift, [0xE0, 0xC8]).shift == shift & !E0ESC
  {
    assert ShiftCode(0xC8) == 0;
    assert [0xE0, 0xC8][1..] == [0xC8] && [0xC8][1..] == [];
  }

  /** Caps Lock (0x3A) flips CAPSLOCK and nothing else; pressing it twice restores the state. */
  lemma CapsLockTwice(shift: bv8)
    requires shift & E0ESC == 0
    ensures NextShift(shift, 0x3A) == shift ^ CAPSLOCK
    ensures ShiftAfter(shift, [0x3A, 0x3A]) == shift
  {
    PlainPressShift(shift, 0x3A);
    PlainPressShift(shift ^ CAPSLOCK, 0x3A);
    assert ShiftCode(0x3A) == 0 && ToggleCode(0x3A) == CAPSLOCK;
    ShiftAfterCons(shift ^ CAPSLOCK, 0x3A, []);
    ShiftAfterCons(shift, 0x3A, [0x3A]);
  }

  /** Pressing Caps Lock emits nothing and flips CAPSLOCK. */
  lemma CapsLockPress(shift: bv8)
    requires KeyCodesAssumed() && shift & E0ESC == 0
    ensures Step(shift, 0x3A) == Decoded(shift ^ CAPSLOCK, NO, false)
  {
    KeyCodeFacts();
    CapsLockTwice(shift);
    BlankEntries(0x3A);
    TableSelection(shift ^ CAPSLOCK, 0x3A);
    PressNonLetter(shift, 0x3A, NO);
  }

  /** The Q key (0x10) with no modifier held yields 'q', or 'Q' under Caps Lock. */
  lemma LetterQ(shift: bv8)
    requires shift & (E0ESC | MODIFIERS) == 0
    ensures Step(shift, 0x10) == Decoded(shift, if shift & CAPSLOCK != 0 then 'Q' else 'q', false)
  {
    PlainPressShift(shift, 0x10);
    assert ShiftCode(0x10) == 0 && ToggleCode(0x10) == 0;
    TableSelection(shift, 0x10);
    LetterEntry();
    CapsLockCase(shift, 0x10);
  }

  /** With no modifier held, Q yields 'q'; after pressing Caps Lock it yields 'Q'. */
  lemma CapsLockInvertsLetter(shift: bv8)
    requires KeyCodesAssumed() && shift & (E0ESC | MODIFIERS | CAPSLOCK) == 0
    ensures Decode(shift, [0x10]).outputs == ['q']
    ensures Decode(shift, [0x3A, 0x10]).outputs == [NO, 'Q']
  {
    var s := shift ^ CAPSLOCK;
    LetterQ(shift);
    CapsLockPress(shift);
    LetterQ(s);
    DecodeCons(shift, 0x10, []);
    DecodeCons(s, 0x10, []);
    DecodeCons(shift, 0x3A, [0x10]);
  }

  /** Releasing a key undoes the modifier its press set: only shiftcode's bit is cleared, locks stay flipped. */
  lemma PressThenRelease(shift: bv8, key: bv8)
    requires shift & E0ESC == 0 && key & 0x80 == 0 && key != 0x60
    ensures ShiftAfter(shift, [key, key | 0x80]) == (shift ^ ToggleCode(key)) & !ShiftCode(key)
  {
    var s := (shift | ShiftCode(key)) ^ ToggleCode(key);
    SetToggleClear(shift, ShiftCode(key), ToggleCode(key));
    PlainPressShift(shift, key);
    PlainReleaseShift(s, key);
    ShiftAfterCons(s, key | 0x80, []);
    ShiftAfterCons(shift, key, [key | 0x80]);
  }

  lemma PlainPressShift(shift: bv8, key: bv8)
    requires shift & E0ESC == 0 && key & 0x80 == 0
    ensures NextShift(shift, key) == (shift | ShiftCode(key)) ^ ToggleCode(key)
  {
  }

  lemma PlainReleaseShift(shift: bv8, key: bv8)
    requires shift & E0ESC == 0 && key & 0x80 == 0 && key != 0x60
    ensures NextShift(shift, key | 0x80) == shift & !(ShiftCode(key) | E0ESC)
  {
    assert (key | 0x80) & 0x7F == key;
  }

  /** Setting modifier bits a and toggling lock bits b, then clearing a and E0ESC, leaves only the toggle. */
  lemma SetToggleClear(shift: bv8, a: bv8, b: bv8)
    requires a & !MODIFIERS == 0 && b & !LOCKS == 0 && shift & E0ESC == 0
    ensures ((shift | a) ^ b) & E0ESC == 0
    ensures ((shift | a) ^ b) & !(a | E0ESC) == (shift ^ b) & !a
  {
  }

  /** Pressing left Ctrl (0x1D) sets CTL and emits nothing. */
  lemma CtrlPress(shift: bv8)
    requires KeyCodesAssumed() && shift & E0ESC == 0
    ensures Step(shift, 0x1D) == Decoded(shift | CTL, NO, false)
  {
    KeyCodeFacts();
    assert ShiftCode(0x1D) == CTL && ToggleCode(0x1D) == 0;
    assert NextShift(shift, 0x1D) == shift | CTL;
    TableSelection(shift | CTL, 0x1D);
    BlankEntries(0x1D);
    PressNonLetter(shift, 0x1D, NO);
  }

  /** Pressing left Alt (0x38) while Ctrl is held sets ALT and emits nothing. */
  lemma AltPressUnderCtrl(shift: bv8)
    requires KeyCodesAssumed() && shift & E0ESC == 0 && shift & CTL != 0
    ensures Step(shift, 0x38) == Decoded(shift | ALT, NO, false)
  {
    KeyCodeFacts();
    assert ShiftCode(0x38) == ALT && ToggleCode(0x38) == 0;
    assert NextShift(shift, 0x38) == shift | ALT;
    TableSelection(shift | ALT, 0x38);
    BlankEntries(0x38);
    PressNonLetter(shift, 0x38, NO);
  }

  /** With Ctrl and Alt held, the extended Delete key returns KEY_DEL and writes the reset port. */
  lemma ExtendedDelUnderCtrlAlt(shift: bv8)
    requires KeyCodesAssumed() && shift & E0ESC == 0 && shift & CTL != 0 && shift & ALT != 0
    ensures Step(shift | E0ESC, 0x53) == Decoded(shift, KEY_DEL, true)
  {
    KeyCodeFacts();
    assert NextShift(shift | E0ESC, 0x53) == shift;
    TableSelection(shift, 0xD3);
    CtlEntries();
    PressNonLetter(shift | E0ESC, 0x53, KEY_DEL);
  }

  /** With Ctrl and Alt held, the keypad Delete key (0x53 without 0xE0) decodes to nothing. */
  lemma KeypadDelUnderCtrlAlt(shift: bv8)
    requires KeyCodesAssumed() && shift & E0ESC == 0 && shift & CTL != 0 && shift & ALT != 0
    ensures Step(shift, 0x53) == Decoded(shift, NO, false)
  {
    KeyCodeFacts();
    assert NextShift(shift, 0x53) == shift;
    TableSelection(shift, 0x53);
    CtlEntries();
    PressNonLetter(shift, 0x53, NO);
  }

  /** Under Ctrl and Alt, 0xE0 0x53 decodes to nothing, then KEY_DEL with one reset-port write. */
  lemma ExtendedDelRun(shift: bv8)
    requires KeyCodesAssumed() && shift & E0ESC == 0 && shift & CTL != 0 && shift & ALT != 0
    ensures Decode(shift, [0xE0, 0x53]) == Run(shift, [NO, KEY_DEL], 1)
  {
    EscapeSetsOnlyE0(shift);
    ExtendedDelUnderCtrlAlt(shift);
    DecodeCons(shift | E0ESC, 0x53, []);
    DecodeCons(shift, 0xE0, [0x53]);
  }

  /** Ctrl, Alt, then the extended Delete key: exactly one reset-port write, and Delete is still returned. */
  lemma CtrlAltDel(shift: bv8)
    requires KeyCodesAssumed() && shift & E0ESC == 0
    ensures Decode(shift, [0x1D, 0x38, 0xE0, 0x53]).outputs == [NO, NO, NO, KEY_DEL]
    ensures Decode(shift, [0x1D, 0x38, 0xE0, 0x53]).resets == 1
  {
    var s1 := shift | CTL;
    var s2 := s1 | ALT;
    CtrlPress(shift);
    AltPressUnderCtrl(s1);
    ExtendedDelRun(s2);
    DecodeCons(s1, 0x38, [0xE0, 0x53]);
    DecodeCons(shift, 0x1D, [0x38, 0xE0, 0x53]);
  }

  /** Ctrl, Alt and the keypad Delete key without 0xE0 decode to nothing and do not reset. */
  lemma CtrlAltKeypadDel(shift: bv8)
    requires KeyCodesAssumed() && shift & E0ESC == 0
    ensures Decode(shift, [0x1D, 0x38, 0x53]).outputs == [NO, NO, NO]
    ensures Decode(shift, [0x1D, 0x38, 0x53]).resets == 0
  {
    var s1 := shift | CTL;
    var s2 := s1 | ALT;
    CtrlPress(shift);
    AltPressUnderCtrl(s1);
    KeypadDelUnderCtrlAlt(s2);
    DecodeCons(s2, 0x53, []);
    DecodeCons(s1, 0x38, [0x53]);
    DecodeCons(shift, 0x1D, [0x38, 0x53]);
  }

  /** With Ctrl held, the Home key (0xE0 0x47) decodes to NO while 0xE0 0x17 decodes to KEY_HOME. */
  lemma CtrlHomeQuirk(shift: bv8)
    requires KeyCodesAssumed() && shift & CTL != 0 && shift & E0ESC == 0
    ensures Step(shift | E0ESC, 0x47) == Decoded(shift, NO, false)
    ensures Step(shift | E0ESC, 0x17) == Decoded(shift, KEY_HOME, false)
  {
    KeyCodeFacts();
    assert NextShift(shift | E0ESC, 0x47) == shift && NextShift(shift | E0ESC, 0x17) == shift;
    TableSelection(shift, 0xC7);
    TableSelection(shift, 0x97);
    CtlEntries();
    PressNonLetter(shift | E0ESC, 0x47, NO);
    PressNonLetter(shift | E0ESC, 0x17, KEY_HOME);
  }
}
