/** The keyboard driver.  Each scancode either changes the modifier bits
    (caps lock, shift, ctrl, alt), erases the last byte of the shown
    terminal's line, switches the shown terminal (alt+F1..F3), clears the
    screen and the line (ctrl+L), or is translated through one of two
    62-entry tables into a keycode that is appended to the shown
    terminal's line and echoed on the screen. */
module Keyboard {
  import opened Paging
  import opened Terminal

  const TABLE_SIZE: nat := 62

  /** codeASCIINS, the unshifted byte of each scancode below 0x3E, in
      rows of 16. */
  const NS_0: seq<bv8> := [0x00, 0x00, 0x31, 0x32, 0x33, 0x34, 0x35, 0x36, 0x37, 0x38, 0x39, 0x30, 0x2D, 0x3D, 0x08, 0x09]
  const NS_1: seq<bv8> := [0x71, 0x77, 0x65, 0x72, 0x74, 0x79, 0x75, 0x69, 0x6F, 0x70, 0x5B, 0x5D, 0x0A, 0x00, 0x61, 0x73]
  const NS_2: seq<bv8> := [0x64, 0x66, 0x67, 0x68, 0x6A, 0x6B, 0x6C, 0x3B, 0x27, 0x60, 0x00, 0x5C, 0x7A, 0x78, 0x63, 0x76]
  const NS_3: seq<bv8> := [0x62, 0x6E, 0x6D, 0x2C, 0x2E, 0x2F, 0x00, 0x2A, 0x00, 0x20, 0x00, 0x00, 0x00, 0x00]

  /** codeASCIIYS, the shifted byte of each scancode below 0x3E, in rows
      of 16. */
  const YS_0: seq<bv8> := [0x00, 0x00, 0x21, 0x40, 0x23, 0x24, 0x25, 0x5E, 0x26, 0x2A, 0x28, 0x29, 0x5F, 0x2B, 0x08, 0x09]
  const YS_1: seq<bv8> := [0x51, 0x57, 0x45, 0x52, 0x54, 0x59, 0x55, 0x49, 0x4F, 0x50, 0x7B, 0x7D, 0x0A, 0x00, 0x41, 0x53]
  const YS_2: seq<bv8> := [0x44, 0x46, 0x47, 0x48, 0x4A, 0x4B, 0x4C, 0x3A, 0x22, 0x7E, 0x00, 0x7C, 0x5A, 0x58, 0x43, 0x56]
  const YS_3: seq<bv8> := [0x42, 0x4E, 0x4D, 0x3C, 0x3E, 0x3F, 0x00, 0x2A, 0x00, 0x20, 0x00, 0x00, 0x00, 0x00]

  /** codeASCIIUnshifted(sc as nat). */
  function Unshifted(sc: nat): bv8
    requires sc < TABLE_SIZE
  {
    if sc < 16 then NS_0[sc] else if sc < 32 then NS_1[sc - 16]
    else if sc < 48 then NS_2[sc - 32] else NS_3[sc - 48]
  }

  /** codeASCIIShifted(sc as nat). */
  function Shifted(sc: nat): bv8
    requires sc < TABLE_SIZE
  {
    if sc < 16 then YS_0[sc] else if sc < 32 then YS_1[sc - 16]
    else if sc < 48 then YS_2[sc - 32] else YS_3[sc - 48]
  }

  /** Scancode of the first function key; F1..F3 select terminals 0..2. */
  const F1: bv8 := 0x3B
  /** Scancode of L, which with ctrl clears the screen. */
  const KEY_L: bv8 := 0x26
  const BACKSPACE: bv8 := 0x0E

  /** The modifier bits of shiftcaps. */
  predicate Caps(m: bv8) { m & 1 != 0 }
  predicate Shift(m: bv8) { m & 2 != 0 }
  predicate Ctrl(m: bv8) { m & 4 != 0 }
  predicate Alt(m: bv8) { m & 8 != 0 }

  predicate IsLetter(c: bv8) { 0x60 < c < 0x7B }

  /** The scancodes that only change modifier bits. */
  predicate IsModifierKey(sc: bv8) {
    sc == 0x3A || sc == 0x36 || sc == 0x2A || sc == 0xB6 || sc == 0xAA ||
    sc == 0x1D || sc == 0x9D || sc == 0x38 || sc == 0xB8
  }

  /** A scancode that reaches the tables: not a modifier, not backspace,
      below F4, and alt not held. */
  predicate Translated(m: bv8, sc: bv8) {
    !IsModifierKey(sc) && sc != BACKSPACE && sc < F1 + MAX_TERMINALS as bv8 && !Alt(m)
  }

  /** Alt is held and the scancode is F1..F3. */
  predicate SwitchesTo(m: bv8, sc: bv8) {
    !IsModifierKey(sc) && sc != BACKSPACE && Alt(m) && F1 <= sc < F1 + MAX_TERMINALS as bv8
  }

  /** Ctrl+L. */
  predicate ClearsLine(m: bv8, sc: bv8) {
    Translated(m, sc) && sc == KEY_L && Ctrl(m)
  }

  /** A table pair's entries agree: a letter's shifted byte is its
      upper-case form, and one byte is zero exactly when the other is. */
  predicate Agree(u: bv8, y: bv8) {
    (IsLetter(u) ==> y == u - 0x20) && (u == 0 <==> y == 0)
  }

  /** In both tables a letter's shifted byte is its upper-case form, and a
      key has a byte in one table exactly when it has one in the other. */
  lemma TablesAgree()
    ensures forall sc :: 0 <= sc < TABLE_SIZE && IsLetter(Unshifted(sc)) ==> Shifted(sc) == Unshifted(sc) - 0x20
    ensures forall sc :: 0 <= sc < TABLE_SIZE ==> (Unshifted(sc) == 0 <==> Shifted(sc) == 0)
  {
    forall sc | 0 <= sc < TABLE_SIZE
      ensures Agree(Unshifted(sc), Shifted(sc))
    {
      if sc < 16 {
        Row0(sc);
      } else if sc < 32 {
        Row1(sc - 16);
      } else if sc < 48 {
        Row2(sc - 32);
      } else {
        Row3(sc - 48);
      }
    }
  }

  // Row0..Row3 check TablesAgree sixteen scancodes at a time.  Their
  // empty branches are deliberate: each one fixes k to a literal, so the
  // solver evaluates that one table entry instead of all sixteen at once.

  lemma Row0(k: nat)
    requires k < 16
    ensures |NS_0| == |YS_0| == 16 && Agree(NS_0[k], YS_0[k])
  {
    if k == 0 {
    } else if k == 1 {
    } else if k == 2 {
    } else if k == 3 {
    } else if k == 4 {
    } else if k == 5 {
    } else if k == 6 {
    } else if k == 7 {
    } else if k == 8 {
    } else if k == 9 {
    } else if k == 10 {
    } else if k == 11 {
    } else if k == 12 {
    } else if k == 13 {
    } else if k == 14 {
    } else {
    }
  }

  lemma Row1(k: nat)
    requires k < 16
    ensures |NS_1| == |YS_1| == 16 && Agree(NS_1[k], YS_1[k])
  {
    if k == 0 {
    } else if k == 1 {
    } else if k == 2 {
    } else if k == 3 {
    } else if k == 4 {
    } else if k == 5 {
    } else if k == 6 {
    } else if k == 7 {
    } else if k == 8 {
    } else if k == 9 {
    } else if k == 10 {
    } else if k == 11 {
    } else if k == 12 {
    } else if k == 13 {
    } else if k == 14 {
    } else {
    }
  }

  lemma Row2(k: nat)
    requires k < 16
    ensures |NS_2| == |YS_2| == 16 && Agree(NS_2[k], YS_2[k])
  {
    if k == 0 {
    } else if k == 1 {
    } else if k == 2 {
    } else if k == 3 {
    } else if k == 4 {
    } else if k == 5 {
    } else if k == 6 {
    } else if k == 7 {
    } else if k == 8 {
    } else if k == 9 {
    } else if k == 10 {
    } else if k == 11 {
    } else if k == 12 {
    } else if k == 13 {
    } else if k == 14 {
    } else {
    }
  }

  lemma Row3(k: nat)
    requires k < 14
    ensures |NS_3| == |YS_3| == 14 && Agree(NS_3[k], YS_3[k])
  {
    if k == 0 {
    } else if k == 1 {
    } else if k == 2 {
    } else if k == 3 {
    } else if k == 4 {
    } else if k == 5 {
    } else if k == 6 {
    } else if k == 7 {
    } else if k == 8 {
    } else if k == 9 {
    } else if k == 10 {
    } else if k == 11 {
    } else if k == 12 {
    } else {
    }
  }

  /** shiftcaps after a scancode; only the modifier keys change it. */
  function Modifiers(m: bv8, sc: bv8): (r: bv8)
    ensures !IsModifierKey(sc) ==> r == m
  {
    if sc == 0x3A then m ^ 0x01
    else if sc == 0x36 || sc == 0x2A then m | 0x02
    else if sc == 0xB6 || sc == 0xAA then m & 0xFD
    else if sc == 0x1D then m | 0x04
    else if sc == 0x9D then m & 0xFB
    else if sc == 0x38 then m | 0x08
    else if sc == 0xB8 then m & 0xF7
    else m
  }

  /** Caps lock toggles bit 0 and the shift keys set and clear bit 1; no
      other bit changes. */
  lemma CapsShiftBits(m: bv8, sc: bv8)
    ensures var r := Modifiers(m, sc);
      (sc == 0x3A ==> Caps(r) == !Caps(m) && r & 0xFE == m & 0xFE) &&
      (sc == 0x36 || sc == 0x2A ==> Shift(r) && r & 0xFD == m & 0xFD) &&
      (sc == 0xB6 || sc == 0xAA ==> !Shift(r) && r & 0xFD == m & 0xFD)
  {
  }

  /** Ctrl sets and clears bit 2 and alt bit 3; no other bit changes. */
  lemma CtrlAltBits(m: bv8, sc: bv8)
    ensures var r := Modifiers(m, sc);
      (sc == 0x1D ==> Ctrl(r) && r & 0xFB == m & 0xFB) &&
      (sc == 0x9D ==> !Ctrl(r) && r & 0xFB == m & 0xFB) &&
      (sc == 0x38 ==> Alt(r) && r & 0xF7 == m & 0xF7) &&
      (sc == 0xB8 ==> !Alt(r) && r & 0xF7 == m & 0xF7)
  {
  }

  /** The keycode after a scancode, given the modifier bits and the previous
      keycode: a key outside the tables, a modifier, backspace and ctrl+L
      give 0, with alt held the previous keycode is kept, a letter takes
      its shifted byte exactly when shift and caps lock disagree and any
      other key exactly when shift is held. */
  function KeyCode(m: bv8, sc: bv8, prev: bv8): (kc: bv8)
    ensures IsModifierKey(sc) || sc == BACKSPACE || sc >= F1 + MAX_TERMINALS as bv8 ==> kc == 0
    ensures !IsModifierKey(sc) && sc != BACKSPACE && sc < F1 + MAX_TERMINALS as bv8 && Alt(m) ==>
      kc == prev
    ensures ClearsLine(m, sc) ==> kc == 0
    ensures Translated(m, sc) && IsLetter(Unshifted(sc as nat)) && !ClearsLine(m, sc) ==>
      kc == if Shift(m) != Caps(m) then Shifted(sc as nat) else Unshifted(sc as nat)
    ensures Translated(m, sc) && !IsLetter(Unshifted(sc as nat)) ==>
      kc == if Shift(m) then Shifted(sc as nat) else Unshifted(sc as nat)
  {
    if IsModifierKey(sc) || sc == BACKSPACE || sc >= F1 + MAX_TERMINALS as bv8 then 0
    else if Alt(m) then prev
    else if IsLetter(Unshifted(sc as nat)) then
      if Ctrl(m) && sc == KEY_L then 0
      else if (m & 0x02) >> 1 != m & 0x01 then Shifted(sc as nat) else Unshifted(sc as nat)
    else if m & 0x02 != 0 then Shifted(sc as nat) else Unshifted(sc as nat)
  }

  /** A letter key comes out upper-case exactly when shift and caps lock
      disagree. */
  lemma LetterCase(m: bv8, sc: bv8, prev: bv8)
    requires Translated(m, sc) && IsLetter(Unshifted(sc as nat)) && !ClearsLine(m, sc)
    ensures KeyCode(m, sc, prev) == if Shift(m) != Caps(m) then Unshifted(sc as nat) - 0x20 else Unshifted(sc as nat)
  {
    TablesAgree();
  }

  /** While alt is held the keycode stays 0: pressing alt clears it, and
      no scancode handled with alt down sets it.  So an alt+F switch never
      echoes a stale key. */
  lemma AltKeepsKeycodeClear(m: bv8, sc: bv8, prev: bv8)
    requires Alt(m) ==> prev == 0
    ensures Alt(Modifiers(m, sc)) ==> KeyCode(m, sc, prev) == 0
  {
  }

  /** A nonzero keycode typed on a terminal's line: stored at the index,
      which moves on, until index 127; there only a newline (or a line
      already complete) stores anything, and it stores a newline.  The
      newline flag, once raised, stays raised. */
  function Typed(t: TermRec, kc: bv8): (r: TermRec)
    requires TermOk(t)
    ensures TermOk(r)
    ensures r.newline <==> t.newline || kc == NEWLINE
    ensures t.keyboardIdx < KEYBOARD_BUFFER_SIZE - 1 ==>
      r.keyboardIdx == t.keyboardIdx + 1 && r.keyboardBuffer == t.keyboardBuffer[t.keyboardIdx := kc]
    ensures t.keyboardIdx == KEYBOARD_BUFFER_SIZE - 1 ==>
      r.keyboardIdx == t.keyboardIdx &&
      r.keyboardBuffer == if kc == NEWLINE || t.newline
        then t.keyboardBuffer[KEYBOARD_BUFFER_SIZE - 1 := NEWLINE] else t.keyboardBuffer
    ensures r == t.(keyboardBuffer := r.keyboardBuffer, keyboardIdx := r.keyboardIdx, newline := r.newline)
  {
    if t.keyboardIdx == KEYBOARD_BUFFER_SIZE - 1 then
      if kc == NEWLINE || t.newline then
        t.(keyboardBuffer := t.keyboardBuffer[KEYBOARD_BUFFER_SIZE - 1 := NEWLINE], newline := true)
      else t
    else
      t.(keyboardBuffer := t.keyboardBuffer[t.keyboardIdx := kc],
         keyboardIdx := t.keyboardIdx + 1,
         newline := kc == NEWLINE || t.newline)
  }

  /** Whether typing `kc` on `t` echoes it. */
  predicate Echoes(t: TermRec, kc: bv8) {
    t.keyboardIdx != KEYBOARD_BUFFER_SIZE - 1 || kc == NEWLINE || t.newline
  }

  /** Ctrl+L's effect on the line: every byte zero and the index 0. */
  function Cleared(t: TermRec): (r: TermRec)
    requires TermOk(t)
    ensures TermOk(r) && r.keyboardIdx == 0 && r.newline == t.newline
    ensures forall p :: 0 <= p < KEYBOARD_BUFFER_SIZE ==> r.keyboardBuffer[p] == 0
    ensures r == t.(keyboardBuffer := r.keyboardBuffer, keyboardIdx := 0)
  {
    t.(keyboardBuffer := seq(KEYBOARD_BUFFER_SIZE, _ => 0), keyboardIdx := 0)
  }

  /** The shown terminal's line after a scancode. */
  function KeyLine(t: TermRec, m: bv8, sc: bv8, prev: bv8): (r: TermRec)
    requires TermOk(t)
    ensures TermOk(r)
  {
    if sc == BACKSPACE then DropLast(t)
    else if ClearsLine(m, sc) then Cleared(t)
    else
      var kc := KeyCode(m, sc, prev);
      if kc != 0 then Typed(t, kc) else t
  }

  /** What a scancode other than backspace sends to the screen. */
  function KeyEcho(t: TermRec, m: bv8, sc: bv8, prev: bv8): seq<Emit> {
    if ClearsLine(m, sc) then [ClearScreen(0xB8000)]
    else
      var kc := KeyCode(m, sc, prev);
      if kc != 0 && Echoes(t, kc) then [Put(0xB8000, kc)] else []
  }

  /** Typing every byte of `s` in turn. */
  function TypeAll(t: TermRec, s: seq<bv8>): (r: TermRec)
    requires TermOk(t)
    ensures TermOk(r)
  {
    if s == [] then t else Typed(TypeAll(t, s[..|s| - 1]), s[|s| - 1])
  }

  /** Typing a short text without newline onto an empty line leaves that
      text at the head of the buffer, the index just past it, the rest of
      the buffer as it was and the line incomplete. */
  lemma {:induction false} TypeText(t: TermRec, s: seq<bv8>)
    requires TermOk(t) && t.keyboardIdx == 0 && !t.newline
    requires |s| < KEYBOARD_BUFFER_SIZE && forall p :: 0 <= p < |s| ==> s[p] != NEWLINE
    ensures var r := TypeAll(t, s);
      r.keyboardIdx == |s| && !r.newline &&
      r.keyboardBuffer[..|s|] == s && r.keyboardBuffer[|s|..] == t.keyboardBuffer[|s|..]
  {
    if s != [] {
      var s' := s[..|s| - 1];
      TypeText(t, s');
      var r' := TypeAll(t, s');
      var r := Typed(r', s[|s| - 1]);
      assert r.keyboardBuffer[..|s|] == r'.keyboardBuffer[..|s'|] + [s[|s| - 1]];
      assert r.keyboardBuffer[|s|..] == r'.keyboardBuffer[|s|..];
    }
  }

  /** What the keyboard types, terminal_read gives back: after a text of
      at most 126 bytes without newline and then Enter on an empty line,
      the line is complete and terminal_read returns the text and the
      newline (with a count-respecting read, when the count is at least
      the line's length). */
  lemma TypeThenRead(t: TermRec, s: seq<bv8>, nbytes: int)
    requires TermOk(t) && t.keyboardIdx == 0 && !t.newline
    requires |s| < KEYBOARD_BUFFER_SIZE - 1 && forall p :: 0 <= p < |s| ==> s[p] != NEWLINE
    ensures var r := TypeAll(t, s + [NEWLINE]);
      r.newline && ReadCountAsWritten(r.keyboardBuffer, nbytes) == |s| + 1 &&
      (nbytes > |s| ==> ReadCount(r.keyboardBuffer, nbytes) == |s| + 1) &&
      r.keyboardBuffer[..|s| + 1] == s + [NEWLINE]
  {
    var line := s + [NEWLINE];
    assert line[..|line| - 1] == s;
    TypeText(t, s);
    var r' := TypeAll(t, s);
    assert TypeAll(t, line) == Typed(r', NEWLINE);
    EnterEndsLine(r'.keyboardBuffer, s);
  }

  /** Storing a newline just after a text without newline completes a
      line of exactly that text and the newline. */
  lemma EnterEndsLine(kb: seq<bv8>, s: seq<bv8>)
    requires |kb| == KEYBOARD_BUFFER_SIZE && |s| < KEYBOARD_BUFFER_SIZE - 1
    requires kb[..|s|] == s && forall p :: 0 <= p < |s| ==> s[p] != NEWLINE
    ensures var kb' := kb[|s| := NEWLINE];
      LineEnd(kb', 0) == |s| + 1 && kb'[..|s| + 1] == s + [NEWLINE]
  {
    var kb' := kb[|s| := NEWLINE];
    assert forall p :: 0 <= p < |s| ==> kb'[p] == s[p];
    LineEndAt(kb', |s|, 0);
    assert kb'[..|s| + 1] == s + [NEWLINE];
  }

  /** A buffer whose first newline is at position n ends its line there. */
  lemma {:induction false} LineEndAt(kb: seq<bv8>, n: nat, i: nat)
    requires i <= n < |kb| && kb[n] == NEWLINE
    requires forall p :: i <= p < n ==> kb[p] != NEWLINE
    ensures LineEnd(kb, i) == n + 1
    decreases n - i
  {
    if i < n {
      LineEndAt(kb, n, i + 1);
    }
  }

  /** Entry of Keyboard_Handler: park the active terminal's coordinates,
      print to the real screen and take up the shown terminal's
      coordinates. */
  method Focus(con: Console)
    requires con.Valid()
    modifies con
    ensures con.Valid()
    ensures con.terms == Park(old(con.terms), con.taIdx, old(con.screenX), old(con.screenY))
    ensures con.vidPointer == 0xB8000
    ensures con.screenX == con.terms[con.tsIdx].cursorX && con.screenY == con.terms[con.tsIdx].cursorY
    ensures unchanged(con`taIdx, con`tsIdx, con`cursorX, con`cursorY, con`vmem, con`output)
  {
    var ts := con.terms[con.taIdx := con.terms[con.taIdx].(cursorX := con.screenX, cursorY := con.screenY)];
    con.terms := ts;
    con.vidPointer := 0xB8000;
    con.screenX, con.screenY := ts[con.tsIdx].cursorX, ts[con.tsIdx].cursorY;
  }

  /** Exit of Keyboard_Handler: park the shown terminal's coordinates, aim
      printing back at the active terminal's page and take up its
      coordinates. */
  method Unfocus(con: Console)
    requires con.Valid() && con.vidPointer == 0xB8000
    modifies con
    ensures con.Valid()
    ensures con.terms == Park(old(con.terms), con.tsIdx, old(con.screenX), old(con.screenY))
    ensures con.vidPointer == VideoTarget(con.taIdx, con.tsIdx)
    ensures con.screenX == con.terms[con.taIdx].cursorX && con.screenY == con.terms[con.taIdx].cursorY
    ensures unchanged(con`taIdx, con`tsIdx, con`cursorX, con`cursorY, con`vmem, con`output)
  {
    var ts := con.terms[con.tsIdx := con.terms[con.tsIdx].(cursorX := con.screenX, cursorY := con.screenY)];
    con.terms := ts;
    if con.taIdx != con.tsIdx {
      con.vidPointer := ShadowAddr(con.taIdx);
    }
    con.screenX, con.screenY := ts[con.taIdx].cursorX, ts[con.taIdx].cursorY;
  }

  /** Ctrl+L: clear the screen, home the coordinates and the cursor, and
      empty the shown terminal's line. */
  method ClearShown(con: Console)
    requires con.Valid()
    modifies con
    ensures con.Valid()
    ensures con.terms == old(con.terms)[con.tsIdx := Cleared(old(con.terms[con.tsIdx]))]
    ensures con.output == old(con.output) + [ClearScreen(con.vidPointer)]
    ensures con.screenX == 0 && con.screenY == 0 && con.cursorX == 0 && con.cursorY == 0
    ensures unchanged(con`taIdx, con`tsIdx, con`vidPointer, con`vmem)
  {
    con.screenX, con.screenY := 0, 0;
    con.output := con.output + [ClearScreen(con.vidPointer)];
    con.cursorX, con.cursorY := 0, 0;
    var t := con.terms[con.tsIdx];
    var kb := t.keyboardBuffer;
    var i := 0;
    while i < KEYBOARD_BUFFER_SIZE
      invariant 0 <= i <= KEYBOARD_BUFFER_SIZE && |kb| == KEYBOARD_BUFFER_SIZE
      invariant forall p :: 0 <= p < i ==> kb[p] == 0
    {
      kb := kb[i := 0];
      i := i + 1;
    }
    assert kb == Cleared(t).keyboardBuffer;
    con.terms := con.terms[con.tsIdx := t.(keyboardBuffer := kb, keyboardIdx := 0)];
  }

  /** The append section of Keyboard_Handler, for a nonzero keycode. */
  method TypeKey(con: Console, kc: bv8)
    requires con.Valid()
    modifies con
    ensures con.Valid()
    ensures con.terms == old(con.terms)[con.tsIdx := Typed(old(con.terms[con.tsIdx]), kc)]
    ensures con.output == old(con.output) +
      if Echoes(old(con.terms[con.tsIdx]), kc) then [Put(con.vidPointer, kc)] else []
    ensures unchanged(con`taIdx, con`tsIdx, con`screenX, con`screenY, con`cursorX, con`cursorY)
    ensures unchanged(con`vidPointer, con`vmem)
  {
    var t := con.terms[con.tsIdx];
    if t.keyboardIdx == KEYBOARD_BUFFER_SIZE - 1 {
      if kc == NEWLINE || t.newline {
        con.terms := con.terms[con.tsIdx := t.(
          keyboardBuffer := t.keyboardBuffer[KEYBOARD_BUFFER_SIZE - 1 := NEWLINE], newline := true)];
        con.output := con.output + [Put(con.vidPointer, kc)];
      }
    } else {
      con.terms := con.terms[con.tsIdx := t.(
        keyboardBuffer := t.keyboardBuffer[t.keyboardIdx := kc], keyboardIdx := t.keyboardIdx + 1)];
      con.output := con.output + [Put(con.vidPointer, kc)];
      if kc == NEWLINE || t.newline {
        con.terms := con.terms[con.tsIdx := con.terms[con.tsIdx].(newline := true)];
      }
    }
  }

  /** What a scancode asks of the terminals besides its keycode. */
  datatype Action = Nothing | Erase | Show(k: nat) | Clear

  function ActionOf(m: bv8, sc: bv8): (a: Action)
    ensures a.Show? ==> a.k < MAX_TERMINALS
  {
    if sc == BACKSPACE then Erase
    else if SwitchesTo(m, sc) then Show((sc - F1) as nat)
    else if ClearsLine(m, sc) then Clear
    else Nothing
  }

  /** Only a scancode with no other action can type: given the alt
      invariant, backspace, a switch and ctrl+L all leave the keycode 0. */
  lemma ActionsDoNotType(m: bv8, sc: bv8, prev: bv8)
    requires Alt(m) ==> prev == 0
    ensures ActionOf(m, sc) != Nothing ==> KeyCode(m, sc, prev) == 0
  {
  }

  /** Two terminal records that differ at most in their saved cursor. */
  predicate SameExceptCursor(a: TermRec, b: TermRec) {
    a == b.(cursorX := a.cursorX, cursorY := a.cursorY)
  }

  /** The line effect of a key does not depend on the saved cursor. */
  lemma KeyLineIgnoresCursor(a: TermRec, b: TermRec, m: bv8, sc: bv8, prev: bv8)
    requires TermOk(a) && TermOk(b) && SameExceptCursor(a, b)
    ensures SameExceptCursor(KeyLine(a, m, sc, prev), KeyLine(b, m, sc, prev))
    ensures KeyEcho(a, m, sc, prev) == KeyEcho(b, m, sc, prev)
  {
  }

  /** The terminals after a key on terminal `k`. */
  function KeyLines(ts: seq<TermRec>, k: nat, m: bv8, sc: bv8, prev: bv8): (r: seq<TermRec>)
    requires TermsOk(ts) && k < MAX_TERMINALS
    ensures TermsOk(r)
  {
    ts[k := KeyLine(ts[k], m, sc, prev)]
  }

  /** Two sets of terminals that differ at most in saved cursors. */
  predicate SameLines(a: seq<TermRec>, b: seq<TermRec>) {
    |a| == |b| && forall i :: 0 <= i < |a| ==> SameExceptCursor(a[i], b[i])
  }

  lemma KeyLinesIgnoreCursor(a: seq<TermRec>, b: seq<TermRec>, k: nat, m: bv8, sc: bv8, prev: bv8)
    requires TermsOk(a) && TermsOk(b) && k < MAX_TERMINALS && SameLines(b, a)
    ensures SameLines(KeyLines(b, k, m, sc, prev), KeyLines(a, k, m, sc, prev))
    ensures KeyEcho(a[k], m, sc, prev) == KeyEcho(b[k], m, sc, prev)
  {
    KeyLineIgnoresCursor(b[k], a[k], m, sc, prev);
  }

  /** Terminal `k` with its saved cursor set to (x, y). */
  function Park(ts: seq<TermRec>, k: nat, x: nat, y: nat): (r: seq<TermRec>)
    requires TermsOk(ts) && k < MAX_TERMINALS && x < NUM_COLS && y < NUM_ROWS
    ensures TermsOk(r) && SameLines(r, ts)
    ensures r[k].cursorX == x && r[k].cursorY == y
  {
    ts[k := ts[k].(cursorX := x, cursorY := y)]
  }

  lemma SameLinesTrans(a: seq<TermRec>, b: seq<TermRec>, c: seq<TermRec>)
    requires SameLines(a, b) && SameLines(b, c)
    ensures SameLines(a, c)
  {
  }

  /** The terminals after action `a` with keycode `kc` on the shown
      terminal `k`, whose screen coordinates are (x, y). */
  function ActionLines(ts: seq<TermRec>, k: nat, x: nat, y: nat, a: Action, kc: bv8): (r: seq<TermRec>)
    requires TermsOk(ts) && k < MAX_TERMINALS && x < NUM_COLS && y < NUM_ROWS
    ensures TermsOk(r)
  {
    match a
    case Erase => ts[k := DropLast(ts[k])]
    case Show(_) => Park(ts, k, x, y)
    case Clear => ts[k := Cleared(ts[k])]
    case Nothing => if kc != 0 then ts[k := Typed(ts[k], kc)] else ts
  }

  /** What action `a` with keycode `kc` sends to the screen, backspace
      aside. */
  function ActionEcho(t: TermRec, a: Action, kc: bv8): seq<Emit> {
    match a
    case Clear => [ClearScreen(0xB8000)]
    case Nothing => if kc != 0 && Echoes(t, kc) then [Put(0xB8000, kc)] else []
    case _ => []
  }

  /** What backspace on terminal `t` sends to the screen from coordinates
      (x, y): one blank where the erased cells begin, unless the walk back
      runs off the top-left corner.  An empty line erases no cells and
      still blanks the cell under the cursor. */
  function EraseEcho(t: TermRec, x: nat, y: nat): (r: seq<Emit>)
    requires TermOk(t)
    ensures |r| <= 1 && (r != [] ==> r == [Put(0xB8000, SPACE)])
    ensures t.keyboardIdx == 0 ==> r == [Put(0xB8000, SPACE)]
  {
    var prebp := if t.keyboardIdx != 0 then t.keyboardBuffer[t.keyboardIdx - 1] else 0;
    if StepBack(x, y, EraseWidth(prebp)).Some? then [Put(0xB8000, SPACE)] else []
  }

  /** Splitting a scancode into its action and keycode loses nothing: a
      switch only parks the shown terminal's coordinates, and every other
      action has the key's effect on the shown line and the screen. */
  lemma ActionMatchesKey(ts: seq<TermRec>, k: nat, x: nat, y: nat, m: bv8, sc: bv8, prev: bv8)
    requires TermsOk(ts) && k < MAX_TERMINALS && x < NUM_COLS && y < NUM_ROWS
    requires Alt(m) ==> prev == 0
    ensures var lines := ActionLines(ts, k, x, y, ActionOf(m, sc), KeyCode(m, sc, prev));
      lines == if SwitchesTo(m, sc) then Park(ts, k, x, y) else KeyLines(ts, k, m, sc, prev)
    ensures sc != BACKSPACE ==>
      ActionEcho(ts[k], ActionOf(m, sc), KeyCode(m, sc, prev)) == KeyEcho(ts[k], m, sc, prev)
  {
    ActionsDoNotType(m, sc, prev);
  }

  /** The action part of Keyboard_Handler, printing to the real screen:
      backspace, a terminal switch, ctrl+L, or typing a nonzero keycode. */
  method Perform(a: Action, kc: bv8, con: Console)
    requires con.Valid() && con.vidPointer == 0xB8000
    requires a.Show? ==> a.k < MAX_TERMINALS
    modifies con
    ensures con.Valid() && con.vidPointer == 0xB8000 && con.taIdx == old(con.taIdx)
    ensures con.tsIdx == if a.Show? then a.k else old(con.tsIdx)
    ensures con.vmem == if a.Show? then ShowSwap(old(con.vmem), old(con.tsIdx), a.k) else old(con.vmem)
    ensures con.terms == ActionLines(old(con.terms), old(con.tsIdx), old(con.screenX), old(con.screenY), a, kc)
    ensures a.Show? ==>
      con.screenX == con.terms[con.tsIdx].cursorX && con.screenY == con.terms[con.tsIdx].cursorY
    ensures !a.Erase? ==> con.output == old(con.output) + ActionEcho(old(con.terms[con.tsIdx]), a, kc)
    ensures a.Erase? ==>
      con.output == old(con.output) + EraseEcho(old(con.terms[con.tsIdx]), old(con.screenX), old(con.screenY))
  {
    match a {
      case Erase =>
        con.Backspace(con.tsIdx);
      case Show(k) =>
        con.SetShownTerminal(k);
      case Clear =>
        ClearShown(con);
      case Nothing =>
        if kc != 0 {
          TypeKey(con, kc);
        }
    }
  }

  /** The terminals over a whole Keyboard_Handler: the active
      terminal's coordinates parked at entry, the key's effect (or a
      switch that parks the shown terminal's coordinates), and the shown
      terminal's coordinates parked at exit.  Up to saved cursors this is
      the key's effect alone, and a terminal that is active but was not
      shown gets back the coordinates it had. */
  lemma HandlerLines(ts0: seq<TermRec>, ta: nat, x0: nat, y0: nat, k: nat, m: bv8, sc: bv8, prev: bv8,
                     x1: nat, y1: nat, ts2: seq<TermRec>, k2: nat, x2: nat, y2: nat)
    requires TermsOk(ts0) && ta < MAX_TERMINALS && k < MAX_TERMINALS && k2 < MAX_TERMINALS
    requires x0 < NUM_COLS && y0 < NUM_ROWS && x1 < NUM_COLS && y1 < NUM_ROWS
    requires x2 < NUM_COLS && y2 < NUM_ROWS
    requires Alt(m) ==> prev == 0
    requires ts2 == if SwitchesTo(m, sc)
      then Park(Park(ts0, ta, x0, y0), k, x1, y1)
      else KeyLines(Park(ts0, ta, x0, y0), k, m, sc, prev)
    requires SwitchesTo(m, sc) ==> x2 == ts2[k2].cursorX && y2 == ts2[k2].cursorY
    requires !SwitchesTo(m, sc) ==> k2 == k
    ensures TermsOk(ts2)
    ensures KeyEcho(Park(ts0, ta, x0, y0)[k], m, sc, prev) == KeyEcho(ts0[k], m, sc, prev)
    ensures SameLines(Park(ts2, k2, x2, y2), KeyLines(ts0, k, m, sc, prev))
    ensures ta != k ==> Park(ts2, k2, x2, y2)[ta].cursorX == x0 && Park(ts2, k2, x2, y2)[ta].cursorY == y0
  {
    var ts1 := Park(ts0, ta, x0, y0);
    var after := KeyLines(ts0, k, m, sc, prev);
    KeyLinesIgnoreCursor(ts0, ts1, k, m, sc, prev);
    if SwitchesTo(m, sc) {
      ActionsDoNotType(m, sc, prev);
      assert after == ts0;
      SameLinesTrans(ts2, ts1, ts0);
    }
    SameLinesTrans(Park(ts2, k2, x2, y2), ts2, after);
  }

  class KeyboardState {
    var shiftcaps: bv8
    var keycode: bv8

    /** With alt held the keycode is 0 (see AltKeepsKeycodeClear). */
    ghost predicate Valid()
      reads this
    {
      Alt(shiftcaps) ==> keycode == 0
    }

    /** Both globals start out zero. */
    constructor ()
      ensures Valid() && shiftcaps == 0 && keycode == 0
    {
      shiftcaps, keycode := 0, 0;
    }

    /** The body of Keyboard_Handler between its coordinate bookkeeping:
        the if-chain updates the modifier bits and the keycode (Modifiers,
        KeyCode) and runs backspace, a terminal switch or ctrl+L on the
        shown terminal (ActionOf); then a nonzero keycode is typed. */
    method Dispatch(sc: bv8, con: Console)
      requires Valid() && con.Valid() && con.vidPointer == 0xB8000
      modifies this, con
      ensures Valid() && con.Valid() && con.vidPointer == 0xB8000
      ensures shiftcaps == Modifiers(old(shiftcaps), sc)
      ensures keycode == KeyCode(old(shiftcaps), sc, old(keycode))
      ensures con.taIdx == old(con.taIdx)
      ensures con.tsIdx == if SwitchesTo(old(shiftcaps), sc) then (sc - F1) as nat else old(con.tsIdx)
      ensures con.vmem == if SwitchesTo(old(shiftcaps), sc)
        then ShowSwap(old(con.vmem), old(con.tsIdx), con.tsIdx) else old(con.vmem)
      ensures con.terms == if SwitchesTo(old(shiftcaps), sc)
        then Park(old(con.terms), old(con.tsIdx), old(con.screenX), old(con.screenY))
        else KeyLines(old(con.terms), old(con.tsIdx), old(shiftcaps), sc, old(keycode))
      ensures SwitchesTo(old(shiftcaps), sc) ==>
        con.screenX == con.terms[con.tsIdx].cursorX && con.screenY == con.terms[con.tsIdx].cursorY
      ensures sc != BACKSPACE ==>
        con.output == old(con.output) + KeyEcho(old(con.terms[con.tsIdx]), old(shiftcaps), sc, old(keycode))
      ensures sc == BACKSPACE ==>
        con.output == old(con.output) + EraseEcho(old(con.terms[con.tsIdx]), old(con.screenX), old(con.screenY))
    {
      var m, prev := shiftcaps, keycode;
      AltKeepsKeycodeClear(m, sc, prev);
      ActionMatchesKey(con.terms, con.tsIdx, con.screenX, con.screenY, m, sc, prev);
      shiftcaps, keycode := Modifiers(m, sc), KeyCode(m, sc, prev);
      var a := ActionOf(m, sc);
      assert a.Erase? <==> sc == BACKSPACE;
      Perform(a, keycode, con);
    }

    /** Keyboard_Handler for one scancode.  Afterwards printing is aimed
        at the active terminal's page again and the active terminal's
        coordinates are back in place; when the active terminal is not
        the one the key went to, its coordinates are exactly as before. */
    method Handle(sc: bv8, con: Console)
      requires Valid() && con.Valid()
      modifies this, con
      ensures Valid() && con.Valid()
      ensures shiftcaps == Modifiers(old(shiftcaps), sc)
      ensures keycode == KeyCode(old(shiftcaps), sc, old(keycode))
      ensures con.taIdx == old(con.taIdx)
      ensures con.tsIdx == if SwitchesTo(old(shiftcaps), sc) then (sc - F1) as nat else old(con.tsIdx)
      ensures con.vidPointer == VideoTarget(con.taIdx, con.tsIdx)
      ensures con.screenX == con.terms[con.taIdx].cursorX && con.screenY == con.terms[con.taIdx].cursorY
      ensures con.taIdx != old(con.tsIdx) ==>
        con.screenX == old(con.screenX) && con.screenY == old(con.screenY)
      ensures SameLines(con.terms, KeyLines(old(con.terms), old(con.tsIdx), old(shiftcaps), sc, old(keycode)))
      ensures con.vmem == if SwitchesTo(old(shiftcaps), sc)
        then ShowSwap(old(con.vmem), old(con.tsIdx), con.tsIdx) else old(con.vmem)
      ensures sc != BACKSPACE ==>
        con.output == old(con.output) + KeyEcho(old(con.terms[con.tsIdx]), old(shiftcaps), sc, old(keycode))
      ensures sc == BACKSPACE ==>
        var ts1 := Park(old(con.terms), old(con.taIdx), old(con.screenX), old(con.screenY));
        con.output == old(con.output) +
          EraseEcho(old(con.terms[con.tsIdx]), ts1[old(con.tsIdx)].cursorX, ts1[old(con.tsIdx)].cursorY)
    {
      ghost var ts0, k, m, prev := con.terms, con.tsIdx, shiftcaps, keycode;
      ghost var ta, x0, y0 := con.taIdx, con.screenX, con.screenY;
      Focus(con);
      ghost var x1, y1 := con.screenX, con.screenY;
      assert con.terms[k].keyboardBuffer == ts0[k].keyboardBuffer;
      assert EraseEcho(con.terms[k], x1, y1) == EraseEcho(ts0[k], x1, y1);
      Dispatch(sc, con);
      ghost var ts2, k2, x2, y2 := con.terms, con.tsIdx, con.screenX, con.screenY;
      ghost var out2, v2 := con.output, con.vmem;
      Unfocus(con);
      assert con.output == out2 && con.vmem == v2;
      HandlerLines(ts0, ta, x0, y0, k, m, sc, prev, x1, y1, ts2, k2, x2, y2);
    }
  }
}
