/**
 The sprite (OBJ) half of the scanline renderer, src/ppu.c:56-139: the OAM scan that
 keeps the first ten overlapping entries, the priority sort, and the claimed-pixel pass
 over the framebuffer row.

 The declarative rule it must equal is `ObjLine.Wins`: in each column, among the kept
 entries with a non-zero colour there, the smallest (x, OAM index) decides the pixel.
 */
module Sprites {
  import opened Bytes

  const LCD_WIDTH := 160
  const LCD_HEIGHT := 144
  const OAM_ENTRY_COUNT := 40
  const MAX_SPRITES_PER_LINE := 10

  type Oam = s: seq<u8> | |s| == 160 witness seq(160, _ => 0)
  type Vram = s: seq<u8> | |s| == 0x2000 witness seq(0x2000, _ => 0)

  /** One OAM entry as the scan latches it. `x` is the screen column of its left edge. */
  datatype Sprite = Sprite(oamIndex: nat, x: int, y: u8, tile: u8, flags: u8) {
    predicate BgPriority() { Bit(flags, 7) == 1 }
    predicate YFlip() { Bit(flags, 6) == 1 }
    predicate XFlip() { Bit(flags, 5) == 1 }
    predicate SecondPalette() { Bit(flags, 4) == 1 }
  }

  /** The sort key of compare_sprites_dmg: smaller x first, OAM index breaks ties. */
  predicate Beats(a: Sprite, b: Sprite) {
    a.x < b.x || (a.x == b.x && a.oamIndex < b.oamIndex)
  }

  /** The colour id in bit `bit` of a two-plane tile row. */
  function ColorId(low: u8, high: u8, bit: nat): (c: nat)
    ensures c < 4
  {
    2 * Bit(high, bit) + Bit(low, bit)
  }

  /** `(palette >> (color * 2)) & 3`. */
  function Shade(palette: u8, color: nat): (s: u8)
    ensures s < 4
  {
    2 * Bit(palette, 2 * color + 1) + Bit(palette, 2 * color)
  }

  /** Everything the sprite pass reads for one scanline. */
  datatype ObjLine = ObjLine(oam: Oam, vram: Vram, tall: bool, obp0: u8, obp1: u8, ly: u8) {
    function Height(): nat { if tall then 16 else 8 }

    function At(i: nat): Sprite
      requires i < OAM_ENTRY_COUNT
    {
      Sprite(i, oam[4 * i + 1] as int - 8, oam[4 * i], oam[4 * i + 2], oam[4 * i + 3])
    }

    predicate Covers(s: Sprite) {
      s.y - 16 <= ly < s.y - 16 + Height()
    }

    /** How many of the first `i` entries overlap this line. */
    function CoveringBefore(i: nat): nat
      requires i <= OAM_ENTRY_COUNT
    {
      if i == 0 then 0 else CoveringBefore(i - 1) + if Covers(At(i - 1)) then 1 else 0
    }

    /** Entry `i` is one of the first ten that overlap this line. */
    predicate Selected(i: nat) {
      i < OAM_ENTRY_COUNT && Covers(At(i)) && CoveringBefore(i) < MAX_SPRITES_PER_LINE
    }

    /** The row of the 8- or 16-line pattern shown on this line, after the vertical flip. */
    function PatternRow(s: Sprite): (r: nat)
      requires Covers(s)
      ensures r < Height()
    {
      var line := ly - (s.y - 16);
      if s.YFlip() then Height() - 1 - line else line
    }

    /** VRAM offset of the low plane byte of the row shown; 8x16 patterns are two tiles. */
    function RowOffset(s: Sprite): (o: nat)
      requires Covers(s)
      ensures o + 1 < 0x1000
    {
      var row := PatternRow(s);
      if tall then
        (s.tile / 2 * 2 + row / 8) * 16 + row % 8 * 2
      else
        s.tile * 16 + row * 2
    }

    function ColorAt(s: Sprite, px: nat): (c: nat)
      requires Covers(s) && px < 8
      ensures c < 4
    {
      ColorId(vram[RowOffset(s)], vram[RowOffset(s) + 1], if s.XFlip() then px else 7 - px)
    }

    /** Sprite `s` has a non-transparent pixel in column `x`. */
    predicate Opaque(s: Sprite, x: nat) {
      Covers(s) && 0 <= x - s.x < 8 && ColorAt(s, x - s.x) != 0
    }

    /** The pixel once `s` owns column `x`: kept if `s` is behind a non-zero background. */
    function Blend(s: Sprite, x: nat, bgColor: u8, before: u8): u8
      requires Opaque(s, x)
    {
      if s.BgPriority() && bgColor != 0 then before
      else Shade(if s.SecondPalette() then obp1 else obp0, ColorAt(s, x - s.x))
    }

    predicate Candidate(i: nat, x: nat) {
      Selected(i) && Opaque(At(i), x)
    }

    /** Entry `i` decides column `x`. */
    ghost predicate Wins(i: nat, x: nat) {
      Candidate(i, x) && forall j: nat :: Candidate(j, x) && j != i ==> Beats(At(i), At(j))
    }

    /** The declarative rule for column `x`. */
    ghost function Pixel(x: nat, bgColor: u8, before: u8): u8 {
      if i: nat :| Wins(i, x) then Blend(At(i), x, bgColor, before) else before
    }
  }

  // ---------------------------------------------------------------------------
  // The rule is well defined
  // ---------------------------------------------------------------------------

  /** At most one entry wins a column. */
  lemma WinnerUnique(line: ObjLine, x: nat, i: nat, j: nat)
    requires line.Wins(i, x) && line.Wins(j, x)
    ensures i == j
  {
  }

  /** Some entry wins every column that has a candidate. */
  lemma {:induction false} WinnerExists(line: ObjLine, x: nat, n: nat) returns (w: nat)
    requires n <= OAM_ENTRY_COUNT && exists i: nat :: i < n && line.Candidate(i, x)
    ensures w < n && line.Candidate(w, x)
    ensures forall j: nat :: j < n && j != w && line.Candidate(j, x) ==> Beats(line.At(w), line.At(j))
  {
    hide ObjLine.Candidate;
    if i: nat :| i < n - 1 && line.Candidate(i, x) {
      w := WinnerExists(line, x, n - 1);
      if line.Candidate(n - 1, x) && Beats(line.At(n - 1), line.At(w)) {
        w := n - 1;
      }
    } else {
      w := n - 1;
    }
  }

  /** The pixel rule, unfolded: a column with no candidate keeps its pixel, and any winner decides it. */
  lemma PixelRule(line: ObjLine, x: nat, bgColor: u8, before: u8)
    ensures (forall i: nat :: !line.Candidate(i, x)) ==> line.Pixel(x, bgColor, before) == before
    ensures forall i: nat :: line.Wins(i, x) ==>
              line.Pixel(x, bgColor, before) == line.Blend(line.At(i), x, bgColor, before)
    ensures (exists i: nat :: line.Candidate(i, x)) ==> exists i: nat :: line.Wins(i, x)
  {
    forall i: nat, j: nat | line.Wins(i, x) && line.Wins(j, x) ensures i == j {
      WinnerUnique(line, x, i, j);
    }
    if i: nat :| line.Candidate(i, x) {
      var w := WinnerExists(line, x, OAM_ENTRY_COUNT);
      assert line.Wins(w, x);
    }
  }

  /** At most ten entries are ever selected, and they are the earliest overlapping ones. */
  lemma {:induction false} SelectedAreFirstTen(line: ObjLine, i: nat, j: nat)
    requires j < i < OAM_ENTRY_COUNT && line.Covers(line.At(j))
    ensures line.CoveringBefore(j) < line.CoveringBefore(i)
    ensures line.Selected(i) ==> line.Selected(j)
  {
    if j < i - 1 {
      SelectedAreFirstTenStep(line, i - 1, j);
    }
  }

  lemma {:induction false} SelectedAreFirstTenStep(line: ObjLine, i: nat, j: nat)
    requires j < i < OAM_ENTRY_COUNT && line.Covers(line.At(j))
    ensures line.CoveringBefore(j) < line.CoveringBefore(i)
  {
    if j < i - 1 {
      SelectedAreFirstTenStep(line, i - 1, j);
    }
  }

  // ---------------------------------------------------------------------------
  // OAM scan (src/ppu.c:70-85)
  // ---------------------------------------------------------------------------

  ghost predicate Scanned(line: ObjLine, visible: seq<Sprite>) {
    && (forall s <- visible :: line.Selected(s.oamIndex) && s == line.At(s.oamIndex))
    && (forall i: nat :: line.Selected(i) ==> line.At(i) in visible)
    && (forall k, l :: 0 <= k < l < |visible| ==> visible[k].oamIndex < visible[l].oamIndex)
  }

  lemma {:induction false} CoveringBeforeGrows(line: ObjLine, i: nat, j: nat)
    requires i <= j <= OAM_ENTRY_COUNT
    ensures line.CoveringBefore(i) <= line.CoveringBefore(j)
  {
    if i < j {
      CoveringBeforeGrows(line, i, j - 1);
    }
  }

  /** The scan has looked at the first `i` entries. */
  ghost predicate ScannedTo(line: ObjLine, visible: seq<Sprite>, i: nat) {
    && i <= OAM_ENTRY_COUNT && |visible| == line.CoveringBefore(i) <= MAX_SPRITES_PER_LINE
    && (forall s <- visible :: s.oamIndex < i && line.Selected(s.oamIndex) && s == line.At(s.oamIndex))
    && (forall j: nat :: j < i && line.Selected(j) ==> line.At(j) in visible)
    && (forall k, l :: 0 <= k < l < |visible| ==> visible[k].oamIndex < visible[l].oamIndex)
  }

  lemma SkipEntry(line: ObjLine, visible: seq<Sprite>, i: nat)
    requires i < OAM_ENTRY_COUNT && ScannedTo(line, visible, i) && !line.Covers(line.At(i))
    ensures ScannedTo(line, visible, i + 1)
  {
    hide ObjLine.Covers, ObjLine.At;
  }

  lemma KeepEntry(line: ObjLine, visible: seq<Sprite>, i: nat)
    requires i < OAM_ENTRY_COUNT && ScannedTo(line, visible, i) && line.Covers(line.At(i)) && line.At(i).oamIndex == i
    requires |visible| < MAX_SPRITES_PER_LINE
    ensures ScannedTo(line, visible + [line.At(i)], i + 1)
  {
    hide ObjLine.Covers, ObjLine.At;
  }

  lemma ScanDone(line: ObjLine, visible: seq<Sprite>, i: nat)
    requires ScannedTo(line, visible, i) && (i == OAM_ENTRY_COUNT || |visible| == MAX_SPRITES_PER_LINE)
    ensures Scanned(line, visible)
  {
    hide ObjLine.Covers, ObjLine.At;
    forall j: nat | line.Selected(j) ensures j < i {
      if i <= j {
        CoveringBeforeGrows(line, i, j);
      }
    }
  }

  method ScanOam(line: ObjLine) returns (visible: seq<Sprite>)
    ensures |visible| <= MAX_SPRITES_PER_LINE
    ensures Scanned(line, visible)
  {
    visible := [];
    var i := 0;
    assert ScannedTo(line, visible, 0);
    hide ScannedTo;
    while i < OAM_ENTRY_COUNT && |visible| < MAX_SPRITES_PER_LINE
      invariant 0 <= i <= OAM_ENTRY_COUNT && |visible| <= MAX_SPRITES_PER_LINE
      invariant ScannedTo(line, visible, i)
    {
      var yPos := line.oam[i * 4];
      var screenY: int := yPos as int - 16;
      if line.ly >= screenY && line.ly < screenY + line.Height() {
        KeepEntry(line, visible, i);
        visible := visible + [Sprite(i, line.oam[i * 4 + 1] as int - 8, yPos, line.oam[i * 4 + 2], line.oam[i * 4 + 3])];
      } else {
        SkipEntry(line, visible, i);
      }
      i := i + 1;
    }
    ScanDone(line, visible, i);
  }

  // ---------------------------------------------------------------------------
  // Priority sort (src/ppu.c:56-61 and 87-90)
  // ---------------------------------------------------------------------------

  ghost predicate Sorted(s: seq<Sprite>) {
    forall k, l :: 0 <= k < l < |s| ==> !Beats(s[l], s[k])
  }

  /** Insertion sort stands for the C library's qsort; `ScanHasOneOrder` shows the choice cannot matter. */
  method SortSprites(s: seq<Sprite>) returns (r: seq<Sprite>)
    ensures multiset(r) == multiset(s)
    ensures Sorted(r)
  {
    r := [];
    for n := 0 to |s|
      invariant multiset(r) == multiset(s[..n])
      invariant Sorted(r)
    {
      assert s[..n + 1] == s[..n] + [s[n]];
      r := InsertSprite(r, s[n]);
    }
    assert s[..|s|] == s;
  }

  method InsertSprite(r: seq<Sprite>, x: Sprite) returns (r': seq<Sprite>)
    requires Sorted(r)
    ensures Sorted(r') && multiset(r') == multiset(r) + multiset{x}
  {
    var p := 0;
    while p < |r| && !Beats(x, r[p])
      invariant 0 <= p <= |r|
      invariant forall k :: 0 <= k < p ==> !Beats(x, r[k])
    {
      p := p + 1;
    }
    r' := r[..p] + [x] + r[p..];
    InsertionSorted(r, x, p);
    assert r == r[..p] + r[p..];
  }

  lemma InsertionSorted(r: seq<Sprite>, x: Sprite, p: nat)
    requires Sorted(r) && p <= |r| && (forall k :: 0 <= k < p ==> !Beats(x, r[k])) && (p < |r| ==> Beats(x, r[p]))
    ensures Sorted(r[..p] + [x] + r[p..])
  {
    var r' := r[..p] + [x] + r[p..];
    forall k, l | 0 <= k < l < |r'| ensures !Beats(r'[l], r'[k]) {
      if k == p {
        assert r'[l] == r[l - 1] && (l - 1 == p || !Beats(r[l - 1], r[p]));
      }
    }
  }

  /** Any two different elements are ordered by the sort key. */
  ghost predicate KeysDiffer(s: seq<Sprite>) {
    forall k, l :: 0 <= k < |s| && 0 <= l < |s| && s[k] != s[l] ==> Beats(s[k], s[l]) || Beats(s[l], s[k])
  }

  /** Scanned entries have distinct keys, so every sort by `Beats` gives the same list. */
  lemma {:induction false} SortIsUnique(a: seq<Sprite>, b: seq<Sprite>)
    requires multiset(a) == multiset(b) && Sorted(a) && Sorted(b) && KeysDiffer(a)
    ensures a == b
  {
    assert |multiset(a)| == |multiset(b)|;
    if a != [] {
      HeadsAgree(a, b);
      TailsAgree(a, b);
      SortIsUnique(a[1..], b[1..]);
      assert a == [a[0]] + a[1..] && b == [b[0]] + b[1..];
    }
  }

  lemma HeadsAgree(a: seq<Sprite>, b: seq<Sprite>)
    requires multiset(a) == multiset(b) && Sorted(a) && Sorted(b) && KeysDiffer(a) && a != [] && b != []
    ensures a[0] == b[0]
  {
    assert a[0] in multiset(b) && b[0] in multiset(a);
    var k :| 0 <= k < |a| && a[k] == b[0];
    var l :| 0 <= l < |b| && b[l] == a[0];
  }

  lemma TailsAgree(a: seq<Sprite>, b: seq<Sprite>)
    requires multiset(a) == multiset(b) && a != [] && b != [] && a[0] == b[0]
    ensures multiset(a[1..]) == multiset(b[1..])
  {
    assert a == [a[0]] + a[1..] && b == [b[0]] + b[1..];
    assert multiset(a) == multiset{a[0]} + multiset(a[1..]);
    assert multiset(b) == multiset{b[0]} + multiset(b[1..]);
    assert multiset(a) - multiset{a[0]} == multiset(a[1..]);
  }

  /** What ScanOam returns does have distinct keys. */
  lemma ScannedKeysDiffer(line: ObjLine, visible: seq<Sprite>)
    requires Scanned(line, visible)
    ensures KeysDiffer(visible)
  {
  }

  /** So a line's sprites have one order only: any two sorts of what was scanned agree. */
  lemma ScanHasOneOrder(line: ObjLine, visible: seq<Sprite>, a: seq<Sprite>, b: seq<Sprite>)
    requires Scanned(line, visible) && multiset(a) == multiset(visible) == multiset(b) && Sorted(a) && Sorted(b)
    ensures a == b
  {
    ScannedKeysDiffer(line, visible);
    forall k, l | 0 <= k < |a| && 0 <= l < |a| && a[k] != a[l] ensures Beats(a[k], a[l]) || Beats(a[l], a[k]) {
      assert a[k] in multiset(visible) && a[l] in multiset(visible);
      var i :| 0 <= i < |visible| && visible[i] == a[k];
      var j :| 0 <= j < |visible| && visible[j] == a[l];
    }
    SortIsUnique(a, b);
  }

  // ---------------------------------------------------------------------------
  // Claimed-pixel pass (src/ppu.c:92-138)
  // ---------------------------------------------------------------------------

  /** Index of the first of the leading `k` sprites that is opaque in column `x`, or `k`. */
  function FirstOpaque(line: ObjLine, s: seq<Sprite>, k: nat, x: nat): (f: nat)
    requires k <= |s|
    ensures f <= k
    ensures f < k ==> line.Opaque(s[f], x)
    ensures forall j :: 0 <= j < f ==> !line.Opaque(s[j], x)
  {
    if k == 0 then 0
    else
      var f := FirstOpaque(line, s, k - 1, x);
      if f < k - 1 || line.Opaque(s[k - 1], x) then f else k
  }

  /** The pixel of column `x` after the leading `k` sprites have been drawn. */
  function Drawn(line: ObjLine, s: seq<Sprite>, k: nat, x: nat, bgColor: u8, before: u8): u8
    requires k <= |s|
  {
    var f := FirstOpaque(line, s, k, x);
    if f < k then line.Blend(s[f], x, bgColor, before) else before
  }

  lemma KeysAreTotal(a: Sprite, b: Sprite)
    requires a.oamIndex != b.oamIndex
    ensures Beats(a, b) || Beats(b, a)
  {
  }

  /** The first opaque sprite beats every other candidate of its column. */
  lemma FirstBeats(line: ObjLine, visible: seq<Sprite>, s: seq<Sprite>, x: nat, f: nat, j: nat)
    requires Scanned(line, visible) && multiset(s) == multiset(visible) && Sorted(s)
    requires f == FirstOpaque(line, s, |s|, x) < |s| && line.Candidate(j, x) && j != s[f].oamIndex
    ensures Beats(s[f], line.At(j))
  {
    hide ObjLine.Opaque, ObjLine.Covers, ObjLine.CoveringBefore, FirstOpaque, Beats;
    assert line.At(j) in multiset(visible);
    var k :| 0 <= k < |s| && s[k] == line.At(j);
    assert f < k;
    KeysAreTotal(s[f], s[k]);
  }

  /** So it wins the column. */
  lemma FirstIsWinner(line: ObjLine, visible: seq<Sprite>, s: seq<Sprite>, x: nat, f: nat)
    requires Scanned(line, visible) && multiset(s) == multiset(visible) && Sorted(s)
    requires f == FirstOpaque(line, s, |s|, x) < |s|
    ensures line.Wins(s[f].oamIndex, x) && s[f] == line.At(s[f].oamIndex)
  {
    assert s[f] in multiset(visible);
    hide ObjLine.Opaque, ObjLine.Covers, ObjLine.CoveringBefore, FirstOpaque, Beats, Sorted;
    forall j: nat | line.Candidate(j, x) && j != s[f].oamIndex ensures Beats(s[f], line.At(j)) {
      FirstBeats(line, visible, s, x, f, j);
    }
  }

  lemma NoneOpaque(line: ObjLine, visible: seq<Sprite>, s: seq<Sprite>, x: nat, i: nat)
    requires Scanned(line, visible) && multiset(s) == multiset(visible) && FirstOpaque(line, s, |s|, x) == |s|
    ensures !line.Candidate(i, x)
  {
    hide ObjLine.Opaque, ObjLine.Covers, ObjLine.CoveringBefore, FirstOpaque;
    if line.Selected(i) {
      assert line.At(i) in multiset(visible);
      assert line.At(i) in s;
    }
  }

  /** In a sorted scan result, the first opaque sprite of a column is the winner of that column. */
  lemma FirstOpaqueWins(line: ObjLine, visible: seq<Sprite>, s: seq<Sprite>, x: nat, bgColor: u8, before: u8)
    requires Scanned(line, visible) && multiset(s) == multiset(visible) && Sorted(s)
    ensures Drawn(line, s, |s|, x, bgColor, before) == line.Pixel(x, bgColor, before)
  {
    hide ObjLine.Opaque, ObjLine.Blend, ObjLine.Pixel, ObjLine.Wins, FirstOpaque, Scanned, Sorted;
    PixelRule(line, x, bgColor, before);
    var f := FirstOpaque(line, s, |s|, x);
    if f < |s| {
      FirstIsWinner(line, visible, s, x, f);
    } else {
      forall i: nat ensures !line.Candidate(i, x) {
        NoneOpaque(line, visible, s, x, i);
      }
    }
  }

  /** One more sprite draws where it is opaque and nothing before it was. */
  lemma DrawnGrows(line: ObjLine, s: seq<Sprite>, i: nat, x: nat, bgColor: u8, before: u8)
    requires i < |s|
    ensures FirstOpaque(line, s, i + 1, x) < i + 1 <==> FirstOpaque(line, s, i, x) < i || line.Opaque(s[i], x)
    ensures Drawn(line, s, i + 1, x, bgColor, before) ==
      if FirstOpaque(line, s, i, x) == i && line.Opaque(s[i], x) then line.Blend(s[i], x, bgColor, before)
      else Drawn(line, s, i, x, bgColor, before)
  {
    hide ObjLine.Opaque, ObjLine.Blend;
  }

  lemma RowOf(ly: nat, p: nat)
    ensures 0 <= p - ly * LCD_WIDTH < LCD_WIDTH ==> p / LCD_WIDTH == ly
  {
  }

  lemma ColorFetched(line: ObjLine, s: Sprite, px: nat)
    requires line.Covers(s) && px < 8
    ensures var o := line.RowOffset(s);
      line.ColorAt(s, px) == ColorId(line.vram[o], line.vram[o + 1], if s.XFlip() then px else 7 - px)
  {
  }

  /** One iteration of the claimed-pixel loop: `s` claims its opaque columns that are still free. */
  method DrawSprite(fb: array<u8>, taken: array<bool>, line: ObjLine, s: Sprite, bgColorId: seq<u8>)
    requires fb.Length == LCD_WIDTH * LCD_HEIGHT && line.ly < LCD_HEIGHT && |bgColorId| == LCD_WIDTH == taken.Length
    requires line.Covers(s)
    modifies fb, taken
    ensures forall x :: 0 <= x < LCD_WIDTH ==> taken[x] == (old(taken[x]) || line.Opaque(s, x))
    ensures forall p :: 0 <= p < fb.Length ==> var x := p - line.ly * LCD_WIDTH;
      fb[p] == if 0 <= x < LCD_WIDTH && !old(taken[x]) && line.Opaque(s, x)
               then line.Blend(s, x, bgColorId[x], old(fb[p])) else old(fb[p])
  {
    hide ObjLine.ColorAt, ObjLine.RowOffset, ObjLine.Covers, ColorId, Shade;
    var base := line.ly * LCD_WIDTH;
    var low, high := FetchRow(line, s);
    var palette := if s.SecondPalette() then line.obp1 else line.obp0;
    var px := 0;
    while px < 8
      invariant 0 <= px <= 8
      invariant forall x :: 0 <= x < LCD_WIDTH ==>
        taken[x] == (old(taken[x]) || (x - s.x < px && line.Opaque(s, x)))
      invariant forall p :: 0 <= p < fb.Length ==> var x := p - base;
        fb[p] == if 0 <= x < LCD_WIDTH && x - s.x < px && !old(taken[x]) && line.Opaque(s, x)
                 then line.Blend(s, x, bgColorId[x], old(fb[p])) else old(fb[p])
    {
      var screenX := s.x + px;
      if 0 <= screenX < LCD_WIDTH && !taken[screenX] {
        var bit := if s.XFlip() then px else 7 - px;
        var color := ColorId(low, high, bit);
        ColorFetched(line, s, px);
        assert line.Opaque(s, screenX) <==> color != 0;
        if color != 0 {
          taken[screenX] := true;
          if !(s.BgPriority() && bgColorId[screenX] != 0) {
            fb[base + screenX] := Shade(palette, color);
          }
        }
      }
      px := px + 1;
    }
  }

  /** The claimed-pixel loop over the sorted sprites. */
  method ClaimPixels(fb: array<u8>, line: ObjLine, s: seq<Sprite>, bgColorId: seq<u8>)
    requires fb.Length == LCD_WIDTH * LCD_HEIGHT && line.ly < LCD_HEIGHT && |bgColorId| == LCD_WIDTH
    requires forall t <- s :: line.Covers(t)
    modifies fb
    ensures forall p :: 0 <= p < fb.Length ==> var x := p - line.ly * LCD_WIDTH;
      fb[p] == if 0 <= x < LCD_WIDTH then Drawn(line, s, |s|, x, bgColorId[x], old(fb[p])) else old(fb[p])
  {
    hide ObjLine.Opaque, ObjLine.Covers, ObjLine.Blend, FirstOpaque;
    var base := line.ly * LCD_WIDTH;
    var taken := new bool[LCD_WIDTH](_ => false);
    var i := 0;
    while i < |s|
      invariant 0 <= i <= |s|
      invariant forall x :: 0 <= x < LCD_WIDTH ==> taken[x] == (FirstOpaque(line, s, i, x) < i)
      invariant forall p :: 0 <= p < fb.Length ==> var x := p - base;
        fb[p] == if 0 <= x < LCD_WIDTH then Drawn(line, s, i, x, bgColorId[x], old(fb[p])) else old(fb[p])
    {
      assert s[i] in s;
      DrawSprite(fb, taken, line, s[i], bgColorId);
      forall x, before | 0 <= x < LCD_WIDTH
        ensures FirstOpaque(line, s, i + 1, x) < i + 1 <==> FirstOpaque(line, s, i, x) < i || line.Opaque(s[i], x)
        ensures Drawn(line, s, i + 1, x, bgColorId[x], before) ==
          if FirstOpaque(line, s, i, x) == i && line.Opaque(s[i], x) then line.Blend(s[i], x, bgColorId[x], before)
          else Drawn(line, s, i, x, bgColorId[x], before)
      {
        DrawnGrows(line, s, i, x, bgColorId[x], before);
      }
      i := i + 1;
    }
  }

  /** render_sprites_scanline: row `ly` follows the declarative rule and every other row is untouched. */
  method RenderSpritesScanline(fb: array<u8>, line: ObjLine, bgColorId: seq<u8>)
    requires fb.Length == LCD_WIDTH * LCD_HEIGHT && line.ly < LCD_HEIGHT && |bgColorId| == LCD_WIDTH
    modifies fb
    ensures forall x :: 0 <= x < LCD_WIDTH ==> var p := line.ly * LCD_WIDTH + x;
      fb[p] == line.Pixel(x, bgColorId[x], old(fb[p]))
    ensures forall p :: 0 <= p < fb.Length && p / LCD_WIDTH != line.ly ==> fb[p] == old(fb[p])
  {
    hide ObjLine.Opaque, ObjLine.Covers, ObjLine.Blend, ObjLine.Pixel, FirstOpaque, Drawn, Beats, Sorted;
    var visible := ScanOam(line);
    var s := SortSprites(visible);
    forall t | t in s ensures line.Covers(t) {
      assert t in multiset(visible);
    }
    ClaimPixels(fb, line, s, bgColorId);
    var base := line.ly * LCD_WIDTH;
    forall x | 0 <= x < LCD_WIDTH
      ensures fb[base + x] == line.Pixel(x, bgColorId[x], old(fb[base + x]))
    {
      FirstOpaqueWins(line, visible, s, x, bgColorId[x], old(fb[base + x]));
    }
    forall p | 0 <= p < fb.Length && p / LCD_WIDTH != line.ly ensures fb[p] == old(fb[p]) {
      RowOf(line.ly, p);
    }
  }

  /** The tile row of a sprite on this line, fetched with the source's step-by-step tile arithmetic. */
  method FetchRow(line: ObjLine, s: Sprite) returns (low: u8, high: u8)
    requires line.Covers(s)
    ensures low == line.vram[line.RowOffset(s)] && high == line.vram[line.RowOffset(s) + 1]
  {
    var lineInSprite := line.ly - (s.y - 16);
    if s.YFlip() {
      lineInSprite := line.Height() - 1 - lineInSprite;
    }
    var tile: u8 := s.tile;
    if line.tall {
      tile := tile - tile % 2;
      if lineInSprite >= 8 {
        tile := tile + 1;
        lineInSprite := lineInSprite - 8;
      }
    }
    var tileOffset := tile * 16;
    low := line.vram[tileOffset + lineInSprite * 2];
    high := line.vram[tileOffset + lineInSprite * 2 + 1];
  }
}
