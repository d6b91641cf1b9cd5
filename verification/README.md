# came-boy: proofs about the emulated hardware

A Dafny model of the timed hardware of this Game Boy emulator, and proofs about it: the PPU, the APU,
OAM DMA, the timer, the CPU's cycle and interrupt bookkeeping, decimal arithmetic, and the MBC3 clock.

Each peripheral whose C functions change a struct in place is a class with those fields. Its methods
follow the source step by step and are proved against functions on the value of the state (`View`);
the laws are lemmas about those functions, over every input, every batch size or every run.
`dafny verify dfyconfig.toml` checks the whole project.

| file | what it models |
|---|---|
| Sprites.dfy, Background.dfy | the scanline renderer: sprite pass, background and window |
| PixelLaws.dfy | the same pixels from the bytes of VRAM, OAM and the registers |
| Lcd.dfy, Ppu.dfy | LCD registers and STAT line; the dot counter and the modes |
| PpuLaws.dfy, FrameLaws.dfy | what the PPU keeps over runs; the picture of a frame |
| OamDma.dfy | the transfer engine and its queued restart |
| Timer.dfy, TimerLaws.dfy | the divider, TIMA, delayed reload |
| Generators.dfy | period timers, noise register, sample clock |
| Apu.dfy, ApuLaws.dfy | registers, triggers, length, sweep and envelope clocks, frame sequencer |
| ApuRegisterLaws.dfy | every APU register write and reload value in numbers |
| SequencerLaws.dfy | the frame sequencer against the divider |
| Bcd.dfy | ADC, SBC and DAA |
| Instructions.dfy, Opcodes.dfy | the opcode table and its handlers; the instruction set byte by byte |
| Cpu.dfy | stepping, cycle accounting, EI/HALT/dispatch |
| CpuTimer.dfy | the timer as the CPU drives it |
| Rtc.dfy | the MBC3 real-time clock |
| Clock.dfy, Interrupts.dfy | the fan-out of one clock tick; the shared interrupt flags |
| Bytes.dfy, DivMod.dfy | bytes and bits; division by a symbolic number |

Integers are unbounded in Dafny: every 8- and 16-bit wrap of the source is written out as a remainder.
C bit fields are booleans. The noise register is a 16-bit vector. In the APU the four NR52 status bits
are the `active` fields of the channels. Power-on leaves `ch1_sweep_negate_used` as it was
(src/io/audio.c:42-98), so APU runs start from either value. Interrupt requests are counted in ghost
fields next to the flags.

Definitions that both the code and its laws use (who is in front, which bit is a column, which byte turns a
DAC on, what an opcode is) are each pinned by a law that does not use them: PixelLaws, ApuRegisterLaws,
Opcodes and the lemmas named `...InNumbers` restate the results on register bytes with division and comparison.

## What the proofs turned up

These are properties one would expect of the code that are false, each with the exact condition under
which they hold:

- The timer counts ticks in `uint16_t` (src/io/timer.c:48). The count is the number of falling edges if
  and only if the 16-bit divider does not wrap within the call (`TickCountIsEdgeCount`). When it wraps
  with the timer on, TIMA overflows whatever it held, if and only if the divider does not come back round
  to the period it started in (`WrapForcesOverflow`); `WrapExample` is a 4-cycle call that shows it.
- A batch of n cycles and n single cycles do not always agree. They do if and only if `BatchAgrees` holds:
  with a reload p cycles away, an enabled timer agrees for n < p (and for p = 0) when TIMA does not overflow
  before the last cycle, for n = p when TIMA is not clocked before it, and never for n > p, nor when the
  divider wraps before the last cycle or comes back round to its period; a disabled one agrees for p = 0
  and for n <= p (`BatchIsSingles`). `BatchExample` is an 8-cycle call four cycles before a reload, with
  TIMA far from overflowing, that differs.
- STOP delivers 8 cycles to the clock and returns 4, and an unassigned opcode delivers 4 and returns -1;
  a step delivers what it returns if and only if the opcode it fetches at PC is neither (`Step`).
- Dispatching an interrupt does not cancel a pending EI (src/cpu.c:109-110): interrupts come back on
  inside the handler if and only if one was pending (`PendingEiSurvivesDispatch`), and that state is
  reachable (`NestedDispatchReachable`).
- Switching the noise channel to 7-bit width stops it for good if and only if the low seven bits of the
  register are clear at that moment (`WidthChangeStopsNoise`); fifteen shifts after a trigger they are
  (`NoiseStopsAfterFifteen`).
- The APU samples one divider bit per tick, which is enough if and only if a tick is at most 4096 cycles
  (`TickLimitIsExact`).
- Channel 1 powers on active with a spent length counter (src/io/audio.c:63-68; `BootHasNoTime`). While it
  is active it has time left if and only if there has been a length load or a trigger (`Ch1TimeLeft`).

## Model

| member | source | states |
|---|---|---|
| Sprites.PixelRule | src/ppu.c:87-136 | The declarative sprite rule is well defined: a column with no opaque kept sprite keeps its pixel, any other has a winner, and the winner alone decides it |
| Sprites.WinnerExists | src/ppu.c:56-61 | Every column with a candidate has one that beats all others by (x, OAM index) |
| Sprites.SelectedAreFirstTen | src/ppu.c:70-85 | The ten-sprite limit keeps the earliest overlapping entries: whatever overlaps before a kept entry is kept |
| Sprites.ScanOam | src/ppu.c:70-85 | The scan returns exactly the selected entries, at most ten, in OAM order |
| Sprites.SortSprites | src/ppu.c:56-61 | The sort is a permutation ordered by the source's comparison |
| Sprites.SortIsUnique | src/ppu.c:56-61 | Where keys differ, every such sort gives the same list |
| Sprites.ScanHasOneOrder | src/ppu.c:87-90 | What a line scans has one sorted order only: the choice of sorting routine cannot show |
| Sprites.FirstOpaqueWins | src/ppu.c:92-138 | In the sorted list, the first sprite opaque in a column is that column's winner |
| Sprites.FetchRow | src/ppu.c:97-115 | Flip, 8x16 tile pairing and row arithmetic stay inside the tile data and fetch the row shown |
| Sprites.DrawSprite | src/ppu.c:120-137 | One sprite claims exactly its opaque free columns and draws exactly those it does not lose to the background |
| Sprites.RenderSpritesScanline | src/ppu.c:63-139 | The whole pass: row LY is the declarative rule column by column, every other pixel is untouched |
| PixelLaws.LaterNeverWins | src/ppu.c:56-61 | Of two sprites opaque in a column, the one with the larger X byte, or the later OAM entry at equal X, never decides it |
| PixelLaws.SelectedIsKept | src/ppu.c:70-85 | A sprite is kept exactly when it overlaps the line and fewer than ten entries before it do, by Y byte and size alone |
| PixelLaws.WinnerIsOnTop | src/ppu.c:56-61 | The winner of a column is the entry ahead of every other one showing there, by X byte and then index |
| PixelLaws.PixelFromBytes | src/ppu.c:63-139 | The sprite pass from OAM and VRAM bytes: nothing showing leaves the pixel, and otherwise the entry on top draws its flipped tile row through its palette, or yields to the background |
| PixelLaws.ShadeIsPaletteShade | src/ppu.c:131-135 | A palette byte holds four two-bit shades, colour 0 lowest |
| Background.TileOffset | src/ppu.c:41-47 | Signed and unsigned tile addressing stay within their halves of the tile data |
| Background.DrawRow | src/ppu.c:153-193 | The column loop leaves the background or window colour of every column, and reports the window drawn exactly when it is active |
| Background.DrawLine | src/ppu.c:141-198 | A rendered line is background, window and sprites composed pixel by pixel, and no other row changes |
| PixelLaws.FetchIsTileDot | src/ppu.c:30-54 | A fetched pixel is the digit of weight 2^(7-column) of the two plane bytes at the offset of its map cell's tile row |
| PixelLaws.CellSpellsPlanes | src/ppu.c:30-54 | The eight columns of a map cell, leftmost first, spell in binary the two plane bytes of its tile row |
| PixelLaws.ColorIsBackgroundDot | src/ppu.c:153-185 | A column's background or window colour and shade from SCX, SCY, WX, the window line and BGP |
| PixelLaws.LineSpellsPlanes | src/ppu.c:153-185 | Eight columns of a rendered line over one map cell, scrolled or in the window, spell that cell's plane bytes |
| PixelLaws.WindowNeedsAColumn | src/ppu.c:153-189 | The window is drawn on a line, and its line counter moves, exactly when it is on, reached, and shows in at least one column |
| PixelLaws.LinePixelFromBytes | src/ppu.c:141-198 | A finished pixel from bytes: the background's shade unless sprites are on and one is on top, which then draws by its own rule |
| Lcd.LcdRegs.UpdateStat | src/io/lcd.c:115-128 | One sample of the STAT line, requesting only on its rising edge, with the IF bits following the requests |
| Lcd.LcdRegs.SetMode | src/io/lcd.c:102-113 | Entering a mode: no effect when unchanged, VBlank requested on entry, then one sample |
| Lcd.LcdRegs.WriteStat | src/io/lcd.c:61-63 | A STAT write changes the four selections only and samples the line |
| Lcd.StatInNumbers | src/io/lcd.c:61-63 | STAT 0x08, 0x10, 0x20 and 0x40 raise the line exactly in HBlank, VBlank, OAM scan and at LY=LYC, and any byte raises it exactly when one it selects holds |
| Lcd.RequestsAreRisingEdges | src/io/lcd.c:102-128 | Over any interleaving of STAT and LYC writes, mode entries and LY steps, LCD interrupts are the rising edges of the combined line, and CPU writes never move the mode |
| Ppu.Ppu.PixelFetcher | src/ppu.c:141-198 | The window latch, the window line counter and the row of one line |
| Ppu.Ppu.Step | src/ppu.c:200-249 | A call is its dots one after another, in registers, counters and framebuffer; with the LCD off it resets position and counter only |
| PpuLaws.DotsCompose | src/ppu.c:213-248 | Splitting a step in two changes nothing |
| PpuLaws.DotsPosition | src/ppu.c:213-236 | 456*LY+dot advances by exactly the cycles, modulo 70224 |
| PpuLaws.ModeLaw | src/ppu.c:216-246 | From any state, from the next mode change on the mode is a function of (LY, dot) at every dot |
| PpuLaws.ModeInNumbers | src/ppu.c:213-248 | From any state, after ten lines at the latest: line and dot are quotient and remainder by 456 modulo 70224, and the mode is 80, 172 and 204 dots of scan, drawing and HBlank on lines 0 to 143, VBlank on 144 to 153 |
| PpuLaws.RenderInNumbers | src/ppu.c:218-222 | A line is rendered once, on reaching dot 252 of lines 0 to 143 |
| PpuLaws.VBlankInNumbers | src/ppu.c:227-246 | Any 70224 dots bring exactly one VBlank request and a finished frame |
| PpuLaws.VBlankOncePerFrame | src/ppu.c:238-243 | VBlank is requested and the frame marked ready exactly once per arrival at line 144 |
| PpuLaws.LycOncePerFrame | src/io/lcd.c:115-128 | With only LYC selected, one LCD interrupt per arrival of LY at LYC, none for LYC beyond 153 |
| PpuLaws.StatBlocking | src/io/lcd.c:118-127 | With any selection of the four sources and any LYC, how many LCD interrupts have come at every dot of a frame: adjacent sources swallow each other |
| PpuLaws.StatRequestsPerFrame | src/io/lcd.c:118-127 | Per frame: 144, 145, 1 or 0 from the mode sources, and what LYC adds on its line less the sources it swallows there |
| PpuLaws.WindowLineBounded | src/ppu.c:187-189 | In every run of calls and register changes, LCD off included, the window line is at most the lines rendered since the top |
| FrameLaws.StepIsTrace | src/ppu.c:200-249 | A call, with the LCD on or off, is that many one-cycle calls in one environment |
| FrameLaws.LatchLaw | src/ppu.c:147-151 | In every run, LCD off and on included, the window latch is set exactly when a line rendered since the last VBlank entry matched WY |
| FrameLaws.WindowLineLaw | src/ppu.c:187-189 | In every such run the window line is the number of window lines rendered since its last reset |
| FrameLaws.RunTheorem | src/ppu.c:141-248 | In every such run, with anything written at any cycle, a rendering cycle draws its row by those two rules and nothing else ever changes a pixel |
| FrameLaws.ReenabledFrame | src/ppu.c:203-210 | The frame after the LCD is switched on again starts at the top and inherits the window latch |
| FrameLaws.FrameTheorem | src/ppu.c:141-248 | From VBlank to VBlank with the LCD on, with anything else written at any dot, every pixel is the declarative pixel: its line's own registers, window on if WY has matched by then, window row the number of earlier window lines |
| FrameLaws.HeldCounters | src/ppu.c:147-160 | With registers held, the latch is WY <= line and the window row is line - WY |
| FrameLaws.EveryFrameIsPicture | src/ppu.c:141-248 | With the LCD on and registers and memory held, every frame after the first is the same closed-form picture |
| OamDma.SourceAddress | src/io/oam_dma.c:39-45 | Every source read lands below 0xE000, so never in OAM, I/O or HRAM |
| OamDma.Dma.Write | src/io/oam_dma.c:21-37 | A $FF46 write starts afresh, or queues a restart while a copy is running |
| OamDma.Dma.Tick | src/io/oam_dma.c:47-83 | A call is its M-cycles one after another, idle ones changing nothing |
| OamDma.LastWriteWins | src/io/oam_dma.c:21-83 | From any reachable state, busy until and idle from the 162nd M-cycle after the last write, with all 160 bytes each read through the bus of its own M-cycle, under any split and any CPU writes to OAM |
| OamDma.PageIsCopied | src/io/oam_dma.c:47-83 | With the source unwritten, OAM ends up as the page |
| OamDma.LastWriteBytes | src/io/oam_dma.c:21-83 | Byte i of OAM is the byte at page*0x100 + i, or 0x2000 below it for pages from 0xE0, on the bus of M-cycle i + 2 |
| OamDma.PageSlice | src/io/oam_dma.c:47-83 | With the source unwritten, OAM is the 160-byte slice of the bus from page*0x100 on, or from 0x2000 below for pages from 0xE0 |
| OamDma.OldTransferContinues | src/io/oam_dma.c:21-83 | A write during a copy lets it copy two bytes more, the CPU locked out, before the new page starts |
| OamDma.FreshDelayIsOpen | src/bus.c:208-221 | A write with no copy running leaves OAM to the CPU for exactly two M-cycles |
| Timer.TimerRegs.TimerTick | src/io/timer.c:18-57 | Reload, divider and the tick loop in closed form, with the interrupt it raises |
| Timer.TimerRegs.TimerWrite | src/io/timer.c:75-129 | Register writes, with the falling edge they may cause |
| TimerLaws.EdgesAreCrossings | src/io/timer.c:75-79 | Falling edges of the watched bit, cycle by cycle, are period boundaries crossed |
| TimerLaws.TickCountIsEdgeCount | src/io/timer.c:45-48 | The division-based count is the number of falling edges if and only if the divider does not wrap |
| TimerLaws.WrapForcesOverflow | src/io/timer.c:48-56 | A batch shorter than 65536 cycles in which the divider wraps overflows TIMA from any value, if and only if the divider does not come back round to its starting period |
| TimerLaws.WrapExample | src/io/timer.c:48-56 | A 4-cycle call with TIMA at 0 that overflows |
| TimerLaws.BatchIsSingles | src/io/timer.c:18-57 | One n-cycle call equals n one-cycle calls, in state and interrupts, exactly by `BatchAgrees`: enabled or not, reload pending or not, divider wrapping or not |
| TimerLaws.BatchExample | src/io/timer.c:18-57 | An 8-cycle call without any overflow that differs from single cycles |
| TimerLaws.ReloadWindow | src/io/timer.c:24-34 | The law of timer_tick alone: a TIMA write cancels a pending reload if and only if the tick before was not itself a reload, and in the reload tick TIMA follows TMA and ignores its own writes |
| TimerLaws.WindowExample | src/io/timer.c:24-56 | One call of timer_tick that both reloads and overflows, after which a TIMA write is ignored; no CPU run makes it |
| CpuTimer.WriteAlwaysCancels | src/cpu.h:62-76 | In every run of the CPU from power-on, wherever it can write, the reload flag and a pending reload never hold together, so a TIMA write always cancels a pending reload and its interrupt |
| CpuTimer.ReloadIsNextCycle | src/io/timer.c:24-34 | In every such run a pending reload left alone fires in the very next M-cycle, with TIMA at the TMA of that moment |
| TimerLaws.OverflowsAreConserved | src/io/timer.c:18-129 | Over any run of ticks and writes, overflows = interrupts + dropped reloads + the one still pending, which never exceeds 4 cycles |
| TimerLaws.TacInNumbers | src/io/timer.c:116-125 | TAC bit 2 enables, its low two bits select 1024, 16, 64 or 256 cycles, and the gate is the upper half of the period |
| TimerLaws.TickInNumbers | src/io/timer.c:45-56 | After a TAC write, TIMA counts the multiples of 1024, 16, 64 or 256 the divider reaches; TAC 0x05 is one every 16 cycles |
| TimerLaws.DivInNumbers | src/io/timer.c:91-102 | A DIV write zeroes the divider, and steps TIMA exactly when the timer is on and in the upper half of its period |
| TimerLaws.TacGlitchInNumbers | src/io/timer.c:116-125 | A TAC write steps TIMA exactly when the divider is in the upper half of the old period and not, with the timer still on, of the new one |
| TimerLaws.OverflowInNumbers | src/io/timer.c:24-56 | An overflow leaves TIMA at zero, and the interrupt and the reload from TMA come four cycles later |
| Generators.StepWave | src/io/audio.c:675-702 | The reload loop in closed form: it terminates with a positive timer and the position advanced once per reload |
| Generators.AdvanceSplits | src/io/audio.c:675-702 | A pulse or wave generator ends in the same place however the cycles are batched |
| Generators.StepNoise | src/io/audio.c:704-718 | The noise loop in closed form |
| Generators.ShiftInBits | src/io/audio.c:711-716 | One shift bit by bit: every bit moves down, and bit 14, with bit 6 too in 7-bit mode, takes the exclusive or of bits 0 and 1 |
| Generators.NoiseSplits | src/io/audio.c:704-718 | Likewise for timer and noise register |
| Generators.WideShiftIsInjective | src/io/audio.c:712-713 | The 15-bit step keeps its width, is injective, and never reaches zero |
| Generators.NarrowShiftIsInjective | src/io/audio.c:712-716 | In 7-bit mode the low seven bits evolve on their own, injectively, and never reach zero |
| Generators.NoiseNeverStops | src/io/audio.c:517-518 | From the trigger value the noise never dies while the width is held |
| Generators.WidthChangeStopsNoise | src/io/audio.c:714-716 | A change to 7-bit width stops the noise if and only if the low seven bits are clear |
| Generators.RegisterStaysWide | src/io/audio.c:712-716 | Through any changes of width the register fits in 15 bits, so the law above speaks of every switch |
| Generators.NoiseStopsAfterFifteen | src/io/audio.c:711-716 | A switch to 7-bit width fifteen shifts after a trigger stops the noise for good |
| Generators.SampleClock | src/io/audio.c:352-360 | The downsampling loop in closed form |
| Generators.SamplesConserve | src/io/audio.c:352-360 | 44100*cycles + accumulator = 4194304*samples + accumulator over any run, depending on the total only |
| Generators.OneSamplePerStep | src/io/audio.c:354-360 | A step stages at most one sample, whatever the accumulator, if and only if it is at most 95 cycles |
| Generators.SamplesInNumbers | src/io/audio.c:352-360 | 4194304 cycles stage 44100 samples and leave the accumulator where it was |
| Apu.ApuRegs.Write | src/io/audio.c:150-336 | Every register write, triggers and power switch included, in registers and generators |
| Apu.ApuRegs.TriggerCh1 | src/io/audio.c:405-441 | The channel 1 trigger with its immediate overflow check |
| Apu.ApuRegs.ClockSweep | src/io/audio.c:590-629 | The sweep clock with write-back and second check |
| Apu.ApuRegs.FrameSequencerStep | src/io/audio.c:363-382 | Each of the eight steps clocks the lengths, the sweep and the envelopes that are due on it |
| Apu.ApuRegs.Tick | src/io/audio.c:338-361 | A tick samples the divider bit once, advances every generator and stages samples |
| ApuLaws.StatusLaw | src/io/audio.c:150-336 | For every sequence of writes and ticks from power-on: active implies DAC on and time left, power off implies inactive, counters, sweep shadow and envelopes in range |
| ApuRegisterLaws.StatusInNumbers | src/io/audio.c:150-336 | In every such run an active channel 1, 2 or 4 has NRx2 >= 8 and an active channel 3 has NR30 >= 0x80 |
| ApuRegisterLaws.VolumeWrites | src/io/audio.c:191-196 | An NRx2 write keeps its channel active exactly when it was and the byte is >= 8; NR30, >= 0x80; nothing else moves |
| ApuRegisterLaws.Nr14Write | src/io/audio.c:405-441 | NR14 on values: a trigger leaves channel 1 active exactly when NR12 >= 8 and the sweep does not take the period past 2047 at once |
| ApuRegisterLaws.Nr24Write | src/io/audio.c:443-462 | NR24 on values: a trigger leaves channel 2 active exactly when NR22 >= 8; length, quirk, period and envelope |
| ApuRegisterLaws.Nr34Write | src/io/audio.c:464-502 | NR34 on values: a trigger leaves channel 3 active exactly when NR30 >= 0x80 |
| ApuRegisterLaws.Nr44Write | src/io/audio.c:504-529 | NR44 on values: a trigger leaves channel 4 active exactly when NR42 >= 8 |
| ApuRegisterLaws.LengthWrites | src/io/audio.c:155-173 | Length loads, powered or not: 64 less the low six bits, or 256 less the byte |
| ApuRegisterLaws.PlainWrites | src/io/audio.c:176-199 | The stored registers, and NR10 silencing channel 1 on leaving subtraction after it was used |
| ApuRegisterLaws.PowerWrites | src/io/audio.c:288-331 | NR52: 0x80 and above is on; off clears registers and status but keeps the lengths |
| ApuRegisterLaws.WritesWhileOff | src/io/audio.c:155-173 | Powered off, only NR52 and the length loads do anything |
| ApuRegisterLaws.BootInNumbers | src/io/audio.c:42-98 | Power-on leaves channel 1 alone active, at full volume, every length spent |
| ApuRegisterLaws.SweepInNumbers | src/io/audio.c:572-588 | Pace, direction, shift, new period and reload from the bytes of NR10 and the shadow |
| ApuRegisterLaws.ReloadsInNumbers | src/io/audio.c:675-710 | 4*(2048-period), 2*(2048-period) and divisor*2^shift cycles per duty step, wave sample and noise shift |
| ApuRegisterLaws.RetriggerInNumbers | src/io/audio.c:405-529 | A trigger restarts the timer from the period just written, the wave at 0 and the noise register at 0x7FFF |
| ApuRegisterLaws.StepsInNumbers | src/io/audio.c:675-702 | With the registers held, k periods are k duty steps of 8 or k samples of 32 |
| ApuRegisterLaws.NoiseInNumbers | src/io/audio.c:704-718 | With the registers held, k periods are k shifts of the noise register |
| ApuRegisterLaws.SampleInNumbers | src/io/audio.c:339-346 | The sequencer runs exactly when bit 4 of DIV has fallen since the last sample |
| ApuRegisterLaws.LengthClockInNumbers | src/io/audio.c:531-541 | A length clock counts exactly when bit 6 of NRx4 is set and something is left, and silences at zero |
| ApuRegisterLaws.EnvelopeInNumbers | src/io/audio.c:633-655 | After a trigger with pace p the volume has moved k/p steps, by bit 3 of NRx2, within 0 to 15 |
| ApuRegisterLaws.SweepClockInNumbers | src/io/audio.c:590-629 | A sweep clock on values: timer, new period, write-back and both overflow checks |
| SequencerLaws.SequencerLaw | src/io/audio.c:338-382 | Over any ticks of at most 4096 cycles the sequencer runs floor((D+C)/8192)-floor(D/8192) times, and the whole state is the one where each length counter, the sweep and each envelope has separately had its own share of those runs |
| SequencerLaws.EightSteps | src/io/audio.c:363-382 | Any eight runs in a row clock the lengths four times, the sweep twice and the envelopes once |
| SequencerLaws.BothClockedAdds | src/io/audio.c:531-629 | The length counter and the sweep of channel 1 never disturb each other, in whatever order they are clocked |
| SequencerLaws.FallsSilent | src/io/audio.c:531-548 | A sounding channel with n left is silent from the n-th length clock on and not before, unless channel 1's sweep silences it first |
| SequencerLaws.TickLimitIsExact | src/io/audio.c:339-345 | One sample per tick sees every edge if and only if the tick is at most 4096 cycles |
| ApuLaws.Ch1TimeLeft | src/io/audio.c:63-68 | In every run from power-on an active channel 1 has time left if and only if it has had a length load or a trigger |
| ApuLaws.BootHasNoTime | src/io/audio.c:63-68 | Channel 1 powers on active with nothing left |
| ApuLaws.LengthWriteCommutes | src/io/audio.c:550-568 | The enable quirk makes a length-enabling write just after a length clock equal to one just before it, except for a trigger with one tick left |
| ApuLaws.SweepWritesPeriod | src/io/audio.c:615-628 | The write-back of a sweep clock leaves NR13/NR14 decoding to the shadow, whatever the CPU had written there, with the other bits of NR14 kept; no other sweep clock touches them; subtraction never silences |
| ApuLaws.SweepSilences | src/io/audio.c:572-629 | With NR10 held, the sweep ever silences an active channel 1 if and only if it is enabled, has a pace, adds, and either shift > 0 with shadow >> shift positive or shift = 0 with shadow >= 1024; then within a bound falling with 2047 - shadow |
| ApuLaws.EnvelopeRamp | src/io/audio.c:631-661 | With NRx2 held, volume and timer after any number of envelope clocks, from any timer: a ramp of one step per pace that saturates at 0 or 15 |
| ApuLaws.TriggeredRamp | src/io/audio.c:417-418 | After a trigger the volume has moved k/pace times from the one in NRx2 |
| Bcd.AdcDaa | src/isa/opcodes/opcodes_misc.inl:27-59 | ADC then DAA is the decimal sum of two packed bytes with a decimal carry |
| Bcd.SbcDaa | src/isa/opcodes/opcodes_misc.inl:27-59 | SBC then DAA is the decimal difference with a decimal borrow |
| Bcd.ChainAdds | src/isa/opcodes/opcodes_misc.inl:27-59 | A chain over numbers of any length is decimal addition with the final carry |
| Bcd.ChainSubtracts | src/isa/opcodes/opcodes_misc.inl:27-59 | Likewise decimal subtraction with the final borrow |
| Bcd.SubtractUndoesAdd | src/isa/alu.c:3-34 | Subtracting what was added gives back every byte and the carry |
| Bcd.AdcConserves | src/isa/alu.c:3-14 | A byte sum plus 256 per carry is the sum of its operands and carry, and half-carry likewise on the low digits |
| Bcd.SbcConserves | src/isa/alu.c:16-34 | Likewise for the difference and its borrows |
| Bcd.Registers.OpAdc | src/isa/opcodes/opcodes_alu8.inl:28-50 | ADC stores the sum and the four flags |
| Bcd.Registers.OpSbc | src/isa/opcodes/opcodes_alu8.inl:118-140 | SBC stores the difference and the four flags |
| Bcd.Registers.OpDaa | src/isa/opcodes/opcodes_misc.inl:27-59 | DAA in place, flag by flag |
| Bcd.DaaMoves | src/isa/opcodes/opcodes_misc.inl:27-59 | DAA moves the accumulator by 0x00, 0x06, 0x60 or 0x66, up or down by N, and sets each flag by value |
| Cpu.ClearBit | src/io/interrupts.c:14-16 | Acknowledging clears one flag and no other |
| Cpu.PendingFrom | src/io/interrupts.c:18-22 | The pending interrupt is the lowest bit both enabled and requested, -1 if and only if there is none |
| Cpu.IfInBits | src/io/interrupts.c:35-43 | A write to IF keeps five flags and sets the three bits above |
| Cpu.Cpu.StackOp | src/isa/opcodes/opcodes_jump.inl:79-227 | CALL, RST, RET, PUSH and POP: exact cycles, every M-cycle on the bus in order with address and byte, PC and SP, taken or not |
| Cpu.PopUndoesPush | src/isa/opcodes/opcodes_jump.inl:79-227 | RET undoes CALL and POP undoes PUSH: the word comes back and SP is where it was, unless something in between wrote the two cells |
| Cpu.Cpu.DataOp | src/isa/opcodes/opcodes_load.inl:5-208 | Loads and arithmetic: exact cycles, every bus access in order with the addresses PC, SP, an operand or C name, PC and SP |
| Cpu.Cpu.JumpOp | src/isa/opcodes/opcodes_jump.inl:5-77 | Jumps: exact cycles, operand reads and PC, taken or not |
| Cpu.Cpu.ControlOp | src/isa/opcodes/opcodes_interrupt.inl:5-55 | HALT, DI, EI and RETI on the control state, and the accounting of STOP and the CB prefix |
| Cpu.Cpu.ServiceInterrupt | src/cpu.c:105-129 | The vector is the lowest enabled request as re-read after the high-byte push; IF then only loses that bit, every other bit being as the pushes and peripherals left it; the word and the two addresses pushed, over IE or IF too |
| Cpu.DispatchInNumbers | src/cpu.c:105-129 | The vector is 0x40, 0x48, 0x50, 0x58 or 0x60 by the first of the five bits set in both IE and IF after the high-byte push, which is IE's own byte when SP is 0; with none set it is 0, and the low byte pushed is 0 |
| Cpu.Cpu.Step | src/cpu.c:42-103 | For every program and peripheral, a step that fetches does what the table row of the byte at PC says, in cycles returned, bus accesses, PC, SP and interrupt state, the halt bug fetching that byte again; the cycles delivered to the clock are those returned if and only if the byte is neither 0x10 (8 for 4) nor one of the eleven with no instruction (4 for -1), 4 to 24 in steps of 4, in M-cycles and then one trailing tick; a dispatch is the one above |
| Opcodes.EffectIsTable | src/isa/opcodes.c:22-333 | The cycles returned for each of the 256 bytes, and what it does to PC, SP and the bus, as literal rows |
| Opcodes.ControlsIsTable | src/isa/opcodes/opcodes_interrupt.inl:5-55 | On literal bytes: 0xF3 ends with IME off and unscheduled, 0xFB scheduled, 0xD9 with IME on, 0x76 halted or in the halt bug, and every other byte only promotes a waiting EI |
| Opcodes.FetchedRuns | src/cpu.c:77-102 | A fetching step runs the byte at PC, which stays the next one under the halt bug or without an instruction |
| Cpu.CtlStaysValid | src/cpu.c:57-103 | In every run, halted and halt_bug are never both set, and halt_bug implies IME off and unscheduled |
| Cpu.DispatchNeedsEnable | src/cpu.c:77-84 | From interrupts off, a dispatch needs RETI, or an EI and then a whole instruction other than DI, with neither DI nor a dispatch since |
| Cpu.ImeIsEnabled | src/cpu.c:57-129 | From interrupts off, after any steps, IME is on exactly in that case, and an EI is waiting exactly when no instruction has followed it |
| Cpu.EiThenDi | src/isa/opcodes/opcodes_interrupt.inl:34-55 | EI then DI leaves interrupts off and unscheduled |
| Cpu.PendingEiSurvivesDispatch | src/cpu.c:105-129 | After a dispatch, interrupts come back on inside the handler if and only if an EI was pending |
| Cpu.NestedDispatchReachable | src/cpu.c:77-129 | A run in which a handler is interrupted after its first instruction |
| Rtc.TotalDetermines | src/memory/mbc/mbc3.c:61-75 | In-range registers are determined by the total seconds they spell |
| Rtc.TickIsAfter | src/memory/mbc/mbc3.c:61-75 | The carry chain maps total seconds T to (T+e) mod 512 days for any register bytes, with carry set exactly past day 511 or if already set |
| Rtc.Mbc3.RtcTick | src/memory/mbc/mbc3.c:46-76 | A tick advances the clock by the forward movement of the wall clock, not at all while halted |
| Rtc.Mbc3.WriteLatch | src/memory/mbc/mbc3.c:105-113 | Only 0x00 followed by 0x01 takes a snapshot, of the clock brought up to date |
| Rtc.Mbc3.WriteRegister | src/memory/mbc/mbc3.c:142-166 | A register write brings the clock up to date first, then replaces one register in both copies |
| Rtc.ClockInNumbers | src/memory/mbc/mbc3.c:46-76 | Halt is bit 6 and carry bit 7 of day-high, and the total is read off the five bytes in seconds |
| Rtc.AfterInNumbers | src/memory/mbc/mbc3.c:61-75 | Elapsed seconds leave every digit in range, the total modulo 44236800, and a carry that sticks |
| Rtc.StandsStill | src/memory/mbc/mbc3.c:46-59 | A halted clock, or a wall clock that has not moved forward, moves nothing |
| Rtc.OverwriteInNumbers | src/memory/mbc/mbc3.c:142-166 | Each register stores its byte; day-high keeps bits 0, 6 and 7 |
| Rtc.AfterAdds | src/memory/mbc/mbc3.c:61-75 | Ticking a then b is ticking a+b |
| Rtc.TicksAddUp | src/memory/mbc/mbc3.c:46-76 | Over any wall-clock readings, only the total forward movement counts |
| Rtc.ForwardTime | src/memory/mbc/mbc3.c:52-59 | While the wall clock never runs backwards, that movement is the time since the first reading |
| Clock.GbClock.Tick | src/clock.c:12-17 | One tick advances the four peripherals by the same cycles, with their IF bits and the sample accumulator, the APU sampling the divider as the timer leaves it |

## Left out

- Duty tables, panning, NR50/NR51 and the floating-point mixer: no integer law beyond reading them off, and nothing here depends on them.
- NRx1, NR31, NR32, NR41 as stored bytes: only the length loads they cause are modelled.
- Apu.ApuRegs.Write: wave RAM and its corruption on a channel 3 retrigger (src/io/audio.c:464-484) are not modelled.
- Apu.ApuRegs.Tick: `sample_ready` and the two sample values are replaced by a count of samples staged.
- Cpu.Cpu.DataOp: registers other than PC and SP and the bytes stored are not tracked; reads return any byte and [HL], [BC] and [DE] may be any address, so the laws hold for all of them, but the data results of these opcodes are not stated (ADC, SBC and DAA are in Bcd).
- Cpu.Cpu.Step: the flags are not tracked, so a condition may hold or not; each row states both outcomes.
- OamDma.LastWriteWins: a bus is a fixed table within one call, as it is in the source, and may differ between calls; the bus's own contents (LCD mode gating of VRAM, cartridge banking) are not modelled.
- LCDC and the scroll, palette and window registers are plain stores; they appear as the configuration found at each dot.
- The MBC3 banking registers and RAM: single-branch stores.
- Rtc.Mbc3.RtcTick: `int64_t` overflow after 292 billion years of elapsed time.
- MBC1, MBC2, MBC5, serial, joypad, the address decoding of the bus, cartridge loading, frontends and logging.
- STOP mode itself, which the source does not emulate either.
