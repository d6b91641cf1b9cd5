/**
 The system clock, src/clock.c: one tick fans out to the PPU, OAM DMA, the timer and the APU, in that
 order. The order is what lets the DMA copy after the PPU has read OAM, and the APU sample the
 divider the timer has just advanced.
 */
module Clock {
  import Lcd
  import Ppu
  import OamDma
  import Timer
  import Apu
  import Generators

  class GbClock {
    const ppu: Ppu.Ppu
    const dma: OamDma.Dma
    const timer: Timer.TimerRegs
    const apu: Apu.ApuRegs

    /** The four peripherals, sharing OAM and the interrupt flags. */
    ghost predicate Valid()
      reads ppu, dma, timer, apu
    {
      && ppu.Valid() && dma.Valid() && timer.Valid() && apu.Valid()
      && dma.oam == ppu.oam && timer.interrupts == ppu.lcd.interrupts
    }

    /** clock_init. */
    constructor (ppu: Ppu.Ppu, dma: OamDma.Dma, timer: Timer.TimerRegs, apu: Apu.ApuRegs)
      requires ppu.Valid() && dma.Valid() && timer.Valid() && apu.Valid()
      requires dma.oam == ppu.oam && timer.interrupts == ppu.lcd.interrupts
      ensures Valid() && this.ppu == ppu && this.dma == dma && this.timer == timer && this.apu == apu
    {
      this.ppu, this.dma, this.timer, this.apu := ppu, dma, timer, apu;
    }

    /**
     clock_tick: every peripheral advances by the same cycles, each against the state before the tick except
     that the APU sees the new divider.
     */
    method Tick(cycles: nat, bus: OamDma.Bus)
      requires Valid()
      modifies ppu, ppu.lcd, ppu.lcd.interrupts, ppu.framebuffer, dma, dma.oam, timer, apu
      ensures Valid()
      ensures ppu.View() == old(ppu.View().Step(ppu.lcd.config, cycles))
      ensures ppu.framebuffer[..] ==
        if ppu.lcd.config.ctrl.lcdEnable then
          old(ppu.View().Painted(ppu.lcd.config, ppu.Memory(), ppu.framebuffer[..], cycles))
        else old(ppu.framebuffer[..])
      ensures dma.View() == OamDma.MCycles(old(dma.View()), bus, cycles / 4)
      ensures timer.View() == Timer.Tick(old(timer.View()), cycles).state
      ensures timer.interrupts.timerRequests
              == old(timer.interrupts.timerRequests) + Timer.Tick(old(timer.View()), cycles).requests
      ensures timer.interrupts.timer ==
        (old(timer.interrupts.timer) || Timer.Tick(old(timer.View()), cycles).requests > 0)
      ensures ppu.lcd.FlagsFollowRequests()
      ensures apu.View() == old(apu.View()).Sample(timer.divCounter / 0x100)
      ensures apu.gens == Apu.Generate(old(apu.gens), apu.View(), cycles)
      ensures apu.sampleAcc == Generators.Accumulate(old(apu.sampleAcc), cycles)
      ensures apu.samplesStaged == old(apu.samplesStaged) + Generators.Samples(old(apu.sampleAcc), cycles)
    {
      hide Ppu.Scan.Step, Ppu.Scan.Painted, OamDma.MCycles, Timer.Tick, Apu.Generate, Apu.ApuState.Sample;
      hide Generators.Samples, Generators.Accumulate;
      TickVideo(cycles, bus);
      timer.TimerTick(cycles);
      apu.Tick(cycles, timer.divCounter / 0x100);
    }

    /** The first half: the PPU, and then the DMA into the OAM it has just read. */
    method TickVideo(cycles: nat, bus: OamDma.Bus)
      requires Valid()
      modifies ppu, ppu.lcd, ppu.framebuffer, dma, dma.oam
      modifies ppu.lcd.interrupts`vblank, ppu.lcd.interrupts`vblankRequests
      modifies ppu.lcd.interrupts`stat, ppu.lcd.interrupts`statRequests
      ensures ppu.Valid() && dma.Valid()
      ensures ppu.View() == old(ppu.View().Step(ppu.lcd.config, cycles)) && ppu.lcd.FlagsFollowRequests()
      ensures ppu.framebuffer[..] ==
        if ppu.lcd.config.ctrl.lcdEnable then
          old(ppu.View().Painted(ppu.lcd.config, ppu.Memory(), ppu.framebuffer[..], cycles))
        else old(ppu.framebuffer[..])
      ensures ppu.lcd.config == old(ppu.lcd.config) && dma.View() == OamDma.MCycles(old(dma.View()), bus, cycles / 4)
    {
      hide Lcd.LcdState.Level, Ppu.Scan.Step, Ppu.Scan.Painted, OamDma.MCycles;
      ppu.Step(cycles);
      dma.Tick(bus, cycles);
    }
  }
}
