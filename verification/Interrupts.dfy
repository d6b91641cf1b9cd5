/** Interrupt requests, src/io/interrupts.c: the IF bits the PPU and the timer raise. */
module Interrupts {
  /** IF bits 0, 1 and 2, with the number of times each has been requested. */
  class InterruptRegs {
    var vblank: bool
    var stat: bool
    var timer: bool
    ghost var vblankRequests: nat
    ghost var statRequests: nat
    ghost var timerRequests: nat

    method RequestVBlank()
      modifies `vblank, `vblankRequests
      ensures vblank && vblankRequests == old(vblankRequests) + 1
    {
      vblank := true;
      vblankRequests := vblankRequests + 1;
    }

    method RequestStat()
      modifies `stat, `statRequests
      ensures stat && statRequests == old(statRequests) + 1
    {
      stat := true;
      statRequests := statRequests + 1;
    }

    method RequestTimer()
      modifies `timer, `timerRequests
      ensures timer && timerRequests == old(timerRequests) + 1
    {
      timer := true;
      timerRequests := timerRequests + 1;
    }
  }
}
