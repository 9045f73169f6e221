/** The monitor and the host driver in the form of the C code: objects updated in place, each method
    tied to the step functions the theorems are about. */
module HostDpi {
  import opened BitSeq
  import opened UsbCrc
  import opened Words
  import opened LineCode
  import opened Transfer
  import opened Wires
  import opened HostDriver
  import opened UsbMonitor
  import opened HostModel

  class Monitor {
    var state: MonState
    var line: seq<Sample>
    var rawbits: Uint32
    var bits: Bits
    var needbits: int
    var lastpid: bv8

    ghost function View(): Mon
      reads this
    {
      Mon(line, rawbits, Asm(state, bits, needbits, lastpid))
    }

    constructor ()
      ensures View() == UsbMonitor.Init()
    {
      state, line, rawbits, bits, needbits, lastpid := MS_IDLE, Zero(), Fill(false, 32), Fill(false, 8), 0, 0;
    }

    /** usb_monitor: one bit interval; the callbacks it makes are returned. */
    method Step(hdrive: bool, p2d: P2d, d2p: D2p) returns (ev: seq<Event>)
      requires Valid(View())
      modifies this
      ensures Valid(View())
      ensures View() == MonStep(old(View()), hdrive, p2d, d2p).0 && ev == MonStep(old(View()), hdrive, p2d, d2p).1
    {
      ev := [];
      if !d2p.Driving() && !hdrive {
        line := Zero();
        return;
      }
      line := Shift(line, SampleWires(p2d, d2p));
      if state == MS_IDLE {
        if SopPattern(line) {
          state := MS_GET_PID;
          needbits := 8;
          ev := [Sync];
        }
        return;
      }
      if EopPattern(line) {
        state := MS_IDLE;
        ev := [Eop];
        return;
      }
      var newbit := line[1] == line[0];
      rawbits := Push(rawbits, newbit);
      if rawbits[1] && rawbits[2] && rawbits[3] && rawbits[4] && rawbits[5] && rawbits[6] {
        return;
      }
      bits := bits[1..] + [newbit];
      needbits := needbits - 1;
      if needbits != 0 {
        return;
      }
      var d := FromBits(bits);
      match state {
        case MS_GET_PID =>
          if ValidPid(d) {
            lastpid := d;
          }
          state := MS_GET_BYTES;
          needbits := 8;
          ev := [Pid(d)];
        case MS_GET_BYTES =>
          needbits := 8;
          ev := [Byte(d)];
        case MS_IDLE =>
      }
    }
  }

  class Dpi {
    const mon: Monitor
    var tick: nat
    var tickBits: nat
    var recoveryTime: nat
    var frame: nat
    var framepend: bool
    var frameStart: nat
    var sending: Desc
    var state: DrvState
    var driving: P2d
    var linebits: Uint32
    var bit: nat
    var byte: nat
    var lastrxpid: bv8

    ghost function View(): Host
      reads this, mon
    {
      Host(tick, tickBits, recoveryTime, frame, framepend, frameStart, sending,
           Tx(state, driving, linebits, bit, byte), mon.View(), lastrxpid)
    }

    ghost predicate Valid()
      reads this, mon
    {
      ValidHost(View())
    }

    /** usbdpi_create: everything zero, the driver idle. */
    constructor ()
      ensures Valid() && fresh(mon) && state == ST_IDLE && mon.View() == UsbMonitor.Init()
      ensures tick == 0 && tickBits == 0 && recoveryTime == 0 && frame == 0 && frameStart == 0 && !framepend
      ensures driving == P2d(false, false, false, false, false) && lastrxpid == 0
    {
      mon := new Monitor();
      tick, tickBits, recoveryTime, frame, framepend, frameStart := 0, 0, 0, 0, false, 0;
      sending := Desc([], 0);
      state, driving, linebits, bit, byte := ST_IDLE, P2d(false, false, false, false, false), Fill(false, 32), 0, 0;
      lastrxpid := 0;
    }

    /** The transmitting arms of the switch, one bit interval. */
    method Transmit(d2p: D2p)
      requires Valid() && Transmitting(state)
      modifies this`state, this`driving, this`linebits, this`bit, this`byte
      ensures Valid() && View().tx == TxStep(old(View().tx), sending, d2p)
    {
      hide SetDriving, TestBit, SixOnes, Push;
      match state {
        case ST_SYNC =>
          driving := SetDriving(driving, d2p, if TestBit(USB_SYNC, bit) then J else K, true);
          bit := 2 * bit;
          if bit == 0x100 {
            bit := 1;
            linebits := ONE;
            state := ST_SEND;
          }
        case ST_SEND =>
          if SixOnes(linebits) {
            driving := InvDriving(driving);
            linebits := Push(linebits, false);
          } else if byte >= |sending.bytes| {
            state := ST_EOP;
            driving := SetDriving(driving, d2p, SE0, true);
            bit := 1;
          } else {
            var nextbit := TestBit(sending.bytes[byte], bit);
            if !nextbit {
              driving := InvDriving(driving);
            }
            linebits := Push(linebits, nextbit);
            bit := 2 * bit;
            if bit == 0x100 {
              bit := 1;
              byte := byte + 1;
              if byte == sending.dataStart {
                state := ST_EOP0;
              }
            }
          }
        case ST_EOP0 =>
          driving := SetDriving(driving, d2p, SE0, true);
          state := ST_EOP;
        case ST_EOP =>
          if bit == 2 {
            driving := SetDriving(driving, d2p, J, true);
          }
          if bit == 4 {
            driving := SetDriving(driving, d2p, if d2p.Pullup() then J else SE0, false);
            if byte == sending.dataStart {
              bit := 1;
              state := ST_SYNC;
            } else {
              state := ST_IDLE;
            }
          } else {
            bit := 2 * bit;
          }
        case ST_IDLE =>
        case ST_GET =>
      }
    }

    /** transfer_send. */
    method Send(x: Desc)
      requires Valid() && Sendable(x)
      modifies this`sending, this`state, this`byte, this`bit
      ensures Valid() && View() == old(View()).(sending := x, tx := Start(old(View().tx)))
    {
      sending := x;
      state := ST_SYNC;
      byte := 0;
      bit := 1;
    }

    /** The frame-boundary test. */
    method FrameBoundary(suspended: bool)
      requires Valid()
      modifies this
      ensures Valid() && View() == FrameCheck(old(View()), suspended)
    {
      if Sub32(tickBits, frameStart) >= FRAME_INTERVAL {
        if state != ST_IDLE {
          framepend := true;
        } else {
          framepend := false;
          frame := (frame + 1) % TWO16;
          frameStart := tickBits;
          if !suspended {
            Send(SofDesc(frame));
          }
        }
      }
    }

    /** The switch over the driver state. */
    method Switch(d2p: D2p, act: Act)
      requires Valid() && (act.Begin? ==> Sendable(act.x))
      modifies this
      ensures Valid() && View() == HostModel.Arm(old(View()), d2p, act)
    {
      if state == ST_IDLE {
        if act.Begin? {
          Send(act.x);
        }
      } else if state != ST_GET {
        hide TxStep;
        Transmit(d2p);
      }
    }

    /** The monitor's call. */
    method Listen(d2p: D2p) returns (ev: seq<Event>)
      requires Valid()
      modifies this`lastrxpid, mon
      ensures Valid()
      ensures var h := old(View());
              var (m, e) := MonStep(h.mon, Transmitting(h.tx.state), h.tx.driving, d2p);
              ev == e && View() == h.(mon := m, lastrxpid := PidAfter(e, h.lastrxpid))
    {
      hide MonStep, PidAfter;
      ev := mon.Step(Transmitting(state), driving, d2p);
      lastrxpid := PidAfter(ev, lastrxpid);
    }

    /** Monitoring and the attachment and recovery checks; `stop` ends the call early. */
    method Watch(d2p: D2p) returns (ev: seq<Event>, stop: bool)
      requires Valid()
      modifies this, mon
      ensures Valid()
      ensures var h := old(View());
              var (m, e) := MonStep(h.mon, Transmitting(h.tx.state), h.tx.driving, d2p);
              var h1 := Sensed(h.(mon := m, lastrxpid := PidAfter(e, h.lastrxpid)));
              && ev == e && stop == (!d2p.Pullup() || h.tick < h.recoveryTime)
              && View() == if !d2p.Pullup() then
                             h1.(tx := h1.tx.(state := ST_IDLE), recoveryTime := (h.tick + RECOVERY_TICKS) % TWO32)
                           else if stop then
                             h1.(tx := h1.tx.(state := ST_IDLE, driving := SetDriving(h1.tx.driving, d2p, J, false)),
                                 frameStart := h.tickBits)
                           else h1
    {
      hide MonStep, SetDriving, PidAfter, UsbMonitor.Valid, Sendable;
      ev := Listen(d2p);
      if tickBits == SENSE_AT {
        driving := driving.(sense := true);
      }
      stop := !d2p.Pullup() || tick < recoveryTime;
      if !d2p.Pullup() {
        state := ST_IDLE;
        recoveryTime := (tick + RECOVERY_TICKS) % TWO32;
      } else if tick < recoveryTime {
        driving := SetDriving(driving, d2p, J, false);
        state := ST_IDLE;
        frameStart := tickBits;
      }
    }

    /** usbdpi_host_to_device: one clock of the 48 MHz host clock. The wires it drives are returned, and the callbacks
        of its monitor. */
    method HostToDevice(i: In) returns (driven: P2d, ev: seq<Event>)
      requires Valid() && Proper(i)
      modifies this, mon
      ensures Valid()
      ensures View() == HostTick(old(View()), i).0 && ev == HostTick(old(View()), i).1
      ensures driven == HostTick(old(View()), i).0.tx.driving
    {
      hide MonStep, SetDriving, PidAfter, Sensed, FrameCheck, HostModel.Arm;
      ev := [];
      tick := (tick + 1) % TWO32;
      tickBits := tick / 4;
      if tick % 4 != 0 {
        driven := driving;
        return;
      }
      var stop;
      ev, stop := Watch(i.d2p);
      if !stop {
        FrameBoundary(i.suspended);
        Switch(i.d2p, i.act);
      }
      driven := driving;
    }
  }
}
