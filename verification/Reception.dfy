/** The reception callback of the host: packets from the device, one monitor event at a time. */
module Reception {
  import opened BitSeq
  import opened LineCode
  import opened Transfer
  import opened Streams
  import opened Words
  import HostModel
  import HostRoundTrip
  import UsbMonitor

  /** The descriptor that `recving` points to, or a failed assertion: no space. */
  datatype Rx = NoSpace | Rx(x: Desc)

  /** usbdpi_data_callback on the descriptor it collects into. */
  function Receive(x: Desc, e: UsbMonitor.Event): Rx {
    match e
    case Sync => Rx(Desc([], NO_DATA_STAGE))
    case Eop => Rx(x)
    case Pid(d) => if |x.bytes| >= MAX_DATA then NoSpace
                   else Rx(Desc(x.bytes + [d], if IsToggle(d) then |x.bytes| else x.dataStart))
    case Byte(d) => if |x.bytes| >= MAX_DATA then NoSpace else Rx(x.(bytes := x.bytes + [d]))
  }

  function ReceiveAll(x: Desc, ev: seq<UsbMonitor.Event>): Rx
    decreases ev
  {
    if ev == [] then Rx(x)
    else
      match Receive(x, ev[0])
      case NoSpace => NoSpace
      case Rx(y) => ReceiveAll(y, ev[1..])
  }

  lemma {:induction false} ReceiveConcat(x: Desc, a: seq<UsbMonitor.Event>, b: seq<UsbMonitor.Event>)
    ensures ReceiveAll(x, a + b) == if ReceiveAll(x, a).NoSpace? then NoSpace else ReceiveAll(ReceiveAll(x, a).x, b)
    decreases a
  {
    if a == [] {
      assert a + b == b;
    } else {
      assert (a + b)[1..] == a[1..] + b;
      if Receive(x, a[0]).Rx? {
        ReceiveConcat(Receive(x, a[0]).x, a[1..], b);
      }
    }
  }

  /** One more event. */
  lemma ReceiveSnoc(x: Desc, ev: seq<UsbMonitor.Event>, i: nat)
    requires i < |ev|
    ensures ReceiveAll(x, []) == Rx(x) && ev[..0] == []
    ensures ReceiveAll(x, ev[..i]).Rx? ==> ReceiveAll(x, ev[..i + 1]) == Receive(ReceiveAll(x, ev[..i]).x, ev[i])
    ensures ReceiveAll(x, ev[..i + 1]).NoSpace? ==> ReceiveAll(x, ev).NoSpace?
  {
    ReceiveConcat(x, ev[..i], [ev[i]]);
    ReceiveConcat(x, ev[..i + 1], ev[i + 1..]);
    assert ev[..i] + [ev[i]] == ev[..i + 1] && ev[..i + 1] + ev[i + 1..] == ev;
    if ReceiveAll(x, ev[..i]).Rx? {
      ReceiveOne(ReceiveAll(x, ev[..i]).x, ev[i]);
    }
  }

  lemma ReceiveOne(x: Desc, e: UsbMonitor.Event)
    ensures ReceiveAll(x, [e]) == Receive(x, e)
  {
    hide Receive;
    assert [e][1..] == [];
    if Receive(x, e).Rx? {
      assert ReceiveAll(Receive(x, e).x, []) == Rx(Receive(x, e).x);
    }
  }

  lemma {:induction false} BytesCollected(x: Desc, d: seq<bv8>)
    requires |x.bytes| <= MAX_DATA
    ensures ReceiveAll(x, UsbMonitor.ByteEvents(d))
         == if |x.bytes| + |d| <= MAX_DATA then Rx(x.(bytes := x.bytes + d)) else NoSpace
    decreases d
  {
    if d == [] {
      assert x.bytes + d == x.bytes;
    } else {
      var ev := UsbMonitor.ByteEvents(d);
      assert ev[0] == UsbMonitor.Byte(d[0]) && ev[1..] == UsbMonitor.ByteEvents(d[1..]);
      if |x.bytes| < MAX_DATA {
        BytesCollected(x.(bytes := x.bytes + [d[0]]), d[1..]);
        assert x.bytes + d == (x.bytes + [d[0]]) + d[1..];
      }
    }
  }

  /** The descriptor for a packet of these bytes: its data stage begins at once if it is a data packet. */
  function Arrived(bytes: seq<bv8>): Desc {
    Desc(bytes, if bytes != [] && IsToggle(bytes[0]) then 0 else NO_DATA_STAGE)
  }

  /** Whatever `recving` held before, a packet leaves just its bytes there; it fits if and only if it has
      no more than 73. */
  lemma PacketCollected(x: Desc, bytes: seq<bv8>)
    ensures ReceiveAll(x, UsbMonitor.PacketEvents(bytes)) == if |bytes| <= MAX_DATA
      then Rx(Arrived(bytes)) else NoSpace
  {
    var sync, rest, eop := [UsbMonitor.Sync], UsbMonitor.Received(bytes), [UsbMonitor.Eop];
    var blank := Desc([], NO_DATA_STAGE);
    ReceiveConcat(x, sync + rest, eop);
    ReceiveConcat(x, sync, rest);
    assert ReceiveAll(x, sync) == Rx(blank);
    if bytes != [] {
      var first := Desc([] + [bytes[0]], if IsToggle(bytes[0]) then 0 else NO_DATA_STAGE);
      ReceiveConcat(blank, [UsbMonitor.Pid(bytes[0])], UsbMonitor.ByteEvents(bytes[1..]));
      assert Receive(blank, UsbMonitor.Pid(bytes[0])) == Rx(first);
      assert ReceiveAll(blank, [UsbMonitor.Pid(bytes[0])]) == Rx(first);
      BytesCollected(first, bytes[1..]);
      assert first.bytes + bytes[1..] == bytes;
    }
    assert forall y :: ReceiveAll(y, eop) == Rx(y);
  }

  /** From the device's pins to the descriptor: a packet the device drives, in either of its two ways and with either
      pull-up, arrives as it was sent, whatever the host is doing in those bit intervals. */
  lemma WireToDescriptor(h: HostModel.Host, ins: seq<HostModel.In>, x: Desc, bytes: seq<bv8>, flush: bool)
    requires HostModel.ValidHost(h) && forall k :: 0 <= k < |ins| ==> HostModel.Proper(ins[k])
    requires UsbMonitor.BetweenPackets(h.mon) && bytes != [] && |bytes| <= MAX_DATA
    requires Trailing(h.mon.rawbits, 1) || !UsbMonitor.FiveOnes(bytes[0])
    requires var w := Packet(BytesBits(bytes), flush);
      |ins| == |w| && forall k :: 0 <= k < |ins| ==> HostRoundTrip.DeviceShows(ins[k].d2p, w[k])
    ensures ReceiveAll(x, HostModel.HostRun(h, ins).1) == Rx(Arrived(bytes))
    ensures UsbMonitor.BetweenPackets(HostModel.HostRun(h, ins).0.mon)
  {
    hide *;
    HostRoundTrip.DeviceHeard(h, ins, Packet(BytesBits(bytes), flush));
    UsbMonitor.PacketReceived(h.mon, bytes, flush);
    PacketCollected(x, bytes);
  }
}
