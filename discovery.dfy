/** Device discovery of serial_ftdi_open_device: the FTDI vendor id is tried
    with each accepted product id in turn until a claim gives anything other
    than "device not found". */
module Discovery {
  import opened Types

  /** Vendor id of FTDI. */
  const Vid := 0x0403

  /** Result of ftdi_usb_open when no such device is attached. */
  const DeviceNotFound := -3

  /** The product ids tried, in this order: Suunto Smart Interface and
      Heinrichs Weikamp, possibly Aqualung, Oceanic, Suunto, Cressi Leonardo. */
  const AcceptedPids: seq<int> := [0x6001, 0x6010, 0x6011, 0x6015, 0xF460, 0xF680, 0x87D0]

  /** The outcome of a scan: the last claim's result and the claims made. */
  datatype Probe = Probe(ret: int, tried: seq<Call>)

  /** The scan over `pids` as a reference definition: claim the first
      candidate, and continue with the rest only when it reports "not found"
      and candidates remain. */
  function Discover(hw: Hardware, pids: seq<int>): (p: Probe)
    requires |pids| > 0
    decreases |pids|
  {
    var claim := UsbOpen(Vid, pids[0]);
    if hw(claim) != DeviceNotFound || |pids| == 1 then Probe(hw(claim), [claim])
    else
      var rest := Discover(hw, pids[1..]);
      Probe(rest.ret, [claim] + rest.tried)
  }

  /** What the scan is: the claims are a prefix of the list in order, every
      claim but the last found no device, the result is the last claim's,
      and the scan stops before the end of the list only at a claim that did
      not report "not found". */
  predicate IsScan(hw: Hardware, pids: seq<int>, p: Probe)
  {
    && 1 <= |p.tried| <= |pids|
    && (forall k :: 0 <= k < |p.tried| ==> p.tried[k] == UsbOpen(Vid, pids[k]))
    && p.ret == hw(p.tried[|p.tried| - 1])
    && (forall k :: 0 <= k < |p.tried| - 1 ==> hw(p.tried[k]) == DeviceNotFound)
    && (|p.tried| < |pids| ==> p.ret != DeviceNotFound)
  }

  /** Discover performs a scan. */
  lemma {:induction false} DiscoverIsScan(hw: Hardware, pids: seq<int>)
    requires |pids| > 0
    ensures IsScan(hw, pids, Discover(hw, pids))
    decreases |pids|
  {
    var claim := UsbOpen(Vid, pids[0]);
    if hw(claim) != DeviceNotFound || |pids| == 1 {
    } else {
      DiscoverIsScan(hw, pids[1..]);
      var rest := Discover(hw, pids[1..]);
      var p := Discover(hw, pids);
      assert p.tried == [claim] + rest.tried;
      forall k | 1 <= k < |p.tried|
        ensures p.tried[k] == rest.tried[k - 1] == UsbOpen(Vid, pids[k])
      {
      }
    }
  }

  /** IsScan determines the scan: any claim sequence and result with those
      properties are the ones Discover gives. */
  lemma {:induction false} DiscoverUnique(hw: Hardware, pids: seq<int>, p: Probe)
    requires IsScan(hw, pids, p)
    ensures Discover(hw, pids) == p
    decreases |pids|
  {
    var tried := p.tried;
    if |tried| > 1 {
      assert tried[0] == UsbOpen(Vid, pids[0]);
      assert hw(UsbOpen(Vid, pids[0])) == DeviceNotFound;
      var q := Probe(p.ret, tried[1..]);
      forall k | 0 <= k < |q.tried|
        ensures q.tried[k] == UsbOpen(Vid, pids[1..][k])
      {
        assert q.tried[k] == tried[k + 1];
      }
      forall k | 0 <= k < |q.tried| - 1
        ensures hw(q.tried[k]) == DeviceNotFound
      {
        assert q.tried[k] == tried[k + 1];
      }
      assert q.tried[|q.tried| - 1] == tried[|tried| - 1];
      DiscoverUnique(hw, pids[1..], q);
      assert tried == [tried[0]] + tried[1..];
    } else {
      assert tried == [UsbOpen(Vid, pids[0])];
    }
  }

  /** The scan reports "not found" exactly when no candidate was found. */
  lemma DiscoverNotFound(hw: Hardware, pids: seq<int>)
    requires |pids| > 0
    ensures Discover(hw, pids).ret == DeviceNotFound <==>
            forall k :: 0 <= k < |pids| ==> hw(UsbOpen(Vid, pids[k])) == DeviceNotFound
  {
    var p := Discover(hw, pids);
    DiscoverIsScan(hw, pids);
    var last := |p.tried| - 1;
    assert p.tried[last] == UsbOpen(Vid, pids[last]);
    if p.ret == DeviceNotFound {
      assert |p.tried| == |pids|;
      forall k | 0 <= k < |pids|
        ensures hw(UsbOpen(Vid, pids[k])) == DeviceNotFound
      {
        assert p.tried[k] == UsbOpen(Vid, pids[k]);
      }
    }
  }

  /** A device answering on the n-th product id after n missing ones is the
      one claimed, and no later candidate is tried. */
  lemma {:induction false} DiscoverFirstPresent(hw: Hardware, pids: seq<int>, n: nat)
    requires n < |pids|
    requires forall k :: 0 <= k < n ==> hw(UsbOpen(Vid, pids[k])) == DeviceNotFound
    requires hw(UsbOpen(Vid, pids[n])) != DeviceNotFound
    ensures Discover(hw, pids).ret == hw(UsbOpen(Vid, pids[n]))
    ensures |Discover(hw, pids).tried| == n + 1
    decreases n
  {
    if n > 0 {
      assert forall k :: 0 <= k < n - 1 ==> pids[1..][k] == pids[k + 1];
      DiscoverFirstPresent(hw, pids[1..], n - 1);
    }
  }
}
