/** The serial bus as the driver sees it. Each chip-select bracket is one
    transaction in a log; what the sensor answers on the data line comes from an
    oracle that may depend on everything sent before. Pins, clock settings and
    settle delays are not part of this model. */
module Spi {
  import opened Bytes

  /** One chip-select bracket on the bus: the address byte that went out first,
      then the data phase. */
  datatype Transaction =
    | WriteFrame(addr: bv8, data: bv8)          // address byte, then the byte written
    | ReadFrame(addr: bv8, data: bv8)           // address byte, then the byte received
    | BurstFrame(addr: bv8, payload: seq<bv8>)  // address byte, then every byte received

  type Log = seq<Transaction>

  /** The sensor's side of the bus: given the transactions completed so far, the
      address byte of the current transaction and the index of the data byte
      within it, the byte the sensor shifts out. */
  type Miso = (Log, bv8, nat) -> bv8

  /** A transaction uses the address convention of its direction: bit 7 set for
      a write, clear for a read or a burst read. */
  predicate Framed(t: Transaction) {
    match t
    case WriteFrame(a, _) => IsWriteAddress(a)
    case ReadFrame(a, _) => !IsWriteAddress(a)
    case BurstFrame(a, _) => !IsWriteAddress(a)
  }

  /** `l` is `h` followed by correctly framed transactions only. */
  predicate Emits(h: Log, l: Log) {
    |h| <= |l| && l[..|h|] == h && forall i | |h| <= i < |l| :: Framed(l[i])
  }

  /** Emitting is transitive: a sequence of correctly framed steps is correctly framed. */
  lemma EmitsTransitive(a: Log, b: Log, c: Log)
    requires Emits(a, b) && Emits(b, c)
    ensures Emits(a, c)
  {
    assert c[..|a|] == c[..|b|][..|a|];
  }

  /** A log and one of its extensions agree on every shorter prefix. */
  lemma PrefixAgrees(a: Log, b: Log, n: nat)
    requires |a| <= |b| && b[..|a|] == a && n <= |a|
    ensures b[..n] == a[..n]
  {
    assert b[..n] == b[..|a|][..n];
  }

  /** The bus a driver instance owns. */
  class Bus {
    const miso: Miso
    var log: Log

    constructor (miso: Miso)
      ensures this.miso == miso && log == []
    {
      this.miso := miso;
      log := [];
    }

    /** Select, send the address byte and one data byte, deselect. */
    method Write(addr: bv8, data: bv8)
      modifies this
      ensures log == old(log) + [WriteFrame(addr, data)]
    {
      log := log + [WriteFrame(addr, data)];
    }

    /** Select, send the address byte, clock in one byte, deselect. */
    method Read(addr: bv8) returns (data: bv8)
      modifies this
      ensures data == miso(old(log), addr, 0)
      ensures log == old(log) + [ReadFrame(addr, data)]
    {
      data := miso(log, addr, 0);
      log := log + [ReadFrame(addr, data)];
    }

    /** Select and send the address byte of a burst read; the chip stays selected. */
    method BeginBurst(addr: bv8)
      modifies this
      ensures log == old(log) + [BurstFrame(addr, [])]
    {
      log := log + [BurstFrame(addr, [])];
    }

    /** Clock in the next byte of the open burst read. */
    method BurstByte() returns (b: bv8)
      requires |log| > 0 && log[|log| - 1].BurstFrame?
      modifies this
      ensures var open := old(log[|log| - 1]);
              b == miso(old(log[..|log| - 1]), open.addr, |open.payload|) &&
              log == old(log[..|log| - 1]) + [BurstFrame(open.addr, open.payload + [b])]
    {
      var open := log[|log| - 1];
      var before := log[..|log| - 1];
      b := miso(before, open.addr, |open.payload|);
      log := before + [BurstFrame(open.addr, open.payload + [b])];
    }
  }
}
