/** The shared I2C bus as the drivers see it: a lock that a transaction
    takes with `try_lock` and gives back with `unlock`, a record of the
    traffic, and the bytes the devices answer with. What a device answers
    is not computed here: the `n`-th byte read off the bus is `answer(n)`,
    an arbitrary function fixed when the bus is created. */
module I2C {

  /** One transfer on the bus: bytes written to, or read from, a device address. */
  datatype Transfer = Write(address: int, data: seq<bv8>) | Read(address: int, data: seq<bv8>)

  class Bus {
    /** The byte a device puts on the bus as the `n`-th byte read overall. */
    const answer: nat -> bv8
    var locked: bool
    /** All transfers so far, oldest first. */
    var log: seq<Transfer>
    /** How many bytes have been read off the bus so far. */
    var readCount: nat

    constructor (answer: nat -> bv8)
      ensures this.answer == answer
      ensures !locked && log == [] && readCount == 0
    {
      this.answer := answer;
      locked := false;
      log := [];
      readCount := 0;
    }

    /** Takes the lock if it is free; reports whether it did. */
    method TryLock() returns (ok: bool)
      modifies this
      ensures ok == !old(locked) && locked
      ensures log == old(log) && readCount == old(readCount)
    {
      ok := !locked;
      locked := true;
    }

    method Unlock()
      modifies this
      ensures !locked
      ensures log == old(log) && readCount == old(readCount)
    {
      locked := false;
    }

    /** Writes `data` to the device at `address`; the caller holds the lock. */
    method WriteTo(address: int, data: seq<bv8>)
      requires locked
      modifies this
      ensures locked && readCount == old(readCount)
      ensures log == old(log) + [Write(address, data)]
    {
      log := log + [Write(address, data)];
    }

    /** Fills `buffer` with the next bytes the device at `address` answers
        with; the caller holds the lock. */
    method ReadFromInto(address: int, buffer: array<bv8>)
      requires locked
      modifies this, buffer
      ensures locked
      ensures forall i :: 0 <= i < buffer.Length ==> buffer[i] == answer(old(readCount) + i)
      ensures readCount == old(readCount) + buffer.Length
      ensures log == old(log) + [Read(address, buffer[..])]
    {
      forall i | 0 <= i < buffer.Length {
        buffer[i] := answer(readCount + i);
      }
      readCount := readCount + buffer.Length;
      log := log + [Read(address, buffer[..])];
    }
  }
}
