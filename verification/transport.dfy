/**
 * The FTDI driver wrapper as the instrument layer uses it. The vendor library
 * behind it is foreign code: each call into it consumes the next entry of a
 * script of answers fixed when the wrapper is created, and every call that
 * reaches the library is recorded in a ghost event log, so that the order of
 * purges, writes, reads and closes can be stated.
 */
module Transport {
  import opened Faults
  import opened Hex

  /** What the library answers to one call: a status, a byte count, and the bytes read. */
  datatype Answer = Answer(status: FtStatus, count: nat, data: seq<Byte>)

  /** The answer of a library whose script is used up. */
  const NoAnswer := Answer(FtOtherError, 0, [])

  /** One call that reached the library, or a pause of the caller. */
  datatype Event =
    | Opened(serial: string)
    | BaudRateSet(rate: nat)
    | BitModeSet(mask: Byte, mode: Byte)
    | TimeoutsSet(readTimeout: nat, writeTimeout: nat)
    | Purged(purgeMask: nat)
    | Wrote(bytes: seq<Byte>)
    | Fetched(count: nat)
    | Closed
    | Waited(ms: nat)

  /** The wrapper's state: whether a handle is open, the answers still to come, and the calls so far. */
  datatype Wire = Wire(open: bool, answers: seq<Answer>, events: seq<Event>)

  /** One call into the library: it takes the next answer and is logged. */
  function Call(w: Wire, e: Event): (Answer, Wire) {
    if |w.answers| == 0 then (NoAnswer, w.(events := w.events + [e]))
    else (w.answers[0], w.(answers := w.answers[1..], events := w.events + [e]))
  }

  /**
   * `OpenBySerialNumber`: `FT_OpenEx`; on success the handle is open and the
   * status is that of setting 9600 baud, on failure the handle is cleared.
   */
  function OpenStep(w: Wire, serial: string): (FtStatus, Wire) {
    var (a, w1) := Call(w, Opened(serial));
    if a.status != FtOk then (a.status, w1.(open := false))
    else
      var (b, w2) := Call(w1.(open := true), BaudRateSet(9600));
      (b.status, w2)
  }

  /** `SetBitMode`, `SetTimeouts`, `SetBaudRate`, `Purge`: `FtOtherError` without a handle, else the library's status. */
  function Guarded(w: Wire, e: Event): (FtStatus, Wire) {
    if !w.open then (FtOtherError, w)
    else
      var (a, w1) := Call(w, e);
      (a.status, w1)
  }

  /** `Write`: the status and the number of bytes written (0 without a handle). */
  function WriteStep(w: Wire, bytes: seq<Byte>): (FtStatus, nat, Wire) {
    if !w.open then (FtOtherError, 0, w)
    else
      var (a, w1) := Call(w, Wrote(bytes));
      (a.status, a.count, w1)
  }

  /** The `new byte[n]` buffer after the library has put `data` into it. */
  function Fill(data: seq<Byte>, n: nat): (buffer: seq<Byte>)
    ensures |buffer| == n
    ensures forall i :: 0 <= i < n && i < |data| ==> buffer[i] == data[i]
    ensures forall i :: |data| <= i < n ==> buffer[i] == 0
  {
    if n == 0 then []
    else if |data| == 0 then Fill([], n - 1) + [0]
    else [data[0]] + Fill(data[1..], n - 1)
  }

  /** `Read`: the status, a buffer of exactly `n` bytes, and the number the library says it read. */
  function ReadStep(w: Wire, n: nat): (FtStatus, seq<Byte>, nat, Wire) {
    if !w.open then (FtOtherError, Fill([], n), 0, w)
    else
      var (a, w1) := Call(w, Fetched(n));
      (a.status, Fill(a.data, n), a.count, w1)
  }

  /** `Close`: `FT_Close`; the handle is cleared only when the library reports success. */
  function CloseStep(w: Wire): (FtStatus, Wire) {
    var (a, w1) := Call(w, Closed);
    (a.status, if a.status == FtOk then w1.(open := false) else w1)
  }

  /** Without a handle, no wrapper call but `Close` and `OpenBySerialNumber` reaches the library. */
  lemma ClosedWrapperIsSilent(w: Wire, e: Event, bytes: seq<Byte>, n: nat)
    requires !w.open
    ensures Guarded(w, e) == (FtOtherError, w)
    ensures WriteStep(w, bytes) == (FtOtherError, 0, w)
    ensures ReadStep(w, n).0 == FtOtherError && ReadStep(w, n).2 == 0 && ReadStep(w, n).3 == w
  {
  }

  /** A successful close clears the handle and an open either opens it or leaves it cleared. */
  lemma HandleLifecycle(w: Wire, serial: string)
    ensures CloseStep(w).0 == FtOk ==> !CloseStep(w).1.open
    ensures CloseStep(w).0 != FtOk ==> CloseStep(w).1.open == w.open
    ensures OpenStep(w, serial).1.open <==> |w.answers| > 0 && w.answers[0].status == FtOk
  {
  }

  /** The wrapper object: a handle and, standing for the library, its remaining answers. */
  class Ftdi {
    var open: bool
    var answers: seq<Answer>
    ghost var events: seq<Event>

    ghost function State(): Wire
      reads this
    {
      Wire(open, answers, events)
    }

    constructor (script: seq<Answer>)
      ensures State() == Wire(false, script, [])
    {
      open := false;
      answers := script;
      events := [];
    }

    /** `IsOpen`: the handle is not null. */
    function IsOpen(): (r: bool)
      reads this
      ensures r == State().open
    {
      open
    }

    /** A call into the library. */
    method Library(ghost e: Event) returns (a: Answer)
      modifies this
      ensures (a, State()) == Call(old(State()), e)
    {
      if |answers| == 0 {
        a := NoAnswer;
      } else {
        a := answers[0];
        answers := answers[1..];
      }
      events := events + [e];
    }

    method OpenBySerialNumber(serial: string) returns (status: FtStatus)
      modifies this
      ensures (status, State()) == OpenStep(old(State()), serial)
    {
      var a := Library(Opened(serial));
      status := a.status;
      if status != FtOk {
        open := false;
      } else {
        open := true;
        var b := Library(BaudRateSet(9600));
        status := b.status;
      }
    }

    method Wrapped(ghost e: Event) returns (status: FtStatus)
      modifies this
      ensures (status, State()) == Guarded(old(State()), e)
    {
      status := FtOtherError;
      if open {
        var a := Library(e);
        status := a.status;
      }
    }

    method SetBitMode(mask: Byte, mode: Byte) returns (status: FtStatus)
      modifies this
      ensures (status, State()) == Guarded(old(State()), BitModeSet(mask, mode))
    {
      status := Wrapped(BitModeSet(mask, mode));
    }

    method SetTimeouts(readTimeout: nat, writeTimeout: nat) returns (status: FtStatus)
      modifies this
      ensures (status, State()) == Guarded(old(State()), TimeoutsSet(readTimeout, writeTimeout))
    {
      status := Wrapped(TimeoutsSet(readTimeout, writeTimeout));
    }

    method SetBaudRate(rate: nat) returns (status: FtStatus)
      modifies this
      ensures (status, State()) == Guarded(old(State()), BaudRateSet(rate))
    {
      status := Wrapped(BaudRateSet(rate));
    }

    method Purge(mask: nat) returns (status: FtStatus)
      modifies this
      ensures (status, State()) == Guarded(old(State()), Purged(mask))
    {
      status := Wrapped(Purged(mask));
    }

    method Write(bytes: seq<Byte>) returns (status: FtStatus, written: nat)
      modifies this
      ensures (status, written, State()) == WriteStep(old(State()), bytes)
    {
      status, written := FtOtherError, 0;
      if open {
        var a := Library(Wrote(bytes));
        status, written := a.status, a.count;
      }
    }

    method Read(n: nat) returns (status: FtStatus, buffer: seq<Byte>, received: nat)
      modifies this
      ensures (status, buffer, received, State()) == ReadStep(old(State()), n)
    {
      status, buffer, received := FtOtherError, Fill([], n), 0;
      if open {
        var a := Library(Fetched(n));
        status, buffer, received := a.status, Fill(a.data, n), a.count;
      }
    }

    method Close() returns (status: FtStatus)
      modifies this
      ensures (status, State()) == CloseStep(old(State()))
    {
      var a := Library(Closed);
      status := a.status;
      if status == FtOk {
        open := false;
      }
    }
  }
}
