/** The collaborators the driver talks to but does not implement: the
    byte-stream device (`OpenDeviceStream`), its configuration, the clock
    behind `DateTime.Now`, `Thread.Sleep` and `Task.Delay`, and the
    cancellation source of the poll task. Each is reduced to the state the
    driver can observe. */
module Dispositivo {
  import opened Types

  /** What one `Read` of the device yields: a frame of text (its bytes already
      decoded as UTF-8) or a transport exception. */
  datatype Reply = Frame(text: string) | Broken

  /** What happens on the link, in order: the driver clears the input or
      writes bytes, or it takes one reply from the scale. */
  datatype Op = Cleared | Wrote(bytes: seq<bv8>) | Received

  /** The reply the next read returns; a device with nothing more to say reads
      as an empty frame. */
  function NextReply(pending: seq<Reply>): Reply {
    if pending == [] then Frame("") else pending[0]
  }

  /** The replies left after one read. */
  function Rest(pending: seq<Reply>): seq<Reply> {
    if pending == [] then [] else pending[1..]
  }

  /** `IDeviceConfig`: only the flow-control switch matters to the driver. */
  class DeviceConfig {
    var controlePorta: bool

    constructor(controlePorta: bool)
      ensures this.controlePorta == controlePorta
    {
      this.controlePorta := controlePorta;
    }
  }

  /** An `OpenDeviceStream`. `pending` scripts what the scale will answer,
      `log` records what the driver wrote and when it read, `stamps` the
      clock reading at each read, and `openFails` says whether
      `Open` throws. */
  class Device {
    var conectado: bool
    var disposed: bool
    var pending: seq<Reply>
    var log: seq<Op>
    ghost var stamps: seq<int>
    const openFails: bool

    constructor(replies: seq<Reply>, openFails: bool)
      ensures !conectado && !disposed && pending == replies && log == [] && stamps == []
      ensures this.openFails == openFails
    {
      conectado, disposed := false, false;
      pending, log := replies, [];
      stamps := [];
      this.openFails := openFails;
    }

    method Open() returns (o: Outcome)
      modifies this`conectado
      ensures o == (if openFails then Fail(TransportFailure) else Pass)
      ensures conectado == (old(conectado) || !openFails)
    {
      if openFails {
        o := Fail(TransportFailure);
      } else {
        conectado := true;
        o := Pass;
      }
    }

    method Close()
      modifies this`conectado
      ensures !conectado
    {
      conectado := false;
    }

    method Dispose()
      modifies this`disposed
      ensures disposed
    {
      disposed := true;
    }

    /** `Limpar`: discards stale input. Stale bytes are not part of the
        script, so only the log records it. */
    method Limpar()
      modifies this`log
      ensures log == old(log) + [Cleared]
    {
      log := log + [Cleared];
    }

    method Write(bytes: seq<bv8>)
      modifies this`log
      ensures log == old(log) + [Wrote(bytes)]
    {
      log := log + [Wrote(bytes)];
    }

    /** A read taken when the clock shows `at`. */
    method Read(ghost at: int) returns (r: Result<string>)
      modifies this`pending, this`log, this`stamps
      ensures pending == Rest(old(pending)) && log == old(log) + [Received] && stamps == old(stamps) + [at]
      ensures r == match NextReply(old(pending))
                   case Frame(text) => Ok(text)
                   case Broken => Err(TransportFailure)
    {
      var reply := NextReply(pending);
      pending := Rest(pending);
      log := log + [Received];
      stamps := stamps + [at];
      match reply
      case Frame(text) => r := Ok(text);
      case Broken => r := Err(TransportFailure);
    }
  }

  /** Wall-clock time in milliseconds. Looking at the clock takes one tick,
      so time always moves on between two observations. */
  class Clock {
    var now: int

    constructor(start: int)
      ensures now == start
    {
      now := start;
    }

    /** `DateTime.Now`. */
    method Read() returns (t: int)
      modifies this
      ensures t == old(now) && now == old(now) + 1
    {
      t := now;
      now := now + 1;
    }

    /** `Thread.Sleep(ms)` and `Task.Delay(ms)`. */
    method Sleep(ms: nat)
      modifies this
      ensures now == old(now) + ms
    {
      now := now + ms;
    }
  }

  /** `CancellationTokenSource`. */
  class Cancellation {
    var requested: bool

    constructor()
      ensures !requested
    {
      requested := false;
    }

    method Cancel()
      modifies this
      ensures requested
    {
      requested := true;
    }
  }
}
