/** The read cycle shared by both vendors (`ProtocoloBase`): request a
    weight, read the reply, decode it, and the bounded retry that waits for
    a reading that is not "unstable". The functions describe what a read or a
    whole cycle yields from the scripted replies and the clock; the class
    performs them step by step and is proved to agree with them. */
module Protocolos {
  import opened Types
  import opened Dispositivo
  import ProtocoloToledo
  import ProtocoloFilizola

  /** `Thread.Sleep(200)` after a request. */
  const SettleMs: nat := 200
  /** `DateTime.Now.AddSeconds(3)` in `AguardarRespostaPeso`. */
  const DeadlineMs: int := 3000
  /** The weight request byte. */
  const RequestByte: bv8 := 0x05

  /** An `InterpretarRepostaPeso`, seen as a function of `UltimaResposta`. */
  type Decoder = string -> Result<real>

  /** The override of `InterpretarRepostaPeso` that `kind` selects. */
  function Interpretar(kind: Vendor, resposta: string, parse: DecimalParser): Result<real> {
    match kind
    case Toledo => ProtocoloToledo.InterpretarRepostaPeso(resposta, parse)
    case Filizola => ProtocoloFilizola.InterpretarRepostaPeso(resposta, parse)
  }

  function DecoderOf(kind: Vendor, parse: DecimalParser): Decoder {
    resposta => Interpretar(kind, resposta, parse)
  }

  /** The fields one `LeSerial` leaves behind, and whether it threw. */
  datatype Sample = Sample(resposta: string, peso: real, outcome: Outcome)

  /** What `LeSerial` leaves in `UltimaResposta` and `UltimoPesoLido` for a reply. */
  function SampleOf(decode: Decoder, reply: Reply): Sample {
    match reply
    case Broken => Sample("", ReadFailed, Fail(TransportFailure))
    case Frame(text) =>
      match decode(text)
      case Ok(w) => Sample(text, w, Pass)
      case Err(f) => Sample(text, ReadFailed, Fail(f))
  }

  /** A whole read cycle: what `LePeso` returns or throws, the samples of its
      reads in order, the replies left unread and the clock when it returns. */
  datatype Run = Run(result: Result<real>, samples: seq<Sample>, rest: seq<Reply>, end: int)

  function Last<T>(s: seq<T>): T
    requires s != []
  {
    s[|s| - 1]
  }

  /** What `SolicitarPeso` puts on the link. */
  const RequestOps: seq<Op> := [Cleared, Wrote([RequestByte])]

  /** What one turn of the retry loop does on the link: the request, when it
      re-requests, and then the read. */
  function TurnOps(resend: bool): seq<Op> {
    (if resend then RequestOps else []) + [Received]
  }

  /** `log` followed by `n` copies of `ops`. */
  function Repeat(log: seq<Op>, ops: seq<Op>, n: nat): seq<Op> {
    if n == 0 then log else Repeat(log, ops, n - 1) + ops
  }

  /** The pause after a request in one turn of the retry loop:
      the settle time when it re-requests, none otherwise. */
  function Pause(resend: bool): nat {
    if resend then SettleMs else 0
  }

  /** The loop of `AguardarRespostaPeso` from the moment it looks at the clock
      and sees `t`: it goes on while `deadline > t`, one read per turn, each
      turn taking the look at the clock plus `pause`, until a read throws or
      yields something other than `Unstable`. */
  function Spin(decode: Decoder, replies: seq<Reply>, t: int, deadline: int, pause: nat): Run
    decreases deadline - t
  {
    if deadline <= t then Run(Ok(Unstable), [], replies, t + 1)
    else
      var s := SampleOf(decode, NextReply(replies));
      if s.outcome.Fail? then Run(Err(s.outcome.error), [s], Rest(replies), t + 1 + pause)
      else if s.peso != Unstable then Run(Ok(s.peso), [s], Rest(replies), t + 1 + pause)
      else
        var r := Spin(decode, Rest(replies), t + 1 + pause, deadline, pause);
        Run(r.result, [s] + r.samples, r.rest, r.end)
  }

  /** `AguardarRespostaPeso(resend)` started with the clock at `now`. */
  function Aguardar(decode: Decoder, replies: seq<Reply>, now: int, timeout: int, resend: bool): Run {
    Spin(decode, replies, now + 1, now + timeout, Pause(resend))
  }

  /** `ProtocoloBase.LePeso`: request, settle, one read. */
  function Once(decode: Decoder, replies: seq<Reply>, now: int): Run {
    var s := SampleOf(decode, NextReply(replies));
    Run(if s.outcome.Pass? then Ok(s.peso) else Err(s.outcome.error), [s], Rest(replies), now + SettleMs)
  }

  /** `LePeso` as dispatched: Filizola overrides it with the retry that re-requests. */
  function Ciclo(kind: Vendor, decode: Decoder, replies: seq<Reply>, now: int): Run {
    if kind == Filizola then Aguardar(decode, replies, now, DeadlineMs, true)
    else Once(decode, replies, now)
  }

  /** One `LeSerial` with a vendor decoder: a failed read leaves "" and -9; a
      frame read is kept, and the weight is its decoding, or -9 if decoding
      throws, the exception being passed on. */
  lemma SampleFacts(kind: Vendor, parse: DecimalParser, reply: Reply)
    ensures var s := SampleOf(DecoderOf(kind, parse), reply);
      (reply.Broken? ==> s.resposta == "" && s.peso == ReadFailed && s.outcome == Fail(TransportFailure)) &&
      (reply.Frame? ==> (s.resposta == reply.text && (
         match Interpretar(kind, reply.text, parse)
         case Ok(w) => s.peso == w && s.outcome == Pass
         case Err(f) => s.peso == ReadFailed && s.outcome == Fail(f))))
  {
  }

  /** The loop reads only while time remains: it reads at least once exactly
      when the deadline is still ahead, and with no read it returns `Unstable`. */
  lemma SpinReadsBeforeDeadline(decode: Decoder, replies: seq<Reply>, t: int, deadline: int, pause: nat)
    ensures var r := Spin(decode, replies, t, deadline, pause);
      (r.samples == [] <==> deadline <= t) && (r.samples == [] ==> r.result == Ok(Unstable))
  {
  }

  /** Every read but the last one was a clean `Unstable`. */
  predicate UnstableBeforeLast(samples: seq<Sample>) {
    forall i :: 0 <= i < |samples| - 1 ==> samples[i].outcome == Pass && samples[i].peso == Unstable
  }

  /** The loop goes on only after a clean `Unstable` read, so it stops at the
      first read that throws or is not `Unstable`. */
  lemma {:induction false} SpinContinuesOnlyWhenUnstable(decode: Decoder, replies: seq<Reply>, t: int, deadline: int, pause: nat)
    ensures UnstableBeforeLast(Spin(decode, replies, t, deadline, pause).samples)
    decreases deadline - t
  {
    if deadline > t {
      var s := SampleOf(decode, NextReply(replies));
      if s.outcome.Pass? && s.peso == Unstable {
        SpinContinuesOnlyWhenUnstable(decode, Rest(replies), t + 1 + pause, deadline, pause);
        var r := Spin(decode, Rest(replies), t + 1 + pause, deadline, pause);
        var all := Spin(decode, replies, t, deadline, pause).samples;
        assert all == [s] + r.samples;
        forall i | 0 <= i < |all| - 1 ensures all[i].outcome == Pass && all[i].peso == Unstable {
          if i > 0 {
            assert all[i] == r.samples[i - 1];
          }
        }
      }
    }
  }

  /** The result is the weight the last read left in `UltimoPesoLido`, or the
      exception it threw, with -9 left behind. */
  lemma {:induction false} SpinResultIsLastRead(decode: Decoder, replies: seq<Reply>, t: int, deadline: int, pause: nat)
    ensures var r := Spin(decode, replies, t, deadline, pause);
      r.samples != [] ==> match r.result
        case Ok(w) => Last(r.samples).outcome == Pass && Last(r.samples).peso == w
        case Err(f) => Last(r.samples).outcome == Fail(f) && Last(r.samples).peso == ReadFailed
    decreases deadline - t
  {
    if deadline > t {
      var s := SampleOf(decode, NextReply(replies));
      if s.outcome.Pass? && s.peso == Unstable {
        SpinResultIsLastRead(decode, Rest(replies), t + 1 + pause, deadline, pause);
        SpinReadsBeforeDeadline(decode, Rest(replies), t + 1 + pause, deadline, pause);
      }
    }
  }

  /** `Unstable` comes back only once the clock has reached the deadline, and
      the loop never runs far past it: its last turn starts before the
      deadline, so the clock ends at most one turn and one tick beyond it. */
  lemma {:induction false} SpinTiming(decode: Decoder, replies: seq<Reply>, t: int, deadline: int, pause: nat)
    ensures var r := Spin(decode, replies, t, deadline, pause);
      (r.result == Ok(Unstable) ==> deadline < r.end) &&
      t < r.end && (deadline > t ==> r.end <= deadline + pause + 2)
    decreases deadline - t
  {
    if deadline > t {
      var s := SampleOf(decode, NextReply(replies));
      if s.outcome.Pass? && s.peso == Unstable {
        SpinTiming(decode, Rest(replies), t + 1 + pause, deadline, pause);
      }
    }
  }

  /** If the scale first answers `k` clean unstable frames and then one that
      reads as `w`, and those `k` turns end before the deadline, the loop
      returns `w` after exactly `k + 1` reads. */
  lemma {:induction false} SpinSettles(decode: Decoder, replies: seq<Reply>, t: int, deadline: int, pause: nat, k: nat, w: real)
    requires k < |replies|
    requires forall i :: 0 <= i < k ==> SampleOf(decode, replies[i]).outcome == Pass && SampleOf(decode, replies[i]).peso == Unstable
    requires SampleOf(decode, replies[k]).outcome == Pass && SampleOf(decode, replies[k]).peso == w && w != Unstable
    requires t + k * (1 + pause) < deadline
    ensures var r := Spin(decode, replies, t, deadline, pause);
      r.result == Ok(w) && |r.samples| == k + 1 && r.rest == replies[k + 1..]
    decreases k
  {
    assert NextReply(replies) == replies[0];
    if k > 0 {
      var tail := Rest(replies);
      assert (t + 1 + pause) + (k - 1) * (1 + pause) == t + k * (1 + pause);
      forall i | 0 <= i < k - 1
        ensures SampleOf(decode, tail[i]).outcome == Pass && SampleOf(decode, tail[i]).peso == Unstable
      {
        assert tail[i] == replies[i + 1];
      }
      assert tail[k - 1] == replies[k];
      SpinSettles(decode, tail, t + 1 + pause, deadline, pause, k - 1, w);
      assert tail[k..] == replies[k + 1..];
    }
  }

  /** Filizola's `LePeso` is the retry with re-requests and a 3 s deadline,
      and it always reads at least once; whatever the vendor, `LePeso`
      returns the weight its last read left, and a read that throws leaves -9. */
  lemma CicloOutcome(kind: Vendor, decode: Decoder, replies: seq<Reply>, now: int)
    ensures kind == Filizola ==> Ciclo(kind, decode, replies, now) == Aguardar(decode, replies, now, DeadlineMs, true)
    ensures var r := Ciclo(kind, decode, replies, now);
      r.samples != [] &&
      (match r.result
       case Ok(w) => Last(r.samples).outcome == Pass && Last(r.samples).peso == w
       case Err(f) => Last(r.samples).outcome == Fail(f) && Last(r.samples).peso == ReadFailed)
  {
    if kind == Filizola {
      SpinReadsBeforeDeadline(decode, replies, now + 1, now + DeadlineMs, SettleMs);
      SpinResultIsLastRead(decode, replies, now + 1, now + DeadlineMs, SettleMs);
    }
  }

  // Bookkeeping for the loop of `AguardarRespostaPeso`.

  /** The samples already taken, followed by the rest of a cycle. */
  function Cat(done: seq<Sample>, run: Run): Run {
    Run(run.result, done + run.samples, run.rest, run.end)
  }

  /** One turn of the loop, seen from the whole cycle it belongs to. */
  lemma Advance(decode: Decoder, whole: Run, done: seq<Sample>, replies: seq<Reply>, t: int, deadline: int, pause: nat)
    requires deadline > t
    requires whole == Cat(done, Spin(decode, replies, t, deadline, pause))
    ensures var s := SampleOf(decode, NextReply(replies));
      (s.outcome.Fail? ==> whole == Run(Err(s.outcome.error), done + [s], Rest(replies), t + 1 + pause)) &&
      (s.outcome.Pass? && s.peso != Unstable ==> whole == Run(Ok(s.peso), done + [s], Rest(replies), t + 1 + pause)) &&
      (s.outcome.Pass? && s.peso == Unstable ==> whole == Cat(done + [s], Spin(decode, Rest(replies), t + 1 + pause, deadline, pause)))
  {
    var s := SampleOf(decode, NextReply(replies));
    var next := Spin(decode, Rest(replies), t + 1 + pause, deadline, pause);
    assert done + ([s] + next.samples) == (done + [s]) + next.samples;
  }

  /** `UltimaResposta` and `UltimoPesoLido` after the reads `samples`,
      starting from `resposta` and `peso`. */
  function LastFields(samples: seq<Sample>, resposta: string, peso: real): (string, real) {
    if samples == [] then (resposta, peso) else (Last(samples).resposta, Last(samples).peso)
  }

  lemma LastFieldsStep(samples: seq<Sample>, s: Sample, resposta: string, peso: real)
    ensures LastFields(samples + [s], resposta, peso) == (s.resposta, s.peso)
  {
  }

  /** What `AguardarRespostaPeso` can change, apart from the clock. */
  datatype Snapshot = Snapshot(pending: seq<Reply>, log: seq<Op>, resposta: string, peso: real)

  /** The cycle `whole` accounts for all that happened from `s0` to `s1`,
      the clock ending at `now`, and `r` is what it returns. */
  predicate Accounts(whole: Run, r: Result<real>, s0: Snapshot, s1: Snapshot, now: int, ops: seq<Op>) {
    r == whole.result && s1.pending == whole.rest && now == whole.end &&
    s1.log == Repeat(s0.log, ops, |whole.samples|) &&
    (s1.resposta, s1.peso) == LastFields(whole.samples, s0.resposta, s0.peso)
  }

  /** Halfway through `whole`: the reads `done` lie between `s0` and `s1`,
      and the rest is the loop from `s1`, whose look at the clock saw `t`. */
  predicate Midway(decode: Decoder, whole: Run, done: seq<Sample>, s0: Snapshot, s1: Snapshot,
                   t: int, deadline: int, pause: nat, ops: seq<Op>) {
    whole == Cat(done, Spin(decode, s1.pending, t, deadline, pause)) &&
    s1.log == Repeat(s0.log, ops, |done|) &&
    (s1.resposta, s1.peso) == LastFields(done, s0.resposta, s0.peso)
  }

  /** A `ProtocoloToledo` or `ProtocoloFilizola` bound to its device;
      `decode` is its override of `InterpretarRepostaPeso`. */
  class ProtocoloBase {
    const kind: Vendor
    const device: Device
    const clock: Clock
    const decode: Decoder
    var ultimaResposta: string
    var ultimoPesoLido: real

    constructor(kind: Vendor, device: Device, clock: Clock, parse: DecimalParser)
      ensures this.kind == kind && this.device == device && this.clock == clock
      ensures decode == DecoderOf(kind, parse)
      ensures ultimaResposta == "" && ultimoPesoLido == 0.0
    {
      this.kind, this.device, this.clock := kind, device, clock;
      decode := DecoderOf(kind, parse);
      ultimaResposta, ultimoPesoLido := "", 0.0;
    }

    /** `InterpretarRepostaPeso`: a function of `UltimaResposta`, which it
        reads and never changes. */
    function InterpretarRepostaPeso(): Result<real>
      reads this
    {
      decode(ultimaResposta)
    }

    /** `LeSerial`: clears both fields, reads one reply and decodes it; any
        failure forces the weight to -9 and is passed on. */
    method LeSerial() returns (o: Outcome)
      modifies this`ultimaResposta, this`ultimoPesoLido, device`pending, device`log, device`stamps
      ensures device.stamps == old(device.stamps) + [clock.now]
      ensures Sample(ultimaResposta, ultimoPesoLido, o) == SampleOf(decode, NextReply(old(device.pending)))
      ensures device.pending == Rest(old(device.pending)) && device.log == old(device.log) + [Received]
    {
      ultimoPesoLido := 0.0;
      ultimaResposta := "";
      var read := device.Read(clock.now);
      match read
      case Err(f) =>
        ultimoPesoLido := ReadFailed;
        o := Fail(f);
      case Ok(text) =>
        ultimaResposta := text;
        match InterpretarRepostaPeso()
        case Ok(w) =>
          ultimoPesoLido := w;
          o := Pass;
        case Err(f) =>
          ultimoPesoLido := ReadFailed;
          o := Fail(f);
    }

    /** `SolicitarPeso`: clear the input buffer, then send the request byte. */
    method SolicitarPeso()
      modifies device`log
      ensures device.log == old(device.log) + RequestOps
    {
      device.Limpar();
      device.Write([RequestByte]);
    }

    /** `ProtocoloBase.LePeso`: request, settle, read; returns `UltimoPesoLido`. */
    method LePesoBase() returns (r: Result<real>)
      modifies this`ultimaResposta, this`ultimoPesoLido, device`pending, device`log, device`stamps, clock
      ensures var run := Once(decode, old(device.pending), old(clock.now));
        r == run.result && device.pending == run.rest && clock.now == run.end &&
        Sample(ultimaResposta, ultimoPesoLido, run.samples[0].outcome) == run.samples[0]
      ensures device.log == old(device.log) + RequestOps + [Received]
      ensures device.stamps == old(device.stamps) + [old(clock.now) + SettleMs]
    {
      SolicitarPeso();
      clock.Sleep(SettleMs);
      var o := LeSerial();
      if o.Pass? {
        r := Ok(ultimoPesoLido);
      } else {
        r := Err(o.error);
      }
    }

    function Snap(): Snapshot
      reads this, device
    {
      Snapshot(device.pending, device.log, ultimaResposta, ultimoPesoLido)
    }

    /** One turn of `AguardarRespostaPeso`: re-request and settle when
        `resend`, then one `LeSerial`. The ghost parameters place the turn in
        the whole cycle, of which the reads `done` are behind. */
    method Turno(resend: bool, ghost whole: Run, ghost done: seq<Sample>, ghost s0: Snapshot, ghost t: int, wFinal: int)
        returns (o: Outcome)
      requires wFinal > t && clock.now == t + 1
      requires Midway(decode, whole, done, s0, Snap(), t, wFinal, Pause(resend), TurnOps(resend))
      modifies this`ultimaResposta, this`ultimoPesoLido, device`pending, device`log, device`stamps, clock
      ensures clock.now == t + 1 + Pause(resend)
      ensures device.stamps == old(device.stamps) + [t + 1 + Pause(resend)]
      ensures o.Fail? ==> Accounts(whole, Err(o.error), s0, Snap(), clock.now, TurnOps(resend))
      ensures o.Pass? && ultimoPesoLido != Unstable ==> Accounts(whole, Ok(ultimoPesoLido), s0, Snap(), clock.now, TurnOps(resend))
      ensures o.Pass? && ultimoPesoLido == Unstable ==>
        Midway(decode, whole, done + [Sample(ultimaResposta, ultimoPesoLido, o)], s0, Snap(), clock.now, wFinal, Pause(resend), TurnOps(resend))
    {
      ghost var before := device.pending;
      Advance(decode, whole, done, before, t, wFinal, Pause(resend));
      if resend {
        SolicitarPeso();
        clock.Sleep(SettleMs);
      }
      o := LeSerial();
      LastFieldsStep(done, Sample(ultimaResposta, ultimoPesoLido, o), s0.resposta, s0.peso);
    }

    /** `AguardarRespostaPeso(resend)` with the deadline `timeout` ms after
        the first look at the clock (3000 in the driver). A failing read ends
        the loop and is passed on. */
    method AguardarRespostaPeso(resend: bool, timeout: int) returns (r: Result<real>)
      modifies this`ultimaResposta, this`ultimoPesoLido, device`pending, device`log, device`stamps, clock
      ensures Accounts(Aguardar(decode, old(device.pending), old(clock.now), timeout, resend), r, old(Snap()), Snap(), clock.now, TurnOps(resend))
    {
      ghost var whole := Aguardar(decode, device.pending, clock.now, timeout, resend);
      ghost var s0 := Snap();
      var start := clock.Read();
      var wFinal := start + timeout;
      ghost var done: seq<Sample> := [];
      // `ret == -1` holds on entry, so the guard looks at the clock.
      var t := clock.Read();
      while wFinal > t
        invariant clock.now == t + 1
        invariant Midway(decode, whole, done, s0, Snap(), t, wFinal, Pause(resend), TurnOps(resend))
        decreases wFinal - t
      {
        var o := Turno(resend, whole, done, s0, t, wFinal);
        done := done + [Sample(ultimaResposta, ultimoPesoLido, o)];
        if o.Fail? {
          return Err(o.error);
        }
        var ret := ultimoPesoLido;
        // The guard `ret == -1` fails: the loop ends without looking at the clock.
        if ret != Unstable {
          return Ok(ret);
        }
        t := clock.Read();
      }
      r := Ok(Unstable);
    }

    /** `LePeso` as dispatched: the base cycle for Toledo, Filizola's override
        `AguardarRespostaPeso(true)` for Filizola. */
    method LePeso() returns (r: Result<real>)
      modifies this`ultimaResposta, this`ultimoPesoLido, device`pending, device`log, device`stamps, clock
      ensures var run := Ciclo(kind, decode, old(device.pending), old(clock.now));
        r == run.result && device.pending == run.rest && clock.now == run.end &&
        device.log == Repeat(old(device.log), RequestOps + [Received], |run.samples|) &&
        ultimaResposta == Last(run.samples).resposta && ultimoPesoLido == Last(run.samples).peso
    {
      CicloOutcome(kind, decode, device.pending, clock.now);
      if kind == Filizola {
        r := AguardarRespostaPeso(true, DeadlineMs);
      } else {
        r := LePesoBase();
      }
    }
  }
}
