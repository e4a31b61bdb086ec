/** `OpenBal`: the session with one scale. It opens the device, binds the
    protocol object of the chosen vendor, reads the weight on demand and,
    while monitoring, polls the device for readings the scale sends on its
    own; every reading, good or bad, is raised on `AoLerPeso`. */
module Balanca {
  import opened Types
  import opened Dispositivo
  import opened Protocolos
  import opened Eventos

  /** What one turn of the poll loop of `Monitorar` did. */
  datatype Poll =
    | Stopped            // cancellation requested: the loop ends
    | Skipped            // monitoring paused: the loop spins on
    | Polled             // one reading raised, then the delay
    | Blocked            // `Task.Delay(-1)`: the loop waits forever
    | Crashed(error: Fault)  // `Task.Delay` rejected the delay: the poll task dies

  /** The reading raised for the last read of a cycle and its outcome. */
  function Leitura(resposta: string, peso: real, o: Outcome): BalancaEventArgs {
    if o.Pass? then ComPeso(resposta, peso) else ComExcecao(resposta, o.error)
  }

  /** `LerPeso` raises exactly the reading the last read of its cycle left
      behind: the weight if the cycle returned one, otherwise the exception,
      in which case the weight it then returns is -9. */
  lemma LerPesoReading(kind: Vendor, decode: Decoder, replies: seq<Reply>, now: int)
    ensures var run := Ciclo(kind, decode, replies, now);
      var last := Last(run.samples);
      var e := Leitura(last.resposta, last.peso, if run.result.Ok? then Pass else Fail(run.result.error));
      OnePayload(e) && e.leitura == last.resposta &&
      (run.result.Ok? ==> e.peso == Some(run.result.value) && last.peso == run.result.value) &&
      (run.result.Err? ==> e.excecao == Some(run.result.error) && last.peso == ReadFailed)
  {
    CicloOutcome(kind, decode, replies, now);
  }

  class OpenBal {
    /** The `Device` property: the configuration the stream is created from. */
    const config: DeviceConfig
    const clock: Clock
    const parse: DecimalParser
    var protocolo: ProtocoloBalanca
    var isMonitorar: bool
    var delayMonitoramento: int
    var cancelamento: Cancellation?
    var device: Device?
    var bal: ProtocoloBase?
    /** Every reading raised on `AoLerPeso`, in order. */
    var aoLerPeso: seq<BalancaEventArgs>

    /** `Conectado`. */
    function Conectado(): bool
      reads this, device
    {
      device != null && device.conectado
    }

    /** The session invariant: there is a protocol object exactly while the
        device is open, bound to that device and to the chosen protocol, and
        a poll loop that may still run; with no protocol object, any poll
        loop has been told to stop. */
    ghost predicate Valid()
      reads this, device, bal, cancelamento
    {
      (bal != null <==> Conectado()) &&
      (bal != null ==>
        bal.device == device && bal.clock == clock && protocolo == bal.kind &&
        bal.decode == DecoderOf(bal.kind, parse) &&
        cancelamento != null && !cancelamento.requested) &&
      (bal == null ==> cancelamento == null || cancelamento.requested) &&
      (forall i :: 0 <= i < |aoLerPeso| ==> OnePayload(aoLerPeso[i]))
    }

    /** `OpenBal(device)`: the protocol starts as Toledo. */
    constructor(config: DeviceConfig, clock: Clock, parse: DecimalParser)
      ensures Valid() && !Conectado()
      ensures this.config == config && this.clock == clock && this.parse == parse
      ensures protocolo == Toledo && !isMonitorar && delayMonitoramento == 0
      ensures device == null && bal == null && cancelamento == null && aoLerPeso == []
    {
      this.config, this.clock, this.parse := config, clock, parse;
      protocolo := Toledo;
      isMonitorar, delayMonitoramento := false, 0;
      cancelamento, device, bal := null, null, null;
      aoLerPeso := [];
    }

    /** The `Protocolo` setter: refused while connected. */
    method SetProtocolo(value: ProtocoloBalanca) returns (o: Outcome)
      requires Valid()
      modifies this`protocolo
      ensures Valid()
      ensures old(Conectado()) ==> o == Fail(ProtocolLocked) && protocolo == old(protocolo)
      ensures !old(Conectado()) ==> o == Pass && protocolo == value
    {
      if Conectado() {
        return Fail(ProtocolLocked);
      }
      protocolo := value;
      o := Pass;
    }

    /** The `IsMonitorar` setter. */
    method SetIsMonitorar(value: bool)
      requires Valid()
      modifies this`isMonitorar
      ensures Valid() && isMonitorar == value
    {
      isMonitorar := value;
    }

    /** The `DelayMonitoramento` setter. */
    method SetDelayMonitoramento(value: int)
      requires Valid()
      modifies this`delayMonitoramento
      ensures Valid() && delayMonitoramento == value
    {
      delayMonitoramento := value;
    }

    /** `Conectar`, with `criado` the stream `OpenDeviceFactory.Create` makes
        from `config`. On success the protocol object of the chosen vendor is
        bound to it and a fresh cancellation source governs the poll loop.
        If opening throws, the stream stays recorded but closed and no
        protocol object is made. */
    method Conectar(criado: Device) returns (o: Outcome)
      requires Valid()
      requires !criado.conectado
      modifies this`device, this`bal, this`cancelamento, config`controlePorta, criado`conectado
      ensures Valid()
      ensures old(Conectado()) ==> (o == Fail(AlreadyOpen) && device == old(device) && bal == old(bal) &&
        cancelamento == old(cancelamento) && config.controlePorta == old(config.controlePorta))
      ensures !old(Conectado()) && !IsDefined(protocolo) ==> (o == Fail(UnsupportedProtocol) &&
        device == old(device) && bal == old(bal) && cancelamento == old(cancelamento) &&
        config.controlePorta == old(config.controlePorta))
      ensures old(Conectado()) || !IsDefined(protocolo) ==> unchanged(criado)
      ensures !old(Conectado()) && IsDefined(protocolo) ==> !config.controlePorta && device == criado
      ensures !old(Conectado()) && IsDefined(protocolo) && criado.openFails ==>
        (o == Fail(TransportFailure) && !Conectado() && bal == old(bal) && cancelamento == old(cancelamento))
      ensures !old(Conectado()) && IsDefined(protocolo) && !criado.openFails ==>
        (o == Pass && Conectado() && bal != null && fresh(bal) && bal.kind == protocolo &&
         bal.device == criado && bal.ultimaResposta == "" &&
         cancelamento != null && fresh(cancelamento) && !cancelamento.requested)
    {
      if Conectado() {
        return Fail(AlreadyOpen);
      }
      if !IsDefined(protocolo) {
        return Fail(UnsupportedProtocol);
      }
      config.controlePorta := false;
      device := criado;
      o := device.Open();
      if o.Fail? {
        return;
      }
      bal := new ProtocoloBase(protocolo, device, clock, parse);
      cancelamento := new Cancellation();
    }

    /** `Desconectar`: refused when not connected; otherwise stops the poll
        loop, closes and disposes the stream and forgets it. */
    method Desconectar() returns (o: Outcome)
      requires Valid()
      modifies this`device, this`bal, cancelamento, device
      ensures Valid()
      ensures !old(Conectado()) ==> o == Fail(NotOpen) && device == old(device) && bal == old(bal)
      ensures old(Conectado()) ==> (o == Pass && device == null && bal == null &&
        old(cancelamento).requested && !old(device).conectado && old(device).disposed)
      ensures !old(Conectado()) && device != null ==> unchanged(device)
      ensures old(Conectado()) ==> old(device).log == old(device.log) && old(device).pending == old(device.pending)
      ensures cancelamento == old(cancelamento) && !Conectado()
    {
      if !Conectado() {
        return Fail(NotOpen);
      }
      cancelamento.Cancel();
      device.Close();
      device.Dispose();
      device := null;
      bal := null;
      o := Pass;
    }

    /** `LerPeso`: one read cycle of the bound protocol, with monitoring
        paused for its duration and restored afterwards. Its failures become
        an exception reading instead of propagating, and the weight the
        cycle left is returned: -9 after a failure. With a stream whose
        opening failed, there is no protocol object and the call throws. */
    method LerPeso() returns (r: Result<real>)
      requires Valid()
      modifies this`isMonitorar, this`aoLerPeso, bal, device, clock
      ensures Valid() && isMonitorar == old(isMonitorar)
      ensures device != null ==> device.disposed == old(device.disposed)
      ensures device == null ==> r == Err(ConnectionInactive) && aoLerPeso == old(aoLerPeso)
      ensures device != null && bal == null ==> r == Err(NullReference) && aoLerPeso == old(aoLerPeso)
      ensures bal == null ==> clock.now == old(clock.now) && (device != null ==> unchanged(device))
      ensures bal != null ==>
        var run := Ciclo(bal.kind, bal.decode, old(device.pending), old(clock.now));
        var last := Last(run.samples);
        r == Ok(last.peso) && device.pending == run.rest && clock.now == run.end &&
        device.log == Repeat(old(device.log), RequestOps + [Received], |run.samples|) &&
        bal.ultimaResposta == last.resposta && bal.ultimoPesoLido == last.peso &&
        aoLerPeso == old(aoLerPeso) + [Leitura(last.resposta, last.peso, if run.result.Ok? then Pass else Fail(run.result.error))]
    {
      if device == null {
        return Err(ConnectionInactive);
      }
      var monitorando := isMonitorar;
      isMonitorar := false;
      if bal == null {
        // `bal.LePeso()` throws. With subscribers to `AoLerPeso`, the catch throws
        // again reading `bal.UltimaResposta`; without them, `return bal.UltimoPesoLido` does.
        isMonitorar := monitorando;
        return Err(NullReference);
      }
      LerPesoReading(bal.kind, bal.decode, device.pending, clock.now);
      var lido := bal.LePeso();
      var o := if lido.Ok? then Pass else Fail(lido.error);
      aoLerPeso := aoLerPeso + [Leitura(bal.ultimaResposta, bal.ultimoPesoLido, o)];
      isMonitorar := monitorando;
      r := Ok(bal.ultimoPesoLido);
    }

    /** One turn of the poll loop of `Monitorar`: it ends once cancellation
        is requested, spins while monitoring is paused, and otherwise reads
        one reply without requesting it, raises the reading, and waits
        `DelayMonitoramento` ms. */
    method MonitorarPasso() returns (p: Poll)
      requires Valid() && cancelamento != null
      modifies this`aoLerPeso, bal, device, clock
      ensures Valid()
      ensures cancelamento.requested ==> p == Stopped && aoLerPeso == old(aoLerPeso)
      ensures !cancelamento.requested && !isMonitorar ==> p == Skipped && aoLerPeso == old(aoLerPeso)
      ensures !cancelamento.requested && isMonitorar ==>
        bal != null &&
        var s := SampleOf(bal.decode, NextReply(old(device.pending)));
        device.pending == Rest(old(device.pending)) &&
        bal.ultimaResposta == s.resposta && bal.ultimoPesoLido == s.peso &&
        aoLerPeso == old(aoLerPeso) + [Leitura(s.resposta, s.peso, s.outcome)] &&
        p == (if delayMonitoramento < -1 then Crashed(OutOfRange)
              else if delayMonitoramento == -1 then Blocked
              else Polled) &&
        clock.now == old(clock.now) + (if delayMonitoramento >= 0 then delayMonitoramento else 0)
      ensures device != null ==> device.disposed == old(device.disposed)
      ensures !cancelamento.requested && isMonitorar ==>
        device.log == old(device.log) + [Received] && device.stamps == old(device.stamps) + [old(clock.now)]
      ensures p.Stopped? || p.Skipped? ==>
        clock.now == old(clock.now) &&
        (device != null ==> device.pending == old(device.pending) && device.log == old(device.log)) &&
        (bal != null ==> bal.ultimaResposta == old(bal.ultimaResposta) && bal.ultimoPesoLido == old(bal.ultimoPesoLido))
    {
      if cancelamento.requested {
        return Stopped;
      }
      if !isMonitorar {
        return Skipped;
      }
      var o := bal.LeSerial();
      aoLerPeso := aoLerPeso + [Leitura(bal.ultimaResposta, bal.ultimoPesoLido, o)];
      if delayMonitoramento < -1 {
        p := Crashed(OutOfRange);
      } else if delayMonitoramento == -1 {
        p := Blocked;
      } else {
        clock.Sleep(delayMonitoramento);
        p := Polled;
      }
    }

    /** `DisposeManaged`: disconnects only when connected, so disposing never
        raises the not-connected error. */
    method DisposeManaged()
      requires Valid()
      modifies this`device, this`bal, cancelamento, device
      ensures Valid() && !Conectado()
      ensures !old(Conectado()) ==> device == old(device) && bal == old(bal)
      ensures !old(Conectado()) && device != null ==> unchanged(device)
      ensures !old(Conectado()) && cancelamento != null ==> unchanged(cancelamento)
      ensures old(Conectado()) ==> device == null && bal == null && old(device).disposed && !old(device).conectado
    {
      if Conectado() {
        var o := Desconectar();
        assert o == Pass;
      }
    }
  }
}
