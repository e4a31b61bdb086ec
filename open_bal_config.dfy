/** `OpenBalConfig`: the settings object of a session. Its protocol setter
    repeats the session's own guard, refusing a change while its owner is
    connected; the monitoring settings are plain storage. */
module Configuracao {
  import opened Types
  import opened Balanca

  class OpenBalConfig {
    const owner: OpenBal
    var protocolo: ProtocoloBalanca
    var isMonitorar: bool
    var delayMonitoramento: int

    /** `OpenBalConfig(bal)`: the protocol starts as Toledo. */
    constructor(owner: OpenBal)
      ensures this.owner == owner && protocolo == Toledo
      ensures !isMonitorar && delayMonitoramento == 0
    {
      this.owner := owner;
      protocolo := Toledo;
      isMonitorar, delayMonitoramento := false, 0;
    }

    /** The `Protocolo` setter: refused while the owner is connected. */
    method SetProtocolo(value: ProtocoloBalanca) returns (o: Outcome)
      modifies this`protocolo
      ensures owner.Conectado() ==> o == Fail(ProtocolLocked) && protocolo == old(protocolo)
      ensures !owner.Conectado() ==> o == Pass && protocolo == value
    {
      if owner.Conectado() {
        return Fail(ProtocolLocked);
      }
      protocolo := value;
      o := Pass;
    }

    /** The `IsMonitorar` setter, in any connection state. */
    method SetIsMonitorar(value: bool)
      modifies this`isMonitorar
      ensures isMonitorar == value
    {
      isMonitorar := value;
    }

    /** The `DelayMonitoramento` setter, in any connection state. */
    method SetDelayMonitoramento(value: int)
      modifies this`delayMonitoramento
      ensures delayMonitoramento == value
    {
      delayMonitoramento := value;
    }
  }
}
