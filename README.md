# OpenAC.Net.Balanca — a verified model of the scale driver core

OpenAC.Net.Balanca drives Toledo and Filizola retail scales over a serial-style
byte stream. An `OpenBal` session does four things:

- it opens the device;
- it binds the protocol object of the chosen vendor;
- it reads the weight on demand (`LerPeso`);
- while monitoring is on, it polls the device for readings the scale sends unprompted.

Every reading, good or bad, is raised on the `AoLerPeso` event as a
`BalancaEventArgs`. The protocol object does the following:

- it requests a weight by clearing the input and writing byte 0x05;
- it reads one reply;
- it decodes the reply into kilograms, or into one of these sentinels:
  - -1 unstable;
  - -2 negative;
  - -10 overload;
  - -9, left behind when a read or a decode fails.

The two vendors differ here:

- Toledo matches the whole five-character window against `IIIII`, `NNNNN` and `SSSSS`.
- Filizola looks only at the first character of its window.
- Filizola's read cycle retries within a 3-second deadline until the reading is no longer "unstable", and it re-requests the weight on every turn.

The project is organised like the driver:

| file | module | models |
|---|---|---|
| `types.dfy` | `Types` | the protocol enum, the exceptions, the sentinels, the part of `decimal.Parse` the decoders rely on |
| `protocolo_toledo.dfy` | `ProtocoloToledo` | the Toledo decoder |
| `protocolo_filizola.dfy` | `ProtocoloFilizola` | the Filizola decoder |
| `dispositivo.dfy` | `Dispositivo` | the device stream, its configuration, the clock, the cancellation source |
| `protocolo_base.dfy` | `Protocolos` | `ProtocoloBase`: `LeSerial`, `SolicitarPeso`, `LePeso`, `AguardarRespostaPeso` |
| `balanca_event_args.dfy` | `Eventos` | `BalancaEventArgs` |
| `open_bal.dfy` | `Balanca` | `OpenBal` |
| `open_bal_config.dfy` | `Configuracao` | `OpenBalConfig` |

The decoders and `BalancaEventArgs` are pure code, so they are datatypes and
functions. `ProtocoloBase`, `OpenBal` and `OpenBalConfig` update their fields,
so they are classes.

- The read cycle is specified by functions:
  - `Spin` is the retry loop;
  - `Once` is the base `LePeso`;
  - `Ciclo` is `LePeso` as dispatched by vendor.
- Each method is proved to leave exactly the state those functions predict: the replies consumed, the bytes written, the clock, `UltimaResposta` and `UltimoPesoLido`.
- Lemmas about the functions carry the driver's promises:
  - the loop stops at the first read that is not a clean "unstable";
  - it returns what the last read left behind;
  - it never runs much past its deadline;
  - a scale that settles within the deadline is read as settled.

Some modelling choices:

- The device is scripted. `pending` is the sequence of replies it will give: a text frame, or a transport failure. A device with nothing left to say reads as an empty frame. `log` records, in order, what the driver wrote and each reply it took, so a request and the read that follows it appear in the order they happen.
- The clock advances by one tick whenever it is looked at. `Thread.Sleep` and `Task.Delay` add their milliseconds. Each read is stamped, in ghost state, with the clock reading at which it is taken, so the contracts can place a settle before its read.
- `decimal.Parse` is a parameter. The digit and letter lemmas assume only `IsDecimalParse`: a run of digits parses to its value, and a string containing a Latin letter is rejected.
- A C# enum variable can hold any integer, so `ProtocoloBalanca` has an `Undefined(code)` case. `Enum.IsDefined` rejects that case.

Where the code does something its documentation does not say, the model follows the code:

- If opening the stream throws inside `Conectar` (OpenBal.cs:144-145), `device` stays set while no protocol object exists.
  - A later `LerPeso` passes its "not active" guard.
  - It then calls the missing protocol object in the `try`. With subscribers to `AoLerPeso`, the `catch` throws again while reading `bal.UltimaResposta` (OpenBal.cs:199), and the exception leaves `LerPeso` after the `finally`. Without subscribers, `?.` leaves the arguments unevaluated, and the final `return bal.UltimoPesoLido` (OpenBal.cs:206) throws instead. Either way the call ends in a null-reference exception rather than the driver's own error, with the clock and the stream untouched.
  - `DisposeManaged`, like a refused `Desconectar`, then leaves that stream exactly as it was, undisposed, because it is not connected.
  - `Balanca.OpenBal.Conectar` and `Balanca.OpenBal.LerPeso` state exactly this.
- `DelayMonitoramento` is an unchecked `int`, so a value below -1 makes `Task.Delay` throw inside the poll task, which ends it. A delay of -1 blocks the poller forever. `Balanca.OpenBal.MonitorarPasso` distinguishes these cases.
- A reply of one to five characters (Toledo) or one to four (Filizola) makes `Substring` throw an out-of-range error. The read then fails with -9 left behind; it is not a weight.
- A Toledo window such as `I1234` is not "unstable": it goes to `decimal.Parse` and is a format error. The same window on a Filizola scale is "unstable".

## Model

| member | source | states |
|---|---|---|
| ProtocoloToledo.InterpretarRepostaPeso | src/OpenAC.Net.Balanca/Protocolos/ProtocoloToledo.cs:52-70 | it is an out-of-range error exactly when the reply has one to five characters, and otherwise it can fail only with a format error; the window, sentinel and digit lemmas below specify its values |
| ProtocoloToledo.ShortResponses | src/OpenAC.Net.Balanca/Protocolos/ProtocoloToledo.cs:54-55 | for replies shorter than six characters: the empty reply is weight 0, and every other one is an out-of-range error (both directions) |
| ProtocoloToledo.WindowDecides | src/OpenAC.Net.Balanca/Protocolos/ProtocoloToledo.cs:55 | the five characters ending one before the last are the window; the prefix and the final character never affect the result |
| ProtocoloToledo.SameWindowSameWeight | src/OpenAC.Net.Balanca/Protocolos/ProtocoloToledo.cs:55-69 | two replies with the same window decode identically |
| ProtocoloToledo.Sentinels | src/OpenAC.Net.Balanca/Protocolos/ProtocoloToledo.cs:57-67 | the windows IIIII, NNNNN and SSSSS decode to -1, -2 and -10 wherever they sit in the reply |
| ProtocoloToledo.DigitWindow | src/OpenAC.Net.Balanca/Protocolos/ProtocoloToledo.cs:69 | a five-digit window d decodes to d/1000 kg, which lies in [0, 99.999] |
| ProtocoloToledo.ExactMatchOnly | src/OpenAC.Net.Balanca/Protocolos/ProtocoloToledo.cs:57-69 | any window with a letter that is not exactly a sentinel reaches `decimal.Parse` and is a format error |
| ProtocoloToledo.PartialSentinelIsFormatError | src/OpenAC.Net.Balanca/Protocolos/ProtocoloToledo.cs:57-69 | the window I1234 is a format error, not an unstable reading |
| ProtocoloFilizola.InterpretarRepostaPeso | src/OpenAC.Net.Balanca/Protocolos/ProtocoloFilizola.cs:74-89 | it is an out-of-range error exactly when the reply has one to four characters, and otherwise it can fail only with a format error; the suffix, sentinel and digit lemmas below specify its values |
| ProtocoloFilizola.ShortResponses | src/OpenAC.Net.Balanca/Protocolos/ProtocoloFilizola.cs:76-77 | for replies shorter than five characters: the empty reply is weight 0, and every other one is an out-of-range error (both directions) |
| ProtocoloFilizola.SuffixDecides | src/OpenAC.Net.Balanca/Protocolos/ProtocoloFilizola.cs:77 | the window is the last five characters; any prefix is ignored, and the reply decodes like its window alone |
| ProtocoloFilizola.FirstCharSentinels | src/OpenAC.Net.Balanca/Protocolos/ProtocoloFilizola.cs:79-86 | a window starting with I, N or S decodes to -1, -2 or -10, whatever its other four characters are |
| ProtocoloFilizola.OtherwiseParsed | src/OpenAC.Net.Balanca/Protocolos/ProtocoloFilizola.cs:87 | any other first character gives `decimal.Parse` of the whole window divided by 1000, or a format error |
| ProtocoloFilizola.DigitWindow | src/OpenAC.Net.Balanca/Protocolos/ProtocoloFilizola.cs:87 | a five-digit window d decodes to d/1000 kg, which lies in [0, 99.999] |
| Protocolos.SampleFacts | src/OpenAC.Net.Balanca/Protocolos/ProtocoloBase.cs:103-122 | a failed read leaves "" and -9 and passes the failure on; a frame is kept as `UltimaResposta`, and the weight is the vendor's decoding of it, or -9 with the decoding error passed on |
| Protocolos.SpinReadsBeforeDeadline | src/OpenAC.Net.Balanca/Protocolos/ProtocoloBase.cs:142-144 | the loop reads at least once exactly when the deadline is still ahead, and with no read it returns -1 |
| Protocolos.SpinContinuesOnlyWhenUnstable | src/OpenAC.Net.Balanca/Protocolos/ProtocoloBase.cs:144-154 | every read but the last one was a successful -1, so the loop stops at the first read that fails or is not unstable |
| Protocolos.SpinResultIsLastRead | src/OpenAC.Net.Balanca/Protocolos/ProtocoloBase.cs:152-156 | the result is the weight the last read left, or that read's exception with -9 left behind |
| Protocolos.SpinTiming | src/OpenAC.Net.Balanca/Protocolos/ProtocoloBase.cs:143-150 | in model time, where a read takes no time: -1 is returned only once the clock has passed the deadline, and the loop ends at most one turn and one tick after it |
| Protocolos.SpinSettles | src/OpenAC.Net.Balanca/Protocolos/ProtocoloBase.cs:144-156 | k unstable frames followed by a weight w, all within the deadline, give w after exactly k+1 reads, with the later replies left unread |
| Protocolos.CicloOutcome | src/OpenAC.Net.Balanca/Protocolos/ProtocoloFilizola.cs:60-65 | Filizola's `LePeso` is the retry with re-requests and a 3 s deadline; any vendor's cycle reads at least once and returns what its last read left |
| Protocolos.ProtocoloBase.constructor | src/OpenAC.Net.Balanca/Protocolos/ProtocoloBase.cs:60-63 | binds the device and the vendor's decoder; both fields start empty |
| Protocolos.ProtocoloBase.InterpretarRepostaPeso | src/OpenAC.Net.Balanca/Protocolos/ProtocoloBase.cs:163 | no contract of its own: it reads only the object, so it cannot change `UltimaResposta`; it is the vendor's decoder applied to `UltimaResposta`, and `Protocolos.SampleFacts` and the decoder lemmas specify it |
| Protocolos.ProtocoloBase.LeSerial | src/OpenAC.Net.Balanca/Protocolos/ProtocoloBase.cs:103-122 | consumes exactly one reply, records that one read on the link and nothing else, stamps it with the current clock, and leaves the fields and outcome that `SampleOf` gives for it |
| Protocolos.ProtocoloBase.SolicitarPeso | src/OpenAC.Net.Balanca/Protocolos/ProtocoloBase.cs:128-133 | appends a clear and the single byte 0x05 to what was written, and nothing else |
| Protocolos.ProtocoloBase.LePesoBase | src/OpenAC.Net.Balanca/Protocolos/ProtocoloBase.cs:92-98 | one request, a 200 ms settle and one read, in that order: the request precedes the read on the link, and the read is stamped 200 ms after the call began; returns that read's weight or exception, consumes one reply |
| Protocolos.ProtocoloBase.Turno | src/OpenAC.Net.Balanca/Protocolos/ProtocoloBase.cs:146-153 | one turn of the retry loop: it re-requests and settles when asked to, then reads, the request preceding the read on the link and the read stamped after the settle; either the cycle is finished exactly as `Spin` describes, or it continues from the new state |
| Protocolos.ProtocoloBase.AguardarRespostaPeso | src/OpenAC.Net.Balanca/Protocolos/ProtocoloBase.cs:140-157 | result, replies consumed, what the link saw (per turn, the request when resending and then the read), final clock and both fields are exactly those of `Spin` from the first look at the clock |
| Protocolos.ProtocoloBase.LePeso | src/OpenAC.Net.Balanca/Protocolos/ProtocoloFilizola.cs:60-65 | the dispatched `LePeso` agrees with `Ciclo`: every read is preceded by its own request, and the fields of its last read |
| Eventos.ComPeso | src/OpenAC.Net.Balanca/BalancaEventArgs.cs:48-52 | a weight reading carries the text and the weight, has no exception, and so carries exactly one payload |
| Eventos.ComExcecao | src/OpenAC.Net.Balanca/BalancaEventArgs.cs:59-63 | an exception reading carries the text and the exception, has no weight, and so carries exactly one payload |
| Eventos.SetLeitura | src/OpenAC.Net.Balanca/BalancaEventArgs.cs:72 | replaces the text only |
| Eventos.SetExcecao | src/OpenAC.Net.Balanca/BalancaEventArgs.cs:82 | replaces the exception only |
| Eventos.PesoIsFixed | src/OpenAC.Net.Balanca/BalancaEventArgs.cs:77 | no sequence of public setter calls changes `Peso` |
| Eventos.SettersAndPayload | src/OpenAC.Net.Balanca/BalancaEventArgs.cs:72-82 | setting the text keeps one payload; setting any exception on a weight reading leaves it carrying both |
| Balanca.LerPesoReading | src/OpenAC.Net.Balanca/OpenBal.cs:191-206 | the reading raised by `LerPeso` has one payload and the last read's text; it carries the weight that is returned, or the exception, in which case -9 is returned |
| Balanca.OpenBal.constructor | src/OpenAC.Net.Balanca/OpenBal.cs:85-89 | not connected, protocol Toledo, no device, no protocol object, no readings |
| Balanca.OpenBal.Conectado | src/OpenAC.Net.Balanca/OpenBal.cs:126 | no contract of its own: there is a device and it is open; `Valid` ties it to the presence of a protocol object, and `Balanca.OpenBal.Conectar`, `Balanca.OpenBal.Desconectar` and `Balanca.OpenBal.SetProtocolo` state how it changes and what it guards |
| Balanca.OpenBal.SetProtocolo | src/OpenAC.Net.Balanca/OpenBal.cs:103-111 | refused, with the protocol unchanged, while connected; otherwise stored |
| Balanca.OpenBal.SetIsMonitorar | src/OpenAC.Net.Balanca/OpenBal.cs:116 | stores the flag in any state and keeps the session invariant |
| Balanca.OpenBal.SetDelayMonitoramento | src/OpenAC.Net.Balanca/OpenBal.cs:121 | stores the delay in any state and keeps the session invariant |
| Balanca.OpenBal.Conectar | src/OpenAC.Net.Balanca/OpenBal.cs:136-163 | already open or undefined protocol: refused with nothing changed, and the new stream never opened or touched; otherwise flow control off and the stream recorded; an open failure leaves no protocol object; success binds a fresh protocol object of the chosen vendor and a fresh, live cancellation |
| Balanca.OpenBal.Desconectar | src/OpenAC.Net.Balanca/OpenBal.cs:169-178 | refused when not connected, leaving the protocol object and any half-open stream exactly as they were; otherwise cancels polling, closes and disposes the stream, whose script and log stay as they were, and forgets it and the protocol object |
| Balanca.OpenBal.LerPeso | src/OpenAC.Net.Balanca/OpenBal.cs:185-207 | no device: the not-active error; a device without a protocol object: a null reference; on both paths no reading is raised and the clock does not move, and a device without a protocol object is left untouched; otherwise the result, replies, link history (a request before each read) and clock are those of `Ciclo`, the protocol object keeps the last read's text and weight, the stream is not disposed, exactly one reading is raised, and `IsMonitorar` is restored |
| Balanca.OpenBal.MonitorarPasso | src/OpenAC.Net.Balanca/OpenBal.cs:212-236 | one poll turn: it stops once cancelled; it spins while paused; a stopped or paused turn leaves the clock, the replies, the link and both fields alone; otherwise it reads one reply at the current clock, before the delay, the link gaining that read only, raises its reading and waits the delay, where -1 blocks and anything below -1 ends the poller; no turn writes to the stream or disposes it, so nothing is requested |
| Balanca.OpenBal.DisposeManaged | src/OpenAC.Net.Balanca/OpenBal.cs:239-243 | disconnects, closes and disposes the stream only when connected; otherwise it leaves the device, a half-open stream and the cancellation source exactly as they were |
| Configuracao.OpenBalConfig.constructor | src/OpenAC.Net.Balanca/OpenBalConfig.cs:17-21 | bound to its owner, protocol Toledo, monitoring off, delay 0 |
| Configuracao.OpenBalConfig.SetProtocolo | src/OpenAC.Net.Balanca/OpenBalConfig.cs:27-35 | refused, with the protocol unchanged, while the owner is connected; otherwise stored |
| Configuracao.OpenBalConfig.SetIsMonitorar | src/OpenAC.Net.Balanca/OpenBalConfig.cs:37 | stores the flag |
| Configuracao.OpenBalConfig.SetDelayMonitoramento | src/OpenAC.Net.Balanca/OpenBalConfig.cs:39 | stores the delay |

## Left out

- Concurrency: `Monitorar` runs its loop on a separate task, and the model has one turn of it (`MonitorarPasso`), never interleaved with `LerPeso`. The race between a manual read and a poll is therefore not modelled. The case of a task cancelled before it starts is not modelled either. `LerPeso` turns `IsMonitorar` off for the whole read cycle (OpenBal.cs:193), so that a concurrent poller skips its turns. With no interleaving, no contract can observe the flag while the call runs; `Balanca.OpenBal.LerPeso` states only that the flag is restored afterwards.
- `MonitorarPasso`: a paused poller spins without yielding; the model reports one `Skipped` turn and does not capture the busy wait.
- Real time: `DateTime.Now` is a clock that ticks whenever it is read. Its resolution and any time spent outside the modelled sleeps are not captured.
- `decimal.Parse`: the full grammar (signs, white space, group and decimal separators, culture) is a parameter. The lemmas assume only what `IsDecimalParse` states.
- The `IsEmpty` extension comes from a library that is not part of this model. It is taken to mean a zero-length string, the one case its name certainly covers. If it also treats white space as empty, a reply of only white space would decode to 0, and a one-to-five-character (Toledo) or one-to-four-character (Filizola) such reply would not be the range error that both `ShortResponses` lemmas and the decoders' contracts state.
- UTF-8 decoding of the bytes read is not modelled: replies arrive as text.
- `UltimaResposta` is null before the first read; `""` stands for that.
- Transport: writes and `Limpar` never fail, and the stream never drops on its own. Only `Open` and `Read` can fail.
- Events: `AoLerPeso` is the sequence of readings raised. Subscribers, multicast delivery and exceptions thrown by handlers are not modelled.
- Logging calls (`this.Log()`) and the unused `Encoder` property have no observable effect on the driver and are not modelled.
- `OpenDeviceFactory.Create` is the `criado` argument of `Conectar`, a stream that is not yet open. The device library itself is not part of this model.
- The `default` branch of the vendor switch in `Conectar` (an out-of-range exception) cannot be reached after `Enum.IsDefined`. The vendor type rules it out.
- `OpenBalConfig` tests `owner.IsConectado`, which OpenBal.cs does not define. It is modelled as `OpenBal.Conectado`.
- The disposal pattern of `OpenDisposable` is not part of this model. Only `DisposeManaged` is modelled.
- The rest of the repository (the demo application and other assemblies) is not part of this model.
