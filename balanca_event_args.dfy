/** `BalancaEventArgs`: what the `AoLerPeso` event carries, the raw text of
    the reading and either the weight or the exception it produced. */
module Eventos {
  import opened Types

  datatype BalancaEventArgs = BalancaEventArgs(leitura: string, peso: Option<real>, excecao: Option<Fault>)

  /** A reading carries a weight or an exception, never both, never neither. */
  predicate OnePayload(e: BalancaEventArgs) {
    e.peso.Some? != e.excecao.Some?
  }

  /** The weight constructor: `Excecao` stays null. */
  function ComPeso(leitura: string, peso: real): (e: BalancaEventArgs)
    ensures e.leitura == leitura && e.peso == Some(peso) && e.excecao == None
    ensures OnePayload(e)
  {
    BalancaEventArgs(leitura, Some(peso), None)
  }

  /** The exception constructor: `Peso` stays null. */
  function ComExcecao(leitura: string, excecao: Fault): (e: BalancaEventArgs)
    ensures e.leitura == leitura && e.peso == None && e.excecao == Some(excecao)
    ensures OnePayload(e)
  {
    BalancaEventArgs(leitura, None, Some(excecao))
  }

  /** The public `Leitura` setter. */
  function SetLeitura(e: BalancaEventArgs, leitura: string): (r: BalancaEventArgs)
    ensures r.leitura == leitura && r.peso == e.peso && r.excecao == e.excecao
  {
    e.(leitura := leitura)
  }

  /** The public `Excecao` setter. */
  function SetExcecao(e: BalancaEventArgs, excecao: Option<Fault>): (r: BalancaEventArgs)
    ensures r.excecao == excecao && r.leitura == e.leitura && r.peso == e.peso
  {
    e.(excecao := excecao)
  }

  /** The public mutations of a reading; `Peso` has only a private setter,
      so none of them touches it. */
  datatype Update = NewLeitura(leitura: string) | NewExcecao(excecao: Option<Fault>)

  function Apply(e: BalancaEventArgs, u: Update): BalancaEventArgs {
    match u
    case NewLeitura(l) => SetLeitura(e, l)
    case NewExcecao(x) => SetExcecao(e, x)
  }

  function ApplyAll(e: BalancaEventArgs, us: seq<Update>): BalancaEventArgs
    decreases |us|
  {
    if us == [] then e else ApplyAll(Apply(e, us[0]), us[1..])
  }

  /** Whatever a subscriber does with the setters, `Peso` keeps the value
      the reading was constructed with. */
  lemma {:induction false} PesoIsFixed(e: BalancaEventArgs, us: seq<Update>)
    ensures ApplyAll(e, us).peso == e.peso
    decreases |us|
  {
    if us != [] {
      PesoIsFixed(Apply(e, us[0]), us[1..]);
    }
  }

  /** Changing the text keeps a reading well-formed; the public `Excecao`
      setter can attach an exception to a weight reading, after which it
      carries both. */
  lemma SettersAndPayload(e: BalancaEventArgs, leitura: string, x: Fault)
    ensures OnePayload(e) ==> OnePayload(SetLeitura(e, leitura))
    ensures e.peso.Some? ==> !OnePayload(SetExcecao(e, Some(x)))
  {
  }
}
