/** The Filizola decoder: the weight is the last five characters of the
    response; its first character alone selects a sentinel, and any other
    first character sends the whole window to `decimal.Parse`. */
module ProtocoloFilizola {
  import opened Types

  /** The five characters the decoder looks at: `Substring(Length - 5)`. */
  function Window(resposta: string): string
    requires |resposta| >= 5
  {
    resposta[|resposta| - 5..]
  }

  /** The switch on the first window character. */
  function Classify(w: string, parse: DecimalParser): Result<real>
    requires |w| == 5
  {
    match w[0]
    case 'I' => Ok(Unstable)
    case 'N' => Ok(Negative)
    case 'S' => Ok(Overload)
    case _ =>
      match parse(w)
      case Some(d) => Ok(d / 1000.0)
      case None => Err(FormatError)
  }

  /** `ProtocoloFilizola.InterpretarRepostaPeso` applied to `UltimaResposta`. */
  function InterpretarRepostaPeso(resposta: string, parse: DecimalParser): (r: Result<real>)
    ensures r == Err(OutOfRange) <==> 0 < |resposta| < 5
    ensures r.Err? ==> r.error == OutOfRange || r.error == FormatError
  {
    if resposta == [] then Ok(0.0)
    else if |resposta| < 5 then Err(OutOfRange)  // Substring with a negative start
    else Classify(Window(resposta), parse)
  }

  /** An empty response is weight 0 and no error; a shorter than five-character
      response is a range error rather than a weight. */
  lemma ShortResponses(resposta: string, parse: DecimalParser)
    requires |resposta| < 5
    ensures resposta == [] <==> InterpretarRepostaPeso(resposta, parse) == Ok(0.0)
    ensures resposta != [] <==> InterpretarRepostaPeso(resposta, parse) == Err(OutOfRange)
  {
  }

  /** Only the last five characters decide; any prefix is ignored. */
  lemma {:induction false} SuffixDecides(prefix: string, w: string, parse: DecimalParser)
    requires |w| == 5
    ensures Window(prefix + w) == w
    ensures InterpretarRepostaPeso(prefix + w, parse) == InterpretarRepostaPeso(w, parse) == Classify(w, parse)
  {
    var s := prefix + w;
    assert s[|s| - 5..] == w by {
      forall i | 0 <= i < 5 ensures s[|s| - 5 + i] == w[i] {
        assert s[|prefix| + i] == w[i];
      }
    }
    assert w[|w| - 5..] == w;
  }

  /** The first window character alone selects a sentinel, whatever the other four are. */
  lemma FirstCharSentinels(prefix: string, w: string, parse: DecimalParser)
    requires |w| == 5
    ensures w[0] == 'I' ==> InterpretarRepostaPeso(prefix + w, parse) == Ok(Unstable)
    ensures w[0] == 'N' ==> InterpretarRepostaPeso(prefix + w, parse) == Ok(Negative)
    ensures w[0] == 'S' ==> InterpretarRepostaPeso(prefix + w, parse) == Ok(Overload)
  {
    SuffixDecides(prefix, w, parse);
  }

  /** Any other first character hands the whole window to `decimal.Parse`. */
  lemma OtherwiseParsed(prefix: string, w: string, parse: DecimalParser)
    requires |w| == 5 && w[0] !in {'I', 'N', 'S'}
    ensures InterpretarRepostaPeso(prefix + w, parse) ==
            match parse(w) case Some(d) => Ok(d / 1000.0) case None => Err(FormatError)
  {
    SuffixDecides(prefix, w, parse);
  }

  /** A window of five digits d decodes to d / 1000 kg, a value in [0, 99.999]. */
  lemma DigitWindow(prefix: string, w: string, parse: DecimalParser)
    requires IsDecimalParse(parse)
    requires |w| == 5 && AllDigits(w)
    ensures InterpretarRepostaPeso(prefix + w, parse) == Ok((DigitsValue(w) as real) / 1000.0)
    ensures 0.0 <= (DigitsValue(w) as real) / 1000.0 <= 99.999
  {
    assert IsDigit(w[0]);
    OtherwiseParsed(prefix, w, parse);
    FiveDigitWeight(w);
  }
}
