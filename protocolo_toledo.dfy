/** The Toledo decoder: the weight is the five characters that end one
    before the last character of the response, matched whole against the
    sentinel frames and otherwise parsed as thousandths of a kilogram. */
module ProtocoloToledo {
  import opened Types

  /** The five characters the decoder looks at: `Substring(Length - 6, 5)`. */
  function Window(resposta: string): string
    requires |resposta| >= 6
  {
    resposta[|resposta| - 6..|resposta| - 1]
  }

  /** The switch on the whole window and the fall-through to `decimal.Parse`. */
  function Classify(w: string, parse: DecimalParser): Result<real> {
    if w == "IIIII" then Ok(Unstable)
    else if w == "NNNNN" then Ok(Negative)
    else if w == "SSSSS" then Ok(Overload)
    else match parse(w)
      case Some(d) => Ok(d / 1000.0)
      case None => Err(FormatError)
  }

  /** `ProtocoloToledo.InterpretarRepostaPeso` applied to `UltimaResposta`. */
  function InterpretarRepostaPeso(resposta: string, parse: DecimalParser): (r: Result<real>)
    ensures r == Err(OutOfRange) <==> 0 < |resposta| < 6
    ensures r.Err? ==> r.error == OutOfRange || r.error == FormatError
  {
    if resposta == [] then Ok(0.0)
    else if |resposta| < 6 then Err(OutOfRange)  // Substring with a negative start
    else Classify(Window(resposta), parse)
  }

  /** An empty response is weight 0 and no error; a shorter than six-character
      response is a range error rather than a weight. */
  lemma ShortResponses(resposta: string, parse: DecimalParser)
    requires |resposta| < 6
    ensures resposta == [] <==> InterpretarRepostaPeso(resposta, parse) == Ok(0.0)
    ensures resposta != [] <==> InterpretarRepostaPeso(resposta, parse) == Err(OutOfRange)
  {
  }

  /** Only the window decides: the characters before it and the one after it
      are ignored. */
  lemma {:induction false} WindowDecides(prefix: string, w: string, last: char, parse: DecimalParser)
    requires |w| == 5
    ensures |prefix + w + [last]| >= 6 && Window(prefix + w + [last]) == w
    ensures InterpretarRepostaPeso(prefix + w + [last], parse) == Classify(w, parse)
  {
    var s := prefix + w + [last];
    assert s[|s| - 6..|s| - 1] == w by {
      forall i | 0 <= i < 5 ensures s[|s| - 6 + i] == w[i] {
        assert s[|prefix| + i] == w[i];
      }
    }
  }

  /** Two responses with the same window decode identically. */
  lemma SameWindowSameWeight(a: string, b: string, parse: DecimalParser)
    requires |a| >= 6 && |b| >= 6 && Window(a) == Window(b)
    ensures InterpretarRepostaPeso(a, parse) == InterpretarRepostaPeso(b, parse)
  {
    WindowDecides(a[..|a| - 6], Window(a), a[|a| - 1], parse);
    assert a == a[..|a| - 6] + Window(a) + [a[|a| - 1]];
    WindowDecides(b[..|b| - 6], Window(b), b[|b| - 1], parse);
    assert b == b[..|b| - 6] + Window(b) + [b[|b| - 1]];
  }

  /** The three sentinel frames, wherever they sit in the response. */
  lemma Sentinels(prefix: string, last: char, parse: DecimalParser)
    ensures InterpretarRepostaPeso(prefix + "IIIII" + [last], parse) == Ok(Unstable)
    ensures InterpretarRepostaPeso(prefix + "NNNNN" + [last], parse) == Ok(Negative)
    ensures InterpretarRepostaPeso(prefix + "SSSSS" + [last], parse) == Ok(Overload)
  {
    WindowDecides(prefix, "IIIII", last, parse);
    WindowDecides(prefix, "NNNNN", last, parse);
    WindowDecides(prefix, "SSSSS", last, parse);
  }

  /** A window of five digits d decodes to d / 1000 kg, a value in [0, 99.999]. */
  lemma DigitWindow(prefix: string, w: string, last: char, parse: DecimalParser)
    requires IsDecimalParse(parse)
    requires |w| == 5 && AllDigits(w)
    ensures InterpretarRepostaPeso(prefix + w + [last], parse) == Ok((DigitsValue(w) as real) / 1000.0)
    ensures 0.0 <= (DigitsValue(w) as real) / 1000.0 <= 99.999
  {
    WindowDecides(prefix, w, last, parse);
    assert IsDigit(w[0]);  // so the window is none of the sentinel frames
    FiveDigitWeight(w);
  }

  /** The sentinels match the whole window only: any other window with a
      letter in it, such as "I1234", is handed to `decimal.Parse` and fails. */
  lemma ExactMatchOnly(prefix: string, w: string, last: char, parse: DecimalParser)
    requires IsDecimalParse(parse)
    requires |w| == 5 && HasLetter(w) && w !in {"IIIII", "NNNNN", "SSSSS"}
    ensures InterpretarRepostaPeso(prefix + w + [last], parse) == Err(FormatError)
  {
    WindowDecides(prefix, w, last, parse);
  }

  /** "I1234" in the window is a format error, not an unstable reading. */
  lemma PartialSentinelIsFormatError(prefix: string, last: char, parse: DecimalParser)
    requires IsDecimalParse(parse)
    ensures InterpretarRepostaPeso(prefix + "I1234" + [last], parse) == Err(FormatError)
  {
    assert IsLetter("I1234"[0]);
    ExactMatchOnly(prefix, "I1234", last, parse);
  }
}
