/**
 * The Portuguese desktop program (code.py): its "Gerar" handler parses the
 * seven text fields, shows a popup and builds nothing when one of them does
 * not parse, and otherwise builds the worksheet of the shared layout with
 * Portuguese labels, the sides alternating between Esquerdo and Direito.
 */
module CodePt {
  import opened Wrappers
  import opened Schedule
  import opened Sheet
  import opened Text
  import opened Desktop

  const Headers := ["Data", "mL Restante", "Dias Corridos", "Meses", "Lado", "Aplicações"]

  /** No "Doses" unit after the B8 formula in this program. */
  const Layout := Variant("Hoje:", "Intervalo:", "Data de início", "Vai durar:", None, "dias",
                          Headers, "Esquerdo", Alternation("Esquerdo", "Direito"))

  const ParseError := "Erro: Verifique os valores inseridos. Certifique-se de que são números "
                      + "válidos e a data está no formato dd/mm/yyyy."

  /**
   * The window's fields after `float(...)`, `int(...)` and
   * `datetime.strptime(..., "%d/%m/%Y")`; `None` where that raised ValueError.
   */
  datatype Fields = Fields(
    nome: string,
    ester: string,
    dose: Option<real>,
    volTotal: Option<real>,
    concentracao: Option<real>,
    intervalo: Option<int>,
    inicio: Option<int>)

  predicate Parsed(f: Fields)
  {
    f.dose.Some? && f.volTotal.Some? && f.concentracao.Some? && f.intervalo.Some? && f.inicio.Some?
  }

  function InputsOf(f: Fields): Inputs
    requires Parsed(f)
  {
    Inputs(f.nome, f.ester, f.dose.value, f.volTotal.value, f.concentracao.value, f.intervalo.value,
           f.inicio.value)
  }

  /**
   * The "Gerar" handler: the parse-error popup when any field failed to
   * parse; otherwise a fresh worksheet holding the layout for the fields,
   * columns A to G as wide as their longest `str(value or "")` + 2.
   */
  method Gerar(host: Host, f: Fields) returns (out: Result<Worksheet, string>)
    requires Parsed(f) ==> Usable(InputsOf(f))
    ensures out.Failure? <==> !Parsed(f)
    ensures out.Failure? ==> out.error == ParseError
    ensures out.Success? ==> fresh(out.value) && Generated(out.value, host, Layout, InputsOf(f))
  {
    if !Parsed(f) {
      return Failure(ParseError);
    }
    var ws := NewSheet(host, Layout, InputsOf(f));
    out := Success(ws);
  }

  /** The side starts at Esquerdo and alternates: Esquerdo on even rows, Direito on odd ones. */
  lemma SidesAlternate(x: Inputs, i: nat)
    requires x.concentration != 0.0
    ensures RowAt(PlanOf(Layout, x), i).side == if i % 2 == 0 then "Esquerdo" else "Direito"
  {
    AlternationParity("Esquerdo", "Direito", "Esquerdo", i);
  }
}
