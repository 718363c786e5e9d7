/** The enum `TipoImc`: four BMI categories with their declared bounds and
    descriptions, and the classifier `obtenerTipoImc`. */
module TiposImc {

  /** The four entries, in declaration order. */
  datatype TipoImc = Insuficiente | Saludable | Sobrepeso | Obesidad
  {
    /** Declared lower bound `imcMin` (never consulted by the classifier): below
        the entry's own upper bound and above the previous entry's. */
    function ImcMin(): (r: real)
      ensures 0.0 <= r < ImcMax()
      ensures Ordinal() > 0 ==> r > ENTRADAS[Ordinal() - 1].ImcMax()
    {
      match this
      case Insuficiente => 0.0
      case Saludable => 18.5
      case Sobrepeso => 25.0
      case Obesidad => 30.0
    }

    /** Declared upper bound `imcMax`, at most 100. */
    function ImcMax(): (r: real)
      ensures 0.0 < r <= 100.0
    {
      match this
      case Insuficiente => 18.4
      case Saludable => 24.9
      case Sobrepeso => 29.9
      case Obesidad => 100.0
    }

    /** Description `desc`. */
    function Desc(): string
    {
      match this
      case Insuficiente => "Peso insuficiente"
      case Saludable => "Peso saludable"
      case Sobrepeso => "Sobrepeso"
      case Obesidad => "Obesidad"
    }

    /** Position of the entry in the declaration order. */
    function Ordinal(): (n: nat)
      ensures n < |ENTRADAS| && ENTRADAS[n] == this
    {
      match this
      case Insuficiente => 0
      case Saludable => 1
      case Sobrepeso => 2
      case Obesidad => 3
    }
  }

  /** `TipoImc.entries`: every category, in declaration order. */
  const ENTRADAS: seq<TipoImc> := [Insuficiente, Saludable, Sobrepeso, Obesidad]

  /** `obtenerTipoImc`: the first of INSUFICIENTE, SALUDABLE, SOBREPESO whose
      `imcMax` is at least `imc`, and OBESIDAD when none is. The result's own
      upper bound covers `imc` (except for the catch-all OBESIDAD) and every
      earlier category's upper bound lies below `imc`. */
  function ObtenerTipoImc(imc: real): (t: TipoImc)
    ensures imc <= t.ImcMax() || t == Obesidad
    ensures forall e: TipoImc :: e.Ordinal() < t.Ordinal() ==> imc > e.ImcMax()
  {
    if imc <= Insuficiente.ImcMax() then Insuficiente
    else if imc <= Saludable.ImcMax() then Saludable
    else if imc <= Sobrepeso.ImcMax() then Sobrepeso
    else Obesidad
  }

  /** Reference reading of the `when`: walk the entries in order and stop at
      the first whose `imcMax` covers `imc`; the last entry is taken without
      a test. */
  function PrimeraQueCubre(imc: real, es: seq<TipoImc>): TipoImc
    requires es != []
  {
    if |es| == 1 || imc <= es[0].ImcMax() then es[0] else PrimeraQueCubre(imc, es[1..])
  }

  /** The classifier is exactly the walk over the table in declaration order. */
  lemma ObtenerTipoImcRecorreTabla(imc: real)
    ensures ObtenerTipoImc(imc) == PrimeraQueCubre(imc, ENTRADAS)
  {
    var e1, e2, e3 := ENTRADAS[1..], ENTRADAS[2..], ENTRADAS[3..];
    assert e1 == [Saludable, Sobrepeso, Obesidad] && e1[1..] == e2;
    assert e2 == [Sobrepeso, Obesidad] && e2[1..] == e3;
    assert e3 == [Obesidad];
    assert PrimeraQueCubre(imc, e3) == Obesidad;
    assert PrimeraQueCubre(imc, e2) == if imc <= 29.9 then Sobrepeso else Obesidad;
    assert PrimeraQueCubre(imc, e1) == if imc <= 24.9 then Saludable else PrimeraQueCubre(imc, e2);
  }

  /** The exact bands of the classifier. It is total, never looks at `imcMin`
      and never at OBESIDAD's upper bound: a negative value is INSUFICIENTE,
      the gaps (18.4, 18.5) and (24.9, 25.0) go to the next category up, and
      anything above 29.9, also above 100, is OBESIDAD. */
  lemma BandasDelClasificador(imc: real)
    ensures ObtenerTipoImc(imc) == Insuficiente <==> imc <= 18.4
    ensures ObtenerTipoImc(imc) == Saludable <==> 18.4 < imc <= 24.9
    ensures ObtenerTipoImc(imc) == Sobrepeso <==> 24.9 < imc <= 29.9
    ensures ObtenerTipoImc(imc) == Obesidad <==> 29.9 < imc
  {
  }

  /** A value inside a category's declared range [imcMin, imcMax] is classified
      as that category. */
  lemma RangoDeclaradoClasifica(t: TipoImc, imc: real)
    requires t.ImcMin() <= imc <= t.ImcMax()
    ensures ObtenerTipoImc(imc) == t
  {
  }

  /** Values that lie in no declared range are still classified: below 0,
      in the two gaps between ranges, between 29.9 and 30.0, and above 100. */
  lemma FueraDeRangosDeclarados()
    ensures forall t: TipoImc :: !(t.ImcMin() <= -1.0 <= t.ImcMax())
    ensures ObtenerTipoImc(-1.0) == Insuficiente
    ensures forall t: TipoImc :: !(t.ImcMin() <= 18.45 <= t.ImcMax())
    ensures ObtenerTipoImc(18.45) == Saludable
    ensures forall t: TipoImc :: !(t.ImcMin() <= 24.95 <= t.ImcMax())
    ensures ObtenerTipoImc(24.95) == Sobrepeso
    ensures forall t: TipoImc :: !(t.ImcMin() <= 29.95 <= t.ImcMax())
    ensures ObtenerTipoImc(29.95) == Obesidad
    ensures forall t: TipoImc :: !(t.ImcMin() <= 150.0 <= t.ImcMax())
    ensures ObtenerTipoImc(150.0) == Obesidad
  {
  }

  /** A larger BMI never gets an earlier category. */
  lemma ClasificacionMonotona(a: real, b: real)
    requires a <= b
    ensures ObtenerTipoImc(a).Ordinal() <= ObtenerTipoImc(b).Ordinal()
  {
  }

  /** The table's constants: each range is non-empty, the upper bounds increase
      strictly in declaration order, each lower bound lies above the previous
      upper bound, and the descriptions are the four fixed texts. */
  lemma TablaDeCategorias()
    ensures forall t: TipoImc :: t.ImcMin() < t.ImcMax()
    ensures forall i, j :: 0 <= i < j < |ENTRADAS| ==> ENTRADAS[i].ImcMax() < ENTRADAS[j].ImcMax()
    ensures forall i :: 0 < i < |ENTRADAS| ==> ENTRADAS[i].ImcMin() > ENTRADAS[i - 1].ImcMax()
    ensures [Insuficiente.Desc(), Saludable.Desc(), Sobrepeso.Desc(), Obesidad.Desc()]
         == ["Peso insuficiente", "Peso saludable", "Sobrepeso", "Obesidad"]
  {
  }
}
