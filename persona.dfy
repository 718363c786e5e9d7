/** The class `Persona`: weight, height and name validated when the object is
    built and when a setter runs, the BMI derived from the current state on
    every read, two comparisons against fixed averages and an equality rule. */
module Personas {
  import opened Texto
  import opened Redondeo
  import opened TiposImc

  /** `Persona.ALTURA_MEDIA` and `Persona.PESO_MEDIA`. */
  const ALTURA_MEDIA: real := 1.75
  const PESO_MEDIA: real := 70.0

  /** Initial value of `nombre` when no name is given. */
  const NOMBRE_POR_DEFECTO: string := "Sin Nombre"

  /** A Kotlin `Int`. */
  newtype Int32 = x: int | -0x8000_0000 <= x < 0x8000_0000

  /** Which `require` failed (the source throws `IllegalArgumentException`
      with one message per rule). */
  datatype Error = PesoNoPositivo | AlturaNoPositiva | NombreVacio

  /** Outcome of a check or of a setter. */
  datatype Comprobacion = Correcta | Fallida(error: Error)

  /** Outcome of a constructor: a new instance, or the failed rule and no instance. */
  datatype Resultado<T> = Creada(valor: T) | Rechazada(error: Error)

  /** `comprobarPeso`. */
  function ComprobarPeso(peso: real): (c: Comprobacion)
    ensures c.Correcta? <==> peso > 0.0
    ensures c.Fallida? ==> c.error == PesoNoPositivo
  {
    if peso > 0.0 then Correcta else Fallida(PesoNoPositivo)
  }

  /** `comprobarAltura`. */
  function ComprobarAltura(altura: real): (c: Comprobacion)
    ensures c.Correcta? <==> altura > 0.0
    ensures c.Fallida? ==> c.error == AlturaNoPositiva
  {
    if altura > 0.0 then Correcta else Fallida(AlturaNoPositiva)
  }

  /** `comprobarNombre`: the name passes exactly when it holds at least one
      character that is not whitespace. */
  function ComprobarNombre(nombre: string): (c: Comprobacion)
    ensures c.Correcta? <==> exists i :: 0 <= i < |nombre| && !EsEspacio(nombre[i])
    ensures c.Correcta? <==> !EsBlanco(nombre)
    ensures c.Fallida? ==> c.error == NombreVacio
  {
    if !EsBlanco(nombre) then Correcta else Fallida(NombreVacio)
  }

  /** `calcularImc`: `(peso / (altura * altura) * 100.0).roundToInt() / 100.0`.
      The weight is always positive. A zero height makes the double quotient
      +Infinity, which `roundToInt` saturates to `Int.MAX_VALUE`. Otherwise the
      result is the quotient to two decimals, within 0.005 of it while
      100 times the quotient fits in an `Int`. */
  function CalcularImc(peso: real, altura: real): (imc: real)
    requires peso > 0.0
    ensures imc >= 0.0 && EsCentesimo(imc)
    ensures altura == 0.0 ==> imc == INT_MAX as real / 100.0
    ensures altura != 0.0 && peso / (altura * altura) * 100.0 <= INT_MAX as real ==>
              peso / (altura * altura) - 0.005 < imc <= peso / (altura * altura) + 0.005
  {
    if altura == 0.0 then
      var imc := INT_MAX as real / 100.0;
      assert imc * 100.0 == INT_MAX as real && (INT_MAX as real).Floor == INT_MAX;
      imc
    else
      var cuadrado := altura * altura;
      assert cuadrado > 0.0;
      var cociente := peso / cuadrado;
      assert cociente > 0.0;
      RedondearDosDecimales(cociente)
  }

  class Persona {
    var peso: real
    var altura: real
    var nombre: string

    /** What every instance keeps from construction on: a positive weight and
        a name that is not blank. A positive height is established by every
        constructor but not kept by the height setter (see AsignarAltura). */
    ghost predicate Valid()
      reads this
    {
      peso > 0.0 && !EsBlanco(nombre)
    }

    /** The property initialisers of the primary constructor; the checks of its
        `init` block are made by the factory methods below. */
    constructor Init(peso: real, altura: real)
      ensures this.peso == peso && this.altura == altura && nombre == NOMBRE_POR_DEFECTO
    {
      this.peso := peso;
      this.altura := altura;
      nombre := NOMBRE_POR_DEFECTO;
    }

    /** Primary constructor `Persona(peso: Double, altura: Double)`: fails on a
        non-positive weight (checked first) or height and produces no
        instance; otherwise the name is "Sin Nombre". */
    static method Crear(peso: real, altura: real) returns (r: Resultado<Persona>)
      ensures r.Creada? <==> peso > 0.0 && altura > 0.0
      ensures r.Rechazada? ==> r.error == if peso <= 0.0 then PesoNoPositivo else AlturaNoPositiva
      ensures r.Creada? ==> fresh(r.valor) && r.valor.Valid() && r.valor.altura > 0.0
      ensures r.Creada? ==> r.valor.peso == peso && r.valor.altura == altura
                            && r.valor.nombre == NOMBRE_POR_DEFECTO
    {
      var p := new Persona.Init(peso, altura);
      var c := ComprobarPeso(peso);
      if c.Fallida? {
        return Rechazada(c.error);
      }
      c := ComprobarAltura(altura);
      if c.Fallida? {
        return Rechazada(c.error);
      }
      assert !EsEspacio(NOMBRE_POR_DEFECTO[0]);
      r := Creada(p);
    }

    /** `Persona(nombre: String, peso: Double, altura: Double)`: the primary
        checks first, then the name; the name is stored as given, untrimmed. */
    static method CrearConNombre(nombre: string, peso: real, altura: real) returns (r: Resultado<Persona>)
      ensures r.Creada? <==> peso > 0.0 && altura > 0.0 && !EsBlanco(nombre)
      ensures r.Rechazada? ==> r.error == if peso <= 0.0 then PesoNoPositivo
                                          else if altura <= 0.0 then AlturaNoPositiva
                                          else NombreVacio
      ensures r.Creada? ==> fresh(r.valor) && r.valor.Valid() && r.valor.altura > 0.0
      ensures r.Creada? ==> r.valor.peso == peso && r.valor.altura == altura && r.valor.nombre == nombre
    {
      r := Crear(peso, altura);
      if r.Rechazada? {
        return;
      }
      var c := ComprobarNombre(nombre);
      if c.Fallida? {
        return Rechazada(c.error);
      }
      var p := r.valor;
      c := p.AsignarNombre(nombre);
      r := Creada(p);
    }

    /** `Persona(nombre: String, peso: Int, altura: Int)`: the integers are
        converted to doubles, then as CrearConNombre. */
    static method CrearConNombreEnteros(nombre: string, peso: Int32, altura: Int32) returns (r: Resultado<Persona>)
      ensures r.Creada? <==> peso > 0 && altura > 0 && !EsBlanco(nombre)
      ensures r.Rechazada? ==> r.error == if peso <= 0 then PesoNoPositivo
                                          else if altura <= 0 then AlturaNoPositiva
                                          else NombreVacio
      ensures r.Creada? ==> fresh(r.valor) && r.valor.Valid() && r.valor.altura > 0.0
      ensures r.Creada? ==> r.valor.peso == peso as real && r.valor.altura == altura as real
                            && r.valor.nombre == nombre
    {
      r := CrearConNombre(nombre, peso as real, altura as real);
    }

    /** `Persona(peso: Int, altura: Int)`: the integers are converted to
        doubles, then as Crear; the name is "Sin Nombre". */
    static method CrearEnteros(peso: Int32, altura: Int32) returns (r: Resultado<Persona>)
      ensures r.Creada? <==> peso > 0 && altura > 0
      ensures r.Rechazada? ==> r.error == if peso <= 0 then PesoNoPositivo else AlturaNoPositiva
      ensures r.Creada? ==> fresh(r.valor) && r.valor.Valid() && r.valor.altura > 0.0
      ensures r.Creada? ==> r.valor.peso == peso as real && r.valor.altura == altura as real
                            && r.valor.nombre == NOMBRE_POR_DEFECTO
    {
      r := Crear(peso as real, altura as real);
    }

    /** Setter of `peso`: rejects a non-positive value and changes nothing;
        otherwise only the weight changes, and the BMI read next follows it. */
    method AsignarPeso(value: real) returns (c: Comprobacion)
      requires Valid()
      modifies this
      ensures Valid()
      ensures c.Correcta? <==> value > 0.0
      ensures c.Fallida? ==> c.error == PesoNoPositivo && unchanged(this)
      ensures c.Correcta? ==> peso == value && altura == old(altura) && nombre == old(nombre)
      ensures c.Correcta? ==> Imc() == CalcularImc(value, old(altura))
    {
      c := ComprobarPeso(value);
      if c.Correcta? {
        peso := value;
      }
    }

    /** Setter of `altura` AS WRITTEN: it checks the CURRENT height, not the new
        value. While the height is positive every value is accepted and stored
        as given, zero and negatives included; once it is not positive, every
        later call fails and the height can no longer change. */
    method AsignarAltura(value: real) returns (c: Comprobacion)
      requires Valid()
      modifies this
      ensures Valid()
      ensures c.Correcta? <==> old(altura) > 0.0
      ensures c.Fallida? ==> c.error == AlturaNoPositiva && unchanged(this)
      ensures c.Correcta? ==> altura == value && peso == old(peso) && nombre == old(nombre)
      ensures c.Correcta? ==> Imc() == CalcularImc(old(peso), value)
    {
      c := ComprobarAltura(altura);
      if c.Correcta? {
        altura := value;
      }
    }

    /** Setter of `altura` as evidently intended: it checks the new value, so a
        positive height stays positive. */
    method AsignarAlturaCorregida(value: real) returns (c: Comprobacion)
      requires Valid()
      modifies this
      ensures Valid()
      ensures c.Correcta? <==> value > 0.0
      ensures c.Fallida? ==> c.error == AlturaNoPositiva && unchanged(this)
      ensures c.Correcta? ==> altura == value && peso == old(peso) && nombre == old(nombre)
      ensures old(altura) > 0.0 ==> altura > 0.0
    {
      c := ComprobarAltura(value);
      if c.Correcta? {
        altura := value;
      }
    }

    /** Setter of `nombre`: rejects a name that is blank after trimming and
        changes nothing; otherwise stores the name as given (untrimmed) and
        changes nothing else, so the BMI is not affected. */
    method AsignarNombre(value: string) returns (c: Comprobacion)
      requires Valid()
      modifies this
      ensures Valid()
      ensures c.Correcta? <==> !EsBlanco(value)
      ensures c.Fallida? ==> c.error == NombreVacio && unchanged(this)
      ensures c.Correcta? ==> nombre == value && peso == old(peso) && altura == old(altura)
      ensures Imc() == old(Imc())
    {
      c := ComprobarNombre(value);
      if c.Correcta? {
        nombre := value;
      }
    }

    /** Getter of `imc`: recomputed from the current weight and height on each
        read. It has two decimals, is never negative, and lies within 0.005 of
        peso / altura^2 whenever that quotient is defined and small enough for
        `roundToInt`. */
    function Imc(): (imc: real)
      reads this
      requires Valid()
      ensures imc >= 0.0 && EsCentesimo(imc)
      ensures altura != 0.0 && peso / (altura * altura) * 100.0 <= INT_MAX as real ==>
                peso / (altura * altura) - 0.005 < imc <= peso / (altura * altura) + 0.005
    {
      CalcularImc(peso, altura)
    }

    /** `alturaEncimaMedia`: strictly above 1.75 m. */
    function AlturaEncimaMedia(): (encima: bool)
      reads this
      ensures encima <==> altura > 1.75
    {
      altura > ALTURA_MEDIA
    }

    /** `pesoEncimaMedia`: strictly above 70 kg. */
    function PesoEncimaMedia(): (encima: bool)
      reads this
      ensures encima <==> peso > 70.0
    {
      peso > PESO_MEDIA
    }

    /** `obtenerDescImc`: the description of the category of the current BMI,
        i.e. the description of the band the BMI falls in. */
    function ObtenerDescImc(): (d: string)
      reads this
      requires Valid()
      ensures d == ObtenerTipoImc(Imc()).Desc()
      ensures d == "Peso insuficiente" <==> Imc() <= 18.4
      ensures d == "Peso saludable" <==> 18.4 < Imc() <= 24.9
      ensures d == "Sobrepeso" <==> 24.9 < Imc() <= 29.9
      ensures d == "Obesidad" <==> 29.9 < Imc()
    {
      BandasDelClasificador(Imc());
      ObtenerTipoImc(Imc()).Desc()
    }

    /** `saludar`: the greeting embeds the name exactly, between "Hola!! soy "
        and ". ". */
    function Saludar(): (s: string)
      reads this
      ensures |s| == |nombre| + 13
      ensures s[..11] == "Hola!! soy " && s[11..|s| - 2] == nombre && s[|s| - 2..] == ". "
    {
      "Hola!! soy " + nombre + ". "
    }

    /** `equals`: the same object, or another Persona with equal name, height
        and weight. Since the fields of an object equal themselves, the identity
        test is subsumed: equality is exactly field-wise equality, and the BMI
        is not compared. A null `otro` stands for any argument that is not a
        Persona. */
    function Equals(otro: Persona?): (iguales: bool)
      reads this, otro
      ensures iguales <==> otro != null && otro.nombre == nombre && otro.altura == altura
                           && otro.peso == peso
    {
      if this == otro then true
      else if otro == null then false
      else if nombre != otro.nombre then false
      else if altura != otro.altura then false
      else if peso != otro.peso then false
      else true
    }
  }

  /** `equals` is an equivalence relation on Persona objects. */
  lemma IgualdadEsEquivalencia(p: Persona, q: Persona, s: Persona)
    ensures p.Equals(p)
    ensures p.Equals(q) ==> q.Equals(p)
    ensures p.Equals(q) && q.Equals(s) ==> p.Equals(s)
  {
  }

  /** Equal persons agree on every query: BMI, its description, the two
      comparisons with the averages and the greeting. This is why `equals`
      may leave the BMI out. */
  lemma IgualesMismasConsultas(p: Persona, q: Persona)
    requires p.Valid() && q.Valid() && p.Equals(q)
    ensures p.Imc() == q.Imc() && p.ObtenerDescImc() == q.ObtenerDescImc()
    ensures p.AlturaEncimaMedia() == q.AlturaEncimaMedia()
    ensures p.PesoEncimaMedia() == q.PesoEncimaMedia()
    ensures p.Saludar() == q.Saludar()
  {
  }

  /** The BMI depends on the current weight and height only: two states with
      the same weight and height read the same BMI, whatever the names. */
  lemma ImcSoloDePesoYAltura(p: Persona, q: Persona)
    requires p.Valid() && q.Valid() && p.peso == q.peso && p.altura == q.altura
    ensures p.Imc() == q.Imc()
  {
  }

  /** The height setter as written lets the height reach zero: on a person of
      70 kg and 1.75 m, setting the height to 0 succeeds; the BMI read next is
      `Int.MAX_VALUE / 100.0` (OBESIDAD), and from then on every height
      assignment fails, even of a valid height. */
  method EjemploAlturaCero() returns (primera: Comprobacion, alturaTras: real, imcTras: real,
                                      segunda: Comprobacion)
    ensures primera == Correcta && alturaTras == 0.0
    ensures imcTras == 21474836.47 && ObtenerTipoImc(imcTras) == Obesidad
    ensures segunda == Fallida(AlturaNoPositiva)
  {
    var r := Persona.Crear(70.0, 1.75);
    var p := r.valor;
    primera := p.AsignarAltura(0.0);
    alturaTras := p.altura;
    assert alturaTras == 0.0 && p.Valid();
    imcTras := p.Imc();
    assert imcTras == INT_MAX as real / 100.0;
    BandasDelClasificador(imcTras);
    segunda := p.AsignarAltura(1.75);
  }

  /** The same scenario with the corrected setter: zero is rejected and the
      height stays 1.75. */
  method EjemploAlturaCeroCorregida() returns (c: Comprobacion, alturaTras: real)
    ensures c == Fallida(AlturaNoPositiva) && alturaTras == 1.75
  {
    var r := Persona.Crear(70.0, 1.75);
    var p := r.valor;
    c := p.AsignarAlturaCorregida(0.0);
    alturaTras := p.altura;
  }

  /** The BMI values of the demonstration script: for each weight and height,
      100 times the quotient lies within half a unit of the stated integer. */
  lemma ImcDelGuion()
    ensures CalcularImc(90.55, 1.93) == 24.31
    ensures CalcularImc(84.5, 1.93) == 22.69
    ensures CalcularImc(84.5, 1.81) == 25.79
    ensures CalcularImc(69.5, 1.65) == 25.53
    ensures CalcularImc(69.5, 1.80) == 21.45
  {
    RedondeoUnico(90.55 / (1.93 * 1.93) * 100.0, 2431);
    RedondeoUnico(84.5 / (1.93 * 1.93) * 100.0, 2269);
    RedondeoUnico(84.5 / (1.81 * 1.81) * 100.0, 2579);
    RedondeoUnico(69.5 / (1.65 * 1.65) * 100.0, 2553);
    RedondeoUnico(69.5 / (1.80 * 1.80) * 100.0, 2145);
  }

  /** The first person of the demonstration script, without its console I/O:
      Persona(90.55, 1.93) reads BMI 24.31 ("Peso saludable") and is above
      both averages; with weight 84.5 it reads 22.69, and with height 1.81
      then 25.79 ("Sobrepeso"). */
  method EjemploPrimeraPersona() returns (imc1: real, desc1: string, encima1: bool,
                                          imc2: real, imc3: real, desc3: string)
    ensures imc1 == 24.31 && desc1 == "Peso saludable" && encima1
    ensures imc2 == 22.69 && imc3 == 25.79 && desc3 == "Sobrepeso"
  {
    ImcDelGuion();
    var r := Persona.Crear(90.55, 1.93);
    var p := r.valor;
    imc1 := p.Imc();
    desc1 := p.ObtenerDescImc();
    encima1 := p.AlturaEncimaMedia() && p.PesoEncimaMedia();
    var c := p.AsignarPeso(84.5);
    imc2 := p.Imc();
    c := p.AsignarAltura(1.81);
    imc3 := p.Imc();
    desc3 := p.ObtenerDescImc();
  }

  /** The third person of the demonstration script: Persona("David", 69.5,
      1.65) reads 25.53 and, with height 1.80, 21.45. */
  method EjemploTerceraPersona() returns (imcAntes: real, imcTras: real)
    ensures imcAntes == 25.53 && imcTras == 21.45
  {
    ImcDelGuion();
    var r := Persona.CrearConNombre("David", 69.5, 1.65);
    var david := r.valor;
    imcAntes := david.Imc();
    var c := david.AsignarAltura(1.80);
    imcTras := david.Imc();
  }

  /** Two persons built from the same name, weight and height are equal; a
      different height makes them different. */
  method EjemploIgualdad() returns (iguales: bool, distintos: bool)
    ensures iguales && !distintos
  {
    var r1 := Persona.CrearConNombre("David", 69.5, 1.65);
    var r2 := Persona.CrearConNombre("David", 69.5, 1.65);
    var r3 := Persona.CrearConNombre("David", 69.5, 1.80);
    iguales := r1.valor.Equals(r2.valor);
    distintos := r1.valor.Equals(r3.valor);
  }
}
