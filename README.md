# Persona and TipoImc in Dafny

A Dafny model of a small Kotlin exercise about a person's body-mass index
(IMC). The model has two parts:

- `Persona` holds a weight (`peso`, kg), a height (`altura`, m) and a name
  (`nombre`). Each is checked when the object is built and again when its
  setter runs. The BMI (`imc`) is recomputed from the current weight and
  height on every read, rounded to two decimals. Two queries compare the
  height and the weight with fixed averages (1.75 m, 70 kg). Another
  returns the description of the BMI category. A greeting embeds the name.
  Equality compares name, height and weight.
- `TipoImc` is a fixed table of four categories: INSUFICIENTE, SALUDABLE,
  SOBREPESO and OBESIDAD. Each has a declared lower bound, upper bound and
  description. `obtenerTipoImc` picks a category by testing the upper bounds
  in order. The last category is a catch-all.

Files and modules:

- `texto.dfy` (module `Texto`): Kotlin's `Char.isWhitespace` and
  `String.trim()`, which the name check relies on.
- `redondeo.dfy` (module `Redondeo`): Kotlin's `Double.roundToInt()`, which
  saturates to the 32-bit `Int` range and rounds ties upward. Also the
  rounding to two decimals built on it.
- `tipo_imc.dfy` (module `TiposImc`): the enum and the classifier.
- `persona.dfy` (module `Personas`): the class `Persona`, which is mutable
  and so modelled as a Dafny class.

Kotlin constructors throw `IllegalArgumentException` when a check fails. Here
each one is a static factory method that returns `Resultado<Persona>`:
either a fresh instance or the failed rule, with no instance. The Dafny
constructor `Init` only models the property initialisers. The `init` checks
run in the factory, as they do in Kotlin after the fields are set. Setters
return `Comprobacion`, which is `Correcta` or `Fallida(error)`, instead of
throwing. Each setter's contract states the whole new state: unchanged on
failure, and on success only its own field changes.

`Double` is modelled as `real`. The quotient `peso / (altura * altura)`
therefore has no IEEE rounding error. `roundToInt` is modelled as
`floor(x + 0.5)`, saturated to `[Int.MIN_VALUE, Int.MAX_VALUE]`.

The height setter does not keep `altura > 0` (see Findings), so the height
can become zero. A zero height gives the double quotient +Infinity, and
`roundToInt` saturates that to `Int.MAX_VALUE`. The model includes this
case: the BMI then reads 21474836.47. The object invariant `Valid()` covers
only what every operation keeps: a positive weight and a non-blank name.

Where the code and its own comments disagree, the model follows the code.
`comprobarAltura`'s KDoc (src/Persona.kt:106-111) requires a positive
height, yet the setter at src/Persona.kt:37 checks the old value.
`imcMin` and `imcMax` are documented as each category's bounds
(src/TipoImc.kt:4-5), yet `obtenerTipoImc` reads only the first three
`imcMax` values.

## Model

| member | source | states |
|---|---|---|
| `Texto.EsEspacio` | src/Persona.kt:123 | Kotlin `Char.isWhitespace`: TAB..CR, FS..US and the Unicode space, line and paragraph separators; among ASCII characters exactly space, TAB..CR and FS..US |
| `Texto.Recortar` | src/Persona.kt:123 | `trim()`: no longer than the input, and empty or starting and ending with non-whitespace |
| `Texto.EsBlanco` | src/Persona.kt:123 | `trim().isEmpty()`: holds exactly when every character is whitespace |
| `Texto.RecortarInicio` | src/Persona.kt:123 | Leading-whitespace removal for `trim()`: the result is a suffix of the input; everything cut off is whitespace; the result is empty or starts with a non-whitespace character |
| `Texto.RecortarFin` | src/Persona.kt:123 | Trailing-whitespace removal for `trim()`: the result is a prefix; everything cut off is whitespace; the result is empty or ends with a non-whitespace character |
| `Texto.RecortarVacioSiiTodoEspacio` | src/Persona.kt:123 | `s.trim()` is empty exactly when every character of `s` is whitespace |
| `Texto.RecortarEsSubcadena` | src/Persona.kt:123 | `trim()` returns a contiguous piece of the input, with only whitespace cut off on either side, and all of it: the piece is empty or neither starts nor ends with whitespace |
| `Redondeo.RedondearAEntero` | src/Persona.kt:131 | `roundToInt`: always in the 32-bit Int range; saturates above and below it; inside it, the unique integer in (x - 1/2, x + 1/2], so ties go up |
| `Redondeo.RedondeoUnico` | src/Persona.kt:131 | Any integer within (x - 1/2, x + 1/2] is exactly what `roundToInt` returns |
| `Redondeo.RedondearDosDecimales` | src/Persona.kt:131 | `(x*100).roundToInt()/100.0` has two decimals, lies within 0.005 of x when 100x fits an Int, and is non-negative for non-negative x |
| `Redondeo.DosDecimalesFijaCentesimos` | src/Persona.kt:131 | Rounding to two decimals leaves a two-decimal value unchanged, so it is idempotent |
| `Redondeo.DosDecimalesMonotono` | src/Persona.kt:131 | Rounding to two decimals is monotone |
| `TiposImc.TipoImc.ImcMin` | src/TipoImc.kt:8-12 | Each entry's declared `imcMin` (0.0, 18.5, 25.0, 30.0) is non-negative, below its own `imcMax` and above the previous entry's `imcMax` |
| `TiposImc.TipoImc.ImcMax` | src/TipoImc.kt:8-12 | Each entry's declared `imcMax` (18.4, 24.9, 29.9, 100.0) is positive and at most 100 |
| `TiposImc.TipoImc.Desc` | src/TipoImc.kt:8-12 | Each entry's `desc`: "Peso insuficiente", "Peso saludable", "Sobrepeso", "Obesidad" |
| `TiposImc.TipoImc.Ordinal` | src/TipoImc.kt:8-12 | The ordinal indexes the entry in the declaration order INSUFICIENTE, SALUDABLE, SOBREPESO, OBESIDAD |
| `TiposImc.ObtenerTipoImc` | src/TipoImc.kt:21-27 | Total. The chosen category's `imcMax` covers the value, except for the catch-all OBESIDAD. Every earlier category's `imcMax` lies below the value |
| `TiposImc.ObtenerTipoImcRecorreTabla` | src/TipoImc.kt:22-26 | The classifier equals a walk over the entries in order that stops at the first covering `imcMax`, taking the last entry untested |
| `TiposImc.BandasDelClasificador` | src/TipoImc.kt:23-26 | Exact bands, each an if-and-only-if: INSUFICIENTE for imc <= 18.4 (negatives too); SALUDABLE for (18.4, 24.9]; SOBREPESO for (24.9, 29.9]; OBESIDAD above 29.9 with no upper limit |
| `TiposImc.RangoDeclaradoClasifica` | src/TipoImc.kt:8-12 | A value inside a category's declared [imcMin, imcMax] is classified as that category |
| `TiposImc.FueraDeRangosDeclarados` | src/TipoImc.kt:21-27 | Values in no declared range are still classified: -1 as INSUFICIENTE, 18.45 as SALUDABLE, 24.95 as SOBREPESO, 29.95 and 150 as OBESIDAD |
| `TiposImc.ClasificacionMonotona` | src/TipoImc.kt:22-27 | If a <= b, the category of a comes no later than that of b |
| `TiposImc.TablaDeCategorias` | src/TipoImc.kt:9-12 | Each imcMin < imcMax. The imcMax values strictly increase. Each imcMin exceeds the previous imcMax. The descriptions are the four fixed texts |
| `Personas.ComprobarPeso` | src/Persona.kt:102-104 | Passes if and only if the weight is positive; otherwise fails with the weight error |
| `Personas.ComprobarAltura` | src/Persona.kt:112-114 | Passes if and only if the height is positive; otherwise fails with the height error |
| `Personas.ComprobarNombre` | src/Persona.kt:122-124 | Passes if and only if the name has a non-whitespace character (equivalently, is not blank after trim); otherwise fails with the name error |
| `Personas.CalcularImc` | src/Persona.kt:129-131 | Non-negative with two decimals. Within 0.005 of peso/altura^2 while 100 times that fits an Int. `Int.MAX_VALUE/100` when the height is zero |
| `Personas.Persona.Init` | src/Persona.kt:29-50 | The property initialisers: `peso` and `altura` as given, `nombre` "Sin Nombre"; the `init` checks follow in `Crear` |
| `Personas.Persona.Crear` | src/Persona.kt:13-57 | Succeeds if and only if peso > 0 and altura > 0. The weight error is reported first. No instance on failure. On success a fresh valid object with the given fields and name "Sin Nombre" |
| `Personas.Persona.CrearConNombre` | src/Persona.kt:67-70 | Succeeds if and only if peso > 0, altura > 0 and the name is not blank. Errors come in that order. The name is stored untrimmed |
| `Personas.Persona.CrearConNombreEnteros` | src/Persona.kt:80-83 | As CrearConNombre, with the Int weight and height converted to real before the checks |
| `Personas.Persona.CrearEnteros` | src/Persona.kt:92 | As Crear, with the Int weight and height converted to real; the name is "Sin Nombre" |
| `Personas.Persona.AsignarPeso` | src/Persona.kt:29-33 | Succeeds if and only if value > 0. Unchanged on failure. On success only peso changes, to value, and the next BMI read follows the new weight |
| `Personas.Persona.AsignarAltura` | src/Persona.kt:35-39 | Succeeds if and only if the OLD height is positive. Unchanged on failure. On success only altura changes, to value as given, zero and negatives included |
| `Personas.Persona.AsignarAlturaCorregida` | src/Persona.kt:35-39 | Corrected setter: succeeds if and only if value > 0, and a positive height stays positive |
| `Personas.Persona.AsignarNombre` | src/Persona.kt:41-48 | Succeeds if and only if the value is not blank. Unchanged on failure. On success only nombre changes, untrimmed. The BMI is unaffected |
| `Personas.Persona.Imc` | src/Persona.kt:50-52 | Recomputed from the current peso and altura on every read. Non-negative with two decimals, within 0.005 of peso/altura^2 |
| `Personas.Persona.AlturaEncimaMedia` | src/Persona.kt:155 | True if and only if altura > 1.75 (ALTURA_MEDIA, src/Persona.kt:25) |
| `Personas.Persona.PesoEncimaMedia` | src/Persona.kt:162 | True if and only if peso > 70.0 (PESO_MEDIA, src/Persona.kt:26) |
| `Personas.Persona.ObtenerDescImc` | src/Persona.kt:169 | The description of the current BMI's category, i.e. of the band (<= 18.4, (18.4, 24.9], (24.9, 29.9], > 29.9) holding the BMI |
| `Personas.Persona.Saludar` | src/Persona.kt:146-148 | The greeting is "Hola!! soy " followed by the exact name and ". " |
| `Personas.Persona.Equals` | src/Persona.kt:202-211 | True if and only if the argument is a Persona with equal name, height and weight. The identity shortcut is subsumed, and the BMI is not compared |
| `Personas.IgualdadEsEquivalencia` | src/Persona.kt:202-211 | `equals` is reflexive, symmetric and transitive |
| `Personas.IgualesMismasConsultas` | src/Persona.kt:202-211 | Equal persons agree on BMI, its description, both average comparisons and the greeting |
| `Personas.ImcSoloDePesoYAltura` | src/Persona.kt:50-52 | Two states with the same weight and height read the same BMI, whatever the names |
| `Personas.EjemploAlturaCero` | src/Persona.kt:35-39 | On Persona(70, 1.75), setting the height to 0 succeeds. The BMI then reads 21474836.47 (OBESIDAD), and a later valid height is rejected |
| `Personas.EjemploAlturaCeroCorregida` | src/Persona.kt:35-39 | With the corrected setter, the same assignment of 0 is rejected and the height stays 1.75 |
| `Personas.ImcDelGuion` | src/Main.kt:7-59 | The demonstration script's BMI values: 24.31, 22.69, 25.79, 25.53, 21.45 |
| `Personas.EjemploPrimeraPersona` | src/Main.kt:7-22 | Persona(90.55, 1.93) reads 24.31 "Peso saludable", above both averages. It reads 22.69 after weight 84.5, then 25.79 "Sobrepeso" after height 1.81 |
| `Personas.EjemploTerceraPersona` | src/Main.kt:31-59 | Persona("David", 69.5, 1.65) reads 25.53, then 21.45 after height 1.80 |
| `Personas.EjemploIgualdad` | src/Persona.kt:202-211 | Two persons built from ("David", 69.5, 1.65) are equal; one with height 1.80 is not |

## Left out

- `Persona.AsignarAltura`: kept as written. It does not preserve `altura > 0`; the corrected setter is `AsignarAlturaCorregida` (see Findings).
- `mostrarDesc` (src/Persona.kt:139-141) only prints, and console output is not modelled.
- `obtenerDesc` and `toString` (src/Persona.kt:177-194) format `Double` values as text, and Kotlin's decimal rendering of doubles is not modelled. Their qualifiers come from `AlturaEncimaMedia` and `PesoEncimaMedia`.
- `src/Main.kt` as a program is not modelled: its console reading, retry loops and `toDouble` parsing are I/O. The name read from the console is not modelled. Its fixed numeric steps appear as `EjemploPrimeraPersona` and `EjemploTerceraPersona`. `damePersona` reads everything from the console, so persona 2 is not modelled.
- IEEE-754 doubles are modelled as `real`. Rounding error of the division, NaN, infinities other than the zero-height case, and the rounding quirks of `floor(x + 0.5)` on doubles are not modelled. The weight setter, the name setter and the constructors reject NaN. The height setter as written accepts it (see Findings), after which every `imc` read throws in `roundToInt`. `real` has no NaN, so none of this is modelled. Zero-height detection uses `altura == 0`. A nonzero height whose square underflows to 0 as a double is not modelled.
- `Equals`: an argument that is not a `Persona` (or is null) is modelled as a null `Persona?` reference.
- `hashCode` (not overridden) and the text of the exception messages are not modelled. Each failing rule is an `Error` tag.
- Kotlin strings are UTF-16; Dafny strings are sequences of Unicode scalar values. Characters outside the Basic Multilingual Plane are never whitespace, so `trim` is unaffected.

## Findings

| source | as written | input that shows it | evidently intended | confidence | as-written member | corrected member |
|---|---|---|---|---|---|---|
| src/Persona.kt:37 | The `altura` setter checks the current height (`comprobarAltura(altura)`), not the new value | On Persona(70.0, 1.75), `altura = 0.0` is accepted. The BMI then reads 21474836.47. After that, `altura = 1.75` is rejected | `comprobarAltura(value)`: reject a non-positive new height, so `altura > 0` is kept | high; not executed | `Personas.EjemploAlturaCero` | `Personas.Persona.AsignarAlturaCorregida` |

The class keeps the as-written `AsignarAltura` because it models the code.
`AsignarAlturaCorregida` sits beside it with the intended property proved,
and `EjemploAlturaCeroCorregida` states the same scenario with it.
