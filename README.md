# Fish-production calculator (Tilapia and Trucha), in Dafny

The calculator estimates the economics of one production cycle of farmed fish
in Peru. It takes a species name, a number of fry (alevines), the price of one
fry and the sale price per kilogram. It looks up that species in a fixed
parameter table: average market weight, mortality, feed conversion ratio
(FCA), feed price, months of production and a per-month feed curve. It then
computes the sellable fish and their weight, the feed and its cost, the fry
cost, a 10 % overhead, the total cost, the revenue and the profit. It renders
counts and kilograms rounded to integers and money as `S/ 1.234`. A
month-by-month feed table comes with the results.

The model has three modules:

- `Wrappers` (`wrappers.dfy`): the `Option` type used for the unknown-species result.
- `Formato` (`formato.dfy`): `redondear_cantidad` is round-half-to-even over reals.
  `formatear_numero` is built from the decimal digits of an integer, the grouping
  of those digits with `.` and the `S/ ` prefix. Each piece comes with its inverse
  (parse back) and the lemmas that connect the two.
- `ProduccionPeces` (`produccion.dfy`): the species as a closed datatype with a
  string lookup, the parameter table as one `Perfil` record per species, and the
  unrounded figures (`Cifras`) as a function of a profile and the three inputs.
  It also has the rendered results (`Resultados`), the monthly table as a
  sequence of `Fila(mes, consumoAlimento, costoMensualAlimento)` rows, and the
  entry point `CalcularProduccionPeces`, which returns `None` for an unknown name.

The source is pure: straight-line arithmetic, a literal dictionary lookup and
list comprehensions. So the model is made of datatypes, functions and lemmas.
Amounts are Dafny `real`s, an exact idealisation of the source's binary floats.
The fry count is an `int`. The calculation is total: like the source, it does
not guard against negative inputs. Non-negativity appears only as a hypothesis
of the lemmas that state sign bounds.

Facts about the code that a reader might not expect:

- The monthly table does not add up to the aggregate feed figure
  (`TablaNoSumaConsumoTotal`). The two are computed independently: Tilapia's
  feed curve totals 4.2 kg per sellable fish, while weight × FCA gives 0.6396 kg.
- Money is always rounded to an integer before it is rendered; no decimals are shown.
- For 1000 Tilapia fry at S/ 0.5 sold at S/ 20/kg the feed cost is 3735.32796
  and the revenue 9640.8 (`EscenarioTilapiaCifras`). They are rendered
  `S/ 3.735` and `S/ 9.641` (`EscenarioTilapia`, `FormatearEnteroEscenario`).
- The profit is not clamped at zero: 1000 Tilapia fry at S/ 10 sold at S/ 1/kg
  give a loss (`PerdidaPosible`).

## Model

| member | source | states |
|---|---|---|
| `Formato.RedondearCantidad` | app.py:12-13 | the result is an integer within 1/2 of the value, strictly within 1/2 unless the value is a tie, and even at a tie (round half to even) |
| `Formato.RedondearCantidadUnica` | app.py:12-13 | those properties determine the rounding: any integer that has them equals `RedondearCantidad(v)` |
| `Formato.RedondearEntero` | app.py:13 | rounding an integer returns it unchanged |
| `Formato.RedondearEjemplos` | app.py:13 | 2.5 → 2, 3.5 → 4, −2.5 → −2, 0.4 → 0, −1234567.5 → −1234568 |
| `Formato.Digitos` | app.py:10 | the decimal form of a natural number is a non-empty string of digits |
| `Formato.DigitosCorrectos` | app.py:10 | reading the decimal form back gives the number; it has a leading zero only for 0, which is "0" |
| `Formato.DigitosDeLectura` | app.py:10 | every digit string without a leading zero is the decimal form of its value (the two directions together make a bijection) |
| `Formato.AgruparMiles` | app.py:10 | the result is at least as long as the digits and keeps the leading digit |
| `Formato.AgruparMilesCorrecto` | app.py:10 | the grouped string is a first group of 1–3 digits followed by `.`-and-three-digit groups, and removing its dots gives the digit string back |
| `Formato.AgruparMilesDeQuitarPuntos` | app.py:10 | every such grouped string is the grouping of its own digits (grouping is onto the grouped strings) |
| `Formato.FormatearEntero` | app.py:10 | the rendering of an integer is non-empty and starts with `-` exactly when the integer is negative |
| `Formato.FormatearEnteroForma` | app.py:10 | the rendering is an optional `-` followed by grouped digits with no leading zero; without the dots the digits are the decimal form of the magnitude |
| `Formato.FormatearEnteroIdaVuelta` | app.py:10 | parsing the rendering gives the integer back (the rendering is injective) |
| `Formato.FormatearEnteroDeLectura` | app.py:10 | every well-formed signed grouped string is the rendering of the integer it denotes |
| `Formato.FormatearEnteroEjemplo` | app.py:10 | −1234 renders as `-1.234` |
| `Formato.FormatearEnteroEscenario` | app.py:10 | 3735 renders as `3.735` and 9641 as `9.641` |
| `Formato.FormatearNumero` | app.py:9-10 | the result starts with `S/ ` |
| `Formato.FormatearNumeroForma` | app.py:10 | after `S/ ` comes `-` exactly when the rounded value is negative, then digit groups (first 1–3 digits, the rest exactly 3) separated by `.`; removing the dots gives the decimal form of the rounded value's magnitude, and parsing gives the rounded value |
| `Formato.FormatearNumeroIgualSii` | app.py:10 | two amounts render identically if and only if they round to the same integer |
| `ProduccionPeces.BuscarEspecie` | app.py:36-39 | the lookup fails exactly for names other than "Tilapia" and "Trucha", and a species it finds carries the name it was looked up by |
| `ProduccionPeces.BuscarNombre` | app.py:17-18 | each species is found under its own name |
| `ProduccionPeces.Parametros` | app.py:17-34 | each species' row has mortality in [0, 1], positive weight, FCA and feed price, and a feed curve of one non-negative entry per month of production |
| `ProduccionPeces.PecesVendiblesAcotados` | app.py:44-45 | for a valid row and a non-negative fry count, 0 ≤ sellable fish ≤ fry count and 0 ≤ sellable weight ≤ fry count × average weight |
| `ProduccionPeces.ConsumoTotalPorFca` | app.py:52-53 | replacing the monthly curve changes none of feed, feed cost, total cost or profit; total feed = sellable weight × FCA, feed cost = total feed × feed price, and sellable weight = fry × (1 − mortality) × average weight |
| `ProduccionPeces.CostoTotalProduccion` | app.py:56-58 | the total cost is 1.1 × (feed cost + fry count × fry price); for a valid row and non-negative fry count and price, total feed, feed cost, fry cost and overhead are ≥ 0 and the total is at least feed plus fry cost; the overhead is a tenth of feed plus fry cost |
| `ProduccionPeces.GananciaEsIngresoMenosCosto` | app.py:61-62 | profit + total cost = revenue exactly; revenue ≥ 0 for a valid row, a non-negative fry count and a non-negative sale price; revenue = sellable weight × sale price |
| `ProduccionPeces.PerdidaPosible` | app.py:61-62 | the profit can be negative: for 1000 Tilapia fry at S/ 10 sold at S/ 1/kg the total cost exceeds the revenue |
| `ProduccionPeces.ColumnasMensuales` | app.py:48-49 | both monthly columns have one entry per month for a valid row, and every entry is ≥ 0 for a non-negative fry count; month i's feed is sellable fish × curve[i], and its cost is that feed × feed price |
| `ProduccionPeces.FilaDeTabla` | app.py:78-82 | row i of the table is month i + 1, month i's feed rounded, and month i's feed cost formatted |
| `ProduccionPeces.ProduccionCon` | app.py:64-84 | the table of a valid row has exactly as many rows as months of production |
| `ProduccionPeces.TotalesMensuales` | app.py:48-49 | the months' feed adds up to sellable fish × the curve's total, and the months' cost to that total × feed price |
| `ProduccionPeces.TablaNoSumaConsumoTotal` | app.py:48-53 | for each species and any positive fry count, the months' feed in the table adds up to more than the aggregate feed figure |
| `ProduccionPeces.CalcularProduccionPeces` | app.py:36-41 | the result is `None` exactly for a name other than "Tilapia" and "Trucha"; otherwise it is the named species' results and table, with 6 rows for Tilapia and 8 for Trucha |
| `ProduccionPeces.EscenarioTilapiaCifras` | app.py:43-62 | for Tilapia, 1000 fry at S/ 0.5 and S/ 20/kg: 927 fish, 482.04 kg, 592.9092 kg of feed, feed cost 3735.32796, fry 500, overhead 423.532796, total 4658.860756, revenue 9640.8, profit 4981.939244 |
| `ProduccionPeces.EscenarioTilapia` | app.py:64-75 | for those inputs the results are 927 fish, 482 kg and 593 kg, then the renderings of 3735, 500, 424, 4659, 9641 and 4982, with the feed cost shown as `S/ 3.735` and the revenue as `S/ 9.641`; the table has six rows |

## Left out

- The Streamlit interface (app.py:1-6, 86-103) is input and output only. This covers the title, text, selectbox, number inputs, button, table display and `st.error`. The error message at app.py:38 is modelled only as the `None` result.
- The pandas `DataFrame` (app.py:78-82) belongs to a foreign library. It is replaced by a sequence of rows built from the three columns. The columns are required to have equal length, which the parameter table guarantees.
- IEEE-754 double arithmetic is not modelled. This covers the constants, the products and the exact float that Python's `round` receives. All amounts are exact reals, so a value that sits at a tie only because of float error may round differently in the source.
- The form's input minimums (app.py:91-93) are not modelled. The calculation does not need them, and the lemmas that state sign bounds assume non-negative inputs instead.
- The caller's unpacking of a possible `None` (app.py:96) is interface glue. The selectbox at app.py:87 only offers the two known species.
