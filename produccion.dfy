/**
 * The fish-production calculator: a fixed parameter table for Tilapia and
 * Trucha, the cost/revenue/profit pipeline over one stocking of fry, the
 * formatted results and the month-by-month feed table.
 *
 * Quantities are reals (kilograms, soles); the fry count is an integer.
 */
module ProduccionPeces {
  import opened Wrappers
  import opened Formato

  // ---------------------------------------------------------------------------
  // Species and their parameters (the parametros table)
  // ---------------------------------------------------------------------------

  datatype Especie = Tilapia | Trucha

  /** The species' name as the table keys it. */
  function Nombre(e: Especie): string
  {
    match e
    case Tilapia => "Tilapia"
    case Trucha => "Trucha"
  }

  /** Looks a species up by its name; any other name has no entry in the table. */
  function BuscarEspecie(nombre: string): (r: Option<Especie>)
    ensures r.None? <==> nombre != "Tilapia" && nombre != "Trucha"
    ensures r.Some? ==> Nombre(r.value) == nombre
  {
    if nombre == "Tilapia" then Some(Tilapia)
    else if nombre == "Trucha" then Some(Trucha)
    else None
  }

  /** Every species is found under its own name. */
  lemma BuscarNombre(e: Especie)
    ensures BuscarEspecie(Nombre(e)) == Some(e)
  {
  }

  /**
   * One species' row of the table: average market weight (kg per fish),
   * mortality as a fraction, feed conversion ratio, feed price (soles per kg),
   * months of production and the feed eaten per fish in each month (kg).
   */
  datatype Perfil = Perfil(
    pesoPromedio: real,
    tasaMortalidad: real,
    fca: real,
    costoAlimentoPorKg: real,
    mesesProduccion: nat,
    consumoMensual: seq<real>)

  /**
   * What the table guarantees of every row: a mortality fraction in [0, 1],
   * positive weight, conversion ratio and price, and one non-negative feed
   * amount per month of production.
   */
  predicate PerfilValido(p: Perfil) {
    0.0 <= p.tasaMortalidad <= 1.0 &&
    p.pesoPromedio > 0.0 && p.fca > 0.0 && p.costoAlimentoPorKg > 0.0 &&
    |p.consumoMensual| == p.mesesProduccion &&
    forall i :: 0 <= i < |p.consumoMensual| ==> p.consumoMensual[i] >= 0.0
  }

  /** The parametros table. */
  function Parametros(e: Especie): (p: Perfil)
    ensures PerfilValido(p)
  {
    match e
    case Tilapia => Perfil(0.52, 0.073, 1.23, 6.30, 6, [0.2, 0.4, 0.6, 0.8, 1.0, 1.2])
    case Trucha => Perfil(0.6, 0.15, 1.4, 4.00, 8, [0.3, 0.5, 0.7, 0.9, 1.1, 1.3, 1.5, 1.7])
  }

  // ---------------------------------------------------------------------------
  // The unrounded figures of one calculation
  // ---------------------------------------------------------------------------

  datatype Cifras = Cifras(
    pecesVendibles: real,
    pesoTotalVendible: real,
    consumoTotalMensual: seq<real>,
    costoMensualAlimento: seq<real>,
    consumoTotal: real,
    costoTotalAlimento: real,
    costoTotalAlevines: real,
    otrosCostos: real,
    costoTotalProduccion: real,
    ingresoEstimado: real,
    ganancia: real)

  /** Every element of s multiplied by k, in order. */
  function Escalar(k: real, s: seq<real>): (r: seq<real>)
    ensures |r| == |s|
    ensures forall i :: 0 <= i < |s| ==> r[i] == k * s[i]
  {
    seq(|s|, i requires 0 <= i < |s| => k * s[i])
  }

  /** The share of the overhead (electricity, labour, ...) on feed and fry costs. */
  const OtrosCostosFraccion: real := 0.1

  /** The arithmetic of calcular_produccion_peces once the species' row is known. */
  function Calcular(p: Perfil, cantidadAlevines: int, costoAlevin: real, precioVentaKilo: real): Cifras
  {
    var pecesVendibles := cantidadAlevines as real * (1.0 - p.tasaMortalidad);
    var pesoTotalVendible := pecesVendibles * p.pesoPromedio;
    var consumoTotalMensual := Escalar(pecesVendibles, p.consumoMensual);
    var costoMensualAlimento := Escalar(p.costoAlimentoPorKg, consumoTotalMensual);
    var consumoTotal := pesoTotalVendible * p.fca;
    var costoTotalAlimento := consumoTotal * p.costoAlimentoPorKg;
    var costoTotalAlevines := cantidadAlevines as real * costoAlevin;
    var otrosCostos := OtrosCostosFraccion * (costoTotalAlimento + costoTotalAlevines);
    var costoTotalProduccion := costoTotalAlimento + costoTotalAlevines + otrosCostos;
    var ingresoEstimado := pesoTotalVendible * precioVentaKilo;
    var ganancia := ingresoEstimado - costoTotalProduccion;
    Cifras(pecesVendibles, pesoTotalVendible, consumoTotalMensual, costoMensualAlimento,
           consumoTotal, costoTotalAlimento, costoTotalAlevines, otrosCostos,
           costoTotalProduccion, ingresoEstimado, ganancia)
  }

  // ---------------------------------------------------------------------------
  // The rendered results and the monthly table
  // ---------------------------------------------------------------------------

  /** The resultados dictionary: counts and kilograms rounded, money formatted. */
  datatype Resultados = Resultados(
    pecesVendibles: int,
    pesoTotalVendible: int,
    consumoTotal: int,
    costoTotalAlimentacion: string,
    costoTotalAlevines: string,
    otrosCostos: string,
    costoTotalProduccion: string,
    ingresoEstimado: string,
    gananciaEstimada: string)

  /** One row of the monthly table: month number, feed (kg, rounded), feed cost. */
  datatype Fila = Fila(mes: int, consumoAlimento: int, costoMensualAlimento: string)

  datatype Produccion = Produccion(resultados: Resultados, tabla: seq<Fila>)

  /** The resultados dictionary of a set of figures. */
  function Presentar(c: Cifras): Resultados
  {
    Resultados(
      RedondearCantidad(c.pecesVendibles),
      RedondearCantidad(c.pesoTotalVendible),
      RedondearCantidad(c.consumoTotal),
      FormatearNumero(c.costoTotalAlimento),
      FormatearNumero(c.costoTotalAlevines),
      FormatearNumero(c.otrosCostos),
      FormatearNumero(c.costoTotalProduccion),
      FormatearNumero(c.ingresoEstimado),
      FormatearNumero(c.ganancia))
  }

  /**
   * The table built from three columns: months 1..meses, the rounded monthly
   * consumption and the formatted monthly cost. The columns must have one
   * entry per month.
   */
  function Tabla(meses: nat, consumo: seq<real>, costo: seq<real>): (t: seq<Fila>)
    requires |consumo| == meses && |costo| == meses
    ensures |t| == meses
    ensures forall i :: 0 <= i < meses ==> t[i].mes == i + 1
    ensures forall i :: 0 <= i < meses ==>
      t[i].consumoAlimento == RedondearCantidad(consumo[i]) &&
      t[i].costoMensualAlimento == FormatearNumero(costo[i])
  {
    seq(meses, i requires 0 <= i < meses =>
      Fila(i + 1, RedondearCantidad(consumo[i]), FormatearNumero(costo[i])))
  }

  /** The results and the monthly table computed from one row of the parameter table. */
  function ProduccionCon(p: Perfil, cantidadAlevines: int, costoAlevin: real, precioVentaKilo: real): (r: Produccion)
    requires PerfilValido(p)
    ensures |r.tabla| == p.mesesProduccion
  {
    var c := Calcular(p, cantidadAlevines, costoAlevin, precioVentaKilo);
    Produccion(Presentar(c), Tabla(p.mesesProduccion, c.consumoTotalMensual, c.costoMensualAlimento))
  }

  /**
   * calcular_produccion_peces: nothing for a name the table does not hold,
   * otherwise the results and the monthly table of that species.
   */
  function CalcularProduccionPeces(especie: string, cantidadAlevines: int, costoAlevin: real, precioVentaKilo: real): (r: Option<Produccion>)
    ensures r.None? <==> especie != "Tilapia" && especie != "Trucha"
    ensures r.Some? ==> |r.value.tabla| == if especie == "Tilapia" then 6 else 8
    ensures especie == "Tilapia" ==> r == Some(ProduccionCon(Parametros(Tilapia), cantidadAlevines, costoAlevin, precioVentaKilo))
    ensures especie == "Trucha" ==> r == Some(ProduccionCon(Parametros(Trucha), cantidadAlevines, costoAlevin, precioVentaKilo))
  {
    match BuscarEspecie(especie)
    case None => None
    case Some(e) => Some(ProduccionCon(Parametros(e), cantidadAlevines, costoAlevin, precioVentaKilo))
  }

  // ---------------------------------------------------------------------------
  // Properties of the figures
  // ---------------------------------------------------------------------------

  /** With mortality in [0, 1], the sellable fish lie between zero and the fry stocked. */
  lemma PecesVendiblesAcotados(p: Perfil, cantidadAlevines: int, costoAlevin: real, precioVentaKilo: real)
    requires PerfilValido(p) && cantidadAlevines >= 0
    ensures var c := Calcular(p, cantidadAlevines, costoAlevin, precioVentaKilo);
      0.0 <= c.pecesVendibles <= cantidadAlevines as real &&
      0.0 <= c.pesoTotalVendible <= cantidadAlevines as real * p.pesoPromedio
  {
  }

  /** Multiplying by a non-negative factor keeps order. */
  lemma MulMonotone(k: real, a: real, b: real)
    requires k >= 0.0 && a <= b
    ensures k * a <= k * b && a * k <= b * k
  {
    assert k * b - k * a == k * (b - a);
  }

  /**
   * The aggregate feed and its cost come from the final weight and the
   * conversion ratio alone: feed = sellable weight x FCA, cost = feed x price,
   * and neither depends on the monthly feed curve.
   */
  lemma ConsumoTotalPorFca(p: Perfil, curva: seq<real>, cantidadAlevines: int, costoAlevin: real, precioVentaKilo: real)
    ensures var c := Calcular(p, cantidadAlevines, costoAlevin, precioVentaKilo);
      c.consumoTotal == c.pesoTotalVendible * p.fca &&
      c.costoTotalAlimento == c.consumoTotal * p.costoAlimentoPorKg &&
      c.pesoTotalVendible == cantidadAlevines as real * (1.0 - p.tasaMortalidad) * p.pesoPromedio
    ensures var c := Calcular(p, cantidadAlevines, costoAlevin, precioVentaKilo);
      var d := Calcular(p.(consumoMensual := curva), cantidadAlevines, costoAlevin, precioVentaKilo);
      d.consumoTotal == c.consumoTotal && d.costoTotalAlimento == c.costoTotalAlimento &&
      d.costoTotalProduccion == c.costoTotalProduccion && d.ganancia == c.ganancia
  {
  }

  /**
   * The overhead is exactly a tenth of feed plus fry cost, so the total cost is
   * 1.1 x (feed cost + fry count x fry price), and it is non-negative when the
   * inputs are.
   */
  lemma CostoTotalProduccion(p: Perfil, cantidadAlevines: int, costoAlevin: real, precioVentaKilo: real)
    ensures var c := Calcular(p, cantidadAlevines, costoAlevin, precioVentaKilo);
      c.otrosCostos == (c.costoTotalAlimento + c.costoTotalAlevines) / 10.0 &&
      c.costoTotalProduccion == 1.1 * (c.costoTotalAlimento + cantidadAlevines as real * costoAlevin)
    ensures PerfilValido(p) && cantidadAlevines >= 0 && costoAlevin >= 0.0 ==>
      var c := Calcular(p, cantidadAlevines, costoAlevin, precioVentaKilo);
      c.consumoTotal >= 0.0 && c.costoTotalAlimento >= 0.0 && c.costoTotalAlevines >= 0.0 &&
      c.otrosCostos >= 0.0 && c.costoTotalProduccion >= c.costoTotalAlimento + c.costoTotalAlevines
  {
    if PerfilValido(p) && cantidadAlevines >= 0 && costoAlevin >= 0.0 {
      var c := Calcular(p, cantidadAlevines, costoAlevin, precioVentaKilo);
      PecesVendiblesAcotados(p, cantidadAlevines, costoAlevin, precioVentaKilo);
      MulMonotone(p.fca, 0.0, c.pesoTotalVendible);
      MulMonotone(p.costoAlimentoPorKg, 0.0, c.consumoTotal);
      MulMonotone(cantidadAlevines as real, 0.0, costoAlevin);
    }
  }

  /**
   * The profit is revenue minus total cost exactly, and the revenue is the
   * sellable weight times the sale price, non-negative for non-negative inputs.
   */
  lemma GananciaEsIngresoMenosCosto(p: Perfil, cantidadAlevines: int, costoAlevin: real, precioVentaKilo: real)
    ensures var c := Calcular(p, cantidadAlevines, costoAlevin, precioVentaKilo);
      c.ganancia + c.costoTotalProduccion == c.ingresoEstimado &&
      c.ingresoEstimado == c.pesoTotalVendible * precioVentaKilo
    ensures PerfilValido(p) && cantidadAlevines >= 0 && precioVentaKilo >= 0.0 ==>
      Calcular(p, cantidadAlevines, costoAlevin, precioVentaKilo).ingresoEstimado >= 0.0
  {
    if PerfilValido(p) && cantidadAlevines >= 0 && precioVentaKilo >= 0.0 {
      var c := Calcular(p, cantidadAlevines, costoAlevin, precioVentaKilo);
      PecesVendiblesAcotados(p, cantidadAlevines, costoAlevin, precioVentaKilo);
      MulMonotone(precioVentaKilo, 0.0, c.pesoTotalVendible);
    }
  }

  /**
   * The profit is not clamped: for inputs the form accepts (1000 Tilapia fry at
   * S/ 10 each, sold at S/ 1 per kg) the cost exceeds the revenue and the
   * profit is negative.
   */
  lemma PerdidaPosible()
    ensures var c := Calcular(Parametros(Tilapia), 1000, 10.0, 1.0);
      c.costoTotalProduccion > c.ingresoEstimado && c.ganancia < 0.0
  {
  }

  /**
   * The monthly columns: month i's feed is the sellable fish times the curve's
   * amount for month i, and its cost is that feed times the feed price. For a
   * row of the table there are exactly as many entries as months.
   */
  lemma ColumnasMensuales(p: Perfil, cantidadAlevines: int, costoAlevin: real, precioVentaKilo: real)
    ensures var c := Calcular(p, cantidadAlevines, costoAlevin, precioVentaKilo);
      |c.consumoTotalMensual| == |p.consumoMensual| && |c.costoMensualAlimento| == |p.consumoMensual| &&
      forall i :: 0 <= i < |p.consumoMensual| ==>
        c.consumoTotalMensual[i] == c.pecesVendibles * p.consumoMensual[i] &&
        c.costoMensualAlimento[i] == c.consumoTotalMensual[i] * p.costoAlimentoPorKg
    ensures PerfilValido(p) ==> |Calcular(p, cantidadAlevines, costoAlevin, precioVentaKilo).consumoTotalMensual| == p.mesesProduccion
    ensures PerfilValido(p) && cantidadAlevines >= 0 ==>
      var c := Calcular(p, cantidadAlevines, costoAlevin, precioVentaKilo);
      forall i :: 0 <= i < |p.consumoMensual| ==>
        c.consumoTotalMensual[i] >= 0.0 && c.costoMensualAlimento[i] >= 0.0
  {
    if PerfilValido(p) && cantidadAlevines >= 0 {
      var c := Calcular(p, cantidadAlevines, costoAlevin, precioVentaKilo);
      PecesVendiblesAcotados(p, cantidadAlevines, costoAlevin, precioVentaKilo);
      forall i | 0 <= i < |p.consumoMensual|
        ensures c.consumoTotalMensual[i] >= 0.0 && c.costoMensualAlimento[i] >= 0.0
      {
        MulMonotone(c.pecesVendibles, 0.0, p.consumoMensual[i]);
        MulMonotone(p.costoAlimentoPorKg, 0.0, c.consumoTotalMensual[i]);
      }
    }
  }

  /**
   * Row i of the monthly table: month i + 1, the month's feed rounded and the
   * month's feed cost formatted (the two columns ColumnasMensuales describes).
   */
  lemma FilaDeTabla(p: Perfil, cantidadAlevines: int, costoAlevin: real, precioVentaKilo: real, i: int)
    requires PerfilValido(p) && 0 <= i < p.mesesProduccion
    ensures var c := Calcular(p, cantidadAlevines, costoAlevin, precioVentaKilo);
      var f := ProduccionCon(p, cantidadAlevines, costoAlevin, precioVentaKilo).tabla[i];
      f.mes == i + 1 &&
      f.consumoAlimento == RedondearCantidad(c.consumoTotalMensual[i]) &&
      f.costoMensualAlimento == FormatearNumero(c.costoMensualAlimento[i])
  {
  }

  /** The sum of a sequence of amounts. */
  function Suma(s: seq<real>): real
  {
    if s == [] then 0.0 else s[0] + Suma(s[1..])
  }

  /** Scaling every amount scales the sum. */
  lemma {:induction false} SumaEscalar(k: real, s: seq<real>)
    ensures Suma(Escalar(k, s)) == k * Suma(s)
  {
    if s != [] {
      assert forall i :: 0 <= i < |s| - 1 ==> Escalar(k, s)[1..][i] == Escalar(k, s[1..])[i];
      assert Escalar(k, s)[1..] == Escalar(k, s[1..]);
      SumaEscalar(k, s[1..]);
    }
  }

  /**
   * The monthly table totals: the months' feed adds up to the sellable fish
   * times the curve's total, and the months' cost to that times the feed price.
   */
  lemma TotalesMensuales(p: Perfil, cantidadAlevines: int, costoAlevin: real, precioVentaKilo: real)
    ensures var c := Calcular(p, cantidadAlevines, costoAlevin, precioVentaKilo);
      Suma(c.consumoTotalMensual) == c.pecesVendibles * Suma(p.consumoMensual) &&
      Suma(c.costoMensualAlimento) == p.costoAlimentoPorKg * Suma(c.consumoTotalMensual)
  {
    var c := Calcular(p, cantidadAlevines, costoAlevin, precioVentaKilo);
    SumaEscalar(c.pecesVendibles, p.consumoMensual);
    SumaEscalar(p.costoAlimentoPorKg, c.consumoTotalMensual);
  }

  /**
   * The monthly table and the aggregate feed figure disagree for every species
   * and every positive stocking: the curve's total per fish (4.2 kg for
   * Tilapia, 8 kg for Trucha) is not the weight x FCA the aggregate uses
   * (0.6396 kg and 0.84 kg).
   */
  lemma TablaNoSumaConsumoTotal(e: Especie, cantidadAlevines: int, costoAlevin: real, precioVentaKilo: real)
    requires cantidadAlevines > 0
    ensures var c := Calcular(Parametros(e), cantidadAlevines, costoAlevin, precioVentaKilo);
      Suma(c.consumoTotalMensual) > c.consumoTotal
  {
    var p := Parametros(e);
    var c := Calcular(p, cantidadAlevines, costoAlevin, precioVentaKilo);
    TotalesMensuales(p, cantidadAlevines, costoAlevin, precioVentaKilo);
    PecesVendiblesAcotados(p, cantidadAlevines, costoAlevin, precioVentaKilo);
    assert c.pecesVendibles > 0.0;
    match e
    case Tilapia =>
      assert Suma(p.consumoMensual) == 4.2;
    case Trucha =>
      assert Suma(p.consumoMensual) == 8.0;
  }

  /**
   * The figures for the default inputs of the form for Tilapia: 1000 fry at
   * S/ 0.5 each, sold at S/ 20 per kg.
   */
  lemma EscenarioTilapiaCifras()
    ensures var c := Calcular(Parametros(Tilapia), 1000, 0.5, 20.0);
      c.pecesVendibles == 927.0 && c.pesoTotalVendible == 482.04 && c.consumoTotal == 592.9092 &&
      c.costoTotalAlimento == 3735.32796 && c.costoTotalAlevines == 500.0 && c.otrosCostos == 423.532796 &&
      c.costoTotalProduccion == 4658.860756 && c.ingresoEstimado == 9640.8 && c.ganancia == 4981.939244
  {
  }

  /**
   * The rendered results for those inputs: 927 sellable fish, 482 kg, 593 kg
   * of feed costing S/ 3735, fry S/ 500, overhead S/ 424, total cost
   * S/ 4659, revenue S/ 9641 and profit S/ 4982, and six table rows.
   */
  lemma EscenarioTilapia()
    ensures var r := CalcularProduccionPeces("Tilapia", 1000, 0.5, 20.0);
      r.Some? && |r.value.tabla| == 6 &&
      r.value.resultados == Resultados(927, 482, 593,
        "S/ " + FormatearEntero(3735), "S/ " + FormatearEntero(500), "S/ " + FormatearEntero(424),
        "S/ " + FormatearEntero(4659), "S/ " + FormatearEntero(9641), "S/ " + FormatearEntero(4982))
    ensures var r := CalcularProduccionPeces("Tilapia", 1000, 0.5, 20.0);
      r.Some? && r.value.resultados.costoTotalAlimentacion == "S/ 3.735" &&
      r.value.resultados.ingresoEstimado == "S/ 9.641"
  {
    EscenarioTilapiaCifras();
    FormatearEnteroEscenario();
    RedondearCantidadUnica(927.0, 927);
    RedondearCantidadUnica(482.04, 482);
    RedondearCantidadUnica(592.9092, 593);
    RedondearCantidadUnica(3735.32796, 3735);
    RedondearCantidadUnica(500.0, 500);
    RedondearCantidadUnica(423.532796, 424);
    RedondearCantidadUnica(4658.860756, 4659);
    RedondearCantidadUnica(9640.8, 9641);
    RedondearCantidadUnica(4981.939244, 4982);
  }
}
