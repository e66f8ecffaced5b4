/**
 * Synthetic CanSat telemetry: the sample generator of the flight dashboard
 * window and the three sliding-window buffers it keeps.
 *
 * Each call derives the next tick from the time buffer, computes an
 * altitude from a two-piece linear flight profile (climb for 40 ticks,
 * descend at a fixed rate, clamp at the launch altitude), derives a
 * temperature from the altitude, appends the triple to the three buffers
 * and evicts the oldest entry once more than 100 are held.
 *
 * Altitudes and temperatures are exact reals: the floating-point rounding
 * of the original arithmetic is not modelled.
 */
module Telemetria {

  /** Launch altitude in metres (the window's `altitud_inicial`). */
  const AltitudInicial: real := 653.0
  /** Launch temperature in degrees Celsius (the window's `temperatura_inicial`). */
  const TemperaturaInicial: real := 22.0
  /** Altitude reached at the end of the climb, written as a literal in the profile. */
  const AltitudCumbre: real := 1653.0
  /** Descent rate per tick, kept exactly as the source writes it: a literal
      1000 over the 20-tick descent, not derived from the two altitudes. */
  const TasaDescenso: real := 1000.0 / (60.0 - 40.0)
  /** Most samples a buffer keeps on screen. */
  const MaxMuestras: nat := 100

  /** Lowest temperature the profile can produce (at the summit). */
  const TemperaturaMinima: real := -28.0

  function Min(a: int, b: int): int
  {
    if a <= b then a else b
  }

  // ---------------------------------------------------------------------
  // Flight profile
  // ---------------------------------------------------------------------

  /** Altitude at tick `t`: linear climb up to tick 40, then a descent of
      `TasaDescenso` per tick, never below the launch altitude. */
  function Altitud(t: int): (a: real)
    ensures t == 0 ==> a == AltitudInicial
    ensures t == 40 ==> a == AltitudCumbre
    ensures t >= 60 ==> a == AltitudInicial
    ensures t >= 0 ==> AltitudInicial <= a <= AltitudCumbre
  {
    if t <= 40 then
      AltitudInicial + ((t as real) / 40.0) * (AltitudCumbre - AltitudInicial)
    else
      var tiempoDescenso := t - 40;
      var a := AltitudCumbre - TasaDescenso * (tiempoDescenso as real);
      if a < AltitudInicial then AltitudInicial else a
  }

  /** Temperature at a given altitude: 5 degrees colder per 100 m above the
      launch altitude. */
  function Temperatura(altitud: real): (c: real)
    ensures altitud == AltitudInicial ==> c == TemperaturaInicial
    ensures AltitudInicial <= altitud <= AltitudCumbre ==> TemperaturaMinima <= c <= TemperaturaInicial
  {
    TemperaturaInicial - ((altitud - AltitudInicial) / 100.0) * 5.0
  }

  /** Reference profile built only from the configured parameters: the climb
      and the descent both cover the gap between launch and summit, over 40
      and 20 ticks respectively, and the descent is clamped to the launch
      altitude. */
  function AltitudPerfil(t: nat): real
  {
    var salto := AltitudCumbre - AltitudInicial;
    if t <= 40 then AltitudInicial + salto * (t as real) / 40.0
    else if t <= 60 then AltitudCumbre - salto * ((t - 40) as real) / 20.0
    else AltitudInicial
  }

  /** The altitude a given temperature stands for: the inverse of `Temperatura`. */
  function AltitudDeTemperatura(c: real): real
  {
    AltitudInicial + (TemperaturaInicial - c) * 20.0
  }

  /** The hard-coded descent rate agrees with the rate derived from the
      configured altitudes, so the profile is the reference profile at every
      non-negative tick. */
  lemma AltitudSigueElPerfil(t: nat)
    ensures Altitud(t) == AltitudPerfil(t)
  {
    if t > 60 {
      assert AltitudCumbre - TasaDescenso * ((t - 40) as real) < AltitudInicial;
    }
  }

  /** The climb never loses height. */
  lemma AltitudAscensoCreciente(t1: int, t2: int)
    requires 0 <= t1 <= t2 <= 40
    ensures Altitud(t1) <= Altitud(t2)
  {
  }

  /** After the climb the altitude never rises again. */
  lemma AltitudDescensoDecreciente(t1: int, t2: int)
    requires 40 <= t1 <= t2
    ensures Altitud(t2) <= Altitud(t1)
  {
  }

  /** Temperature falls as altitude rises. */
  lemma TemperaturaDecreciente(a1: real, a2: real)
    requires a1 <= a2
    ensures Temperatura(a2) <= Temperatura(a1)
  {
  }

  /** `Temperatura` and `AltitudDeTemperatura` are inverse to each other. */
  lemma TemperaturaInversa(a: real, c: real)
    ensures AltitudDeTemperatura(Temperatura(a)) == a
    ensures Temperatura(AltitudDeTemperatura(c)) == c
  {
  }

  /** The launch temperature is read exactly at the launch altitude, and only there. */
  lemma TemperaturaInicialSiiAltitudInicial(a: real)
    ensures Temperatura(a) == TemperaturaInicial <==> a == AltitudInicial
  {
  }

  // ---------------------------------------------------------------------
  // Sample buffers
  // ---------------------------------------------------------------------

  /** One generated sample. */
  datatype Muestra = Muestra(tiempo: int, altitud: real, temperatura: real)

  /** The three parallel buffers, oldest sample first. */
  datatype Historial = Historial(tiempo: seq<int>, altitud: seq<real>, temperatura: seq<real>)
  {
    predicate Alineado()
    {
      |tiempo| == |altitud| == |temperatura|
    }

    function Longitud(): nat
    {
      |tiempo|
    }

    function En(i: nat): Muestra
      requires Alineado() && i < Longitud()
    {
      Muestra(tiempo[i], altitud[i], temperatura[i])
    }
  }

  const Vacio: Historial := Historial([], [], [])

  /** Next tick, read off the time buffer: the clock starts at 0, extends a
      run of consecutive ticks by one, and never goes negative. */
  function NuevoTiempo(tiempo: seq<int>): (t: int)
    ensures tiempo == [] ==> t == 0
    ensures tiempo != [] && (forall i :: 0 <= i < |tiempo| ==> tiempo[i] == tiempo[0] + i) ==>
      t == tiempo[0] + |tiempo|
    ensures (forall i :: 0 <= i < |tiempo| ==> tiempo[i] >= 0) ==> t >= 0
  {
    if |tiempo| == 0 then 0 else tiempo[|tiempo| - 1] + 1
  }

  /** The sample a call generates on the given time buffer. */
  function MuestraNueva(tiempo: seq<int>): Muestra
  {
    var t := NuevoTiempo(tiempo);
    var a := Altitud(t);
    Muestra(t, a, Temperatura(a))
  }

  /** How many samples a call evicts from the front: one once the buffer
      already holds the maximum. */
  function Desalojo(h: Historial): nat
  {
    if h.Longitud() < MaxMuestras then 0 else 1
  }

  /** One call of the generator on the buffers, as a value: append the new
      sample, then drop the oldest one if the time buffer grew past the
      maximum. */
  function Generar(h: Historial): (r: Historial)
    ensures h.Alineado() ==> r.Alineado()
    ensures h.Alineado() ==> r.Longitud() == h.Longitud() + 1 - Desalojo(h)
    ensures h.Alineado() ==> r.En(r.Longitud() - 1) == MuestraNueva(h.tiempo)
    ensures h.Alineado() ==>
      forall i :: 0 <= i < r.Longitud() - 1 ==> r.En(i) == h.En(i + Desalojo(h))
  {
    var m := MuestraNueva(h.tiempo);
    var tiempo := h.tiempo + [m.tiempo];
    var altitud := h.altitud + [m.altitud];
    var temperatura := h.temperatura + [m.temperatura];
    if |tiempo| > MaxMuestras then
      Historial(tiempo[1..], altitud[1..], temperatura[1..])
    else
      Historial(tiempo, altitud, temperatura)
  }

  /** The buffers after `n` calls, starting from empty buffers. */
  function TrasLlamadas(n: nat): (h: Historial)
    ensures h.Alineado()
    ensures h.Longitud() <= MaxMuestras
  {
    if n == 0 then Vacio else Generar(TrasLlamadas(n - 1))
  }

  /** `h` is exactly what the buffers hold after `n` calls: the last
      min(n, 100) ticks, consecutive and ending at n - 1, each with the
      altitude and temperature the profile gives it. */
  ghost predicate Ventana(h: Historial, n: nat)
  {
    && h.Alineado()
    && h.Longitud() == Min(n, MaxMuestras)
    && (forall i :: 0 <= i < h.Longitud() ==> h.tiempo[i] == n - h.Longitud() + i)
    && (forall i :: 0 <= i < h.Longitud() ==> h.altitud[i] == Altitud(h.tiempo[i]))
    && (forall i :: 0 <= i < h.Longitud() ==> h.temperatura[i] == Temperatura(h.altitud[i]))
  }

  /** The next tick after `n` calls is `n`. */
  lemma NuevoTiempoEsLlamadas(h: Historial, n: nat)
    requires Ventana(h, n)
    ensures NuevoTiempo(h.tiempo) == n
  {
    if h.tiempo != [] {
      assert h.tiempo[h.Longitud() - 1] == n - 1;
    }
  }

  /** One more call turns the window after `n` calls into the window after
      `n + 1` calls. */
  lemma GenerarAvanzaVentana(h: Historial, n: nat)
    requires Ventana(h, n)
    ensures Ventana(Generar(h), n + 1)
  {
    NuevoTiempoEsLlamadas(h, n);
    var r := Generar(h);
    var d := Desalojo(h);
    forall i | 0 <= i < r.Longitud()
      ensures r.tiempo[i] == n + 1 - r.Longitud() + i
      ensures r.altitud[i] == Altitud(r.tiempo[i])
      ensures r.temperatura[i] == Temperatura(r.altitud[i])
    {
      if i < r.Longitud() - 1 {
        assert r.En(i) == h.En(i + d);
      } else {
        assert r.En(i) == MuestraNueva(h.tiempo);
      }
    }
  }

  /** The buffers after `n` calls form the window after `n` calls. */
  lemma {:induction false} TrasLlamadasEsVentana(n: nat)
    ensures Ventana(TrasLlamadas(n), n)
  {
    if n > 0 {
      TrasLlamadasEsVentana(n - 1);
      GenerarAvanzaVentana(TrasLlamadas(n - 1), n - 1);
    }
  }

  /** The window after `n` calls has one value only. */
  lemma VentanaUnica(h: Historial, n: nat)
    requires Ventana(h, n)
    ensures h == TrasLlamadas(n)
  {
    var g := TrasLlamadas(n);
    TrasLlamadasEsVentana(n);
    assert h.tiempo == g.tiempo;
    assert h.altitud == g.altitud;
    assert h.temperatura == g.temperatura;
  }

  /** What every window guarantees: never more than 100 samples, ticks
      non-negative and ending at n - 1, altitudes within launch and summit,
      temperatures within the profile's range. */
  lemma VentanaAcotada(h: Historial, n: nat)
    requires Ventana(h, n)
    ensures h.Longitud() <= MaxMuestras
    ensures n > 0 ==> h.Longitud() > 0 && h.tiempo[h.Longitud() - 1] == n - 1
    ensures forall i :: 0 <= i < h.Longitud() ==> h.tiempo[i] >= 0
    ensures forall i :: 0 <= i < h.Longitud() ==> AltitudInicial <= h.altitud[i] <= AltitudCumbre
    ensures forall i :: 0 <= i < h.Longitud() ==>
      TemperaturaMinima <= h.temperatura[i] <= TemperaturaInicial
  {
    forall i | 0 <= i < h.Longitud()
      ensures h.tiempo[i] >= 0
      ensures AltitudInicial <= h.altitud[i] <= AltitudCumbre
      ensures TemperaturaMinima <= h.temperatura[i] <= TemperaturaInicial
    {
      assert h.tiempo[i] == n - h.Longitud() + i;
    }
  }

  /** Until the buffers start evicting, `n` calls give the ticks 0 .. n - 1. */
  lemma PrimerasLlamadas(n: nat)
    requires n <= MaxMuestras
    ensures TrasLlamadas(n).tiempo == seq(n, i => i)
    ensures forall i :: 0 <= i < n ==> TrasLlamadas(n).altitud[i] == Altitud(i)
  {
    TrasLlamadasEsVentana(n);
  }

  /** The recorded flight while nothing is evicted: launch altitude at tick 0,
      summit at tick 40, back at launch altitude from tick 60 on. */
  lemma PerfilDeVuelo(n: nat)
    requires n <= MaxMuestras
    ensures |TrasLlamadas(n).altitud| == n
    ensures n > 0 ==> TrasLlamadas(n).altitud[0] == AltitudInicial
    ensures n > 40 ==> TrasLlamadas(n).altitud[40] == AltitudCumbre
    ensures forall i :: 60 <= i < n ==> TrasLlamadas(n).altitud[i] == AltitudInicial
  {
    PrimerasLlamadas(n);
  }

  /** While nothing is evicted, the recorded altitudes climb up to index 40
      and descend after it. */
  lemma PerfilDeVueloMonotono(n: nat)
    requires n <= MaxMuestras
    ensures |TrasLlamadas(n).altitud| == n
    ensures forall i, j :: 0 <= i <= j <= 40 && j < n ==>
      TrasLlamadas(n).altitud[i] <= TrasLlamadas(n).altitud[j]
    ensures forall i, j :: 40 <= i <= j < n ==>
      TrasLlamadas(n).altitud[j] <= TrasLlamadas(n).altitud[i]
  {
    PrimerasLlamadas(n);
    var h := TrasLlamadas(n);
    forall i, j | 0 <= i <= j <= 40 && j < n
      ensures h.altitud[i] <= h.altitud[j]
    {
      AltitudAscensoCreciente(i, j);
    }
    forall i, j | 40 <= i <= j < n
      ensures h.altitud[j] <= h.altitud[i]
    {
      AltitudDescensoDecreciente(i, j);
    }
  }

  /** Sixty-one calls record one whole flight: ticks 0 .. 60, summit at index
      40, landed at index 60. */
  lemma VueloCompleto()
    ensures TrasLlamadas(61).tiempo == seq(61, i => i)
    ensures TrasLlamadas(61).altitud[40] == AltitudCumbre
    ensures TrasLlamadas(61).altitud[60] == AltitudInicial
    ensures TrasLlamadas(61).temperatura[60] == TemperaturaInicial
  {
    PrimerasLlamadas(61);
    TrasLlamadasEsVentana(61);
  }

  /** Once the buffers are full, a call evicts the oldest sample: the new
      first sample is the old second one. */
  lemma DesalojoFifo(h: Historial, n: nat)
    requires Ventana(h, n) && n >= MaxMuestras
    ensures Generar(h).Longitud() == MaxMuestras
    ensures Generar(h).En(0) == h.En(1)
  {
  }

  // ---------------------------------------------------------------------
  // The dashboard window's telemetry state
  // ---------------------------------------------------------------------

  /** The telemetry part of the dashboard window: three buffers updated in
      place by `GenerarDatos`, once per animation frame. */
  class MapaVentana {
    var tiempo: seq<int>
    var altitud: seq<real>
    var temperatura: seq<real>
    /** Number of calls of `GenerarDatos` so far. */
    ghost var llamadas: nat

    function Actual(): Historial
      reads this
    {
      Historial(tiempo, altitud, temperatura)
    }

    ghost predicate Valid()
      reads this
    {
      Ventana(Actual(), llamadas)
    }

    /** The buffers start empty. */
    constructor ()
      ensures Valid() && llamadas == 0
      ensures tiempo == [] && altitud == [] && temperatura == []
    {
      altitud := [];
      temperatura := [];
      tiempo := [];
      llamadas := 0;
    }

    /** Generates the next sample and records it in the three buffers. */
    method GenerarDatos()
      requires Valid()
      modifies this
      ensures Valid() && llamadas == old(llamadas) + 1
      ensures Actual() == Generar(old(Actual()))
      ensures Actual() == TrasLlamadas(llamadas)
      ensures tiempo[|tiempo| - 1] == old(llamadas)
    {
      ghost var antes := Actual();
      var nuevoTiempo: int;
      if |tiempo| == 0 {
        nuevoTiempo := 0;
      } else {
        nuevoTiempo := tiempo[|tiempo| - 1] + 1;
      }

      var nuevaAltitud := Altitud(nuevoTiempo);
      var nuevaTemperatura := Temperatura(nuevaAltitud);

      tiempo := tiempo + [nuevoTiempo];
      altitud := altitud + [nuevaAltitud];
      temperatura := temperatura + [nuevaTemperatura];

      if |tiempo| > MaxMuestras {
        tiempo := tiempo[1..];
        altitud := altitud[1..];
        temperatura := temperatura[1..];
      }

      GenerarAvanzaVentana(antes, llamadas);
      llamadas := llamadas + 1;
      VentanaUnica(Actual(), llamadas);
    }
  }
}
