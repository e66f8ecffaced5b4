# CanSat telemetry generator — a verified model

This project models the telemetry core of the CanSat flight dashboard. The
dashboard window (`MapaVentana`) produces one synthetic sample per animation
frame through `generar_datos`:

- **Clock.** The next tick is 0 when the time buffer is empty. Otherwise it is
  the last tick plus 1.
- **Altitude.** Up to tick 40 the altitude climbs linearly from the launch
  altitude (653 m) to 1653 m. After that it falls by the hard-coded
  `1000 / (60 - 40)` = 50 m per tick and is clamped at 653 m.
- **Temperature.** It is derived from the altitude: 22 °C at the launch
  altitude, and 5 °C colder for every 100 m above it.
- **Buffers.** The new (time, altitude, temperature) triple is appended to the
  three parallel lists `tiempo`, `altitud` and `temperatura`. When the time
  list exceeds 100 entries, the front of all three lists is evicted.

Everything is in `telemetria.dfy`, in the module `Telemetria`:

- `Altitud` and `Temperatura` are the pure profile formulas.
- `Generar` is one call of the generator on the buffers, as a value.
- `TrasLlamadas(n)` is the buffer contents after `n` calls from empty buffers.
- `Ventana(h, n)` characterises those contents exactly: the last min(n, 100)
  ticks, consecutive and ending at n − 1, each carrying the altitude and
  temperature of the profile.
- The class `MapaVentana` holds the three lists as `seq` fields. Its method
  `GenerarDatos` reassigns the object's three sequence fields. This is
  equivalent to the source's in-place `append` and `pop(0)`, because nothing
  else holds references to the lists. A ghost call counter ties the fields to
  `TrasLlamadas`.

Altitudes and temperatures are exact `real`s. Ticks are unbounded integers, as
in Python.

The launch altitude and launch temperature are instance attributes that the
source assigns once in the constructor and never changes. The model declares
them as module constants (`AltitudInicial`, `TemperaturaInicial`) so that the
pure profile functions can use them.

The descent rate is kept as the source's literal, not derived from the two
altitudes. The lemma `AltitudSigueElPerfil` proves that, with these constants,
it agrees with a reference profile built only from the configured parameters.
This means the ascent and descent rates are consistent today. They would
decouple only if the launch or summit altitude were changed.

## Model

| member | source | states |
|---|---|---|
| `Telemetria.Altitud` | main.py:73-80 | altitude is 653 at tick 0, 1653 at tick 40, exactly 653 at every tick from 60 on, and within [653, 1653] at every non-negative tick |
| `Telemetria.Temperatura` | main.py:82-83 | temperature is exactly 22 at the launch altitude and lies in [−28, 22] for every altitude in [653, 1653] |
| `Telemetria.AltitudSigueElPerfil` | main.py:74-80 | at every non-negative tick the altitude equals a reference profile built only from the parameters: climb of (1653 − 653) over 40 ticks, descent of the same gap over 20 ticks, then 653; the literal descent rate therefore matches the derived one |
| `Telemetria.AltitudAscensoCreciente` | main.py:74-75 | altitude is non-decreasing on ticks 0..40 |
| `Telemetria.AltitudDescensoDecreciente` | main.py:76-80 | altitude is non-increasing from tick 40 on, including the clamped part |
| `Telemetria.TemperaturaDecreciente` | main.py:83 | temperature is non-increasing in altitude |
| `Telemetria.TemperaturaInversa` | main.py:83 | temperature and `AltitudDeTemperatura` are inverse to each other in both directions, so the temperature determines the altitude |
| `Telemetria.TemperaturaInicialSiiAltitudInicial` | main.py:83 | temperature is 22 if and only if the altitude is 653 |
| `Telemetria.NuevoTiempo` | main.py:68-71 | the clock starts at 0 on an empty time buffer; on a run of consecutive ticks the new tick extends the run by one (first tick plus the run's length); on non-negative ticks it is non-negative |
| `Telemetria.Generar` | main.py:67-94 | one call keeps the three buffers the same length; the length grows by one until it reaches 100 and then stays put; the last sample is the new (tick, altitude, temperature); every earlier sample is the old one at the same position, shifted by one when the head was evicted |
| `Telemetria.TrasLlamadas` | main.py:67-94 | after any number of calls from empty buffers, the three buffers are aligned and hold at most 100 samples |
| `Telemetria.NuevoTiempoEsLlamadas` | main.py:68-71 | after n calls the next tick is exactly n |
| `Telemetria.GenerarAvanzaVentana` | main.py:67-94 | one call turns the window after n calls into the window after n + 1 calls (aligned, min(n + 1, 100) long, consecutive ticks ending at n, profile values) |
| `Telemetria.TrasLlamadasEsVentana` | main.py:67-94 | the buffers after n calls are the last min(n, 100) ticks n − min(n, 100) .. n − 1, in order, each with its profile altitude and temperature, even after eviction starts |
| `Telemetria.VentanaUnica` | main.py:86-94 | that description determines the buffers completely: anything satisfying it equals the buffers after n calls |
| `Telemetria.VentanaAcotada` | main.py:74-94 | a window holds at most 100 samples, its ticks are non-negative and end at n − 1, its altitudes lie in [653, 1653] and its temperatures in [−28, 22] |
| `Telemetria.PrimerasLlamadas` | main.py:68-71 | while nothing is evicted (n ≤ 100), n calls give exactly the ticks 0, 1, …, n − 1, with altitude `Altitud(i)` at index i |
| `Telemetria.PerfilDeVuelo` | main.py:74-80 | in the first 100 samples: 653 at index 0, 1653 at index 40, 653 at every index from 60 on |
| `Telemetria.PerfilDeVueloMonotono` | main.py:74-80 | in the first 100 samples the recorded altitudes rise up to index 40 and fall after it |
| `Telemetria.VueloCompleto` | main.py:67-83 | 61 calls record ticks 0..60 with the summit at index 40, and altitude 653 and temperature 22 at index 60 |
| `Telemetria.DesalojoFifo` | main.py:90-94 | once the buffers are full, a call keeps 100 samples, and the new first sample is the old second one |
| `Telemetria.MapaVentana.constructor` | main.py:35-37 | the three buffers start empty, which is the window after 0 calls |
| `Telemetria.MapaVentana.GenerarDatos` | main.py:67-94 | reassigns the three list fields so that the new state is `Generar` of the old one and equals the buffers after one more call; it keeps the window invariant, and the last tick is the previous number of calls |

## Left out

- Window, layout, icon, full-screen mode and web view setup in `__init__` (main.py:12-33, 39-45, 58): these are GUI toolkit calls only.
- The 5-second `QTimer` and the 1-second `FuncAnimation` (main.py:51-53, 61): event-loop scheduling with no logic of its own. Each animation frame calls `generar_datos` exactly once (main.py:112); in the model that is one call of `GenerarDatos`.
- `configurar_graficos` and the drawing in `actualizar_graficos` (main.py:96-132): plotting calls only. The arrow is drawn only when a buffer holds at least two samples. This affects drawing only, not the buffers.
- `generar_coordenadas` (main.py:141-144): a uniform random draw from a library. It has no checkable logic beyond its bounds.
- `recargar_mapa` and the map URL strings (main.py:57, 134-139): float-to-text formatting and a load in an external browser view.
- The launcher under `__main__` (main.py:146-150).
- Floating-point rounding: the source computes altitude and temperature in IEEE-754 doubles (for example `(t / 40) * 1000`). The model uses exact reals, so last-bit differences are not captured.
- Ticks are unbounded integers, as Python integers are. No width limit applies.
