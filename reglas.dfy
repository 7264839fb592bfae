// The rules of one agent of the epidemic automaton, stated on values.
// Every transition of a `Persona` object (personas.dfy) is specified by
// one of the functions below; the lemmas state what those rules promise.

module Reglas {

  /// Configuration constants of the simulation (epidemia.py:9-16).
  const GRID_SIZE: int := 50
  const QUARANTINE_DURATION: real := 60.0
  const DISTANCIA_MINIMA: int := 10
  const TIEMPO_CUBREBOCAS: real := 60.0
  /// Number of agents created at start-up (epidemia.py:123).
  const POBLACION: nat := 20

  /// The four health states; the source tags them with the strings
  /// "sano", "infectado", "cuarentena" and "protegido".
  datatype Estado = Sano | Infectado | Cuarentena | Protegido

  /// The observable state of one agent: grid position, health state and
  /// the two countdown timers (in seconds).
  datatype Agente = Agente(x: int, y: int, estado: Estado,
                           tiempoCuarentena: real, tiempoCubrebocas: real)

  predicate EnRango(v: int) { 0 <= v < GRID_SIZE }

  predicate EnRejilla(a: Agente) { EnRango(a.x) && EnRango(a.y) }

  /// The timer invariant the source keeps. It is one-directional: a timer
  /// is never reset when its state ends, so a positive timer says nothing
  /// about the state.
  predicate Coherente(a: Agente)
  {
    (a.estado == Cuarentena ==> a.tiempoCuarentena > 0.0) &&
    (a.estado == Protegido ==> a.tiempoCubrebocas > 0.0)
  }

  /// Every agent reachable by the simulation is on the grid and coherent.
  predicate Bien(a: Agente) { EnRejilla(a) && Coherente(a) }

  /// A value `random.choice([-1, 1])` can produce.
  predicate Unitario(d: int) { d == -1 || d == 1 }

  /// `max(0, min(GRID_SIZE - 1, v))`: the nearest grid coordinate.
  function Acotar(v: int): (r: int)
    ensures EnRango(r)
    ensures EnRango(v) ==> r == v
    ensures v < 0 ==> r == 0
    ensures v >= GRID_SIZE ==> r == GRID_SIZE - 1
  {
    var m := if GRID_SIZE - 1 < v then GRID_SIZE - 1 else v;
    if 0 < m then m else 0
  }

  /// `Persona.mover`: a step of ±1 on each axis, clamped to the grid;
  /// an agent in quarantine stays where it is.
  function Movido(a: Agente, dx: int, dy: int): (r: Agente)
    requires Unitario(dx) && Unitario(dy)
    ensures r.estado == a.estado
    ensures r.tiempoCuarentena == a.tiempoCuarentena
    ensures r.tiempoCubrebocas == a.tiempoCubrebocas
    ensures a.estado == Cuarentena ==> r == a
    ensures a.estado != Cuarentena ==> EnRejilla(r)
    ensures EnRejilla(a) ==> EnRejilla(r)
    ensures EnRejilla(a) ==> -1 <= r.x - a.x <= 1 && -1 <= r.y - a.y <= 1
    // from the grid, a step that would leave it is blocked on that axis
    ensures EnRejilla(a) && a.estado != Cuarentena ==>
      r.x == (if EnRango(a.x + dx) then a.x + dx else a.x) &&
      r.y == (if EnRango(a.y + dy) then a.y + dy else a.y)
  {
    if a.estado != Cuarentena then a.(x := Acotar(a.x + dx), y := Acotar(a.y + dy))
    else a
  }

  /// `calcular_distancia` squared: the source compares the square root of
  /// this with DISTANCIA_MINIMA; see `RaizComparada`.
  function DistanciaCuadrada(a: Agente, b: Agente): (d: int)
    ensures d >= 0
    ensures d == 0 <==> a.x == b.x && a.y == b.y
  {
    var dx := a.x - b.x;
    var dy := a.y - b.y;
    Cuadrado(dx) + Cuadrado(dy)
  }

  /// Proximity does not depend on which agent is the source.
  lemma CercanasSimetrica(a: Agente, b: Agente)
    ensures DistanciaCuadrada(a, b) == DistanciaCuadrada(b, a)
    ensures Cercanas(a, b) <==> Cercanas(b, a)
  {
    assert (a.x - b.x) * (a.x - b.x) == (b.x - a.x) * (b.x - a.x);
    assert (a.y - b.y) * (a.y - b.y) == (b.y - a.y) * (b.y - a.y);
  }

  function Cuadrado(v: int): (s: int)
    ensures s >= 0
    ensures s == 0 <==> v == 0
  {
    if v == 0 then 0
    else
      assert v * v == (if v < 0 then -v else v) * (if v < 0 then -v else v);
      v * v
  }

  /// The proximity test `distancia <= DISTANCIA_MINIMA` on integers.
  predicate Cercanas(a: Agente, b: Agente)
  {
    DistanciaCuadrada(a, b) <= DISTANCIA_MINIMA * DISTANCIA_MINIMA
  }

  /// Comparing the real square root of the squared distance with the
  /// threshold is the same as comparing the squared distance with its square.
  lemma RaizComparada(a: Agente, b: Agente, raiz: real)
    requires raiz >= 0.0 && raiz * raiz == DistanciaCuadrada(a, b) as real
    ensures raiz <= DISTANCIA_MINIMA as real <==> Cercanas(a, b)
  {
    var m := DISTANCIA_MINIMA as real;
    if raiz <= m {
      assert raiz * raiz <= m * raiz <= m * m;
    } else {
      assert raiz * raiz > m * raiz > m * m;
    }
  }

  /// `Persona.infectar`: `fuente` infects `objetivo` when they are close,
  /// `objetivo` is healthy and the draw `random.random() < 0.5` succeeded
  /// (`exito`). Only the target's health state can change, and only from
  /// healthy to infected. `fuente`'s own state is not consulted.
  function Contagiado(fuente: Agente, objetivo: Agente, exito: bool): (r: Agente)
    ensures r == objetivo.(estado := r.estado)
    ensures r.estado == objetivo.estado || r.estado == Infectado
    ensures r.estado != objetivo.estado <==>
      objetivo.estado == Sano && Cercanas(fuente, objetivo) && exito
    // an infected, quarantined or protected target is never touched; in
    // particular an infected agent checked against itself
    ensures objetivo.estado != Sano ==> r == objetivo
  {
    if Cercanas(fuente, objetivo) && objetivo.estado == Sano && exito
    then objetivo.(estado := Infectado)
    else objetivo
  }

  /// `Persona.poner_cubrebocas`: a healthy agent whose mask timer has run
  /// out gets a mask for TIEMPO_CUBREBOCAS seconds; anyone else is left as is.
  function ConCubrebocas(a: Agente): (r: Agente)
    ensures r.x == a.x && r.y == a.y && r.tiempoCuarentena == a.tiempoCuarentena
    ensures r != a <==> a.estado == Sano && a.tiempoCubrebocas <= 0.0
    ensures r != a ==> r.estado == Protegido && r.tiempoCubrebocas == TIEMPO_CUBREBOCAS
    ensures Coherente(a) ==> Coherente(r)
  {
    if a.estado == Sano && a.tiempoCubrebocas <= 0.0
    then a.(estado := Protegido, tiempoCubrebocas := TIEMPO_CUBREBOCAS)
    else a
  }

  /// `Persona.poner_en_cuarentena`: only an infected agent is quarantined,
  /// for QUARANTINE_DURATION seconds.
  function EnCuarentena(a: Agente): (r: Agente)
    ensures r.x == a.x && r.y == a.y && r.tiempoCubrebocas == a.tiempoCubrebocas
    ensures r != a <==> a.estado == Infectado
    ensures r != a ==> r.estado == Cuarentena && r.tiempoCuarentena == QUARANTINE_DURATION
    ensures r.estado != Infectado
    ensures Coherente(a) ==> Coherente(r)
  {
    if a.estado == Infectado
    then a.(estado := Cuarentena, tiempoCuarentena := QUARANTINE_DURATION)
    else a
  }

  /// `Persona.actualizar_tiempo_cubrebocas`: a protected agent's mask
  /// timer loses `dt`; once it is at or below zero the agent is healthy
  /// again (the timer keeps its non-positive value).
  function CubrebocasGastado(a: Agente, dt: real): (r: Agente)
    ensures r.x == a.x && r.y == a.y && r.tiempoCuarentena == a.tiempoCuarentena
    ensures a.estado != Protegido ==> r == a
    ensures a.estado == Protegido ==> r.tiempoCubrebocas == a.tiempoCubrebocas - dt
    ensures a.estado == Protegido ==>
      (r.estado == Sano <==> a.tiempoCubrebocas - dt <= 0.0) &&
      (r.estado == Protegido <==> a.tiempoCubrebocas - dt > 0.0)
    // whatever the input, a protected result has time left
    ensures r.estado == Protegido ==> r.tiempoCubrebocas > 0.0
    ensures Coherente(a) ==> Coherente(r)
  {
    if a.estado == Protegido then
      var t := a.tiempoCubrebocas - dt;
      a.(tiempoCubrebocas := t, estado := if t <= 0.0 then Sano else Protegido)
    else a
  }

  /// The quarantine countdown of `update_simulation` (epidemia.py:72-75),
  /// the same rule on the other timer.
  function CuarentenaGastada(a: Agente, dt: real): (r: Agente)
    ensures r.x == a.x && r.y == a.y && r.tiempoCubrebocas == a.tiempoCubrebocas
    ensures a.estado != Cuarentena ==> r == a
    ensures a.estado == Cuarentena ==> r.tiempoCuarentena == a.tiempoCuarentena - dt
    ensures a.estado == Cuarentena ==>
      (r.estado == Sano <==> a.tiempoCuarentena - dt <= 0.0) &&
      (r.estado == Cuarentena <==> a.tiempoCuarentena - dt > 0.0)
    ensures r.estado == Cuarentena ==> r.tiempoCuarentena > 0.0
    ensures Coherente(a) ==> Coherente(r)
  {
    if a.estado == Cuarentena then
      var t := a.tiempoCuarentena - dt;
      a.(tiempoCuarentena := t, estado := if t <= 0.0 then Sano else Cuarentena)
    else a
  }

  /// Swaps the roles of the two timers and of their two states.
  function Espejo(a: Agente): Agente
  {
    var e := match a.estado
      case Cuarentena => Protegido
      case Protegido => Cuarentena
      case other => other;
    Agente(a.x, a.y, e, a.tiempoCubrebocas, a.tiempoCuarentena)
  }

  /// The mask countdown and the quarantine countdown are one rule: each is
  /// the other seen through `Espejo`.
  lemma MismaCuentaAtras(a: Agente, dt: real)
    ensures CuarentenaGastada(a, dt) == Espejo(CubrebocasGastado(Espejo(a), dt))
    ensures CubrebocasGastado(a, dt) == Espejo(CuarentenaGastada(Espejo(a), dt))
  {
  }

  /// Masking twice is masking once.
  lemma ConCubrebocasIdempotente(a: Agente)
    ensures ConCubrebocas(ConCubrebocas(a)) == ConCubrebocas(a)
  {
  }

  /// Quarantining twice is quarantining once.
  lemma EnCuarentenaIdempotente(a: Agente)
    ensures EnCuarentena(EnCuarentena(a)) == EnCuarentena(a)
  {
  }

  /// Every single-agent transition keeps an agent that is on the grid and
  /// coherent in that condition.
  lemma TransicionesConservanBien(a: Agente, b: Agente, dx: int, dy: int, dt: real, exito: bool)
    requires Bien(a) && Unitario(dx) && Unitario(dy)
    ensures Bien(Movido(a, dx, dy))
    ensures Bien(Contagiado(b, a, exito))
    ensures Bien(ConCubrebocas(a))
    ensures Bien(EnCuarentena(a))
    ensures Bien(CubrebocasGastado(a, dt))
    ensures Bien(CuarentenaGastada(a, dt))
    ensures Bien(a.(estado := Infectado))
  {
  }
}
