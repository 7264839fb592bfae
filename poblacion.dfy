// The population of epidemia.py as a sequence of agent values: the tick
// update `update_simulation` (epidemia.py:67-76), the bulk commands and the
// running step of `main`, each as a function on values, with the
// properties they promise. The methods of simulacion.dfy, which update the
// `Persona` objects in place, are proved against these functions.

module Poblacion {
  import opened Reglas

  /// Every agent of the population is on the grid and coherent.
  predicate Valida(ps: seq<Agente>)
  {
    forall k :: 0 <= k < |ps| ==> Bien(ps[k])
  }

  predicate TodosSanos(ps: seq<Agente>)
  {
    forall k :: 0 <= k < |ps| ==> ps[k].estado == Sano
  }

  /// `b` is `a` after infection checks only: unchanged, or a healthy agent
  /// that became infected.
  predicate SoloContagio(a: Agente, b: Agente)
  {
    b == a || (a.estado == Sano && b == a.(estado := Infectado))
  }

  /// The state changes one pass can make to one agent: healthy to
  /// infected, and out of quarantine or protection (to healthy, and then
  /// possibly infected by a later agent of the same pass).
  predicate CambioPermitido(a: Agente, b: Agente)
  {
    b.estado == a.estado ||
    (a.estado == Sano && b.estado == Infectado) ||
    ((a.estado == Cuarentena || a.estado == Protegido) &&
     (b.estado == Sano || b.estado == Infectado))
  }

  // ---------------------------------------------------------------------
  // update_simulation

  /// The inner loop of `update_simulation` (epidemia.py:70-71): agent `i`
  /// checks the targets `0 .. j-1` in list order, re-reading its own state
  /// at every check. `exito(i, k)` is the draw used when agent `i` checks
  /// agent `k`.
  function Barrido(ps: seq<Agente>, i: nat, j: nat, exito: (int, int) -> bool): (r: seq<Agente>)
    requires i < |ps| && j <= |ps|
    ensures |r| == |ps|
    ensures forall k :: 0 <= k < |ps| ==> SoloContagio(ps[k], r[k])
    ensures forall k :: j <= k < |ps| ==> r[k] == ps[k]
    // a scanner that cannot infect itself checks each target once, with
    // its own state as it was when the scan began
    ensures ps[i].estado != Sano ==>
      forall k {:trigger Contagiado(ps[i], ps[k], exito(i, k))} ::
        0 <= k < j ==> r[k] == Contagiado(ps[i], ps[k], exito(i, k))
    decreases j
  {
    if j == 0 then ps
    else
      var q := Barrido(ps, i, j - 1, exito);
      q[j - 1 := Contagiado(q[i], q[j - 1], exito(i, j - 1))]
  }

  /// One step of a scan: agent `i` checks agent `j`.
  lemma BarridoUnPaso(ps: seq<Agente>, i: nat, j: nat, exito: (int, int) -> bool)
    requires i < |ps| && j < |ps|
    ensures var q := Barrido(ps, i, j, exito);
      Barrido(ps, i, j + 1, exito) == q[j := Contagiado(q[i], q[j], exito(i, j))]
  {
  }

  /// The turn of agent `i` in `update_simulation` (epidemia.py:69-76): if
  /// it is infected it checks every agent, itself included; then its
  /// quarantine countdown; then its mask countdown.
  function Turno(ps: seq<Agente>, i: nat, dt: real, exito: (int, int) -> bool): (r: seq<Agente>)
    requires i < |ps|
    ensures |r| == |ps|
    ensures forall k :: 0 <= k < |ps| && k != i ==> SoloContagio(ps[k], r[k])
    ensures r[i].x == ps[i].x && r[i].y == ps[i].y
    ensures r[i].estado == Infectado <==> ps[i].estado == Infectado
    ensures ps[i].estado == Infectado ==> r[i] == ps[i]
    ensures CambioPermitido(ps[i], r[i])
    ensures Coherente(r[i])
    // only an infected agent's turn touches other agents, and it applies
    // one infection check to each of them
    ensures ps[i].estado != Infectado ==>
      forall k :: 0 <= k < |ps| && k != i ==> r[k] == ps[k]
    ensures ps[i].estado == Infectado ==>
      forall k {:trigger Contagiado(ps[i], ps[k], exito(i, k))} ::
        0 <= k < |ps| && k != i ==> r[k] == Contagiado(ps[i], ps[k], exito(i, k))
  {
    var p1 := if ps[i].estado == Infectado then Barrido(ps, i, |ps|, exito) else ps;
    var p2 := p1[i := CuarentenaGastada(p1[i], dt)];
    p2[i := CubrebocasGastado(p2[i], dt)]
  }

  /// The population after the turns of agents `0 .. n-1` of one pass.
  function ActualizarHasta(ps: seq<Agente>, n: nat, dt: real, exito: (int, int) -> bool): (r: seq<Agente>)
    requires n <= |ps|
    ensures |r| == |ps|
    ensures forall k :: 0 <= k < |ps| ==> r[k].x == ps[k].x && r[k].y == ps[k].y
    ensures forall k :: 0 <= k < |ps| ==> CambioPermitido(ps[k], r[k])
    ensures forall k :: 0 <= k < |ps| && ps[k].estado == Infectado ==> r[k].estado == Infectado
    ensures forall k :: 0 <= k < n ==> Coherente(r[k])
    ensures forall k :: n <= k < |ps| ==> SoloContagio(ps[k], r[k])
    decreases n
  {
    if n == 0 then ps
    else Turno(ActualizarHasta(ps, n - 1, dt, exito), n - 1, dt, exito)
  }

  /// `update_simulation(personas, dt)`: one ordered pass over the whole
  /// list. It keeps every position, never cures an infected agent, and
  /// leaves every agent coherent, whatever the state it started from.
  function Actualizar(ps: seq<Agente>, dt: real, exito: (int, int) -> bool): (r: seq<Agente>)
    ensures |r| == |ps|
    ensures forall k :: 0 <= k < |ps| ==> r[k].x == ps[k].x && r[k].y == ps[k].y
    ensures forall k :: 0 <= k < |ps| ==> CambioPermitido(ps[k], r[k])
    ensures forall k :: 0 <= k < |ps| && ps[k].estado == Infectado ==> r[k].estado == Infectado
    ensures forall k :: 0 <= k < |ps| ==> Coherente(r[k])
    ensures Valida(ps) ==> Valida(r)
  {
    ActualizarHasta(ps, |ps|, dt, exito)
  }

  /// During agent `i`'s scan, a healthy agent `k` close to `i` whose draw
  /// succeeds is infected once the scan has passed it.
  lemma {:induction false} BarridoContagia(ps: seq<Agente>, i: nat, j: nat, k: nat, exito: (int, int) -> bool)
    requires i < |ps| && k < j <= |ps|
    requires ps[i].estado == Infectado && ps[k].estado == Sano
    requires Cercanas(ps[i], ps[k]) && exito(i, k)
    ensures Barrido(ps, i, j, exito)[k].estado == Infectado
  {
    if j - 1 > k {
      BarridoContagia(ps, i, j - 1, k, exito);
    } else {
      var q := Barrido(ps, i, j - 1, exito);
      assert q[k] == ps[k];
      assert SoloContagio(ps[i], q[i]);
    }
  }

  /// Once infected during a pass, an agent stays infected for the rest of it.
  lemma {:induction false} InfectadoHastaElFinal(ps: seq<Agente>, m: nat, n: nat, k: nat, dt: real, exito: (int, int) -> bool)
    requires m <= n <= |ps| && k < |ps|
    requires ActualizarHasta(ps, m, dt, exito)[k].estado == Infectado
    ensures ActualizarHasta(ps, n, dt, exito)[k].estado == Infectado
    decreases n
  {
    if n > m {
      InfectadoHastaElFinal(ps, m, n - 1, k, dt, exito);
      var q := ActualizarHasta(ps, n - 1, dt, exito);
      assert ActualizarHasta(ps, n, dt, exito) == Turno(q, n - 1, dt, exito);
    }
  }

  /// At the start of agent `j`'s turn, `j` is infected, `k` is healthy and
  /// close to it, and the draw for `j` checking `k` succeeds.
  predicate ContagioEnSuTurno(s: seq<Agente>, j: nat, k: nat, exito: (int, int) -> bool)
    requires j < |s| && k < |s|
  {
    s[j].estado == Infectado && s[k].estado == Sano && Cercanas(s[j], s[k]) && exito(j, k)
  }

  /// The pass is order-dependent: when agent `j` is infected at the start
  /// of its own turn (for instance because an earlier agent of the same
  /// pass infected it) it infects, in that same pass, every agent `k` that
  /// is then healthy and close to it and whose draw succeeds.
  lemma ContagioEnLaPasada(ps: seq<Agente>, dt: real, exito: (int, int) -> bool, j: nat, k: nat)
    requires j < |ps| && k < |ps|
    requires ContagioEnSuTurno(ActualizarHasta(ps, j, dt, exito), j, k, exito)
    ensures Actualizar(ps, dt, exito)[k].estado == Infectado
  {
    var s := ActualizarHasta(ps, j, dt, exito);
    assert ActualizarHasta(ps, j + 1, dt, exito) == Turno(s, j, dt, exito);
    assert Turno(s, j, dt, exito)[k] == Contagiado(s[j], s[k], exito(j, k));
    InfectadoHastaElFinal(ps, j + 1, |ps|, k, dt, exito);
  }

  /// The converse of `ContagioEnLaPasada`: an agent that was not infected
  /// when the pass began and is infected after the first `n` turns was
  /// infected at the turn of some agent `j < n` that was then infected and
  /// close to it, while it was still healthy, and the draw `exito(j, k)`
  /// succeeded.
  lemma {:induction false} OrigenDelContagio(ps: seq<Agente>, dt: real, exito: (int, int) -> bool, n: nat, k: nat)
    requires n <= |ps| && k < |ps|
    requires ps[k].estado != Infectado
    requires ActualizarHasta(ps, n, dt, exito)[k].estado == Infectado
    ensures exists j :: 0 <= j < n && ContagioEnSuTurno(ActualizarHasta(ps, j, dt, exito), j, k, exito)
    decreases n
  {
    if n > 0 {
      var q := ActualizarHasta(ps, n - 1, dt, exito);
      if q[k].estado == Infectado {
        OrigenDelContagio(ps, dt, exito, n - 1, k);
      } else {
        assert ActualizarHasta(ps, n, dt, exito) == Turno(q, n - 1, dt, exito);
        assert k != n - 1;
        assert q[n - 1].estado == Infectado;
        assert Turno(q, n - 1, dt, exito)[k] == Contagiado(q[n - 1], q[k], exito(n - 1, k));
        assert ContagioEnSuTurno(q, n - 1, k, exito);
      }
    }
  }

  /// The turn of an agent that is not infected runs its quarantine
  /// countdown, then its mask countdown, and touches no one else.
  lemma TurnoSinBarrido(ps: seq<Agente>, i: nat, dt: real, exito: (int, int) -> bool)
    requires i < |ps| && ps[i].estado != Infectado
    ensures Turno(ps, i, dt, exito) == ps[i := CubrebocasGastado(CuarentenaGastada(ps[i], dt), dt)]
  {
  }

  /// After its own turn, agent `k` can only be infected by the turns that
  /// follow it in the same pass.
  lemma {:induction false} TrasSuTurno(ps: seq<Agente>, k: nat, n: nat, dt: real, exito: (int, int) -> bool)
    requires k < n <= |ps|
    ensures SoloContagio(ActualizarHasta(ps, k + 1, dt, exito)[k], ActualizarHasta(ps, n, dt, exito)[k])
    decreases n
  {
    if n > k + 1 {
      TrasSuTurno(ps, k, n - 1, dt, exito);
      var q := ActualizarHasta(ps, n - 1, dt, exito);
      assert ActualizarHasta(ps, n, dt, exito) == Turno(q, n - 1, dt, exito);
    }
  }

  /// A pass runs the countdown of every quarantined or protected agent
  /// (epidemia.py:72-76): with time left the agent keeps its state and its
  /// timer drops by `dt`; once the time runs out it is healthy, unless a
  /// later agent of the same pass infects it.
  lemma CuentaAtrasEnLaPasada(ps: seq<Agente>, k: nat, dt: real, exito: (int, int) -> bool)
    requires k < |ps| && (ps[k].estado == Cuarentena || ps[k].estado == Protegido)
    ensures SoloContagio(CubrebocasGastado(CuarentenaGastada(ps[k], dt), dt), Actualizar(ps, dt, exito)[k])
    ensures ps[k].estado == Cuarentena && ps[k].tiempoCuarentena - dt > 0.0 ==>
      Actualizar(ps, dt, exito)[k] == ps[k].(tiempoCuarentena := ps[k].tiempoCuarentena - dt)
    ensures ps[k].estado == Protegido && ps[k].tiempoCubrebocas - dt > 0.0 ==>
      Actualizar(ps, dt, exito)[k] == ps[k].(tiempoCubrebocas := ps[k].tiempoCubrebocas - dt)
    ensures ps[k].estado == Cuarentena && ps[k].tiempoCuarentena - dt <= 0.0 ==>
      Actualizar(ps, dt, exito)[k].estado in {Sano, Infectado}
    ensures ps[k].estado == Protegido && ps[k].tiempoCubrebocas - dt <= 0.0 ==>
      Actualizar(ps, dt, exito)[k].estado in {Sano, Infectado}
  {
    var q := ActualizarHasta(ps, k, dt, exito);
    assert q[k] == ps[k];
    assert ActualizarHasta(ps, k + 1, dt, exito) == Turno(q, k, dt, exito);
    TurnoSinBarrido(q, k, dt, exito);
    TrasSuTurno(ps, k, |ps|, dt, exito);
  }

  /// A scan changes nothing when no healthy agent is within range of the
  /// scanning agent.
  lemma {:induction false} BarridoSinVictimas(ps: seq<Agente>, i: nat, j: nat, exito: (int, int) -> bool)
    requires i < |ps| && j <= |ps|
    requires forall k :: 0 <= k < |ps| ==> ps[k].estado != Sano || !Cercanas(ps[i], ps[k])
    ensures Barrido(ps, i, j, exito) == ps
  {
    if j > 0 {
      BarridoSinVictimas(ps, i, j - 1, exito);
      assert ps[j - 1 := ps[j - 1]] == ps;
    }
  }

  /// The turn of a healthy agent changes nothing: it infects no one and
  /// has no countdown running.
  lemma TurnoDeSano(ps: seq<Agente>, i: nat, dt: real, exito: (int, int) -> bool)
    requires i < |ps| && ps[i].estado == Sano
    ensures Turno(ps, i, dt, exito) == ps
  {
    assert ps[i := ps[i]] == ps;
  }

  // ---------------------------------------------------------------------
  // The commands and the running step of main

  /// A movement draw for every agent: each pair holds the two results of
  /// `random.choice([-1, 1])`.
  predicate PasosValidos(pasos: seq<(int, int)>, n: nat)
  {
    |pasos| == n && forall k :: 0 <= k < n ==> Unitario(pasos[k].0) && Unitario(pasos[k].1)
  }

  /// `for persona in personas: persona.mover()` (epidemia.py:151-152).
  function Movidos(ps: seq<Agente>, pasos: seq<(int, int)>): (r: seq<Agente>)
    requires PasosValidos(pasos, |ps|)
    ensures |r| == |ps|
    ensures forall k :: 0 <= k < |ps| ==> r[k] == Movido(ps[k], pasos[k].0, pasos[k].1)
    // moving changes no state and no timer
    ensures forall k :: 0 <= k < |ps| ==>
      r[k] == ps[k].(x := r[k].x, y := r[k].y)
    // quarantined agents stay put; everyone else ends on the grid
    ensures forall k :: 0 <= k < |ps| && ps[k].estado == Cuarentena ==> r[k] == ps[k]
    ensures forall k :: 0 <= k < |ps| && ps[k].estado != Cuarentena ==> EnRejilla(r[k])
    // from the grid, each coordinate changes by at most one
    ensures forall k :: 0 <= k < |ps| && EnRejilla(ps[k]) ==>
      -1 <= r[k].x - ps[k].x <= 1 && -1 <= r[k].y - ps[k].y <= 1
    ensures Valida(ps) ==> Valida(r)
  {
    seq(|ps|, k requires 0 <= k < |ps| => Movido(ps[k], pasos[k].0, pasos[k].1))
  }

  /// `reiniciar_infeccion` (epidemia.py:109-111) with the drawn index
  /// `indice`: that agent is infected whatever its state; nothing else
  /// changes, not even its timers.
  function Reiniciado(ps: seq<Agente>, indice: nat): (r: seq<Agente>)
    requires indice < |ps|
    ensures |r| == |ps|
    ensures r[indice].estado == Infectado
    ensures r[indice] == ps[indice].(estado := Infectado)
    ensures forall k :: 0 <= k < |ps| && k != indice ==> r[k] == ps[k]
    ensures Valida(ps) ==> Valida(r)
  {
    ps[indice := ps[indice].(estado := Infectado)]
  }

  /// The population of epidemia.py:123-124 from its drawn positions: all
  /// healthy with both timers at zero, except agent 0, which is infected.
  function Inicial(posiciones: seq<(int, int)>): (r: seq<Agente>)
    ensures |r| == |posiciones|
    ensures forall k :: 0 <= k < |r| ==>
      r[k].x == posiciones[k].0 && r[k].y == posiciones[k].1 &&
      r[k].tiempoCuarentena == 0.0 && r[k].tiempoCubrebocas == 0.0
    ensures forall k :: 0 <= k < |r| ==> (r[k].estado == Infectado <==> k == 0)
    ensures forall k :: 0 <= k < |r| ==> (r[k].estado == Sano <==> k != 0)
  {
    seq(|posiciones|, k requires 0 <= k < |posiciones| =>
      Agente(posiciones[k].0, posiciones[k].1, if k == 0 then Infectado else Sano, 0.0, 0.0))
  }

  /// The start-up positions are drawn with `random.randint(0, GRID_SIZE - 1)`,
  /// so the initial population satisfies the invariant.
  lemma InicialValida(posiciones: seq<(int, int)>)
    requires forall k :: 0 <= k < |posiciones| ==> EnRango(posiciones[k].0) && EnRango(posiciones[k].1)
    ensures Valida(Inicial(posiciones))
  {
  }

  /// The mask-all command of main (epidemia.py:141-142).
  function ConCubrebocasTodos(ps: seq<Agente>): (r: seq<Agente>)
    ensures |r| == |ps|
    ensures forall k :: 0 <= k < |ps| ==> r[k] == ConCubrebocas(ps[k])
    ensures Valida(ps) ==> Valida(r)
  {
    seq(|ps|, k requires 0 <= k < |ps| => ConCubrebocas(ps[k]))
  }

  /// The quarantine-all command of main (epidemia.py:144-145).
  function EnCuarentenaTodos(ps: seq<Agente>): (r: seq<Agente>)
    ensures |r| == |ps|
    ensures forall k :: 0 <= k < |ps| ==> r[k] == EnCuarentena(ps[k])
    ensures forall k :: 0 <= k < |ps| ==> r[k].estado != Infectado
    ensures Valida(ps) ==> Valida(r)
  {
    seq(|ps|, k requires 0 <= k < |ps| => EnCuarentena(ps[k]))
  }

  /// Pressing either command key a second time changes nothing.
  lemma ComandosIdempotentes(ps: seq<Agente>)
    ensures ConCubrebocasTodos(ConCubrebocasTodos(ps)) == ConCubrebocasTodos(ps)
    ensures EnCuarentenaTodos(EnCuarentenaTodos(ps)) == EnCuarentenaTodos(ps)
  {
    forall k | 0 <= k < |ps|
      ensures ConCubrebocas(ConCubrebocas(ps[k])) == ConCubrebocas(ps[k])
      ensures EnCuarentena(EnCuarentena(ps[k])) == EnCuarentena(ps[k])
    {
      ConCubrebocasIdempotente(ps[k]);
      EnCuarentenaIdempotente(ps[k]);
    }
  }

  /// The population after the running step of main (epidemia.py:151-153):
  /// everyone moves, then one `update_simulation` pass.
  function Paso(ps: seq<Agente>, pasos: seq<(int, int)>, dt: real, exito: (int, int) -> bool): (r: seq<Agente>)
    requires PasosValidos(pasos, |ps|)
    ensures |r| == |ps|
    ensures forall k :: 0 <= k < |ps| && Bien(ps[k]) ==> Bien(r[k])
    // an agent in quarantine at the start of the step does not move in it
    ensures forall k :: 0 <= k < |ps| && ps[k].estado == Cuarentena ==>
      r[k].x == ps[k].x && r[k].y == ps[k].y
    ensures forall k :: 0 <= k < |ps| && ps[k].estado == Infectado ==> r[k].estado == Infectado
  {
    var m := Movidos(ps, pasos);
    Actualizar(m, dt, exito)
  }

  /// The running step keeps the invariant of every population it starts from.
  lemma PasoConservaValida(ps: seq<Agente>, pasos: seq<(int, int)>, dt: real, exito: (int, int) -> bool)
    requires PasosValidos(pasos, |ps|)
    requires Valida(ps)
    ensures Valida(Paso(ps, pasos, dt, exito))
  {
  }

  /// The driver's elapsed-time counter after a running step
  /// (epidemia.py:150, 156-158): it grows by `dt` and drops to zero exactly
  /// when the step leaves every agent healthy.
  function TiempoTrasPaso(tiempo: real, dt: real, despues: seq<Agente>): (t: real)
    ensures t == 0.0 || t == tiempo + dt
    ensures TodosSanos(despues) ==> t == 0.0
    ensures !TodosSanos(despues) ==> t == tiempo + dt
  {
    var acumulado := tiempo + dt;
    if TodosSanos(despues) then 0.0 else acumulado
  }

  /// A quirk of the timers: after a protected agent is forced to infected
  /// and then quarantined, it leaves quarantine healthy with its old mask
  /// time still positive, and from then on the mask command refuses it.
  lemma CubrebocasRechazadoTrasReinicio(a: Agente, dt: real)
    requires a.estado == Protegido && a.tiempoCubrebocas > 0.0
    requires dt >= QUARANTINE_DURATION
    ensures var b := CuarentenaGastada(EnCuarentena(a.(estado := Infectado)), dt);
      b.estado == Sano && b.tiempoCubrebocas == a.tiempoCubrebocas &&
      ConCubrebocas(b) == b
  {
  }

  /// Reseeding an all-quarantined population still leaves exactly one
  /// infected agent, and the invariant holds.
  lemma ReinicioSobreCuarentena(ps: seq<Agente>, indice: nat)
    requires indice < |ps| && Valida(ps)
    requires forall k :: 0 <= k < |ps| ==> ps[k].estado == Cuarentena
    ensures forall k :: 0 <= k < |ps| ==> (Reiniciado(ps, indice)[k].estado == Infectado <==> k == indice)
    ensures Valida(Reiniciado(ps, indice))
  {
  }
}
