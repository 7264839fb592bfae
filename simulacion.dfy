// The procedures of epidemia.py that walk the list of `Persona` objects and
// update them in place: `update_simulation`, `reiniciar_infeccion`, and the
// command loops, the running step and the start-up lines of `main`. Each is
// proved against the function on values of Poblacion that it implements.

module Simulacion {
  import opened Reglas
  import opened Poblacion
  import opened Personas

  /// The list holds distinct objects, as the list comprehension that
  /// builds it in `main` does.
  ghost predicate Distintas(personas: seq<Persona>)
  {
    forall i, j :: 0 <= i < j < |personas| ==> personas[i] != personas[j]
  }

  /// The states of the listed agents, in list order.
  function Valores(personas: seq<Persona>): (vs: seq<Agente>)
    reads personas
    ensures |vs| == |personas|
    ensures forall k :: 0 <= k < |personas| ==> vs[k] == personas[k].Valor()
  {
    seq(|personas|, k requires 0 <= k < |personas| reads personas => personas[k].Valor())
  }

  /// One check of the inner loop of `update_simulation` (epidemia.py:71):
  /// agent `i` tries to infect agent `j`; only entry `j` can change.
  method Revisar(personas: seq<Persona>, i: nat, j: nat, exito: bool)
    requires i < |personas| && j < |personas| && Distintas(personas)
    modifies personas[j]
    ensures var antes := old(Valores(personas));
      Valores(personas) == antes[j := Contagiado(antes[i], antes[j], exito)]
  {
    personas[i].Infectar(personas[j], exito);
  }

  /// The scan state after one more check, as `Revisar` leaves it.
  lemma PasoDeBarrido(inicio: seq<Agente>, i: nat, j: nat, exito: (int, int) -> bool,
                      antes: seq<Agente>, despues: seq<Agente>)
    requires i < |inicio| && j < |inicio|
    requires antes == Barrido(inicio, i, j, exito)
    requires despues == antes[j := Contagiado(antes[i], antes[j], exito(i, j))]
    ensures despues == Barrido(inicio, i, j + 1, exito)
  {
  }

  /// The inner loop of `update_simulation` (epidemia.py:70-71): agent `i`
  /// checks every agent of the list, itself included, in list order.
  method Barrer(personas: seq<Persona>, i: nat, exito: (int, int) -> bool)
    requires i < |personas| && Distintas(personas)
    modifies personas
    ensures Valores(personas) == Barrido(old(Valores(personas)), i, |personas|, exito)
  {
    ghost var inicio := Valores(personas);
    for j: nat := 0 to |personas|
      invariant Valores(personas) == Barrido(inicio, i, j, exito)
    {
      ghost var antes := Valores(personas);
      Revisar(personas, i, j, exito(i, j));
      PasoDeBarrido(inicio, i, j, exito, antes, Valores(personas));
    }
  }

  /// The turn of agent `i` in `update_simulation` (epidemia.py:69-76).
  method TurnoDe(personas: seq<Persona>, i: nat, dt: real, exito: (int, int) -> bool)
    requires i < |personas| && Distintas(personas)
    modifies personas
    ensures Valores(personas) == Turno(old(Valores(personas)), i, dt, exito)
  {
    var persona := personas[i];
    if persona.estado == Infectado {
      Barrer(personas, i, exito);
    }
    ghost var barrido := Valores(personas);
    if persona.estado == Cuarentena {
      persona.tiempoCuarentena := persona.tiempoCuarentena - dt;
      if persona.tiempoCuarentena <= 0.0 {
        persona.estado := Sano;
      }
    }
    assert Valores(personas) == barrido[i := CuarentenaGastada(barrido[i], dt)];
    ghost var gastada := Valores(personas);
    persona.ActualizarTiempoCubrebocas(dt);
    assert Valores(personas) == gastada[i := CubrebocasGastado(gastada[i], dt)];
  }

  /// The pass state after one more turn, as `TurnoDe` leaves it.
  lemma PasoDeActualizar(inicio: seq<Agente>, i: nat, dt: real, exito: (int, int) -> bool,
                         antes: seq<Agente>, despues: seq<Agente>)
    requires i < |inicio|
    requires antes == ActualizarHasta(inicio, i, dt, exito)
    requires despues == Turno(antes, i, dt, exito)
    ensures despues == ActualizarHasta(inicio, i + 1, dt, exito)
  {
  }

  /// `update_simulation(personas, delta_tiempo)`: one ordered pass in which
  /// every agent takes its turn. `exito(i, k)` is the infection draw used
  /// when agent `i` checks agent `k`.
  method UpdateSimulation(personas: seq<Persona>, dt: real, exito: (int, int) -> bool)
    requires Distintas(personas)
    modifies personas
    ensures Valores(personas) == Actualizar(old(Valores(personas)), dt, exito)
  {
    ghost var inicio := Valores(personas);
    for i: nat := 0 to |personas|
      invariant Valores(personas) == ActualizarHasta(inicio, i, dt, exito)
    {
      ghost var antes := Valores(personas);
      TurnoDe(personas, i, dt, exito);
      PasoDeActualizar(inicio, i, dt, exito, antes, Valores(personas));
    }
  }

  /// `reiniciar_infeccion(personas)`; `indice` is the draw
  /// `random.randint(0, len(personas) - 1)`.
  method ReiniciarInfeccion(personas: seq<Persona>, indice: nat)
    requires indice < |personas| && Distintas(personas)
    modifies personas[indice]
    ensures Valores(personas) == Reiniciado(old(Valores(personas)), indice)
  {
    personas[indice].estado := Infectado;
  }

  /// The mask-all command (epidemia.py:141-142).
  method PonerCubrebocasATodos(personas: seq<Persona>)
    requires Distintas(personas)
    modifies personas
    ensures Valores(personas) == ConCubrebocasTodos(old(Valores(personas)))
  {
    ghost var inicio := Valores(personas);
    for k := 0 to |personas|
      invariant forall m :: 0 <= m < k ==> personas[m].Valor() == ConCubrebocas(inicio[m])
      invariant forall m :: k <= m < |personas| ==> personas[m].Valor() == inicio[m]
    {
      personas[k].PonerCubrebocas();
    }
  }

  /// The quarantine-all command (epidemia.py:144-145).
  method PonerEnCuarentenaATodos(personas: seq<Persona>)
    requires Distintas(personas)
    modifies personas
    ensures Valores(personas) == EnCuarentenaTodos(old(Valores(personas)))
  {
    ghost var inicio := Valores(personas);
    for k := 0 to |personas|
      invariant forall m :: 0 <= m < k ==> personas[m].Valor() == EnCuarentena(inicio[m])
      invariant forall m :: k <= m < |personas| ==> personas[m].Valor() == inicio[m]
    {
      personas[k].PonerEnCuarentena();
    }
  }

  /// `all(persona.estado == "sano" for persona in personas)`, stopping at
  /// the first agent that is not healthy.
  method TodosSanosAhora(personas: seq<Persona>) returns (todos: bool)
    ensures todos <==> forall k :: 0 <= k < |personas| ==> personas[k].estado == Sano
  {
    var k := 0;
    while k < |personas|
      invariant 0 <= k <= |personas|
      invariant forall m :: 0 <= m < k ==> personas[m].estado == Sano
    {
      if personas[k].estado != Sano {
        return false;
      }
      k := k + 1;
    }
    return true;
  }

  /// The running step of `main` (epidemia.py:150-158): accumulate the
  /// elapsed time, move everyone, run one `update_simulation` pass, and
  /// reset the elapsed time when everyone is healthy. `pasos[k]` holds
  /// agent `k`'s two movement draws.
  method PasoSimulacion(personas: seq<Persona>, tiempo: real, dt: real,
                        pasos: seq<(int, int)>, exito: (int, int) -> bool)
    returns (tiempoNuevo: real)
    requires Distintas(personas) && PasosValidos(pasos, |personas|)
    modifies personas
    ensures Valores(personas) == Paso(old(Valores(personas)), pasos, dt, exito)
    ensures tiempoNuevo == TiempoTrasPaso(tiempo, dt, Valores(personas))
  {
    ghost var inicio := Valores(personas);
    tiempoNuevo := tiempo + dt;
    for k := 0 to |personas|
      invariant forall m :: 0 <= m < k ==>
        personas[m].Valor() == Movido(inicio[m], pasos[m].0, pasos[m].1)
      invariant forall m :: k <= m < |personas| ==> personas[m].Valor() == inicio[m]
    {
      personas[k].Mover(pasos[k].0, pasos[k].1);
    }
    assert Valores(personas) == Movidos(inicio, pasos);
    UpdateSimulation(personas, dt, exito);
    var todosSanos := TodosSanosAhora(personas);
    if todosSanos {
      tiempoNuevo := 0.0;
    }
  }

  /// The start-up lines of `main` (epidemia.py:123-124): one healthy agent
  /// per drawn position, then agent 0 is infected.
  method CrearPersonas(posiciones: seq<(int, int)>) returns (personas: seq<Persona>)
    requires |posiciones| == POBLACION
    requires forall k :: 0 <= k < |posiciones| ==> EnRango(posiciones[k].0) && EnRango(posiciones[k].1)
    ensures |personas| == POBLACION && Distintas(personas)
    ensures forall k :: 0 <= k < |personas| ==> fresh(personas[k])
    ensures Valores(personas) == Inicial(posiciones)
    ensures Valida(Valores(personas))
  {
    personas := [];
    for k := 0 to |posiciones|
      invariant |personas| == k && Distintas(personas)
      invariant forall m :: 0 <= m < k ==> fresh(personas[m])
      invariant forall m :: 0 <= m < k ==>
        personas[m].Valor() == Agente(posiciones[m].0, posiciones[m].1, Sano, 0.0, 0.0)
    {
      var persona := new Persona(posiciones[k].0, posiciones[k].1, Sano);
      personas := personas + [persona];
    }
    personas[0].estado := Infectado;
    InicialValida(posiciones);
  }
}
