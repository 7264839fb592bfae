// Small populations on which one `update_simulation` pass is worked out
// completely. The three helpers about a single turn (`UnContagio`,
// `TurnoDeInfectado`, `TurnoDeProtegido`) hold for any infection draws; the
// scenarios use draws that all succeed. Each scenario is first
// stated for any agents with the given states and proximities, then for
// concrete grid positions. Together they show that the pass depends on
// list order: the same agents in another order end in other states.

module Escenarios {
  import opened Reglas
  import opened Poblacion

  function Siempre(i: int, k: int): bool { true }

  /// A pass over three agents is their three turns in list order.
  lemma PasadaDeTres(ps: seq<Agente>, dt: real, s1: seq<Agente>, s2: seq<Agente>, s3: seq<Agente>)
    requires |ps| == 3
    requires Turno(ps, 0, dt, Siempre) == s1
    requires |s1| == 3 && Turno(s1, 1, dt, Siempre) == s2
    requires |s2| == 3 && Turno(s2, 2, dt, Siempre) == s3
    ensures Actualizar(ps, dt, Siempre) == s3
  {
    assert ActualizarHasta(ps, 1, dt, Siempre) == s1;
    assert ActualizarHasta(ps, 2, dt, Siempre) == s2;
  }

  /// A pass over two agents is their two turns in list order.
  lemma PasadaDeDos(ps: seq<Agente>, dt: real, s1: seq<Agente>, s2: seq<Agente>)
    requires |ps| == 2
    requires Turno(ps, 0, dt, Siempre) == s1
    requires |s1| == 2 && Turno(s1, 1, dt, Siempre) == s2
    ensures Actualizar(ps, dt, Siempre) == s2
  {
    assert ActualizarHasta(ps, 1, dt, Siempre) == s1;
  }

  /// The turn of an infected agent is its scan: its own countdowns are idle.
  lemma TurnoDeInfectado(ps: seq<Agente>, i: nat, dt: real, exito: (int, int) -> bool)
    requires i < |ps| && ps[i].estado == Infectado
    ensures Turno(ps, i, dt, exito) == Barrido(ps, i, |ps|, exito)
  {
    var b := Barrido(ps, i, |ps|, exito);
    assert b[i] == ps[i];
    assert b[i := b[i]] == b;
  }

  /// Proximity depends on positions only.
  lemma CercanasPorPosicion(a: Agente, b: Agente, e: Estado, f: Estado)
    ensures Cercanas(a.(estado := e), b.(estado := f)) == Cercanas(a, b)
  {
  }

  /// An infected agent `i` whose range holds exactly one healthy agent
  /// `v`, with a successful draw for it: its turn infects `v` and changes
  /// nothing else.
  lemma UnContagio(ps: seq<Agente>, i: nat, v: nat, dt: real, exito: (int, int) -> bool)
    requires i < |ps| && v < |ps| && i != v
    requires ps[i].estado == Infectado && ps[v].estado == Sano && Cercanas(ps[i], ps[v])
    requires exito(i, v)
    requires forall k :: 0 <= k < |ps| && k != v ==> ps[k].estado != Sano || !Cercanas(ps[i], ps[k])
    ensures Turno(ps, i, dt, exito) == ps[v := ps[v].(estado := Infectado)]
  {
    var r := Turno(ps, i, dt, exito);
    var s := ps[v := ps[v].(estado := Infectado)];
    forall k | 0 <= k < |ps|
      ensures r[k] == s[k]
    {
      if k != i {
        assert r[k] == Contagiado(ps[i], ps[k], exito(i, k));
      }
    }
    assert r == s;
  }

  /// Agents A, B, C where only A is infected, A is close to B only and C is
  /// close to neither: the pass infects B and leaves C healthy.
  lemma SoloElVecino(ps: seq<Agente>, dt: real)
    requires |ps| == 3
    requires ps[0].estado == Infectado && ps[1].estado == Sano && ps[2].estado == Sano
    requires Cercanas(ps[0], ps[1]) && !Cercanas(ps[0], ps[2]) && !Cercanas(ps[1], ps[2])
    ensures var r := Actualizar(ps, dt, Siempre);
      r[0].estado == Infectado && r[1].estado == Infectado && r[2].estado == Sano
  {
    var s1 := ps[1 := ps[1].(estado := Infectado)];
    UnContagio(ps, 0, 1, dt, Siempre);
    CercanasPorPosicion(ps[1], ps[2], Infectado, Sano);
    TurnoDeInfectado(s1, 1, dt, Siempre);
    BarridoSinVictimas(s1, 1, 3, Siempre);
    TurnoDeSano(s1, 2, dt, Siempre);
    PasadaDeTres(ps, dt, s1, s1, s1);
  }

  /// An infected agent at (0,0) next to a healthy one at (1,0), and a
  /// healthy one far away at (40,40): only the neighbour is infected.
  lemma VecinoCercanoYLejano(ps: seq<Agente>, dt: real)
    requires |ps| == 3
    requires ps[0] == Agente(0, 0, Infectado, 0.0, 0.0)
    requires ps[1] == Agente(1, 0, Sano, 0.0, 0.0)
    requires ps[2] == Agente(40, 40, Sano, 0.0, 0.0)
    ensures var r := Actualizar(ps, dt, Siempre);
      r[0].estado == Infectado && r[1].estado == Infectado && r[2].estado == Sano
  {
    SoloElVecino(ps, dt);
  }

  /// A chain A, B, C listed in that order, A infected, A close to B, B
  /// close to C, A not close to C: B is infected at A's turn and C at B's
  /// turn, all in one pass.
  lemma CadenaEnOrdenGeneral(ps: seq<Agente>, dt: real)
    requires |ps| == 3
    requires ps[0].estado == Infectado && ps[1].estado == Sano && ps[2].estado == Sano
    requires Cercanas(ps[0], ps[1]) && Cercanas(ps[1], ps[2]) && !Cercanas(ps[0], ps[2])
    ensures var r := Actualizar(ps, dt, Siempre);
      r[0].estado == Infectado && r[1].estado == Infectado && r[2].estado == Infectado
  {
    var s1 := ps[1 := ps[1].(estado := Infectado)];
    var s2 := s1[2 := s1[2].(estado := Infectado)];
    UnContagio(ps, 0, 1, dt, Siempre);
    CercanasPorPosicion(ps[1], ps[2], Infectado, Sano);
    UnContagio(s1, 1, 2, dt, Siempre);
    TurnoDeInfectado(s2, 2, dt, Siempre);
    BarridoSinVictimas(s2, 2, 3, Siempre);
    PasadaDeTres(ps, dt, s1, s2, s2);
  }

  /// The same chain listed C, B, A: at C's and B's turns both are still
  /// healthy, so A's turn infects B only and C stays healthy.
  lemma CadenaAlRevesGeneral(ps: seq<Agente>, dt: real)
    requires |ps| == 3
    requires ps[0].estado == Sano && ps[1].estado == Sano && ps[2].estado == Infectado
    requires Cercanas(ps[2], ps[1]) && !Cercanas(ps[2], ps[0])
    ensures var r := Actualizar(ps, dt, Siempre);
      r[0].estado == Sano && r[1].estado == Infectado && r[2].estado == Infectado
  {
    var s3 := ps[1 := ps[1].(estado := Infectado)];
    TurnoDeSano(ps, 0, dt, Siempre);
    TurnoDeSano(ps, 1, dt, Siempre);
    UnContagio(ps, 2, 1, dt, Siempre);
    PasadaDeTres(ps, dt, ps, ps, s3);
  }

  /// Agents at (0,0), (8,0) and (16,0): each is close to its neighbour,
  /// the two ends are 16 apart.
  lemma EnFila(a: Agente, b: Agente, c: Agente)
    requires a.x == 0 && a.y == 0 && b.x == 8 && b.y == 0 && c.x == 16 && c.y == 0
    ensures Cercanas(a, b) && Cercanas(b, c) && !Cercanas(a, c)
    ensures Cercanas(c, b) && !Cercanas(c, a)
  {
    assert DistanciaCuadrada(a, b) == 64 by { assert Cuadrado(-8) == 64; assert Cuadrado(0) == 0; }
    assert DistanciaCuadrada(b, c) == 64 by { assert Cuadrado(-8) == 64; assert Cuadrado(0) == 0; }
    assert DistanciaCuadrada(a, c) == 256 by { assert Cuadrado(-16) == 256; assert Cuadrado(0) == 0; }
    assert DistanciaCuadrada(c, b) == 64 by { assert Cuadrado(8) == 64; assert Cuadrado(0) == 0; }
    assert DistanciaCuadrada(c, a) == 256 by { assert Cuadrado(16) == 256; assert Cuadrado(0) == 0; }
  }

  /// The chain (0,0), (8,0), (16,0): listed from the infected end, all
  /// three end infected.
  lemma CadenaEnOrden(ps: seq<Agente>, dt: real)
    requires |ps| == 3
    requires ps[0] == Agente(0, 0, Infectado, 0.0, 0.0)
    requires ps[1] == Agente(8, 0, Sano, 0.0, 0.0)
    requires ps[2] == Agente(16, 0, Sano, 0.0, 0.0)
    ensures var r := Actualizar(ps, dt, Siempre);
      r[0].estado == Infectado && r[1].estado == Infectado && r[2].estado == Infectado
  {
    EnFila(ps[0], ps[1], ps[2]);
    CadenaEnOrdenGeneral(ps, dt);
  }

  /// The same chain listed the other way round: the agent at (16,0) stays
  /// healthy.
  lemma CadenaAlReves(ps: seq<Agente>, dt: real)
    requires |ps| == 3
    requires ps[0] == Agente(16, 0, Sano, 0.0, 0.0)
    requires ps[1] == Agente(8, 0, Sano, 0.0, 0.0)
    requires ps[2] == Agente(0, 0, Infectado, 0.0, 0.0)
    ensures var r := Actualizar(ps, dt, Siempre);
      r[0].estado == Sano && r[1].estado == Infectado && r[2].estado == Infectado
  {
    EnFila(ps[2], ps[1], ps[0]);
    CadenaAlRevesGeneral(ps, dt);
  }

  /// The turn of a protected agent only runs its mask countdown.
  lemma TurnoDeProtegido(ps: seq<Agente>, i: nat, dt: real, exito: (int, int) -> bool)
    requires i < |ps| && ps[i].estado == Protegido
    ensures Turno(ps, i, dt, exito) == ps[i := CubrebocasGastado(ps[i], dt)]
  {
    assert ps[i := CuarentenaGastada(ps[i], dt)] == ps;
  }

  /// A protected agent A whose mask runs out within `dt`, listed before an
  /// infected agent B close to it: A is healthy at B's turn and is infected
  /// in the same pass.
  lemma ExpiraYSeContagiaGeneral(ps: seq<Agente>, dt: real)
    requires |ps| == 2
    requires ps[0].estado == Protegido && ps[0].tiempoCubrebocas <= dt
    requires ps[1].estado == Infectado && Cercanas(ps[1], ps[0])
    ensures var r := Actualizar(ps, dt, Siempre);
      r[0].estado == Infectado && r[1].estado == Infectado
  {
    var s1 := ps[0 := CubrebocasGastado(ps[0], dt)];
    var s2 := s1[0 := s1[0].(estado := Infectado)];
    TurnoDeProtegido(ps, 0, dt, Siempre);
    CercanasPorPosicion(ps[1], ps[0], Infectado, Protegido);
    assert Cercanas(s1[1], s1[0]) by {
      CercanasPorPosicion(ps[1], ps[0], Infectado, Sano);
    }
    BarridoUnPaso(s1, 1, 0, Siempre);
    BarridoUnPaso(s1, 1, 1, Siempre);
    assert s2[1 := s2[1]] == s2;
    TurnoDeInfectado(s1, 1, dt, Siempre);
    PasadaDeDos(ps, dt, s1, s2);
  }

  /// The same two agents listed the other way round: B's turn comes while
  /// A is still protected, so A ends the pass healthy.
  lemma ExpiraDespuesDelContagioGeneral(ps: seq<Agente>, dt: real)
    requires |ps| == 2
    requires ps[0].estado == Infectado
    requires ps[1].estado == Protegido && ps[1].tiempoCubrebocas <= dt
    ensures var r := Actualizar(ps, dt, Siempre);
      r[0].estado == Infectado && r[1].estado == Sano
  {
    BarridoSinVictimas(ps, 0, 2, Siempre);
    TurnoDeInfectado(ps, 0, dt, Siempre);
    TurnoDeProtegido(ps, 1, dt, Siempre);
    PasadaDeDos(ps, dt, ps, ps[1 := CubrebocasGastado(ps[1], dt)]);
  }

  /// Agents at (0,0) and (1,0) are close, whichever is the source.
  lemma Contiguas(a: Agente, b: Agente)
    requires a.x == 0 && a.y == 0 && b.x == 1 && b.y == 0
    ensures Cercanas(a, b) && Cercanas(b, a)
  {
    assert DistanciaCuadrada(a, b) == 1 by { assert Cuadrado(-1) == 1; assert Cuadrado(0) == 0; }
    assert DistanciaCuadrada(b, a) == 1 by { assert Cuadrado(1) == 1; assert Cuadrado(0) == 0; }
  }

  /// A masked agent at (0,0) with 0.05 of mask time left, then an infected
  /// agent at (1,0), and a pass of 0.1: both end infected.
  lemma ExpiraYSeContagia(ps: seq<Agente>)
    requires |ps| == 2
    requires ps[0] == Agente(0, 0, Protegido, 0.0, 0.05)
    requires ps[1] == Agente(1, 0, Infectado, 0.0, 0.0)
    ensures var r := Actualizar(ps, 0.1, Siempre);
      r[0].estado == Infectado && r[1].estado == Infectado
  {
    Contiguas(ps[0], ps[1]);
    ExpiraYSeContagiaGeneral(ps, 0.1);
  }

  /// The same two agents listed the other way round: the masked agent ends
  /// the pass healthy.
  lemma ExpiraDespuesDelContagio(ps: seq<Agente>)
    requires |ps| == 2
    requires ps[0] == Agente(1, 0, Infectado, 0.0, 0.0)
    requires ps[1] == Agente(0, 0, Protegido, 0.0, 0.05)
    ensures var r := Actualizar(ps, 0.1, Siempre);
      r[0].estado == Infectado && r[1].estado == Sano
  {
    ExpiraDespuesDelContagioGeneral(ps, 0.1);
  }
}
