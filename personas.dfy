// The agent object `Persona` of epidemia.py:27-60. Its methods update its
// fields in place; each is specified by the rule on values in Reglas.

module Personas {
  import opened Reglas

  class Persona {
    var x: int
    var y: int
    var estado: Estado
    var tiempoCuarentena: real
    var tiempoCubrebocas: real

    /// The agent's current state as a value.
    function Valor(): Agente
      reads this
    {
      Agente(x, y, estado, tiempoCuarentena, tiempoCubrebocas)
    }

    /// Both timers start at zero.
    constructor (x0: int, y0: int, estado0: Estado)
      ensures Valor() == Agente(x0, y0, estado0, 0.0, 0.0)
    {
      x, y, estado := x0, y0, estado0;
      tiempoCuarentena, tiempoCubrebocas := 0.0, 0.0;
    }

    /// `dx` and `dy` are the two draws of `random.choice([-1, 1])`.
    method Mover(dx: int, dy: int)
      requires Unitario(dx) && Unitario(dy)
      modifies this
      ensures Valor() == Movido(old(Valor()), dx, dy)
    {
      if estado != Cuarentena {
        x := Acotar(x + dx);
        y := Acotar(y + dy);
      }
    }

    /// `exito` is the outcome of the draw `random.random() < PROBABILIDAD_INFECCION`.
    /// Only `otra` can change; `otra` may be this very agent.
    method Infectar(otra: Persona, exito: bool)
      modifies otra
      ensures otra.Valor() == Contagiado(old(Valor()), old(otra.Valor()), exito)
    {
      var distancia := DistanciaCuadrada(Valor(), otra.Valor());
      if distancia <= DISTANCIA_MINIMA * DISTANCIA_MINIMA && otra.estado == Sano {
        if exito {
          otra.estado := Infectado;
        }
      }
    }

    method PonerCubrebocas()
      modifies this
      ensures Valor() == ConCubrebocas(old(Valor()))
    {
      if estado == Sano && tiempoCubrebocas <= 0.0 {
        estado := Protegido;
        tiempoCubrebocas := TIEMPO_CUBREBOCAS;
      }
    }

    method PonerEnCuarentena()
      modifies this
      ensures Valor() == EnCuarentena(old(Valor()))
    {
      if estado == Infectado {
        estado := Cuarentena;
        tiempoCuarentena := QUARANTINE_DURATION;
      }
    }

    method ActualizarTiempoCubrebocas(dt: real)
      modifies this
      ensures Valor() == CubrebocasGastado(old(Valor()), dt)
    {
      if estado == Protegido {
        tiempoCubrebocas := tiempoCubrebocas - dt;
        if tiempoCubrebocas <= 0.0 {
          estado := Sano;
        }
      }
    }
  }
}
