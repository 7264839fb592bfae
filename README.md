# Epidemia: the simulation rules, modelled in Dafny

`Epidemia/epidemia.py` is a toy epidemic simulator. Twenty agents
(`Persona`) walk at random on a 50×50 grid. An infected agent can infect a
healthy agent within distance 10, with probability 0.5. From the keyboard
the user can mask for 60 seconds every healthy agent whose mask time has
run out, quarantine every infected agent for 60 seconds, or force a random
agent to be infected.
Quarantined agents do not move. Both countdowns end with the agent healthy
again.

This project models the rules of that simulator; the pygame window,
drawing and event loop are not part of it. The model has five modules:

- `reglas.dfy` (module `Reglas`): the constants, the health state as a
  closed datatype `Estado` (`Sano`, `Infectado`, `Cuarentena`,
  `Protegido`) in place of the source's strings, the agent as a value
  `Agente`, and every single-agent transition as a function on values.
- `personas.dfy` (module `Personas`): the class `Persona` with the source's
  five fields. Its methods update the fields in place, and each is proved
  equal to the matching rule of `Reglas`.
- `poblacion.dfy` (module `Poblacion`): the population as a sequence of
  values. It holds the ordered pass of `update_simulation`, the bulk
  commands, the seeding and the running step, with the properties they
  promise.
- `simulacion.dfy` (module `Simulacion`): the procedures that walk the list
  of `Persona` objects and change them in place. Each is proved to produce
  exactly the population computed by the matching function of `Poblacion`.
- `escenarios.dfy` (module `Escenarios`): small populations on which one
  pass is worked out in full, showing that the result depends on list order.

Randomness is passed in explicitly. Each `random.choice([-1, 1])` is an
integer argument that must be -1 or 1. The draw `random.random() < 0.5` is
a boolean, `exito`. In `update_simulation` the draws are a function
`exito(i, k)`: the draw used when agent `i` checks agent `k`. Each such
check happens at most once per pass, so any sequence of random numbers
corresponds to such a function. The index drawn by `reiniciar_infeccion`
is a parameter, and so are the start-up positions and the elapsed time
`dt` of each frame.

The test `math.sqrt(dx*dx + dy*dy) <= 10` is modelled on integers as
`dx*dx + dy*dy <= 100`. `RaizComparada` proves the two agree for every
non-negative real square root. Timers and `dt` are `real`.

The invariant the source keeps is one-directional: a quarantined agent has
quarantine time left, and a protected agent has mask time left. A timer is
never reset when its state ends. Expired timers stay at or below zero.
`reiniciar_infeccion` changes only the state, so it can leave positive mask
time on an agent that is now infected. `CubrebocasRechazadoTrasReinicio`
shows the consequence: an agent that was protected, reseeded, quarantined
and released is healthy, but still has positive mask time. From then on the
mask command refuses it, because its mask timer only runs down while it is
protected.

Two consequences of the code are worth stating on their own:

- A timer is not reset when its state ends, so the model proves only the
  one-directional invariant (`Reglas.Coherente`).
- A single infection check never touches a protected agent
  (`Reglas.Contagiado`). But a mask that runs out at its owner's turn
  leaves it healthy, so a later agent can infect it in the same pass
  (`Escenarios.ExpiraYSeContagia`).

## Model

| member | source | states |
|---|---|---|
| `Reglas.Acotar` | Epidemia/epidemia.py:37-38 | the clamp yields a grid coordinate; it leaves an on-grid value alone and sends values below or above the grid to the nearest edge |
| `Reglas.Movido` | Epidemia/epidemia.py:35-38 | a move keeps state and timers; a quarantined agent stays put; any other agent ends on the grid; from the grid each coordinate changes by at most 1, and a step that would leave the grid is blocked on that axis |
| `Reglas.DistanciaCuadrada` | Epidemia/epidemia.py:62-65 | the squared distance is non-negative, and zero exactly when the two positions coincide |
| `Reglas.CercanasSimetrica` | Epidemia/epidemia.py:62-65 | distance, and so proximity, does not depend on which agent is the source |
| `Reglas.RaizComparada` | Epidemia/epidemia.py:41-42 | comparing the real square root of the squared distance with 10 is the same as comparing the squared distance with 100 |
| `Reglas.Contagiado` | Epidemia/epidemia.py:40-44 | infection changes only the target's state, only to infected, and changes it exactly when the target is healthy, within range and the draw succeeds; a non-healthy target (an infected agent checked against itself, a protected one) is untouched |
| `Reglas.ConCubrebocas` | Epidemia/epidemia.py:46-49 | masking changes an agent exactly when it is healthy with no mask time left, and then makes it protected with 60 s; position and quarantine time never change; the timer invariant is kept |
| `Reglas.EnCuarentena` | Epidemia/epidemia.py:51-54 | quarantining changes an agent exactly when it is infected, and then gives it 60 s of quarantine; no agent is left infected; the timer invariant is kept |
| `Reglas.CubrebocasGastado` | Epidemia/epidemia.py:56-60 | only a protected agent's mask time runs down by dt; it becomes healthy exactly when the remainder is at most zero; a protected result always has time left |
| `Reglas.CuarentenaGastada` | Epidemia/epidemia.py:72-75 | the same countdown rule on the quarantine timer: only a quarantined agent loses dt and is healthy exactly when the remainder is at most zero |
| `Reglas.MismaCuentaAtras` | Epidemia/epidemia.py:56-60 | the mask countdown and the quarantine countdown are one rule with the roles of the two timers swapped |
| `Reglas.ConCubrebocasIdempotente` | Epidemia/epidemia.py:46-49 | masking twice is masking once |
| `Reglas.EnCuarentenaIdempotente` | Epidemia/epidemia.py:51-54 | quarantining twice is quarantining once |
| `Reglas.TransicionesConservanBien` | Epidemia/epidemia.py:35-60 | every single-agent transition, the forced infection included, keeps an on-grid coherent agent on the grid and coherent |
| `Personas.Persona.constructor` | Epidemia/epidemia.py:28-33 | a new agent has the given position and state and both timers at zero |
| `Personas.Persona.Mover` | Epidemia/epidemia.py:35-38 | the object's new state is the move rule applied to its old state |
| `Personas.Persona.Infectar` | Epidemia/epidemia.py:40-44 | only the target object changes, to the infection rule applied to the two old states, also when the target is the agent itself |
| `Personas.Persona.PonerCubrebocas` | Epidemia/epidemia.py:46-49 | the object's new state is the masking rule applied to its old state |
| `Personas.Persona.PonerEnCuarentena` | Epidemia/epidemia.py:51-54 | the object's new state is the quarantine rule applied to its old state |
| `Personas.Persona.ActualizarTiempoCubrebocas` | Epidemia/epidemia.py:56-60 | the object's new state is the mask countdown applied to its old state |
| `Poblacion.Barrido` | Epidemia/epidemia.py:70-71 | one agent's scan keeps the length and leaves every agent unchanged or turns a healthy agent infected; it does not touch targets not yet reached; a scanner that is not healthy applies exactly one infection check, `Contagiado` with its own state and the draw `exito(i, k)`, to each target it has reached |
| `Poblacion.Turno` | Epidemia/epidemia.py:68-76 | the turn of an agent that is not infected leaves every other agent unchanged; the turn of an infected agent applies `Contagiado` once to every other agent; the agent itself keeps its position, is infected afterwards exactly when it was before, changes state only in an allowed way, and ends coherent |
| `Poblacion.TurnoSinBarrido` | Epidemia/epidemia.py:69-76 | the turn of an agent that is not infected (healthy, protected or quarantined) is exactly its quarantine countdown followed by its mask countdown, applied to that agent only |
| `Poblacion.ActualizarHasta` | Epidemia/epidemia.py:67-76 | after the first n turns: positions kept, only allowed state changes, infected agents stay infected, the agents that had their turn are coherent, the others changed only by infection |
| `Poblacion.Actualizar` | Epidemia/epidemia.py:67-76 | a pass keeps the length and every position; it never cures an infected agent; it only makes allowed state changes; it leaves every agent coherent whatever the input; it keeps a valid population valid |
| `Poblacion.TrasSuTurno` | Epidemia/epidemia.py:67-71 | after an agent's own turn, the rest of the pass can only infect it: it ends the pass as it left its turn, or infected if it left healthy |
| `Poblacion.CuentaAtrasEnLaPasada` | Epidemia/epidemia.py:67-76 | a pass runs the countdown of every quarantined or protected agent: with time left, the agent ends the pass with the same state and position and that timer lowered by `dt`; when the time runs out it ends healthy, or infected by a later agent of the same pass |
| `Poblacion.BarridoContagia` | Epidemia/epidemia.py:70-71 | during an infected agent's scan, a healthy agent in range whose draw succeeds is infected once the scan has passed it |
| `Poblacion.InfectadoHastaElFinal` | Epidemia/epidemia.py:68-76 | an agent infected at some point of a pass is still infected at every later point of it |
| `Poblacion.ContagioEnLaPasada` | Epidemia/epidemia.py:68-71 | an agent that is infected when its own turn comes, including one infected earlier in the same pass, infects in that pass every then-healthy agent in range whose draw succeeds |
| `Poblacion.OrigenDelContagio` | Epidemia/epidemia.py:68-71 | the converse: an agent not infected when the pass began that is infected after the first n turns was infected at the turn of some earlier agent j that was then infected and in range of it, while it was still healthy, with a successful draw `exito(j, k)` |
| `Poblacion.BarridoSinVictimas` | Epidemia/epidemia.py:70-71 | a scan changes nothing when no healthy agent is within range of the scanning agent |
| `Poblacion.TurnoDeSano` | Epidemia/epidemia.py:69-76 | the turn of a healthy agent changes nothing |
| `Poblacion.Movidos` | Epidemia/epidemia.py:151-152 | moving everyone changes no state and no timer; quarantined agents stay where they are; every other agent ends on the grid; from the grid each coordinate changes by at most one; a valid population stays valid |
| `Poblacion.Reiniciado` | Epidemia/epidemia.py:109-111 | the drawn agent becomes infected whatever its state, its timers and position unchanged; every other agent is unchanged; a valid population stays valid |
| `Poblacion.Inicial` | Epidemia/epidemia.py:123-124 | the initial agents sit at the drawn positions with both timers at zero; agent 0 is the only infected one and all others are healthy |
| `Poblacion.InicialValida` | Epidemia/epidemia.py:123-124 | positions drawn in the grid give a valid initial population |
| `Poblacion.ConCubrebocasTodos` | Epidemia/epidemia.py:141-142 | the mask-all command applies the masking rule to each agent and keeps a valid population valid |
| `Poblacion.EnCuarentenaTodos` | Epidemia/epidemia.py:144-145 | the quarantine-all command applies the quarantine rule to each agent, leaves no agent infected and keeps a valid population valid |
| `Poblacion.ComandosIdempotentes` | Epidemia/epidemia.py:140-145 | pressing either command key twice has the effect of pressing it once |
| `Poblacion.Paso` | Epidemia/epidemia.py:151-153 | a running step keeps the length; it keeps every on-grid coherent agent so; an agent quarantined at its start does not move; infected agents stay infected |
| `Poblacion.PasoConservaValida` | Epidemia/epidemia.py:150-158 | a running step keeps a valid population valid |
| `Poblacion.TiempoTrasPaso` | Epidemia/epidemia.py:150-158 | the elapsed-time counter is reset to zero exactly when every agent is healthy after the step, and otherwise grows by dt |
| `Poblacion.CubrebocasRechazadoTrasReinicio` | Epidemia/epidemia.py:46-49 | a protected agent that is reseeded, quarantined and released is healthy with its old positive mask time, and the mask command then leaves it unchanged |
| `Poblacion.ReinicioSobreCuarentena` | Epidemia/epidemia.py:109-111 | reseeding an all-quarantined valid population leaves exactly the drawn agent infected, and the population valid |
| `Simulacion.Revisar` | Epidemia/epidemia.py:71 | one check of the scan changes at most the checked agent, as `Contagiado` says |
| `Simulacion.Barrer` | Epidemia/epidemia.py:70-71 | the in-place scan leaves the objects in exactly the state `Barrido` computes |
| `Simulacion.TurnoDe` | Epidemia/epidemia.py:69-76 | the in-place turn leaves the objects in exactly the state `Turno` computes |
| `Simulacion.UpdateSimulation` | Epidemia/epidemia.py:67-76 | the in-place pass over the list leaves the objects in exactly the state `Actualizar` computes from their old states |
| `Simulacion.ReiniciarInfeccion` | Epidemia/epidemia.py:109-111 | only the drawn object changes, as `Reiniciado` says |
| `Simulacion.PonerCubrebocasATodos` | Epidemia/epidemia.py:141-142 | the command loop leaves the objects as `ConCubrebocasTodos` says |
| `Simulacion.PonerEnCuarentenaATodos` | Epidemia/epidemia.py:144-145 | the command loop leaves the objects as `EnCuarentenaTodos` says |
| `Simulacion.TodosSanosAhora` | Epidemia/epidemia.py:156 | the answer is true exactly when every listed agent is healthy |
| `Simulacion.PasoSimulacion` | Epidemia/epidemia.py:150-158 | the running step leaves the objects as `Paso` says, and returns the elapsed time as `TiempoTrasPaso` says |
| `Simulacion.CrearPersonas` | Epidemia/epidemia.py:123-124 | start-up creates 20 fresh, distinct agents in the state `Inicial` describes, and the population is valid |
| `Escenarios.TurnoDeInfectado` | Epidemia/epidemia.py:69-76 | the turn of an infected agent is its scan: its countdowns do nothing |
| `Escenarios.TurnoDeProtegido` | Epidemia/epidemia.py:69-76 | the turn of a protected agent only runs its mask countdown |
| `Escenarios.UnContagio` | Epidemia/epidemia.py:69-71 | in a population of any size, when an infected agent has exactly one healthy agent in range and the draw for it succeeds, its turn infects that agent and changes nothing else |
| `Escenarios.SoloElVecino` | Epidemia/epidemia.py:67-76 | with sure draws, an infected agent infects the healthy agent close to it and not one close to neither |
| `Escenarios.CadenaEnOrdenGeneral` | Epidemia/epidemia.py:67-71 | a chain A, B, C listed in that order with A infected ends all infected in one pass |
| `Escenarios.CadenaAlRevesGeneral` | Epidemia/epidemia.py:67-71 | the same chain listed C, B, A leaves C healthy after the pass |
| `Escenarios.ExpiraYSeContagiaGeneral` | Epidemia/epidemia.py:67-76 | a protected agent whose mask runs out at its turn is infected in the same pass by a close infected agent listed after it |
| `Escenarios.ExpiraDespuesDelContagioGeneral` | Epidemia/epidemia.py:67-76 | with the infected agent listed first, the protected agent ends the pass healthy |
| `Escenarios.VecinoCercanoYLejano` | Epidemia/epidemia.py:67-76 | with sure draws, an infected agent at (0,0) infects a neighbour at (1,0) and not an agent at (40,40) |
| `Escenarios.CadenaEnOrden` | Epidemia/epidemia.py:68-71 | agents listed at (0,0) infected, then (8,0) and (16,0) healthy: with sure draws all three end infected, the last one through the middle one in the same pass |
| `Escenarios.CadenaAlReves` | Epidemia/epidemia.py:68-71 | the same agents listed the other way round: the agent at (16,0) stays healthy |
| `Escenarios.ExpiraYSeContagia` | Epidemia/epidemia.py:68-76 | a protected agent at (0,0) with 0.05 of mask time left, listed before an infected agent at (1,0): a pass of 0.1 with sure draws ends with both infected |
| `Escenarios.ExpiraDespuesDelContagio` | Epidemia/epidemia.py:68-76 | the same two agents with the infected one listed first: the formerly protected agent ends the pass healthy |

## Left out

- The pygame window, the clock, font and colour constants, `draw_personas`,
  and the event loop with its key dispatch (epidemia.py:1-6, 18-24, 78-107,
  113-147). They are input and output. Only the effects of the three
  commands and of the running step are modelled.
- The `simulation_running` flag and the quit command. They only decide
  whether the running step happens in a frame.
- The `random` module. Its results are parameters: movement steps of ±1,
  infection draws as booleans, the reseed index and the start-up
  positions. `PROBABILIDAD_INFECCION` and the distributions are not modelled.
- Floating point. Timers and `dt` are exact reals, and
  `clock.tick(FPS) / 1000` is not modelled. The square root is replaced by
  the equivalent integer comparison (see `RaizComparada`).
- Aliasing inside the list. Every procedure over the list requires its
  objects to be distinct, as the list built at start-up is.
- `Simulacion.ReiniciarInfeccion`: on an empty list `random.randint(0, -1)`
  raises `ValueError`. The model takes the drawn index as a parameter that
  must lie in the list, so that error path is not modelled. The population
  always has 20 agents.
