# Simple thermal simulation component — a verified model

This project models the thermal simulation component `SimpleThermalComponent`. The component
wraps one runtime engine instance of the Modelica model `SimpleThermalMVP` and exposes it
to a host orchestrator through the uniform simulation-component interface:

- `initialize`, `reset`, `set_input`, `set_bool_input`, `get_output` and `step` each forward
  one call to the engine, unchanged.
- `get_all_outputs` collects a best-effort snapshot of the two outputs.
- `metadata` and `component_type` return a fixed self-description.

Modules:

- `Component` (`component.dfy`): the schema types the component builds and returns.
  These are `IOType`, `IOSpec`, `ComponentMetadata`, the error kinds `ComponentError` and
  `ComponentResult`. It also holds the well-formedness predicate for metadata: input names
  are unique and output names are unique. Signal values are an opaque type `Value`. The
  component never computes with values; it only passes them through.
- `Runtime` (`runtime.dfy`): the runtime engine, kept abstract. `Runtime` is an opaque
  `State` plus the model name and an `Engine`. The `Engine` is a record of uninterpreted
  operations: create, reset, set real, set Boolean, get real, step. Each state-changing
  operation yields the next state and its result, so the engine keeps its own policy on
  failure.
- `SimpleThermal` (`simple_thermal.dfy`): the component. It is a class whose `runtime`
  field the `&mut self` operations replace in place. It also holds `DeclaredSnapshot`, a
  reference definition of "read every declared output and keep the reads that succeed",
  with the lemmas relating `get_all_outputs` to it and to the metadata.

`component_type` and `metadata` do not use `self`, so they are static functions here.
`get_output` only reads, so it is a function. `get_all_outputs` builds its map step by
step, so it is a method. It has no `modifies` clause, so it provably changes nothing.

The design notes of the system say a component should check names against its declared
signals before forwarding. The code does not do this: every forward passes any name to the
engine. The model follows the code. No forward has a precondition on the name, and the
engine decides every error.

## Model

| member | source | states |
|---|---|---|
| SimpleThermal.SimpleThermalComponent.New | src/thermal/simple_thermal.rs:10-14 | creation succeeds exactly when the engine can create the model "SimpleThermalMVP"; on failure it returns the engine's error unchanged; on success the component is fresh, owns that new runtime, and keeps its invariant |
| SimpleThermal.SimpleThermalComponent.constructor | src/thermal/simple_thermal.rs:11-13 | the component owns the given runtime, which must be bound to the thermal model |
| SimpleThermal.SimpleThermalComponent.ComponentType | src/thermal/simple_thermal.rs:18-20 | the type tag equals the metadata's name and the model name the runtime is created with |
| SimpleThermal.ComponentTypeIsNotCategory | src/thermal/simple_thermal.rs:18-60 | component_type returns the metadata's name "SimpleThermalMVP", which differs from the metadata's category "Thermal" |
| SimpleThermal.SimpleThermalComponent.Metadata | src/thermal/simple_thermal.rs:57-84 | the metadata is well formed (input names distinct, output names distinct); category "Thermal"; exactly one input "heaterOn" of type Boolean; exactly the outputs "temperature" (unit "K") and "heaterStatus" (no unit), both Real |
| SimpleThermal.SimpleThermalComponent.Initialize | src/thermal/simple_thermal.rs:22-24 | new runtime and result are exactly those of the runtime's reset; the runtime stays bound to the thermal model |
| SimpleThermal.SimpleThermalComponent.SetInput | src/thermal/simple_thermal.rs:26-28 | name and value go to the runtime's real setter unchanged, for any name; new runtime and result (success or error) are the setter's |
| SimpleThermal.SimpleThermalComponent.SetBoolInput | src/thermal/simple_thermal.rs:30-32 | name and value go to the runtime's Boolean setter unchanged, for any name; new runtime and result are the setter's |
| SimpleThermal.SimpleThermalComponent.GetOutput | src/thermal/simple_thermal.rs:34-36 | the result, success value or error, is the engine's real read of that name in the current state; reading changes nothing |
| SimpleThermal.SimpleThermalComponent.Step | src/thermal/simple_thermal.rs:38-40 | dt goes to the runtime's step unchanged; new runtime and result are the step's |
| SimpleThermal.SimpleThermalComponent.Reset | src/thermal/simple_thermal.rs:42-44 | same contract as Initialize: the runtime's reset, unchanged |
| SimpleThermal.InitializeActsAsReset | src/thermal/simple_thermal.rs:22-44 | from equal runtimes, initialize and reset leave equal runtimes and return equal results |
| SimpleThermal.SimpleThermalComponent.GetAllOutputs | src/thermal/simple_thermal.rs:46-55 | never fails; keys are a subset of {"temperature", "heaterStatus"}; each key is present exactly when get_output of it succeeds, and holds the value read; the map equals the snapshot of every declared output; every key is a declared Real output; state unchanged |
| SimpleThermal.DeclaredSnapshotSpec | src/thermal/simple_thermal.rs:47-54 | for any signal list, a name is in the best-effort snapshot exactly when it is declared and its real read succeeds, and then it maps to the value read |
| SimpleThermal.SnapshotKeysAreDeclaredRealOutputs | src/thermal/simple_thermal.rs:48-82 | when every listed signal is Real (as the thermal metadata's outputs are), every key of the snapshot is the name of a listed signal declared Real |
| SimpleThermal.SnapshotSizeBound | src/thermal/simple_thermal.rs:47-54 | the snapshot holds at most one entry per declared output |

## Left out

- The runtime engine's internals are not part of this model. That covers how it solves,
  stores variables, advances time, and picks between unknown-variable, type-mismatch and
  runtime-failure errors. The engine is a record of uninterpreted operations over an
  opaque state.
- Floating-point values and arithmetic: values and `dt` are an opaque type. No physical
  claim is made. For example, "heater on does not lower temperature" is solver
  behaviour, not a promise of this wrapper.
- Engine-level properties are out of scope: reset idempotence, "no change after a failed
  set", and reads succeeding after initialize. The engine decides its next state and
  result on success and failure alike.
- The conversion Rust's `?` applies to the engine's creation error is taken as the
  identity.
- The `Send` and `Sync` markers (src/thermal/simple_thermal.rs:87-88) carry no behaviour.
  Concurrent use is not modelled.
- Unit and description strings are kept only as literal values. They are never
  validated.
