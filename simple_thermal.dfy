/** The thermal component: a wrapper owning one runtime engine instance of the
    "SimpleThermalMVP" model. Every lifecycle and I/O operation forwards one call
    to the runtime, unchanged; `GetAllOutputs` collects a best-effort snapshot of
    the declared outputs; `Metadata` is the component's fixed self-description. */
module SimpleThermal {
  import opened Component
  import opened Runtime

  /** The model name the runtime instance is created for. */
  const ModelName: string := "SimpleThermalMVP"

  /** The reference meaning of a best-effort output snapshot: read every declared
      output, in declaration order, with the real-valued accessor, and insert each
      read that succeeds (a later insert of the same name overwrites an earlier). */
  function DeclaredSnapshot(specs: seq<IOSpec>, rt: Runtime): (snap: map<string, Value>)
    decreases |specs|
  {
    if specs == [] then map[]
    else
      var before := DeclaredSnapshot(specs[..|specs| - 1], rt);
      var name := specs[|specs| - 1].name;
      match rt.GetRealVariable(name)
      case Ok(v) => before[name := v]
      case Err(_) => before
  }

  /** A name is in the snapshot exactly when it is declared and its read succeeds,
      and then it maps to the value read. */
  lemma {:induction false} DeclaredSnapshotSpec(specs: seq<IOSpec>, rt: Runtime, k: string)
    ensures k in DeclaredSnapshot(specs, rt) <==> k in Names(specs) && rt.GetRealVariable(k).Ok?
    ensures k in DeclaredSnapshot(specs, rt) ==> DeclaredSnapshot(specs, rt)[k] == rt.GetRealVariable(k).value
    decreases |specs|
  {
    if specs != [] {
      var prefix := specs[..|specs| - 1];
      DeclaredSnapshotSpec(prefix, rt, k);
      assert Names(specs) == Names(prefix) + [specs[|specs| - 1].name];
    }
  }

  /** When every listed signal is Real, every key of the snapshot names one of
      them: the snapshot invents no key and none of another accessor family. */
  lemma {:induction false} SnapshotKeysAreDeclaredRealOutputs(specs: seq<IOSpec>, rt: Runtime, k: string)
    requires forall i :: 0 <= i < |specs| ==> specs[i].ioType == Real
    requires k in DeclaredSnapshot(specs, rt)
    ensures Declares(specs, k, Real)
  {
    DeclaredSnapshotSpec(specs, rt, k);
    var i :| 0 <= i < |specs| && Names(specs)[i] == k;
    assert specs[i].name == k && specs[i].ioType == Real;
  }

  /** The snapshot holds at most one entry per listed signal. */
  lemma {:induction false} SnapshotSizeBound(specs: seq<IOSpec>, rt: Runtime)
    ensures |DeclaredSnapshot(specs, rt)| <= |specs|
    decreases |specs|
  {
    if specs != [] {
      SnapshotSizeBound(specs[..|specs| - 1], rt);
    }
  }

  class SimpleThermalComponent {
    /** The owned engine instance; the forwarding operations replace it in place. */
    var runtime: Runtime

    /** The runtime stays bound to the model this component reports as its type. */
    ghost predicate Valid()
      reads this
    {
      runtime.model == ComponentType()
    }

    constructor (rt: Runtime)
      requires rt.model == ModelName
      ensures Valid() && runtime == rt
    {
      runtime := rt;
    }

    /** Creates the component with a fresh runtime for the thermal model; fails,
        with the engine's error, exactly when the engine cannot create it. */
    static method New(engine: Engine) returns (r: ComponentResult<SimpleThermalComponent>)
      ensures r.Ok? <==> engine.create(ModelName).Ok?
      ensures r.Ok? ==> fresh(r.value) && r.value.Valid()
                        && r.value.runtime == Runtime.New(engine, ModelName).value
      ensures r.Err? ==> r.error == engine.create(ModelName).error
    {
      var rt := Runtime.New(engine, ModelName);
      match rt
      case Ok(instance) =>
        var c := new SimpleThermalComponent(instance);
        r := Ok(c);
      case Err(e) =>
        r := Err(e);
    }

    /** The type tag: the model name, equal to the metadata's name and different
        from the metadata's category. */
    static function ComponentType(): (t: string)
      ensures t == Metadata().name
      ensures t == ModelName
    {
      "SimpleThermalMVP"
    }

    /** The fixed self-description: one Boolean input and two Real outputs, with
        unique names on each side. */
    static function Metadata(): (md: ComponentMetadata)
      ensures WellFormed(md)
      ensures md.componentType == "Thermal"
      ensures Names(md.inputs) == ["heaterOn"] && md.inputs[0].ioType == Boolean
      ensures Names(md.outputs) == ["temperature", "heaterStatus"]
      ensures forall i :: 0 <= i < |md.outputs| ==> md.outputs[i].ioType == Real
      ensures md.outputs[0].unit == Some("K") && md.outputs[1].unit == None
    {
      ComponentMetadata(
        "SimpleThermalMVP",
        "Thermal",
        [IOSpec("heaterOn", Boolean, None, Some("Heater control signal"))],
        [IOSpec("temperature", Real, Some("K"), Some("Current room temperature")),
         IOSpec("heaterStatus", Real, None, Some("Heater status (0=off, 1=on)"))])
    }

    /** Returns the runtime to its initial state: the runtime's reset, unchanged. */
    method Initialize() returns (r: ComponentResult<()>)
      requires Valid()
      modifies this
      ensures Valid()
      ensures (runtime, r) == old(runtime.Reset())
    {
      var (rt, res) := runtime.Reset();
      runtime, r := rt, res;
    }

    /** Forwards a real-valued input; no check against the declared inputs. */
    method SetInput(name: string, value: Value) returns (r: ComponentResult<()>)
      requires Valid()
      modifies this
      ensures Valid()
      ensures (runtime, r) == old(runtime.SetRealVariable(name, value))
    {
      var (rt, res) := runtime.SetRealVariable(name, value);
      runtime, r := rt, res;
    }

    /** Forwards a Boolean input; no check against the declared inputs. */
    method SetBoolInput(name: string, value: bool) returns (r: ComponentResult<()>)
      requires Valid()
      modifies this
      ensures Valid()
      ensures (runtime, r) == old(runtime.SetBoolVariable(name, value))
    {
      var (rt, res) := runtime.SetBoolVariable(name, value);
      runtime, r := rt, res;
    }

    /** Reads a real-valued output as the runtime reports it, success or error;
        no check against the declared outputs. */
    function GetOutput(name: string): (r: ComponentResult<Value>)
      reads this
      ensures r == runtime.engine.getReal(runtime.state, name)
    {
      runtime.GetRealVariable(name)
    }

    /** Advances the runtime by `dt`: the runtime's step, unchanged. */
    method Step(dt: Value) returns (r: ComponentResult<()>)
      requires Valid()
      modifies this
      ensures Valid()
      ensures (runtime, r) == old(runtime.Step(dt))
    {
      var (rt, res) := runtime.Step(dt);
      runtime, r := rt, res;
    }

    /** Same operation as `Initialize`. */
    method Reset() returns (r: ComponentResult<()>)
      requires Valid()
      modifies this
      ensures Valid()
      ensures (runtime, r) == old(runtime.Reset())
    {
      var (rt, res) := runtime.Reset();
      runtime, r := rt, res;
    }

    /** Best-effort snapshot of the two outputs: a name is present exactly when its
        read succeeds, and holds the value read. It never fails, invents no key,
        changes nothing, and agrees with a read of every declared output. */
    method GetAllOutputs() returns (outputs: map<string, Value>)
      ensures outputs.Keys <= {"temperature", "heaterStatus"}
      ensures "temperature" in outputs <==> GetOutput("temperature").Ok?
      ensures "temperature" in outputs ==> outputs["temperature"] == GetOutput("temperature").value
      ensures "heaterStatus" in outputs <==> GetOutput("heaterStatus").Ok?
      ensures "heaterStatus" in outputs ==> outputs["heaterStatus"] == GetOutput("heaterStatus").value
      ensures outputs == DeclaredSnapshot(Metadata().outputs, runtime)
      ensures forall k :: k in outputs ==> Declares(Metadata().outputs, k, Real)
    {
      outputs := map[];
      var temp := runtime.GetRealVariable("temperature");
      if temp.Ok? {
        outputs := outputs["temperature" := temp.value];
      }
      var status := runtime.GetRealVariable("heaterStatus");
      if status.Ok? {
        outputs := outputs["heaterStatus" := status.value];
      }
      var outs := Metadata().outputs;
      assert outs[..1][..0] == [];
      assert outputs == DeclaredSnapshot(outs, runtime);
      forall k | k in outputs
        ensures Declares(outs, k, Real)
      {
        SnapshotKeysAreDeclaredRealOutputs(outs, runtime, k);
      }
    }
  }

  /** `component_type` reports the model name, not the metadata's category tag. */
  lemma ComponentTypeIsNotCategory()
    ensures SimpleThermalComponent.ComponentType() == SimpleThermalComponent.Metadata().name
    ensures SimpleThermalComponent.ComponentType() != SimpleThermalComponent.Metadata().componentType
  {
  }

  /** From the same runtime, `Initialize` and `Reset` leave the same runtime
      behind and return the same result. */
  method InitializeActsAsReset(a: SimpleThermalComponent, b: SimpleThermalComponent)
    returns (ra: ComponentResult<()>, rb: ComponentResult<()>)
    requires a != b && a.Valid() && b.Valid() && a.runtime == b.runtime
    modifies a, b
    ensures a.runtime == b.runtime && ra == rb
  {
    ra := a.Initialize();
    rb := b.Reset();
  }
}
