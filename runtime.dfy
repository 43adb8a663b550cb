/** The runtime engine a component wraps, kept abstract: an opaque state and
    operations whose effects are uninterpreted. How the engine solves, stores
    variables, advances time or picks its error kind is not modelled. */
module Runtime {
  import opened Component

  /** The engine's internal simulation state. */
  type State

  /** The engine's behaviour. Every state-changing operation yields the state it
      leaves behind together with its result, so that what the engine does on
      failure stays the engine's own policy. */
  datatype Engine = Engine(
    create: string -> ComponentResult<State>,
    reset: State -> (State, ComponentResult<()>),
    setReal: (State, string, Value) -> (State, ComponentResult<()>),
    setBool: (State, string, bool) -> (State, ComponentResult<()>),
    getReal: (State, string) -> ComponentResult<Value>,
    step: (State, Value) -> (State, ComponentResult<()>))

  /** One engine instance, bound at creation to a model name. */
  datatype Runtime = Runtime(model: string, engine: Engine, state: State)
  {
    /** Creates an instance of the named model; fails when the engine cannot. */
    static function New(engine: Engine, model: string): (r: ComponentResult<Runtime>)
    {
      match engine.create(model)
      case Ok(s) => Ok(Runtime(model, engine, s))
      case Err(e) => Err(e)
    }

    /** Reads a real-valued variable; reading never changes the instance. */
    function GetRealVariable(name: string): (r: ComponentResult<Value>)
    {
      engine.getReal(state, name)
    }

    /** The instance after an engine transition, still bound to the same model. */
    function With(s: State): (rt: Runtime)
    {
      this.(state := s)
    }

    function Reset(): (r: (Runtime, ComponentResult<()>))
      ensures r.0.model == model && r.0.engine == engine
    {
      var (s, res) := engine.reset(state);
      (With(s), res)
    }

    function SetRealVariable(name: string, value: Value): (r: (Runtime, ComponentResult<()>))
      ensures r.0.model == model && r.0.engine == engine
    {
      var (s, res) := engine.setReal(state, name, value);
      (With(s), res)
    }

    function SetBoolVariable(name: string, value: bool): (r: (Runtime, ComponentResult<()>))
      ensures r.0.model == model && r.0.engine == engine
    {
      var (s, res) := engine.setBool(state, name, value);
      (With(s), res)
    }

    function Step(dt: Value): (r: (Runtime, ComponentResult<()>))
      ensures r.0.model == model && r.0.engine == engine
    {
      var (s, res) := engine.step(state, dt);
      (With(s), res)
    }
  }
}
