/** The component schema every simulation component declares: the signal
    descriptors, the self-description and the error taxonomy. Their shape
    follows how the thermal component builds and returns them. */
module Component {

  /** A scalar signal value. Components never compute with values; they only
      pass them between the host and the runtime engine, so it stays opaque. */
  type Value

  datatype Option<+T> = None | Some(value: T)

  /** The error kinds a component operation can return. */
  datatype ComponentError =
    | UnknownVariable(name: string)
    | TypeMismatch(name: string)
    | RuntimeFailure(message: string)

  datatype Result<+T, +E> = Ok(value: T) | Err(error: E)

  type ComponentResult<T> = Result<T, ComponentError>

  /** The accessor family a signal belongs to. */
  datatype IOType = Real | Boolean

  /** One named input or output signal. Unit and description are documentation only. */
  datatype IOSpec = IOSpec(name: string, ioType: IOType, unit: Option<string>, description: Option<string>)

  /** The static self-description of a component. */
  datatype ComponentMetadata = ComponentMetadata(
    name: string,
    componentType: string,
    inputs: seq<IOSpec>,
    outputs: seq<IOSpec>)

  /** The names of a list of signals, in declaration order. */
  function Names(specs: seq<IOSpec>): (names: seq<string>)
  {
    seq(|specs|, i requires 0 <= i < |specs| => specs[i].name)
  }

  /** No two signals in the list share a name. */
  predicate DistinctNames(specs: seq<IOSpec>)
  {
    forall i, j :: 0 <= i < j < |specs| ==> specs[i].name != specs[j].name
  }

  /** `name` is declared in `specs` with accessor family `t`. */
  predicate Declares(specs: seq<IOSpec>, name: string, t: IOType)
  {
    exists i :: 0 <= i < |specs| && specs[i].name == name && specs[i].ioType == t
  }

  /** Input names are unique among themselves, and so are output names. An input
      and an output may share a name: no cross-check is made at this layer. */
  predicate WellFormed(md: ComponentMetadata)
  {
    DistinctNames(md.inputs) && DistinctNames(md.outputs)
  }
}
