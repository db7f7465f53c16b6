/** Outcome of the device-dependent steps: the fuzzers raise a RuntimeError for a
    device they have no coordinates for; here that error is a value. */
module Results {

  /** The one error the modelled scripts raise. */
  datatype Error = UnsupportedDevice(device: string)
  {
    /** The text of the RuntimeError the scripts raise. */
    function Message(): string
    {
      "Unsupported TRELLIS_DEVICE '" + device + "' for this fuzzer"
    }
  }

  datatype Option<+T> = None | Some(value: T)

  datatype Result<+T> = Ok(value: T) | Err(error: Error)
  {
    predicate IsFailure() { Err? }

    function PropagateFailure<U>(): Result<U>
      requires Err?
    {
      Err(error)
    }

    function Extract(): T
      requires Ok?
    {
      value
    }
  }
}
