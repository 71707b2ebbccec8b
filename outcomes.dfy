/** Small result types shared by the model: a Go value that may be nil, and a
    computation that may end in a runtime panic instead of returning. */
module Outcomes {

  datatype Option<+T> = None | Some(value: T)

  /** `Panic` stands for a Go run-time panic (a failed type assertion, a slice
      or index out of range); `reason` only documents which one. */
  datatype Result<+T> = Ok(value: T) | Panic(reason: string)
}
