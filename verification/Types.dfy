/** Vocabulary shared by every module of the model. */
module Types {

  datatype Option<+T> = None | Some(value: T)

  datatype Result<+T, +E> = Ok(value: T) | Err(error: E)

  type PathId = string
  type UnitId = string
  type EventId = string
  type Sku = string

  /** An instant; a critical pull time (CPT) is one. Only its order matters here. */
  type Time = int

  /** The lifecycle of a work unit, and of the pool entry that follows it. */
  datatype Stage = Pending | Released | Completed {
    function Rank(): nat {
      match this
      case Pending => 0
      case Released => 1
      case Completed => 2
    }
  }
}
