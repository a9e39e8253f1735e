module Common {

  datatype Option<T> = None | Some(value: T)

  type TaskId = nat

  /** A position in a circle of `length` places, moved on by less than a round. */
  function Wrap(p: nat, length: nat): (r: nat)
    requires p < length + length
    ensures r < length
  {
    if p < length then p else p - length
  }
}
