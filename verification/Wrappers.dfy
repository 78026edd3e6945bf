module Wrappers {
  datatype Option<T> = None | Some(value: T)

  /** A run of a state machine: where it started, and each event with the state it led to. */
  datatype Trace<S, E> = From(state: S) | Then(before: Trace<S, E>, event: E, state: S) {
    ghost function First(): S {
      match this
      case From(s) => s
      case Then(before, _, _) => before.First()
    }

    ghost function Events(): seq<E> {
      match this
      case From(_) => []
      case Then(before, e, _) => before.Events() + [e]
    }

    ghost function States(): seq<S> {
      match this
      case From(s) => [s]
      case Then(before, _, s) => before.States() + [s]
    }
  }
}
