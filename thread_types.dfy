/** Values shared by the comment-thread widget model: the thread's collapsible
    state, comments, and the placement handed to the editor's zone widget. */
module ThreadTypes {

  datatype Option<T> = None | Some(value: T)

  /** The thread's collapsible state. The host enum encodes it as a number:
      Collapsed = 0, Expanded = 1. */
  datatype CollapsibleState = Collapsed | Expanded

  function Ordinal(s: CollapsibleState): nat
  {
    match s
    case Collapsed => 0
    case Expanded => 1
  }

  /** JavaScript truthiness of an optional enum value: `undefined` and `0` are falsy. */
  predicate Truthy(s: Option<CollapsibleState>)
  {
    s.Some? && Ordinal(s.value) != 0
  }

  /** The early-return guard of `display`, `collapsibleState && collapsibleState !== Expanded`,
      evaluated as JavaScript evaluates it. */
  predicate DisplayGuard(s: Option<CollapsibleState>)
  {
    Truthy(s) && s != Some(Expanded)
  }

  /** Because Collapsed is encoded as 0, the guard holds for no state at all:
      neither an absent state, nor Collapsed, nor Expanded makes `display` return early. */
  lemma DisplayGuardNeverHolds(s: Option<CollapsibleState>)
    ensures !DisplayGuard(s)
  {
  }

  /** A comment of the thread. Datatype equality stands for object identity:
      `id` tells apart two comment objects whose other contents agree. */
  datatype Comment = Comment(id: nat, userName: string)

  /** The options passed to the zone widget's `show`: the anchor line and the height in lines. */
  datatype Placement = Placement(afterLineNumber: int, heightInLines: int)
}
