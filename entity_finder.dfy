/** The change event shared by all entity storages, and the one hard
    promise of `listAround`. */
module EntityFinder {
  import opened Base

  /** The payload of `onStateChanged`: the entities registered and the
      entities removed by one mutating call. */
  datatype StateChanged<+T> = StateChanged(registeredEntities: seq<T>, removedEntities: seq<T>)

  const EmptyStateChangedMessage := "No entities were registered or removed"

  /** `new StateChanged(registered, removed = [])`: throws a TypeError when
      both lists are empty, otherwise holds exactly the two lists given. */
  function NewStateChanged<T>(registeredEntities: seq<T>, removedEntities: seq<T> := []): (r: Result<StateChanged<T>>)
    ensures r.Throw? <==> registeredEntities == [] && removedEntities == []
    ensures r.Throw? ==> r.error == Error(TypeError, EmptyStateChangedMessage)
    ensures r.Ok? ==> (r.value.registeredEntities == registeredEntities &&
                       r.value.removedEntities == removedEntities)
  {
    if |registeredEntities| == 0 && |removedEntities| == 0 then
      Throw(Error(TypeError, EmptyStateChangedMessage))
    else
      Ok(StateChanged(registeredEntities, removedEntities))
  }

  /** An event as the storages dispatch it: it lists at least one entity. */
  predicate NonEmpty<T>(event: StateChanged<T>) {
    event.registeredEntities != [] || event.removedEntities != []
  }

  /** With the removed list left to its default, the event is accepted
      exactly when it registers at least one entity. */
  lemma OneArgumentNeedsRegistered<T>(registeredEntities: seq<T>)
    ensures NewStateChanged(registeredEntities).Ok? <==> registeredEntities != []
    ensures NewStateChanged(registeredEntities).Ok? ==> NewStateChanged(registeredEntities).value.removedEntities == []
  {
  }

  /** Every event that construction accepts is non-empty, and every non-empty
      pair of lists is accepted unchanged. */
  lemma AcceptedIffNonEmpty<T>(registeredEntities: seq<T>, removedEntities: seq<T>)
    ensures NewStateChanged(registeredEntities, removedEntities).Ok?
        <==> NonEmpty(StateChanged(registeredEntities, removedEntities))
    ensures NewStateChanged(registeredEntities, removedEntities).Ok? ==>
        NewStateChanged(registeredEntities, removedEntities).value == StateChanged(registeredEntities, removedEntities)
  {
  }

  /** The promise every `listAround` makes: a zero radius yields nothing.
      (Results farther than the radius are allowed, so nothing else is a
      hard postcondition.) */
  predicate ListAroundContract<T>(radius: real, result: seq<T>) {
    radius == 0.0 ==> result == []
  }
}
