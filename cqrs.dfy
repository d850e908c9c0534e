/**
 * The generic event-sourcing engine of cqrs.kt: an aggregate is three pure
 * functions (decide, apply, the empty state) over one family of commands,
 * states and events; its current state is the fold of `apply` over its
 * stream, and the command handler reads, replays, decides and, on success,
 * appends.
 */
module Cqrs {
  import opened Utils
  import opened TestEventStore

  /** A wall-clock reading in milliseconds, supplied by the caller. */
  type Millis = int

  /** A state together with the number of events folded to reach it. */
  datatype StateVersioned<S> = StateVersioned(state: S, version: int)

  /**
   * The aggregate contract. `decide` receives the clock reading that stamps
   * the events it creates; `streamOf` is the stream id every command carries.
   */
  datatype Aggregate<!C, !S, !E, K> = Aggregate(
    decide: (C, S, Millis) -> Either<string, seq<E>>,
    apply: (S, E) -> S,
    notExistState: S,
    streamOf: C -> K)

  /**
   * Folds `apply` over `events`, oldest first, from `start`, counting one
   * version per event whatever its effect.
   */
  function ReplayFrom<C, S, E, K>(aggregate: Aggregate<C, S, E, K>, start: StateVersioned<S>, events: seq<E>): (r: StateVersioned<S>)
    ensures r.version == start.version + |events|
    ensures events == [] ==> r == start
    decreases |events|
  {
    if events == [] then start
    else
      var previous := ReplayFrom(aggregate, start, events[..|events| - 1]);
      StateVersioned(aggregate.apply(previous.state, events[|events| - 1]), previous.version + 1)
  }

  /** The versioned state of a stream holding `events`, replayed from the empty state. */
  function Replayed<C, S, E, K>(aggregate: Aggregate<C, S, E, K>, events: seq<E>): (r: StateVersioned<S>)
    ensures r.version == |events|
    ensures events == [] ==> r.state == aggregate.notExistState
  {
    ReplayFrom(aggregate, StateVersioned(aggregate.notExistState, 0), events)
  }

  /** Replaying a concatenation is replaying the second part from where the first left off. */
  lemma {:induction false} ReplayFromConcat<C, S, E, K>(aggregate: Aggregate<C, S, E, K>, start: StateVersioned<S>, e1: seq<E>, e2: seq<E>)
    ensures ReplayFrom(aggregate, start, e1 + e2) == ReplayFrom(aggregate, ReplayFrom(aggregate, start, e1), e2)
    decreases |e2|
  {
    if e2 == [] {
      assert e1 + e2 == e1;
    } else {
      var init := e2[..|e2| - 1];
      assert (e1 + e2)[..|e1 + e2| - 1] == e1 + init;
      assert (e1 + e2)[|e1 + e2| - 1] == e2[|e2| - 1];
      ReplayFromConcat(aggregate, start, e1, init);
    }
  }

  /** The state after `e1 ++ e2` is `e2` folded onto the state after `e1`; versions add up. */
  lemma ReplayedConcat<C, S, E, K>(aggregate: Aggregate<C, S, E, K>, e1: seq<E>, e2: seq<E>)
    ensures Replayed(aggregate, e1 + e2).state == ReplayFrom(aggregate, Replayed(aggregate, e1), e2).state
    ensures Replayed(aggregate, e1 + e2).version == Replayed(aggregate, e1).version + |e2|
  {
    ReplayFromConcat(aggregate, StateVersioned(aggregate.notExistState, 0), e1, e2);
  }

  /** One more event is one more `apply` on the state so far. */
  lemma ReplayedSnoc<C, S, E, K>(aggregate: Aggregate<C, S, E, K>, events: seq<E>, event: E)
    ensures Replayed(aggregate, events + [event]).state == aggregate.apply(Replayed(aggregate, events).state, event)
  {
    assert (events + [event])[..|events + [event]| - 1] == events;
  }

  /** The replay loop of the aggregate contract. */
  method Replay<C, S, E, K>(aggregate: Aggregate<C, S, E, K>, events: seq<E>) returns (versioned: StateVersioned<S>)
    ensures versioned == Replayed(aggregate, events)
  {
    var currentState := aggregate.notExistState;
    var version := 0;
    for i := 0 to |events|
      invariant StateVersioned(currentState, version) == Replayed(aggregate, events[..i])
    {
      assert events[..i + 1][..i] == events[..i];
      currentState := aggregate.apply(currentState, events[i]);
      version := version + 1;
    }
    assert events[..|events|] == events;
    versioned := StateVersioned(currentState, version);
  }

  /** What handling a command reports; every variant carries the command. */
  datatype HandleCommandResult<C, E> =
    | SuccessfullyHandleCommand(command: C, eventEmitted: seq<E>)
    | FailedToHandleCommand(command: C, reason: string)
    | NoopToHandleCommand(command: C)

  /**
   * Turns a decision into a handling result: a rejection fails with its
   * reason, an empty event list is a no-op, anything else succeeds with
   * exactly the emitted events.
   */
  function Resolve<C, E>(command: C, decision: Either<string, seq<E>>): (r: HandleCommandResult<C, E>)
    ensures r.command == command
    ensures r.FailedToHandleCommand? <==> decision.Left?
    ensures r.FailedToHandleCommand? ==> r.reason == decision.left
    ensures r.NoopToHandleCommand? <==> decision.Right? && decision.right == []
    ensures r.SuccessfullyHandleCommand? ==> decision.Right? && decision.right == r.eventEmitted && r.eventEmitted != []
  {
    Fold(decision,
         (reason: string) => FailedToHandleCommand(command, reason),
         (emitted: seq<E>) =>
           if |emitted| == 0 then NoopToHandleCommand(command)
           else SuccessfullyHandleCommand(command, emitted))
  }

  /** The result of handling `command` against a stream whose history is `history`. */
  function Handled<C, S, E, K>(aggregate: Aggregate<C, S, E, K>, command: C, history: seq<E>, now: Millis): HandleCommandResult<C, E>
  {
    Resolve(command, aggregate.decide(command, Replayed(aggregate, history).state, now))
  }

  class CqrsEngine<K(==,!new), E> {

    const eventStore: EventStoreForTest<K, E>

    constructor(eventStore: EventStoreForTest<K, E>)
      ensures this.eventStore == eventStore
    {
      this.eventStore := eventStore;
    }

    /**
     * The handler as cqrs.kt writes it: read, replay, decide, fold the
     * decision into a result. It never writes the store.
     */
    method HandleCommandAsWritten<C, S>(aggregate: Aggregate<C, S, E, K>, command: C, now: Millis)
      returns (result: HandleCommandResult<C, E>)
      ensures result == Handled(aggregate, command, eventStore.Events(aggregate.streamOf(command)), now)
    {
      var previousEvents := eventStore.GetEventForAggregate(aggregate.streamOf(command));
      var versionedState := Replay(aggregate, previousEvents);
      result := Resolve(command, aggregate.decide(command, versionedState.state, now));
    }

    /**
     * The handler the tests rely on: as above, and on success the emitted
     * events are appended to the command's stream. Rejections and no-ops
     * leave the store untouched.
     */
    method HandleCommand<C, S>(aggregate: Aggregate<C, S, E, K>, command: C, now: Millis)
      returns (result: HandleCommandResult<C, E>)
      modifies eventStore
      ensures result == Handled(aggregate, command, old(eventStore.Events(aggregate.streamOf(command))), now)
      ensures result.SuccessfullyHandleCommand? ==>
        eventStore.cache == old(eventStore.cache)[CacheEntryFrom(aggregate.streamOf(command)) :=
          old(eventStore.Events(aggregate.streamOf(command))) + result.eventEmitted]
      ensures !result.SuccessfullyHandleCommand? ==> eventStore.cache == old(eventStore.cache)
      ensures result.SuccessfullyHandleCommand? ==>
        eventStore.Events(aggregate.streamOf(command)) == old(eventStore.Events(aggregate.streamOf(command))) + result.eventEmitted
      ensures forall other :: other != aggregate.streamOf(command) ==> eventStore.Events(other) == old(eventStore.Events(other))
    {
      var stream := aggregate.streamOf(command);
      var previousEvents := eventStore.GetEventForAggregate(stream);
      var versionedState := Replay(aggregate, previousEvents);
      result := Resolve(command, aggregate.decide(command, versionedState.state, now));
      if result.SuccessfullyHandleCommand? {
        eventStore.AppendEvents(stream, result.eventEmitted);
      }
    }
  }
}
