/** The mediator: a dispatch table from a request type to the command
    handlers registered for it (a list, extended on each registration) or
    to its one query handler (replaced on each registration). Running a
    handler is a function the caller supplies. */
module Mediation {
  import opened Wrappers

  /** The two "not registered" errors, naming the request type. */
  datatype MediatorError<K> =
    | CommandHandlersNotRegistered(command_type: K)
    | QueryHandlerNotRegistered(query_type: K)

  /** The handlers registered for a command type; a type never registered
      has none, as the `defaultdict(list)` gives. */
  function HandlersFor<K, CH>(commands_map: map<K, seq<CH>>, command: K): (handlers: seq<CH>)
    ensures command !in commands_map ==> handlers == []
  {
    if command in commands_map then commands_map[command] else []
  }

  /** The table after registering `handlers` for `command`: they go after
      the ones already there, and every other type keeps its entry. */
  function WithCommandHandlers<K, CH>(commands_map: map<K, seq<CH>>, command: K, handlers: seq<CH>):
    (r: map<K, seq<CH>>)
    ensures command in r && r[command] == HandlersFor(commands_map, command) + handlers
    ensures r.Keys == commands_map.Keys + {command}
    ensures forall k :: k in commands_map && k != command ==> r[k] == commands_map[k]
  {
    commands_map[command := HandlersFor(commands_map, command) + handlers]
  }

  /** Registering two batches one after the other is registering them
      together, in that order. */
  lemma RegisterInSequence<K, CH>(commands_map: map<K, seq<CH>>, command: K, first: seq<CH>, second: seq<CH>)
    ensures WithCommandHandlers(WithCommandHandlers(commands_map, command, first), command, second) ==
            WithCommandHandlers(commands_map, command, first + second)
  {
    var once := WithCommandHandlers(commands_map, command, first);
    assert HandlersFor(once, command) + second == HandlersFor(commands_map, command) + (first + second);
  }

  class Mediator<K(==), CH, QH> {
    var commands_map: map<K, seq<CH>>
    var queries_map: map<K, QH>

    constructor()
      ensures commands_map == map[] && queries_map == map[]
    {
      commands_map := map[];
      queries_map := map[];
    }

    method RegisterCommand(command: K, command_handlers: seq<CH>)
      modifies this
      ensures commands_map == WithCommandHandlers(old(commands_map), command, command_handlers)
      ensures queries_map == old(queries_map)
    {
      commands_map := commands_map[command := HandlersFor(commands_map, command) + command_handlers];
    }

    method RegisterQuery(query: K, query_handler: QH)
      modifies this
      ensures queries_map == old(queries_map)[query := query_handler]
      ensures commands_map == old(commands_map)
    {
      queries_map := queries_map[query := query_handler];
    }

    /** Runs every handler registered for the command's type, in
        registration order, collecting one result each; a type with no
        handlers, registered or not, raises. */
    method HandleCommand<C, R>(command: C, type_of: C -> K, handle: (CH, C) -> R)
      returns (r: Result<seq<R>, MediatorError<K>>)
      ensures HandlersFor(commands_map, type_of(command)) == [] <==> r.Failure?
      ensures r.Failure? ==> r.error == CommandHandlersNotRegistered(type_of(command))
      ensures r.Success? ==>
                var handlers := HandlersFor(commands_map, type_of(command));
                |r.value| == |handlers| &&
                forall i :: 0 <= i < |handlers| ==> r.value[i] == handle(handlers[i], command)
    {
      var command_type := type_of(command);
      var handlers := HandlersFor(commands_map, command_type);
      if |handlers| == 0 {
        return Failure(CommandHandlersNotRegistered(command_type));
      }
      var results: seq<R> := [];
      var i := 0;
      while i < |handlers|
        invariant i <= |handlers| && |results| == i
        invariant forall j :: 0 <= j < i ==> results[j] == handle(handlers[j], command)
      {
        results := results + [handle(handlers[i], command)];
        i := i + 1;
      }
      return Success(results);
    }

    /** Runs the one handler registered for the query's type. */
    method HandleQuery<Q, R>(query: Q, type_of: Q -> K, handle: (QH, Q) -> R)
      returns (r: Result<R, MediatorError<K>>)
      ensures type_of(query) in queries_map ==> r == Success(handle(queries_map[type_of(query)], query))
      ensures type_of(query) !in queries_map ==> r == Failure(QueryHandlerNotRegistered(type_of(query)))
    {
      var query_type := type_of(query);
      if query_type !in queries_map {
        return Failure(QueryHandlerNotRegistered(query_type));
      }
      return Success(handle(queries_map[query_type], query));
    }
  }
}
