/** The event loop's dispatch (src/main.rs:291-468): which registered handler answers an
    application command or a button press, and the response that comes back. Every handler
    in the registry is visited in order and each match overwrites the response, so the last
    matching handler decides. */
module Routing {
  import opened Wrappers
  import opened Types
  import opened Responses
  import opened Debug
  import Transactions
  import Delete

  /** The application-command handlers in registration order, by `get_name`. */
  const CommandNames: seq<string> :=
    ["circulation", "reserve", "delete", "database", "list", "view", "create", "modify", "records"]

  /** The button handlers in registration order, by `get_pattern`: circulation, reserve, delete. */
  const ComponentPatterns: seq<seq<string>> :=
    [Transactions.Pattern(CirculationTx), Transactions.Pattern(ReserveTx), Delete.Pattern]

  const Unregistered: string := "Content unavailable: no response handler registered for command!"
  const NoComponentResponse: string := "Got no response from interaction response handler"

  /** Who answers an application command: the `economist` meta command, the handler at an
      index of the registry, or nobody. */
  datatype Route = Meta | ToHandler(index: nat) | Unrouted

  /** The route the loop leaves after visiting `names`: an `economist` command is answered by
      the meta command at every visit, any other command by the last handler named like its
      sub-command. */
  function CommandRoute(names: seq<string>, data: CommandInteraction): Route {
    if names == [] then Unrouted
    else
      var i := |names| - 1;
      if data.commandName == "economist" then Meta
      else if data.options != [] && data.options[0].name == names[i] then ToHandler(i)
      else CommandRoute(names[..i], data)
  }

  /** The application-command loop. */
  method RouteCommand(names: seq<string>, data: CommandInteraction) returns (route: Route)
    ensures route == CommandRoute(names, data)
  {
    route := Unrouted;
    for i := 0 to |names|
      invariant route == CommandRoute(names[..i], data)
    {
      assert names[..i + 1][..i] == names[..i];
      if data.commandName == "economist" {
        route := Meta;
      } else if data.options != [] && data.options[0].name == names[i] {
        route := ToHandler(i);
      }
    }
    assert names[..|names|] == names;
  }

  /** A command reaches handler `i` exactly when it is not the meta command, its sub-command
      carries handler `i`'s name, and no later handler has that name; the meta command is
      answered whenever any handler is registered. */
  lemma {:induction false} CommandRouteIsLastMatch(names: seq<string>, data: CommandInteraction)
    ensures data.commandName == "economist" ==> CommandRoute(names, data) == (if names == [] then Unrouted else Meta)
    ensures forall i :: 0 <= i < |names| ==>
              (CommandRoute(names, data) == ToHandler(i) <==>
                 data.commandName != "economist" && data.options != [] && names[i] == data.options[0].name &&
                 forall j :: i < j < |names| ==> names[j] != data.options[0].name)
    ensures CommandRoute(names, data) == Unrouted <==>
              names == [] ||
              (data.commandName != "economist" &&
               forall j :: 0 <= j < |names| ==> data.options == [] || names[j] != data.options[0].name)
    ensures CommandRoute(names, data).ToHandler? ==> CommandRoute(names, data).index < |names|
  {
    if names != [] {
      var init := names[..|names| - 1];
      CommandRouteIsLastMatch(init, data);
      assert forall j :: 0 <= j < |init| ==> init[j] == names[j];
    }
  }

  /** In the bot's registry every sub-command name reaches its own handler and no other. */
  lemma {:induction false} RegistryRoutesByName(data: CommandInteraction, k: nat)
    requires data.commandName != "economist" && k < |CommandNames|
    requires data.options != [] && data.options[0].name == CommandNames[k]
    ensures CommandRoute(CommandNames, data) == ToHandler(k)
  {
    CommandRouteIsLastMatch(CommandNames, data);
    forall j | k < j < |CommandNames| ensures CommandNames[j] != CommandNames[k] {
      NamesDistinct(k, j);
    }
  }

  /** What tells the registered names apart: length, first and third letter. */
  function Signature(s: string): (int, char, char) {
    if |s| < 3 then (|s|, ' ', ' ') else (|s|, s[0], s[2])
  }

  const Signatures: seq<(int, char, char)> :=
    [(11, 'c', 'r'), (7, 'r', 's'), (6, 'd', 'l'), (8, 'd', 't'), (4, 'l', 's'),
     (4, 'v', 'e'), (6, 'c', 'e'), (6, 'm', 'd'), (7, 'r', 'c')]

  /** No two handlers in the registry share a name. */
  lemma NamesDistinct(i: nat, j: nat)
    requires i < j < |CommandNames|
    ensures CommandNames[i] != CommandNames[j]
  {
    assert forall m :: 0 <= m < |CommandNames| ==> Signature(CommandNames[m]) == Signatures[m];
    assert Signatures[i] != Signatures[j];
  }

  /** The response the loop leaves for a command, given the meta command's response and the
      result of the routed handler: a handler's error comes back as a private error report. */
  function CommandReply(route: Route, meta: Response, result: Result<Response, string>): (r: Response)
    ensures route.Unrouted? ==> r == TextResponse(Plain(Unregistered))
    ensures route.ToHandler? && result.Err? ==>
              r.ephemeral && GetText(r) == ErrorReport("Error responding to application command: " + Quoted(result.error))
    ensures route.ToHandler? && result.Ok? ==> r == result.value
  {
    match route
    case Meta => meta
    case Unrouted => TextResponse(Plain(Unregistered))
    case ToHandler(_) =>
      match result
      case Ok(response) => response
      case Err(e) => ErrorResponse("Error responding to application command: " + Quoted(e))
  }

  /** The handler a custom id reaches: the last whose pattern holds it. */
  function ComponentRoute(patterns: seq<seq<string>>, id: string): Option<nat> {
    if patterns == [] then None
    else
      var i := |patterns| - 1;
      if id in patterns[i] then Some(i) else ComponentRoute(patterns[..i], id)
  }

  /** The button loop: every handler, every call sign of its pattern. */
  method RouteComponent(patterns: seq<seq<string>>, id: string) returns (route: Option<nat>)
    ensures route == ComponentRoute(patterns, id)
  {
    route := None;
    for i := 0 to |patterns|
      invariant route == ComponentRoute(patterns[..i], id)
    {
      assert patterns[..i + 1][..i] == patterns[..i];
      var pattern := patterns[i];
      ghost var before := route;
      for j := 0 to |pattern|
        invariant route == if id in pattern[..j] then Some(i) else before
      {
        assert pattern[..j + 1] == pattern[..j] + [pattern[j]];
        if pattern[j] == id {
          route := Some(i);
        }
      }
      assert pattern[..|pattern|] == pattern;
    }
    assert patterns[..|patterns|] == patterns;
  }

  /** A custom id reaches handler `i` exactly when `i`'s pattern holds it and no later
      pattern does. */
  lemma {:induction false} ComponentRouteIsLastMatch(patterns: seq<seq<string>>, id: string)
    ensures ComponentRoute(patterns, id).Some? ==> ComponentRoute(patterns, id).value < |patterns|
    ensures forall i :: 0 <= i < |patterns| ==>
              (ComponentRoute(patterns, id) == Some(i) <==>
                 id in patterns[i] && forall j :: i < j < |patterns| ==> id !in patterns[j])
    ensures ComponentRoute(patterns, id).None? <==> forall j :: 0 <= j < |patterns| ==> id !in patterns[j]
  {
    if patterns != [] {
      var init := patterns[..|patterns| - 1];
      ComponentRouteIsLastMatch(init, id);
      assert forall j :: 0 <= j < |init| ==> init[j] == patterns[j];
    }
  }

  /** In the bot's registry every button reaches the handler that issued it, and an id no
      handler issued reaches none. */
  lemma {:induction false} RegistryRoutesButtons(id: string)
    ensures id in Transactions.Pattern(CirculationTx) ==> ComponentRoute(ComponentPatterns, id) == Some(0)
    ensures id in Transactions.Pattern(ReserveTx) ==> ComponentRoute(ComponentPatterns, id) == Some(1)
    ensures id in Delete.Pattern ==> ComponentRoute(ComponentPatterns, id) == Some(2)
    ensures (forall k :: 0 <= k < 3 ==> id !in ComponentPatterns[k]) ==> ComponentRoute(ComponentPatterns, id) == None
  {
    RegistryRouteUnfolds(id);
    PatternsDisjoint(id);
    if forall k :: 0 <= k < 3 ==> id !in ComponentPatterns[k] {
      assert id !in ComponentPatterns[0] && id !in ComponentPatterns[1] && id !in ComponentPatterns[2];
    }
  }

  /** The route through the three registered patterns, last first. */
  lemma {:induction false} RegistryRouteUnfolds(id: string)
    ensures ComponentPatterns ==
              [Transactions.Pattern(CirculationTx), Transactions.Pattern(ReserveTx), Delete.Pattern]
    ensures ComponentRoute(ComponentPatterns, id) ==
              if id in Delete.Pattern then Some(2)
              else if id in Transactions.Pattern(ReserveTx) then Some(1)
              else if id in Transactions.Pattern(CirculationTx) then Some(0)
              else None
  {
    var circulation, reserve := Transactions.Pattern(CirculationTx), Transactions.Pattern(ReserveTx);
    var patterns := ComponentPatterns;
    assert [circulation][..0] == [] && [circulation, reserve][..1] == [circulation];
    assert patterns[..2] == [circulation, reserve];
    assert ComponentRoute([circulation], id) == if id in circulation then Some(0) else None;
    assert ComponentRoute([circulation, reserve], id) ==
             if id in reserve then Some(1) else ComponentRoute([circulation], id);
  }

  /** No id belongs to two registered patterns. */
  lemma {:induction false} PatternsDisjoint(id: string)
    ensures id in Transactions.Pattern(CirculationTx) ==> id !in Transactions.Pattern(ReserveTx) && id !in Delete.Pattern
    ensures id in Transactions.Pattern(ReserveTx) ==> id !in Delete.Pattern
  {
    InitialOf(CirculationTx);
    InitialOf(ReserveTx);
    assert Delete.Pattern == [Delete.ConfirmId, Delete.CancelId];
    assert Delete.ConfirmId[0] == 'd' && Delete.CancelId[0] == 'd';
  }

  /** The ids of a transaction handler start with its own prefix's initial, which tells the
      three handlers' patterns apart. */
  lemma {:induction false} InitialOf(kind: TxKind)
    ensures Transactions.Pattern(kind) == [Transactions.ConfirmId(kind), Transactions.CancelId(kind)]
    ensures |Transactions.ConfirmId(kind)| > 0 && |Transactions.CancelId(kind)| > 0
    ensures Transactions.ConfirmId(kind)[0] == Transactions.CancelId(kind)[0] == (if kind == CirculationTx then 'c' else 'r')
  {
    var p := Transactions.Prefix(kind);
    assert p[0] == (if kind == CirculationTx then 'c' else 'r');
    assert Transactions.ConfirmId(kind)[0] == p[0];
    assert Transactions.CancelId(kind)[0] == p[0];
  }

  /** The response the loop leaves for a button press; a handler's error comes back as a
      private error report of its `{:?}` rendering. */
  function ComponentReply(route: Option<nat>, result: Result<Response, string>): (r: Response)
    ensures route.None? ==> r == ErrorResponse(NoComponentResponse)
    ensures route.Some? && result.Ok? ==> r == result.value
    ensures route.Some? && result.Err? ==> r.ephemeral && GetText(r) == ErrorReport(Quoted(result.error))
  {
    match route
    case None => ErrorResponse(NoComponentResponse)
    case Some(_) =>
      match result
      case Ok(response) => response
      case Err(e) => ErrorResponse(Quoted(e))
  }
}
