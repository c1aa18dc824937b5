/** The tool surface declared to the model with every inference request: each
    tool's name and the parameters its schema marks as required. */
module Tools {
  datatype ToolDecl = ToolDecl(name: string, required: seq<string>)

  /** The declared tools, in the order they are sent. */
  const DeclaredTools: seq<ToolDecl> := [
    ToolDecl("idle", []),
    ToolDecl("chat", ["message"]),
    ToolDecl("move", ["x", "y", "z"]),
    ToolDecl("get_player_location", ["username"])
  ]

  /** The names the dispatcher has a case for. */
  const HandledTools: set<string> := {"chat", "move", "get_player_location"}

  /** The names of a list of declarations. */
  function Names(decls: seq<ToolDecl>): (names: set<string>)
    ensures forall i :: 0 <= i < |decls| ==> decls[i].name in names
    ensures forall n :: n in names ==> exists i :: 0 <= i < |decls| && decls[i].name == n
  {
    set i | 0 <= i < |decls| :: decls[i].name
  }

  /** The required parameters declared for `name`; none when it is not declared. */
  function RequiredOf(decls: seq<ToolDecl>, name: string): (req: seq<string>)
    ensures name !in Names(decls) ==> req == []
    ensures forall i ::
              0 <= i < |decls| && decls[i].name == name && (forall j :: 0 <= j < i ==> decls[j].name != name)
              ==> req == decls[i].required
  {
    if decls == [] then []
    else if decls[0].name == name then decls[0].required
    else RequiredOf(decls[1..], name)
  }

  /** Every handled name is declared, and the only declared name without a
      handler is `idle`. */
  lemma HandledStrictlyWithinDeclared()
    ensures HandledTools < Names(DeclaredTools)
    ensures Names(DeclaredTools) - HandledTools == {"idle"}
  {
    var names := Names(DeclaredTools);
    assert DeclaredTools[0].name == "idle" && DeclaredTools[1].name == "chat";
    assert DeclaredTools[2].name == "move" && DeclaredTools[3].name == "get_player_location";
    assert names == {"idle", "chat", "move", "get_player_location"};
  }

  /** The required parameters of each declared tool. */
  lemma DeclaredRequired()
    ensures RequiredOf(DeclaredTools, "idle") == []
    ensures RequiredOf(DeclaredTools, "chat") == ["message"]
    ensures RequiredOf(DeclaredTools, "move") == ["x", "y", "z"]
    ensures RequiredOf(DeclaredTools, "get_player_location") == ["username"]
  {
    assert DeclaredTools[1..][1..][1..] == [ToolDecl("get_player_location", ["username"])];
  }

  /** No name is declared twice. */
  lemma DeclaredNamesDistinct()
    ensures forall i, j :: 0 <= i < j < |DeclaredTools| ==> DeclaredTools[i].name != DeclaredTools[j].name
  {
  }
}
