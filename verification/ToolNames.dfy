/** Names of hosted tools: printed by the backend as `mcp__server__tool`, parsed back by the client against the servers it
    knows, and split for display. */
module ToolNames {
  import opened Common

  const SEPARATOR: string := "__"
  const PREFIX: string := "mcp__"

  // ------------------------------------------------------------------ the printer

  datatype Source = Builtin | Mcp | Skill | OtherSource

  /** `schema` says whether the descriptor carries a usable tool schema. */
  datatype Descriptor = Descriptor(name: Option<string>, namespace: string, source: Source, schema: bool)

  function Printed(server: string, tool: string): string {
    PREFIX + server + SEPARATOR + tool
  }

  function FinalToolName(d: Descriptor): string {
    var name := if d.name.Some? then d.name.value else "";
    if d.namespace != "" && (d.source.Mcp? || d.source.Skill?) then Printed(d.namespace, name) else name
  }

  predicate IsUsable(d: Descriptor) {
    d.source.Builtin? || d.schema
  }

  /** The names that route to the client: without a manifest, the fallback. */
  method ManifestLocalToolNames(manifest: Option<seq<Descriptor>>, fallback: set<string>) returns (names: set<string>)
    ensures manifest.None? ==> names == fallback
    ensures manifest.Some? ==>
              names == set d | d in manifest.value && d.name.Some? && (d.source.Builtin? || d.schema) :: FinalToolName(d)
  {
    if manifest.None? {
      return fallback;
    }
    var tools := manifest.value;
    names := {};
    for i := 0 to |tools|
      invariant names == set d | d in tools[..i] && d.name.Some? && IsUsable(d) :: FinalToolName(d)
    {
      assert tools[..i + 1] == tools[..i] + [tools[i]];
      if tools[i].name.Some? && IsUsable(tools[i]) {
        names := names + {FinalToolName(tools[i])};
      }
    }
    assert tools[..|tools|] == tools;
  }

  /** Hosted tools and skill tools are advertised under their namespace, everything else under its bare name. */
  lemma AdvertisedNames(d: Descriptor, name: string)
    requires name == if d.name.Some? then d.name.value else ""
    ensures d.namespace != "" && d.source in {Mcp, Skill} ==> FinalToolName(d) == "mcp__" + d.namespace + "__" + name
    ensures d.namespace == "" || d.source in {Builtin, OtherSource} ==> FinalToolName(d) == name
  {
  }

  // ------------------------------------------------------------------ the parser

  predicate Matches(rest: string, server: string) {
    rest == server || server + SEPARATOR <= rest
  }

  function Best(rest: string, servers: seq<string>): Option<string> {
    if servers == [] then None
    else
      var best, s := Best(rest, servers[..|servers| - 1]), servers[|servers| - 1];
      if Matches(rest, s) && (best.None? || |s| > |best.value|) then Some(s) else best
  }

  function Parsed(name: string, servers: seq<string>): Option<(string, string)> {
    if !(PREFIX <= name) then None
    else
      var rest := name[|PREFIX|..];
      var best := Best(rest, servers);
      if best.None? then None
      else
        var tool := From(rest, |best.value| + |SEPARATOR|);
        if tool == "" then None else Some((best.value, tool))
  }

  method ParseNamespacedTool(name: string, servers: seq<string>) returns (r: Option<(string, string)>)
    ensures r == Parsed(name, servers)
  {
    if !(PREFIX <= name) {
      return None;
    }
    var rest := name[|PREFIX|..];
    var best: Option<string> := None;
    for i := 0 to |servers|
      invariant best == Best(rest, servers[..i])
    {
      var s := servers[i];
      assert servers[..i + 1][..i] == servers[..i];
      if rest == s || s + SEPARATOR <= rest {
        if best.None? || |s| > |best.value| {
          best := Some(s);
        }
      }
    }
    assert servers[..|servers|] == servers;
    if best.None? {
      return None;
    }
    var tool := From(rest, |best.value| + |SEPARATOR|);
    if tool == "" {
      return None;
    }
    r := Some((best.value, tool));
  }

  /** The parser chooses a longest known server that matches, and gives up only when none does. */
  lemma {:induction false} BestIsLongest(rest: string, servers: seq<string>)
    ensures Best(rest, servers).Some? ==> Best(rest, servers).value in servers && Matches(rest, Best(rest, servers).value)
    ensures forall s :: s in servers && Matches(rest, s) ==>
              Best(rest, servers).Some? && |s| <= |Best(rest, servers).value|
    decreases |servers|
  {
    if servers != [] {
      BestIsLongest(rest, servers[..|servers| - 1]);
      assert servers == servers[..|servers| - 1] + [servers[|servers| - 1]];
    }
  }

  /** A name parses exactly when it is one that is printed for a known server and a tool with a name, and no longer known
      server could be meant. */
  lemma ParsesExactlyWhen(name: string, server: string, tool: string, servers: seq<string>)
    ensures Parsed(name, servers) == Some((server, tool)) <==>
              && server in servers && tool != "" && name == "mcp__" + server + "__" + tool
              && forall s :: s in servers && |s| > |server| ==> !(s + "__" <= server + "__" + tool) && s != server + "__" + tool
  {
    var rest := server + "__" + tool;
    if PREFIX <= name {
      BestIsLongest(name[|PREFIX|..], servers);
      if Parsed(name, servers) == Some((server, tool)) {
        ParsedIsPrinted(name, server, tool, servers);
      }
    }
    if name == "mcp__" + server + "__" + tool {
      PrintedSplits(server, tool);
      assert name == Printed(server, tool);
      if server in servers && tool != "" {
        assert Matches(rest, server);
        var best := Best(rest, servers).value;
        if |best| == |server| {
          assert best == rest[..|best|] && server == rest[..|server|];
        }
      }
    }
  }

  lemma ParsedIsPrinted(name: string, server: string, tool: string, servers: seq<string>)
    requires Parsed(name, servers) == Some((server, tool))
    ensures name == "mcp__" + server + "__" + tool && server in servers && tool != ""
  {
    var rest := name[|PREFIX|..];
    BestIsLongest(rest, servers);
    assert server + SEPARATOR <= rest;
    assert rest == rest[..|server| + 2] + rest[|server| + 2..];
    assert name == PREFIX + rest;
    assert PREFIX + (server + SEPARATOR + tool) == PREFIX + server + SEPARATOR + tool;
  }

  // ------------------------------------------------------------------ agreement

  ghost predicate SeparatorAt(s: string, i: int) {
    0 <= i < |s| - 1 && s[i] == '_' && s[i + 1] == '_'
  }

  /** The loader of server names rejects those that contain the separator, and nothing else. */
  ghost predicate IsServerName(s: string) {
    forall i :: !SeparatorAt(s, i)
  }

  /** Of two server names that match one text, the longer is the shorter with one more underscore. */
  lemma MatchesAreClose(rest: string, short: string, long: string)
    requires IsServerName(short) && IsServerName(long)
    requires short + SEPARATOR <= rest && Matches(rest, long) && |short| < |long|
    ensures long == short + "_"
  {
    assert rest[|short|] == '_' && rest[|short| + 1] == '_' by {
      assert (short + SEPARATOR)[|short|] == '_' && (short + SEPARATOR)[|short| + 1] == '_';
    }
    assert long <= rest;
    assert !SeparatorAt(long, |short|);
    assert short == rest[..|short|] == long[..|short|];
  }

  lemma PrintedSplits(server: string, tool: string)
    ensures var rest := server + SEPARATOR + tool;
            && PREFIX <= Printed(server, tool) && Printed(server, tool)[|PREFIX|..] == rest
            && server + SEPARATOR <= rest && rest[|server| + |SEPARATOR|..] == tool
  {
    assert Printed(server, tool) == PREFIX + (server + SEPARATOR + tool);
  }

  /** A name the client knows comes back from the parser, for a given tool, when no longer server matches. */
  lemma ParsesBack(server: string, tool: string, servers: seq<string>)
    requires server in servers && tool != "" && forall s :: s in servers ==> IsServerName(s)
    requires server + "_" !in servers || tool[0] != '_'
    ensures Parsed(Printed(server, tool), servers) == Some((server, tool))
  {
    var rest := server + SEPARATOR + tool;
    PrintedSplits(server, tool);
    BestIsLongest(rest, servers);
    var best := Best(rest, servers).value;
    if |best| > |server| {
      MatchesAreClose(rest, server, best);
      NextUnderscore(server, tool);
    }
    assert best == rest[..|best|] && server == rest[..|server|];
  }

  /** The server with one more underscore matches exactly the tools that begin with one. */
  lemma NextUnderscore(server: string, tool: string)
    requires tool != ""
    ensures Matches(server + SEPARATOR + tool, server + "_") <==> tool[0] == '_'
  {
    var rest, long := server + SEPARATOR + tool, server + "_";
    var n := |server|;
    assert long + SEPARATOR == server + "___";
    assert rest[..n] == server && rest[n] == '_' && rest[n + 1] == '_' && rest[n + 2] == tool[0];
    assert (long + SEPARATOR)[n + 2] == '_';
    if tool[0] == '_' {
      assert rest[..n + 3] == server + "___";
    }
  }

  lemma ParsesWrong(server: string, tool: string, servers: seq<string>)
    requires server in servers && tool != "" && tool[0] == '_' && server + "_" in servers
    ensures Parsed(Printed(server, tool), servers) != Some((server, tool))
  {
    PrintedSplits(server, tool);
    NextUnderscore(server, tool);
    BestIsLongest(server + SEPARATOR + tool, servers);
  }

  /** Printing and parsing agree on a tool exactly when it does not begin with an underscore that a known server, the name
      with one more underscore, could claim. */
  lemma ParsesBackExactlyWhen(server: string, tool: string, servers: seq<string>)
    requires server in servers && tool != "" && forall s :: s in servers ==> IsServerName(s)
    ensures Parsed(Printed(server, tool), servers) == Some((server, tool)) <==>
              !(server + "_" in servers && tool[0] == '_')
  {
    if server + "_" in servers && tool[0] == '_' {
      ParsesWrong(server, tool, servers);
    } else {
      ParsesBack(server, tool, servers);
    }
  }

  /** They agree on every tool of a server exactly when no known server is its name with one more underscore. */
  lemma RoundTripsExactlyWhen(server: string, servers: seq<string>)
    requires server in servers && forall s :: s in servers ==> IsServerName(s)
    ensures (forall tool :: tool != "" ==> Parsed(Printed(server, tool), servers) == Some((server, tool)))
            <==> server + "_" !in servers
  {
    if server + "_" in servers {
      ParsesWrong(server, "_x", servers);
    } else {
      forall tool | tool != "" ensures Parsed(Printed(server, tool), servers) == Some((server, tool)) {
        ParsesBack(server, tool, servers);
      }
    }
  }

  lemma SharedTextSplits(s1: string, t1: string, s2: string, t2: string)
    requires IsServerName(s1) && IsServerName(s2) && |s1| <= |s2|
    requires s1 + SEPARATOR + t1 == s2 + SEPARATOR + t2
    ensures (s1 == s2 && t1 == t2) || (s2 == s1 + "_" && t1 == "_" + t2)
  {
    var rest := s1 + SEPARATOR + t1;
    PrintedSplits(s1, t1);
    PrintedSplits(s2, t2);
    if |s1| < |s2| {
      MatchesAreClose(rest, s1, s2);
      assert t1[0] == rest[|s1| + 2];
      assert rest[|s2| + 1] == (s2 + SEPARATOR)[|s2| + 1];
      assert t1[1..] == rest[|s1| + 3..];
    } else {
      assert s1 == rest[..|s1|] && s2 == rest[..|s2|];
    }
  }

  lemma SamePrintSameText(s1: string, t1: string, s2: string, t2: string)
    requires Printed(s1, t1) == Printed(s2, t2)
    ensures s1 + SEPARATOR + t1 == s2 + SEPARATOR + t2
  {
    PrintedSplits(s1, t1);
    PrintedSplits(s2, t2);
  }

  lemma UnderscoreMoves(server: string, tool: string)
    ensures Printed(server, "_" + tool) == Printed(server + "_", tool)
  {
    assert server + SEPARATOR + ("_" + tool) == server + "_" + SEPARATOR + tool;
    PrintedSplits(server, "_" + tool);
    PrintedSplits(server + "_", tool);
    assert Printed(server, "_" + tool) == PREFIX + (server + SEPARATOR + ("_" + tool));
    assert Printed(server + "_", tool) == PREFIX + (server + "_" + SEPARATOR + tool);
  }

  /** Two different tools share a printed name exactly when one server is the other with one more underscore and the tool
      makes up for it. */
  lemma PrintCollidesExactlyWhen(s1: string, t1: string, s2: string, t2: string)
    requires IsServerName(s1) && IsServerName(s2) && |s1| <= |s2|
    ensures Printed(s1, t1) == Printed(s2, t2) <==>
              (s1 == s2 && t1 == t2) || (s2 == s1 + "_" && t1 == "_" + t2)
  {
    if Printed(s1, t1) == Printed(s2, t2) {
      SamePrintSameText(s1, t1, s2, t2);
      SharedTextSplits(s1, t1, s2, t2);
    }
    UnderscoreMoves(s1, t2);
  }

  // ------------------------------------------------------------------ the display

  /** What stands before the first separator; everything when there is none. */
  function BeforeSeparator(s: string): string {
    if |s| < 2 || s[..2] == SEPARATOR then (if |s| < 2 then s else "")
    else [s[0]] + BeforeSeparator(s[1..])
  }

  function DisplayedServer(toolName: string): string
    requires PREFIX <= toolName
  {
    var server := BeforeSeparator(toolName[|PREFIX|..]);
    if server != "" then server else toolName
  }

  lemma {:induction false} SplitsAtFirst(s: string, at: nat)
    requires SeparatorAt(s, at) && forall i :: 0 <= i < at ==> !SeparatorAt(s, i)
    ensures BeforeSeparator(s) == s[..at]
    decreases |s|
  {
    if at > 0 {
      assert !SeparatorAt(s, 0);
      assert SeparatorAt(s[1..], at - 1);
      forall i | 0 <= i < at - 1 ensures !SeparatorAt(s[1..], i) {
        assert !SeparatorAt(s, i + 1);
      }
      SplitsAtFirst(s[1..], at - 1);
    }
  }

  lemma PrintedDisplays(server: string, tool: string)
    requires IsServerName(server) && server != ""
    ensures DisplayedServer(Printed(server, tool)) == server <==> server[|server| - 1] != '_'
  {
    PrintedSplits(server, tool);
    var rest, n := server + SEPARATOR + tool, |server|;
    assert forall i :: 0 <= i < n ==> rest[i] == server[i];
    assert rest[n] == '_' && rest[n + 1] == '_' by {
      assert (server + SEPARATOR)[n] == '_' && (server + SEPARATOR)[n + 1] == '_';
    }
    forall i | 0 <= i < n - 1 ensures !SeparatorAt(rest, i) {
      assert !SeparatorAt(server, i);
    }
    if server[n - 1] == '_' {
      SplitsAtFirst(rest, n - 1);
    } else {
      SplitsAtFirst(rest, n);
      assert rest[..n] == server;
    }
  }

  /** The display shows the server a tool was printed with exactly when that name is not empty and does not end in an
      underscore; the loader asks for neither. */
  lemma DisplayAgreesExactlyWhen(server: string, tool: string)
    requires IsServerName(server)
    ensures DisplayedServer(Printed(server, tool)) == server <==> server != "" && server[|server| - 1] != '_'
  {
    if server != "" {
      PrintedDisplays(server, tool);
    }
  }

  /** With no server name ending in an underscore, all three agree: names are unique, parse back, and display their server. */
  lemma ThreeWayAgreement(server: string, tool: string, servers: seq<string>)
    requires server in servers && tool != ""
    requires forall s :: s in servers ==> IsServerName(s) && s != "" && s[|s| - 1] != '_'
    ensures Parsed(Printed(server, tool), servers) == Some((server, tool))
    ensures DisplayedServer(Printed(server, tool)) == server
    ensures forall s, t :: s in servers && Printed(s, t) == Printed(server, tool) ==> s == server && t == tool
  {
    var long := server + "_";
    assert long[|long| - 1] == '_';
    ParsesBack(server, tool, servers);
    DisplayAgreesExactlyWhen(server, tool);
    forall s, t | s in servers && Printed(s, t) == Printed(server, tool) ensures s == server && t == tool {
      if |s| <= |server| {
        PrintCollidesExactlyWhen(s, t, server, tool);
      } else {
        PrintCollidesExactlyWhen(server, tool, s, t);
      }
    }
  }

  lemma BareNameNeverRoutes(name: string, servers: seq<string>)
    ensures Parsed(name, servers) != Some(("", name))
  {
  }

  /** What the manifest advertises is what the client can route: a hosted tool's final name parses back to its own server and
      name exactly when the server's name is not empty (else the bare name is printed) and no known server claims the tool's
      leading underscore. */
  lemma FinalNameRoutesExactlyWhen(d: Descriptor, servers: seq<string>)
    requires d.name.Some? && d.name.value != "" && (d.source.Mcp? || d.source.Skill?)
    requires d.namespace in servers && forall s :: s in servers ==> IsServerName(s)
    ensures Parsed(FinalToolName(d), servers) == Some((d.namespace, d.name.value)) <==>
              d.namespace != "" && !(d.namespace + "_" in servers && d.name.value[0] == '_')
  {
    if d.namespace == "" {
      BareNameNeverRoutes(d.name.value, servers);
    } else {
      ParsesBackExactlyWhen(d.namespace, d.name.value, servers);
    }
  }
}
