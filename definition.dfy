/**
 * The declarative agent definition (kepoki/src/agent.rs): its default, the
 * specification version string, and the `ToolName` string form
 * `@namespace/name` with its parser.
 */
module AgentDefinition {
  import opened Wrappers
  import opened Floats

  datatype SpecVersion = Latest | V2025_07_20

  /** `impl AsRef<str> for SpecVersion`. */
  function SpecVersionString(v: SpecVersion): (r: string)
    ensures r == "2025-07-20"
  {
    match v
    case Latest => "2025-07-20"
    case V2025_07_20 => "2025-07-20"
  }

  datatype ModelMetric = Quality | Speed | Cost | Local | Remote | Conversational | Code

  datatype ModelPreferences = ModelPreferences(preferredFamily: Option<string>, preferredMetrics: seq<ModelMetric>)

  datatype McpServer =
    | LocalServer(command: string, args: seq<string>, env: map<string, string>)
    | RemoteServer(url: string)

  /** A tool reference: `namespace` and `name`, written `@namespace/name`. */
  datatype ToolName = ToolName(namespace: string, name: string)

  datatype Definition = Definition(
    specVersion: SpecVersion,
    name: string,
    description: string,
    prompt: string,
    modelPreferences: ModelPreferences,
    temperature: F32,
    mcpServers: map<string, McpServer>,
    tools: seq<ToolName>,
    allowedTools: seq<ToolName>,
    resources: seq<string>)

  /** 0.5 as an IEEE-754 single: `Agent::default_temperature`. */
  const DefaultTemperature: F32 := F32(0x3F00_0000)

  /** `impl Default for Agent`. */
  const DefaultDescription: string := "A simple conversational agent with no tools."
  const DefaultPrompt: string :=
    "You are a helpful assistant designed for basic knowledge tasks. Always respond even if it means asking for guidance."

  function DefaultDefinition(): (d: Definition)
    ensures d.name == "conversational-agent" && d.temperature == DefaultTemperature
    ensures d.specVersion == Latest && d.mcpServers == map[] && d.tools == [] && d.allowedTools == [] && d.resources == []
    ensures d.description == DefaultDescription && d.prompt == DefaultPrompt && d.modelPreferences == ModelPreferences(None, [])
  {
    Definition(
      Latest,
      "conversational-agent",
      DefaultDescription,
      DefaultPrompt,
      ModelPreferences(None, []),
      DefaultTemperature,
      map[], [], [], [])
  }

  /** `str::split_once(c)`: the parts before and after the first `c`. */
  function SplitOnce(s: string, c: char): (r: Option<(string, string)>)
    ensures r.None? <==> c !in s
    ensures r.Some? ==> s == r.value.0 + [c] + r.value.1 && c !in r.value.0
  {
    if s == [] then None
    else if s[0] == c then Some(([], s[1..]))
    else match SplitOnce(s[1..], c)
      case None => None
      case Some(parts) => Some(([s[0]] + parts.0, parts.1))
  }

  /** A string splits at most one way at a first occurrence of `c`. */
  lemma {:induction false} FirstSplitUnique(a: string, b: string, a': string, b': string, c: char)
    requires c !in a && c !in a'
    requires a + [c] + b == a' + [c] + b'
    ensures a == a' && b == b'
  {
    var s := a + [c] + b;
    assert s[|a|] == c && s[|a'|] == c;
    assert a == s[..|a|] == a';
    assert b == s[|a| + 1..] == b';
  }

  lemma {:induction false} SplitOnceAt(a: string, b: string, c: char)
    requires c !in a
    ensures SplitOnce(a + [c] + b, c) == Some((a, b))
  {
    var s := a + [c] + b;
    assert c in s by { assert s[|a|] == c; }
    var r := SplitOnce(s, c);
    FirstSplitUnique(r.value.0, r.value.1, a, b, c);
  }

  const NamespaceError: string := "Tool namespace must start with '@'"

  /** `impl Deserialize for ToolName`. */
  function ParseToolName(s: string): (r: Result<ToolName, string>)
    ensures '/' !in s ==> r == Ok(ToolName("builtin", s))
    ensures r.Err? <==> exists a, b :: s == a + "/" + b && '/' !in a && (a == [] || a[0] != '@')
    ensures r.Err? ==> r.error == NamespaceError
  {
    match SplitOnce(s, '/')
    case Some((namespace, name)) =>
      if |namespace| > 0 && namespace[0] == '@' then Ok(ToolName(namespace[1..], name))
      else
        assert (forall a, b :: s == a + "/" + b && '/' !in a ==> a == namespace) by {
          forall a, b | s == a + "/" + b && '/' !in a ensures a == namespace {
            FirstSplitUnique(a, b, namespace, name, '/');
          }
        }
        Err(NamespaceError)
    case None => Ok(ToolName("builtin", s))
  }

  /** `impl Serialize for ToolName`. */
  function SerializeToolName(t: ToolName): (r: string)
    ensures |r| == |t.namespace| + |t.name| + 2 && r[0] == '@' && r[|t.namespace| + 1] == '/'
    ensures r[1..|t.namespace| + 1] == t.namespace && r[|t.namespace| + 2..] == t.name
  {
    "@" + t.namespace + "/" + t.name
  }

  /** `@ns/rest` names namespace `ns` and tool `rest`: the split is at the first `/`. */
  lemma {:induction false} ParseQualified(ns: string, rest: string)
    requires '/' !in ns
    ensures ParseToolName("@" + ns + "/" + rest) == Ok(ToolName(ns, rest))
  {
    assert "@" + ns + "/" + rest == ("@" + ns) + ['/'] + rest;
    SplitOnceAt("@" + ns, rest, '/');
  }

  /** Serialising then parsing gives the tool name back, unless its namespace holds a `/`. */
  lemma {:induction false} ToolNameRoundTrip(t: ToolName)
    requires '/' !in t.namespace
    ensures ParseToolName(SerializeToolName(t)) == Ok(t)
  {
    ParseQualified(t.namespace, t.name);
  }

  /** A string holding a `/` that parses serialises back to itself; one without a `/` gains `@builtin/`. */
  lemma {:induction false} SerializeParsed(s: string)
    requires ParseToolName(s).Ok?
    ensures '/' in s ==> SerializeToolName(ParseToolName(s).value) == s
    ensures '/' !in s ==> SerializeToolName(ParseToolName(s).value) == "@builtin/" + s
  {
    if '/' in s {
      var parts := SplitOnce(s, '/').value;
      assert s == parts.0 + "/" + parts.1;
      assert parts.0 == "@" + parts.0[1..];
    }
  }
}
