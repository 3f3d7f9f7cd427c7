/** The compose-file generator: an ordered list of service configurations
    rendered as Docker Compose text (file format version "3.8", top-level
    `services` with the `image`, `ports`, `environment` and `restart`
    attributes of each service).

    The text is specified as a list of lines, each ending in a line break:
    a fixed header, then one block of lines per service, in input order. */
module Compose {
  import opened Text
  import opened Seqs

  // ---------------------------------------------------------------------------
  // Service configuration
  // ---------------------------------------------------------------------------

  datatype PortMapping = PortMapping(host: int, container: int, protocol: string)

  datatype EnvVar = EnvVar(key: string, value: string)

  datatype VolumeKind = Bind | Volume

  datatype VolumeMount = VolumeMount(kind: VolumeKind, source: string, target: string)

  datatype HealthCheck = HealthCheck(test: seq<string>, interval: string, timeout: string, retries: int)

  datatype ResourceSpec = ResourceSpec(memory: string, cpus: string)

  datatype Resources = Resources(limits: ResourceSpec, reservations: ResourceSpec)

  /** One service of the stack being composed. */
  datatype ServiceConfig = ServiceConfig(
    id: string,
    name: string,
    image: string,
    tag: string,
    ports: seq<PortMapping>,
    environment: seq<EnvVar>,
    volumes: seq<VolumeMount>,
    networks: seq<string>,
    dependsOn: seq<string>,
    restart: string,
    healthCheck: Option<HealthCheck>,
    resources: Option<Resources>)

  // ---------------------------------------------------------------------------
  // The text of the document
  // ---------------------------------------------------------------------------

  /** `version: "3.8"`, a blank line, `services:`. */
  const Header: string := "version: \"3.8\"\n\nservices:\n"

  /** A port mapping as a quoted `host:container` list item; the protocol is not written. */
  function PortItem(p: PortMapping): string {
    "      - \"" + IntToString(p.host) + ":" + IntToString(p.container) + "\"\n"
  }

  function EnvItem(e: EnvVar): string {
    "      " + e.key + ": " + e.value + "\n"
  }

  /** The `ports` section: written only when there are ports. */
  function PortsPart(ports: seq<PortMapping>): string {
    if |ports| > 0 then "    ports:\n" + ConcatMap(ports, PortItem) else ""
  }

  /** The `environment` section: written only when there are entries. */
  function EnvironmentPart(environment: seq<EnvVar>): string {
    if |environment| > 0 then "    environment:\n" + ConcatMap(environment, EnvItem) else ""
  }

  /** The text ends with an empty line: a line break right after another. */
  predicate EndsWithBlankLine(t: string) {
    |t| >= 2 && t[|t| - 2..] == "\n\n"
  }

  /** The block of one service: its name, its image, its ports and
      environment sections, its restart policy and a blank line. */
  function ServiceBlock(s: ServiceConfig): (r: string)
    ensures "  " + s.name + ":\n" <= r
    ensures EndsWithBlankLine(r)
  {
    ("  " + s.name + ":\n")
    + ("    image: " + s.image + ":" + s.tag + "\n")
    + PortsPart(s.ports)
    + EnvironmentPart(s.environment)
    + ("    restart: " + s.restart + "\n\n")
  }

  /** The document that `generateSampleComposeYaml` returns. */
  function ComposeYaml(services: seq<ServiceConfig>): (r: string)
    ensures services != [] <==> |r| > |Header|
    ensures services != [] ==> EndsWithBlankLine(r)
  {
    BlocksEndBlank(services);
    Header + ConcatMap(services, ServiceBlock)
  }

  /** The blocks of one or more services end with a blank line. */
  lemma BlocksEndBlank(services: seq<ServiceConfig>)
    ensures services == [] ==> ConcatMap(services, ServiceBlock) == ""
    ensures services != [] ==> EndsWithBlankLine(ConcatMap(services, ServiceBlock))
  {
    if services != [] {
      var last := services[|services| - 1];
      assert ConcatMap(services, ServiceBlock) ==
        ConcatMap(services[..|services| - 1], ServiceBlock) + ServiceBlock(last);
    }
  }

  // ---------------------------------------------------------------------------
  // The generator
  // ---------------------------------------------------------------------------

  /** `generateSampleComposeYaml`: appends the header, then the block of
      each service in turn. */
  method GenerateSampleComposeYaml(services: seq<ServiceConfig>) returns (yaml: string)
    ensures yaml == ComposeYaml(services)
  {
    yaml := "version: \"3.8\"\n\nservices:\n";
    for i := 0 to |services|
      invariant yaml == Header + ConcatMap(services[..i], ServiceBlock)
    {
      yaml := AppendService(yaml, services[i]);
      AppendAssoc(Header, ConcatMap(services[..i], ServiceBlock), ServiceBlock(services[i]));
      ConcatMapSnoc(services, i, ServiceBlock);
    }
    assert services[..|services|] == services;
  }

  /** The body of the `forEach` over the services: appends the name and image
      lines, the ports and environment sections when their lists are
      non-empty, and the restart line with a blank line. */
  method AppendService(yaml: string, service: ServiceConfig) returns (out: string)
    ensures out == yaml + ServiceBlock(service)
  {
    // what has been written for this service so far: out == yaml + block
    ghost var block := "  " + service.name + ":\n";
    out := yaml + ("  " + service.name + ":\n");

    ghost var piece := "    image: " + service.image + ":" + service.tag + "\n";
    out := out + ("    image: " + service.image + ":" + service.tag + "\n");
    AppendAssoc(yaml, block, piece);
    block := block + piece;

    if |service.ports| > 0 {
      out := out + "    ports:\n";
      ghost var heading := out;
      for j := 0 to |service.ports|
        invariant out == heading + ConcatMap(service.ports[..j], PortItem)
      {
        var port := service.ports[j];
        out := out + ("      - \"" + IntToString(port.host) + ":" + IntToString(port.container) + "\"\n");
        AppendAssoc(heading, ConcatMap(service.ports[..j], PortItem), PortItem(port));
        ConcatMapSnoc(service.ports, j, PortItem);
      }
      assert service.ports[..|service.ports|] == service.ports;
      AppendAssoc(yaml + block, "    ports:\n", ConcatMap(service.ports, PortItem));
    } else {
      AppendEmpty(yaml + block);
    }
    AppendAssoc(yaml, block, PortsPart(service.ports));
    block := block + PortsPart(service.ports);

    if |service.environment| > 0 {
      out := out + "    environment:\n";
      ghost var heading := out;
      for j := 0 to |service.environment|
        invariant out == heading + ConcatMap(service.environment[..j], EnvItem)
      {
        var env := service.environment[j];
        out := out + ("      " + env.key + ": " + env.value + "\n");
        AppendAssoc(heading, ConcatMap(service.environment[..j], EnvItem), EnvItem(env));
        ConcatMapSnoc(service.environment, j, EnvItem);
      }
      assert service.environment[..|service.environment|] == service.environment;
      AppendAssoc(yaml + block, "    environment:\n", ConcatMap(service.environment, EnvItem));
    } else {
      AppendEmpty(yaml + block);
    }
    AppendAssoc(yaml, block, EnvironmentPart(service.environment));
    block := block + EnvironmentPart(service.environment);

    piece := "    restart: " + service.restart + "\n\n";
    out := out + ("    restart: " + service.restart + "\n\n");
    AppendAssoc(yaml, block, piece);
    block := block + piece;
  }

  // ---------------------------------------------------------------------------
  // Properties of the text
  // ---------------------------------------------------------------------------

  /** Rendering is compositional: the document for `a + b` is the document
      for `a` followed by the blocks of the services of `b`. */
  lemma ComposeYamlAppend(a: seq<ServiceConfig>, b: seq<ServiceConfig>)
    ensures ComposeYaml(a + b) == ComposeYaml(a) + ConcatMap(b, ServiceBlock)
  {
    ConcatMapAppend(a, b, ServiceBlock);
  }

  /** Each service contributes its own block, at its own place: what is
      written for `s` does not depend on the services around it. */
  lemma ServiceBlockAt(a: seq<ServiceConfig>, s: ServiceConfig, b: seq<ServiceConfig>)
    ensures ComposeYaml(a + [s] + b) == ComposeYaml(a) + ServiceBlock(s) + ConcatMap(b, ServiceBlock)
  {
    ConcatMapAt(a, s, b, ServiceBlock);
    AppendAssoc(Header, ConcatMap(a, ServiceBlock) + ServiceBlock(s), ConcatMap(b, ServiceBlock));
    AppendAssoc(Header, ConcatMap(a, ServiceBlock), ServiceBlock(s));
  }

  /** Every document starts with the header, and no services give the header alone. */
  lemma ComposeYamlHeader(services: seq<ServiceConfig>)
    ensures Header <= ComposeYaml(services)
    ensures services == [] ==> ComposeYaml(services) == Header
  {
  }

  // ---------------------------------------------------------------------------
  // The lines of the document
  // ---------------------------------------------------------------------------

  const HeaderLines: seq<string> := ["version: \"3.8\"", "", "services:"]

  const PortsHeading: string := "    ports:"

  const EnvironmentHeading: string := "    environment:"

  function NameLine(s: ServiceConfig): string {
    "  " + s.name + ":"
  }

  function ImageLine(s: ServiceConfig): string {
    "    image: " + s.image + ":" + s.tag
  }

  function PortLine(p: PortMapping): string {
    "      - \"" + IntToString(p.host) + ":" + IntToString(p.container) + "\""
  }

  function EnvLine(e: EnvVar): string {
    "      " + e.key + ": " + e.value
  }

  function RestartLine(s: ServiceConfig): string {
    "    restart: " + s.restart
  }

  function PortLines(ports: seq<PortMapping>): (lines: seq<string>) {
    seq(|ports|, k requires 0 <= k < |ports| => PortLine(ports[k]))
  }

  function EnvLines(environment: seq<EnvVar>): (lines: seq<string>) {
    seq(|environment|, k requires 0 <= k < |environment| => EnvLine(environment[k]))
  }

  /** The `ports` section: absent for an empty list, otherwise the heading
      and one line per mapping. */
  function PortsSection(ports: seq<PortMapping>): seq<string> {
    if ports == [] then [] else [PortsHeading] + PortLines(ports)
  }

  /** The `environment` section: absent for an empty list, otherwise the
      heading and one line per entry. */
  function EnvironmentSection(environment: seq<EnvVar>): seq<string> {
    if environment == [] then [] else [EnvironmentHeading] + EnvLines(environment)
  }

  /** The lines of one service's block, as a list. */
  function BlockLines(s: ServiceConfig): seq<string> {
    [NameLine(s), ImageLine(s)] + PortsSection(s.ports) + EnvironmentSection(s.environment)
      + [RestartLine(s), ""]
  }

  /** The lines of all blocks, in input order. */
  function ServicesLines(services: seq<ServiceConfig>): seq<string>
    decreases |services|
  {
    if services == [] then []
    else ServicesLines(services[..|services| - 1]) + BlockLines(services[|services| - 1])
  }

  lemma PortItemIsLine(p: PortMapping)
    ensures PortItem(p) == PortLine(p) + "\n"
  {
    var front := "      - \"" + IntToString(p.host) + ":" + IntToString(p.container);
    assert "\"\n" == "\"" + "\n";
    AppendAssoc(front, "\"", "\n");
  }

  lemma EnvItemIsLine(e: EnvVar)
    ensures EnvItem(e) == EnvLine(e) + "\n"
  {
  }

  /** The `ports` list items are the lines of the mappings. */
  lemma PortItemsAreLines(ports: seq<PortMapping>)
    ensures ConcatMap(ports, PortItem) == JoinLines(PortLines(ports))
  {
    forall i | 0 <= i < |ports| ensures PortItem(ports[i]) == PortLine(ports[i]) + "\n" {
      PortItemIsLine(ports[i]);
    }
    ConcatMapLines(ports, PortItem, PortLines(ports));
  }

  /** The `environment` entries are the lines of the variables. */
  lemma EnvItemsAreLines(environment: seq<EnvVar>)
    ensures ConcatMap(environment, EnvItem) == JoinLines(EnvLines(environment))
  {
    forall i | 0 <= i < |environment| ensures EnvItem(environment[i]) == EnvLine(environment[i]) + "\n" {
      EnvItemIsLine(environment[i]);
    }
    ConcatMapLines(environment, EnvItem, EnvLines(environment));
  }

  lemma PortsSectionIsPart(ports: seq<PortMapping>)
    ensures JoinLines(PortsSection(ports)) == PortsPart(ports)
  {
    if ports != [] {
      PortItemsAreLines(ports);
      JoinLinesAppend([PortsHeading], PortLines(ports));
      assert JoinLines([PortsHeading]) == PortsHeading + "\n" + JoinLines([]);
    }
  }

  lemma EnvironmentSectionIsPart(environment: seq<EnvVar>)
    ensures JoinLines(EnvironmentSection(environment)) == EnvironmentPart(environment)
  {
    if environment != [] {
      EnvItemsAreLines(environment);
      JoinLinesAppend([EnvironmentHeading], EnvLines(environment));
      assert JoinLines([EnvironmentHeading]) == EnvironmentHeading + "\n" + JoinLines([]);
    }
  }

  /** The name and image lines open the block. */
  lemma HeadLinesText(s: ServiceConfig)
    ensures JoinLines([NameLine(s), ImageLine(s)]) ==
            ("  " + s.name + ":\n") + ("    image: " + s.image + ":" + s.tag + "\n")
  {
    JoinTwoLines(NameLine(s), ImageLine(s));
    AppendAssoc("  " + s.name, ":", "\n");
    AppendAssoc("    image: " + s.image + ":" + s.tag, "", "\n");
  }

  /** The restart line and a blank line close the block. */
  lemma TailLinesText(s: ServiceConfig)
    ensures JoinLines([RestartLine(s), ""]) == "    restart: " + s.restart + "\n\n"
  {
    JoinTwoLines(RestartLine(s), "");
    AppendAssoc(RestartLine(s), "\n", "\n");
  }

  /** The text of a block is its list of lines, each ended by a line break. */
  lemma ServiceBlockIsLines(s: ServiceConfig)
    ensures ServiceBlock(s) == JoinLines(BlockLines(s))
  {
    HeadLinesText(s);
    TailLinesText(s);
    PortsSectionIsPart(s.ports);
    EnvironmentSectionIsPart(s.environment);
    JoinLinesAppend4([NameLine(s), ImageLine(s)], PortsSection(s.ports),
                     EnvironmentSection(s.environment), [RestartLine(s), ""],
                     ("  " + s.name + ":\n") + ("    image: " + s.image + ":" + s.tag + "\n"),
                     PortsPart(s.ports), EnvironmentPart(s.environment),
                     "    restart: " + s.restart + "\n\n");
  }

  lemma {:induction false} ServiceBlocksAreLines(services: seq<ServiceConfig>)
    ensures ConcatMap(services, ServiceBlock) == JoinLines(ServicesLines(services))
    decreases |services|
  {
    if services != [] {
      var front := services[..|services| - 1];
      var last := services[|services| - 1];
      ServiceBlocksAreLines(front);
      ServiceBlockIsLines(last);
      JoinLinesAppend(ServicesLines(front), BlockLines(last));
    }
  }

  lemma HeaderIsLines()
    ensures JoinLines(HeaderLines) == Header
  {
    var v := "version: \"3.8\"";
    assert HeaderLines == [v, ""] + ["services:"];
    JoinLinesAppend([v, ""], ["services:"]);
    JoinTwoLines(v, "");
    assert JoinLines(["services:"]) == "services:" + "\n" + JoinLines([]);
    assert Header == (v + "\n") + ("" + "\n") + ("services:" + "\n");
  }

  /** The document is the header lines followed by the lines of every block,
      each line ended by a line break. */
  lemma ComposeYamlIsLines(services: seq<ServiceConfig>)
    ensures ComposeYaml(services) == JoinLines(HeaderLines + ServicesLines(services))
  {
    ServiceBlocksAreLines(services);
    JoinLinesAppend(HeaderLines, ServicesLines(services));
    HeaderIsLines();
  }

  /** How many lines a block has: the name, image, restart and blank lines,
      plus a heading and one line per item for each non-empty section. */
  lemma BlockLength(s: ServiceConfig)
    ensures |BlockLines(s)| ==
      4 + (if s.ports == [] then 0 else |s.ports| + 1)
        + (if s.environment == [] then 0 else |s.environment| + 1)
  {
  }

  /** A block opens with the name line and the `image:tag` line, and closes
      with the restart line and a blank line. */
  lemma BlockEnds(s: ServiceConfig)
    ensures BlockLines(s)[0] == "  " + s.name + ":"
    ensures BlockLines(s)[1] == "    image: " + s.image + ":" + s.tag
    ensures BlockLines(s)[|BlockLines(s)| - 2] == "    restart: " + s.restart
    ensures BlockLines(s)[|BlockLines(s)| - 1] == ""
  {
    var head := [NameLine(s), ImageLine(s)];
    var ports := PortsSection(s.ports);
    var env := EnvironmentSection(s.environment);
    var tail := [RestartLine(s), ""];
    Concat4First(head, ports, env, tail, 0);
    Concat4First(head, ports, env, tail, 1);
    Concat4Fourth(head, ports, env, tail, 0);
    Concat4Fourth(head, ports, env, tail, 1);
  }

  /** Right after the image line, for a service with ports: the `ports:`
      heading, then one quoted `host:container` line per mapping, in order. */
  lemma BlockPorts(s: ServiceConfig)
    requires s.ports != []
    ensures BlockLines(s)[2] == "    ports:"
    ensures forall k | 0 <= k < |s.ports| ::
      BlockLines(s)[3 + k] ==
        "      - \"" + IntToString(s.ports[k].host) + ":" + IntToString(s.ports[k].container) + "\""
  {
    var head := [NameLine(s), ImageLine(s)];
    var ports := PortsSection(s.ports);
    var env := EnvironmentSection(s.environment);
    var tail := [RestartLine(s), ""];
    Concat4Second(head, ports, env, tail, 0);
    forall k | 0 <= k < |s.ports|
      ensures BlockLines(s)[3 + k] ==
        "      - \"" + IntToString(s.ports[k].host) + ":" + IntToString(s.ports[k].container) + "\""
    {
      Concat4Second(head, ports, env, tail, 1 + k);
      assert ports[1 + k] == PortLines(s.ports)[k];
    }
  }

  /** Right after the ports section, for a service with environment entries:
      the `environment:` heading, then one `key: value` line per entry, in order. */
  lemma BlockEnvironment(s: ServiceConfig)
    requires s.environment != []
    ensures BlockLines(s)[2 + |PortsSection(s.ports)|] == "    environment:"
    ensures forall k | 0 <= k < |s.environment| ::
      BlockLines(s)[3 + |PortsSection(s.ports)| + k] ==
        "      " + s.environment[k].key + ": " + s.environment[k].value
  {
    var head := [NameLine(s), ImageLine(s)];
    var ports := PortsSection(s.ports);
    var env := EnvironmentSection(s.environment);
    var tail := [RestartLine(s), ""];
    Concat4Third(head, ports, env, tail, 0);
    forall k | 0 <= k < |s.environment|
      ensures BlockLines(s)[3 + |PortsSection(s.ports)| + k] == EnvLine(s.environment[k])
    {
      Concat4Third(head, ports, env, tail, 1 + k);
      assert env[1 + k] == EnvLines(s.environment)[k];
    }
  }

  /** A `ports:` heading follows the image line exactly when there are ports. */
  lemma PortsHeadingIff(s: ServiceConfig)
    ensures BlockLines(s)[2] == PortsHeading <==> s.ports != []
  {
    var b := BlockLines(s);
    if s.ports == [] {
      if s.environment == [] {
        assert b[2] == RestartLine(s);
        assert b[2][4] != PortsHeading[4];
      } else {
        assert b[2] == EnvironmentHeading;
      }
    }
  }

  /** An `environment:` heading follows the ports section exactly when there
      are environment entries. */
  lemma EnvironmentHeadingIff(s: ServiceConfig)
    ensures var np := |PortsSection(s.ports)|;
      BlockLines(s)[2 + np] == EnvironmentHeading <==> s.environment != []
  {
    var b := BlockLines(s);
    var np := |PortsSection(s.ports)|;
    if s.environment == [] {
      assert b[2 + np] == RestartLine(s);
      assert b[2 + np][4] != EnvironmentHeading[4];
    }
  }

  /** Two configurations that agree on what is written: the id, the port
      protocols, the volumes, the networks, the dependencies, the health
      check and the resources may differ. */
  predicate WrittenFieldsAgree(s: ServiceConfig, t: ServiceConfig) {
    s.name == t.name && s.image == t.image && s.tag == t.tag && s.restart == t.restart &&
    s.environment == t.environment && |s.ports| == |t.ports| &&
    forall k | 0 <= k < |s.ports| ::
      s.ports[k].host == t.ports[k].host && s.ports[k].container == t.ports[k].container
  }

  /** Nothing but the written fields reaches the block. */
  lemma BlockDependsOnWrittenFields(s: ServiceConfig, t: ServiceConfig)
    requires WrittenFieldsAgree(s, t)
    ensures ServiceBlock(s) == ServiceBlock(t)
  {
    assert PortLines(s.ports) == PortLines(t.ports);
    ServiceBlockIsLines(s);
    ServiceBlockIsLines(t);
  }

  // ---------------------------------------------------------------------------
  // Reading the lines back
  // ---------------------------------------------------------------------------

  /** No written field of the service contains a line break. */
  predicate SingleLineFields(s: ServiceConfig) {
    NoNewline(s.name) && NoNewline(s.image) && NoNewline(s.tag) && NoNewline(s.restart) &&
    forall k | 0 <= k < |s.environment| ::
      NoNewline(s.environment[k].key) && NoNewline(s.environment[k].value)
  }

  lemma HeaderLinesSingle()
    ensures forall i | 0 <= i < |HeaderLines| :: NoNewline(HeaderLines[i])
  {
    assert NoNewline("version: \"3.8\"");
    assert NoNewline("services:");
  }

  lemma BlockLinesSingle(s: ServiceConfig)
    requires SingleLineFields(s)
    ensures forall i | 0 <= i < |BlockLines(s)| :: NoNewline(BlockLines(s)[i])
  {
    forall k | 0 <= k < |s.ports|
      ensures NoNewline(PortLine(s.ports[k]))
    {
      IntToStringNoNewline(s.ports[k].host);
      IntToStringNoNewline(s.ports[k].container);
    }
  }

  lemma {:induction false} ServicesLinesSingle(services: seq<ServiceConfig>)
    requires forall i | 0 <= i < |services| :: SingleLineFields(services[i])
    ensures forall i | 0 <= i < |ServicesLines(services)| :: NoNewline(ServicesLines(services)[i])
    decreases |services|
  {
    if services != [] {
      ServicesLinesSingle(services[..|services| - 1]);
      BlockLinesSingle(services[|services| - 1]);
    }
  }

  lemma DocumentLinesSingle(services: seq<ServiceConfig>)
    requires forall i | 0 <= i < |services| :: SingleLineFields(services[i])
    ensures var lines := HeaderLines + ServicesLines(services);
      forall i | 0 <= i < |lines| :: NoNewline(lines[i])
  {
    var body := ServicesLines(services);
    ServicesLinesSingle(services);
    HeaderLinesSingle();
    var lines := HeaderLines + body;
    forall i | 0 <= i < |lines| ensures NoNewline(lines[i]) {
      if i >= |HeaderLines| {
        assert lines[i] == body[i - |HeaderLines|];
      }
    }
  }

  /** When no written field contains a line break, cutting the document at
      its line breaks gives back exactly the header lines and the lines of
      each block, in order. */
  lemma ComposeYamlLines(services: seq<ServiceConfig>)
    requires forall i | 0 <= i < |services| :: SingleLineFields(services[i])
    ensures SplitLines(ComposeYaml(services)) == HeaderLines + ServicesLines(services)
  {
    var lines := HeaderLines + ServicesLines(services);
    DocumentLinesSingle(services);
    ComposeYamlIsLines(services);
    SplitJoinedText(ComposeYaml(services), lines);
  }
}
