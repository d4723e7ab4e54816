/**
  Selector tags (core/control/daemon.go and the builder's own walk in core/singbox/builder.go).
  The daemon mirrors the builder's unique naming so that the selector default it asks for is the exit
  it means.  Proved: the suffix search terminates on every name list and finds the least free number,
  tags never collide, and the mirror agrees with the builder on every profile.
 */
module SelectorTags {
  import opened Wrappers
  import opened Tags

  // ----- Nodes -----

  datatype TLS = TLS(enabled: bool, serverName: string, fingerprint: string, fragment: bool,
                     realityPublicKey: Option<string>)

  datatype WireGuard = WireGuard(privateKey: string, peerPublicKey: string)

  datatype Node = Node(
    protocol: string, name: string, port: int, uuid: string, password: string, method_: string, plugin: string,
    tls: Option<TLS>, transport: Option<string>, wireGuard: Option<WireGuard>)

  /** A profile entry: a stable id and its node. */
  datatype Server = Server(id: string, node: Node)

  const VLESS := "vless"
  const HYSTERIA2 := "hysteria2"
  const SHADOWSOCKS := "shadowsocks"
  const TROJAN := "trojan"
  const VMESS := "vmess"
  const AMNEZIAWG := "amneziawg"

  predicate KnownProtocol(p: string) {
    p in {VLESS, HYSTERIA2, SHADOWSOCKS, TROJAN, VMESS, AMNEZIAWG}
  }

  predicate ValidTransport(n: Node) {
    match n.transport
    case None => true
    case Some(t) =>
      if t in {"", "ws", "grpc", "http", "httpupgrade"} then true
      else if t == "quic" then
        !((n.protocol == VLESS || n.protocol == VMESS) && (n.tls.None? || !n.tls.value.enabled))
      else false
  }

  predicate ValidCredentials(n: Node) {
    if n.protocol == SHADOWSOCKS then n.method_ != "" && n.password != "" && n.plugin == ""
    else if n.protocol == TROJAN || n.protocol == HYSTERIA2 then n.password != ""
    else if n.protocol == VLESS || n.protocol == VMESS then n.uuid != ""
    else if n.protocol == AMNEZIAWG then
      n.wireGuard.Some? && n.wireGuard.value.privateKey != "" && n.wireGuard.value.peerPublicKey != ""
    else true
  }

  predicate ValidateNode(n: Node) {
    && 1 <= n.port <= 65535
    && !(n.tls.Some? && n.tls.value.realityPublicKey == Some(""))
    && ValidTransport(n)
    && ValidCredentials(n)
  }

  predicate Renderable(s: Server) {
    s.node.protocol != "" && KnownProtocol(s.node.protocol) && ValidateNode(s.node)
  }

  // ----- The allocator -----

  /** How often a name has been handed out or tried; a name absent from the map counts as zero. */
  type Seen = map<string, nat>

  function Count(seen: Seen, name: string): nat {
    if name in seen then seen[name] else 0
  }

  /** The taken candidates numbered above k: what the search still has to step over. */
  ghost function TakenAbove(seen: Seen, base: string, k: nat): set<string> {
    set name | name in seen && seen[name] != 0 && (exists j: nat :: j > k && name == Suffixed(base, j))
  }

  lemma SteppingOverOne(seen: Seen, base: string, k: nat)
    requires Count(seen, Suffixed(base, k + 1)) != 0
    ensures TakenAbove(seen, base, k + 1) < TakenAbove(seen, base, k)
  {
    var name := Suffixed(base, k + 1);
    assert name in TakenAbove(seen, base, k);
    if name in TakenAbove(seen, base, k + 1) {
      var j: nat :| j > k + 1 && name == Suffixed(base, j);
      SuffixesDiffer(base, j, k + 1);
    }
  }

  /** The least number above k whose candidate is free. */
  function FreeSuffix(seen: Seen, base: string, k: nat): (n: nat)
    ensures n > k && Count(seen, Suffixed(base, n)) == 0
    ensures forall j :: k < j < n ==> Count(seen, Suffixed(base, j)) != 0
    decreases TakenAbove(seen, base, k)
  {
    if Count(seen, Suffixed(base, k + 1)) == 0 then k + 1
    else
      SteppingOverOne(seen, base, k);
      FreeSuffix(seen, base, k + 1)
  }

  /** The allocator's new table and the tag it hands out. */
  function Unique(seen: Seen, name: string): (Seen, string) {
    var base := Sanitized(name);
    if Count(seen, base) == 0 then (seen[base := 1], base)
    else
      var n := FreeSuffix(seen, base, Count(seen, base));
      (seen[base := n][Suffixed(base, n) := 1], Suffixed(base, n))
  }

  method UniqueTag(seen: Seen, name: string) returns (seen': Seen, tag: string)
    ensures (seen', tag) == Unique(seen, name)
  {
    var base := SanitizeTag(name);
    seen' := seen;
    if Count(seen', base) == 0 {
      return seen'[base := 1], base;
    }
    ghost var n := FreeSuffix(seen, base, Count(seen, base));
    while true
      invariant base in seen' && Count(seen, base) <= seen'[base] < n
      invariant seen' == seen[base := seen'[base]]
      decreases TakenAbove(seen, base, seen'[base])
    {
      ghost var before := seen'[base];
      seen' := seen'[base := seen'[base] + 1];
      var cand := Suffixed(base, seen'[base]);
      assert |cand| > |base|;
      if Count(seen', cand) == 0 {
        assert Count(seen, cand) == 0;
        assert seen' == seen[base := n];
        assert (seen'[cand := 1], cand) == Unique(seen, name);
        return seen'[cand := 1], cand;
      }
      SteppingOverOne(seen, base, before);
    }
  }

  function Free(seen: Seen, tag: string): Seen {
    map name | name in seen && name != tag :: seen[name]
  }

  /** The tag handed out was free, and only that tag's and its base's counts change. */
  lemma UniqueIsFresh(seen: Seen, name: string)
    ensures var (seen', tag) := Unique(seen, name);
            && Count(seen, tag) == 0 && Count(seen', tag) != 0 && tag != []
            && (forall x :: x != tag && Count(seen, x) != 0 ==> Count(seen', x) != 0)
  {
    SanitizedIsATag(name);
  }

  // ----- The daemon's walk -----

  datatype Tagging = Tagging(seen: Seen, tags: map<string, string>)

  function TagServer(t: Tagging, s: Server): Tagging {
    if s.node.protocol == "" then t
    else
      var (seen, tag) := Unique(t.seen, s.node.name);
      if !ValidateNode(s.node) || !KnownProtocol(s.node.protocol) then Tagging(Free(seen, tag), t.tags)
      else Tagging(seen, t.tags[s.id := tag])
  }

  function TagServers(servers: seq<Server>): Tagging {
    if servers == [] then Tagging(map[], map[])
    else TagServer(TagServers(servers[..|servers| - 1]), servers[|servers| - 1])
  }

  method ServerTags(servers: seq<Server>) returns (tags: map<string, string>)
    ensures tags == TagServers(servers).tags
  {
    var seen: Seen := map[];
    tags := map[];
    for i := 0 to |servers|
      invariant Tagging(seen, tags) == TagServers(servers[..i])
    {
      assert servers[..i + 1][..i] == servers[..i];
      var s := servers[i];
      if s.node.protocol != "" {
        var tag;
        seen, tag := UniqueTag(seen, s.node.name);
        if !ValidateNode(s.node) {
          seen := Free(seen, tag);
        } else if !KnownProtocol(s.node.protocol) {
          seen := Free(seen, tag);
        } else {
          tags := tags[s.id := tag];
        }
      }
    }
    assert servers[..|servers|] == servers;
  }

  /** Every tag handed out is still marked as taken, tags differ between ids, and none is blank. */
  predicate TagsAreApart(t: Tagging) {
    && (forall id :: id in t.tags ==> t.tags[id] != [] && Count(t.seen, t.tags[id]) != 0)
    && (forall a, b :: a in t.tags && b in t.tags && t.tags[a] == t.tags[b] ==> a == b)
  }

  lemma TagServerKeepsApart(t: Tagging, s: Server)
    requires TagsAreApart(t)
    ensures TagsAreApart(TagServer(t, s))
  {
    UniqueIsFresh(t.seen, s.node.name);
  }

  lemma {:induction false} ServersGetDistinctTags(servers: seq<Server>)
    ensures TagsAreApart(TagServers(servers))
  {
    if servers == [] {
    } else {
      var front, last := servers[..|servers| - 1], servers[|servers| - 1];
      ServersGetDistinctTags(front);
      TagServerKeepsApart(TagServers(front), last);
    }
  }

  lemma OneMoreServer(t: Tagging, s: Server, id: string)
    ensures id in TagServer(t, s).tags <==> id in t.tags || (s.id == id && Renderable(s))
  {
  }

  lemma {:induction false} RenderableServersAreTagged(servers: seq<Server>, id: string)
    ensures id in TagServers(servers).tags
            <==> exists i :: 0 <= i < |servers| && servers[i].id == id && Renderable(servers[i])
  {
    if servers == [] {
    } else {
      var front, last := servers[..|servers| - 1], servers[|servers| - 1];
      RenderableServersAreTagged(front, id);
      OneMoreServer(TagServers(front), last, id);
      if i :| 0 <= i < |servers| && servers[i].id == id && Renderable(servers[i]) {
        assert i < |front| ==> front[i] == servers[i];
      }
      if i :| 0 <= i < |front| && front[i].id == id && Renderable(front[i]) {
        assert servers[i] == front[i];
      }
    }
  }

  // ----- Candidates -----

  datatype Attempt = Attempt(nodeId: string, node: Node)

  datatype CandidateError = Unsupported | NotInProfile | NoUsableServers

  /** The renderable servers, in profile order. */
  function RenderableAttempts(servers: seq<Server>): seq<Attempt> {
    if servers == [] then []
    else
      var last := servers[|servers| - 1];
      RenderableAttempts(servers[..|servers| - 1]) +
      if Renderable(last) then [Attempt(last.id, last.node)] else []
  }

  /** The position of the first server with this id, or |servers|. */
  function FirstWithId(servers: seq<Server>, id: string): (i: nat)
    ensures i <= |servers|
    ensures forall j :: 0 <= j < i ==> servers[j].id != id
    ensures i < |servers| ==> servers[i].id == id
  {
    if servers == [] || servers[0].id == id then 0 else 1 + FirstWithId(servers[1..], id)
  }

  function NamedCandidate(servers: seq<Server>, id: string): Result<seq<Attempt>, CandidateError> {
    var i := FirstWithId(servers, id);
    if i == |servers| then Err(NotInProfile)
    else if Renderable(servers[i]) then Ok([Attempt(id, servers[i].node)])
    else Err(Unsupported)
  }

  /** The candidates are the named server alone, or every renderable one in order. */
  method BuildCandidates(servers: seq<Server>, explicit: string) returns (r: Result<seq<Attempt>, CandidateError>)
    ensures explicit != "" ==> r == NamedCandidate(servers, explicit)
    ensures explicit == "" ==>
              r == if RenderableAttempts(servers) == [] then Err(NoUsableServers) else Ok(RenderableAttempts(servers))
  {
    if explicit != "" {
      for i := 0 to |servers|
        invariant i <= FirstWithId(servers, explicit)
      {
        if servers[i].id == explicit {
          if !Renderable(servers[i]) {
            return Err(Unsupported);
          }
          return Ok([Attempt(servers[i].id, servers[i].node)]);
        }
      }
      return Err(NotInProfile);
    }
    var cands: seq<Attempt> := [];
    for i := 0 to |servers|
      invariant cands == RenderableAttempts(servers[..i])
    {
      assert servers[..i + 1][..i] == servers[..i];
      if Renderable(servers[i]) {
        cands := cands + [Attempt(servers[i].id, servers[i].node)];
      }
    }
    assert servers[..|servers|] == servers;
    if |cands| == 0 {
      return Err(NoUsableServers);
    }
    return Ok(cands);
  }

  lemma {:induction false} AttemptsAreServers(servers: seq<Server>, a: Attempt)
    requires a in RenderableAttempts(servers)
    ensures exists i :: 0 <= i < |servers| && servers[i] == Server(a.nodeId, a.node) && Renderable(servers[i])
  {
    var front, last := servers[..|servers| - 1], servers[|servers| - 1];
    if a in RenderableAttempts(front) {
      AttemptsAreServers(front, a);
      var i :| 0 <= i < |front| && front[i] == Server(a.nodeId, a.node) && Renderable(front[i]);
      assert servers[i] == front[i];
    } else {
      assert servers[|servers| - 1] == Server(a.nodeId, a.node);
    }
  }

  // ----- The builder's walk -----

  /** A node the builder emits: its position in the input and the tag it gets. */
  datatype NodeTag = NodeTag(index: nat, tag: string)

  datatype Building = Building(seen: Seen, sel: seq<NodeTag>)

  /** Whether the endpoint of a WireGuard node can be rendered. */
  predicate EndpointRenders(n: Node) {
    n.wireGuard.Some? && n.wireGuard.value.privateKey != "" && n.wireGuard.value.peerPublicKey != ""
  }

  predicate HasOutbound(n: Node) {
    n.protocol in {VLESS, HYSTERIA2, SHADOWSOCKS, TROJAN, VMESS}
  }

  function BuildNode(b: Building, i: nat, n: Node): Building {
    if n.protocol == "" then b
    else
      var (seen, tag) := Unique(b.seen, n.name);
      if !ValidateNode(n) then Building(Free(seen, tag), b.sel)
      else if n.protocol == AMNEZIAWG then
        if EndpointRenders(n) then Building(seen, b.sel + [NodeTag(i, tag)]) else Building(Free(seen, tag), b.sel)
      else if HasOutbound(n) then Building(seen, b.sel + [NodeTag(i, tag)])
      else Building(Free(seen, tag), b.sel)
  }

  function BuildAll(nodes: seq<Node>): Building {
    if nodes == [] then Building(map[], [])
    else BuildNode(BuildAll(nodes[..|nodes| - 1]), |nodes| - 1, nodes[|nodes| - 1])
  }

  method BuildNodes(nodes: seq<Node>) returns (sel: seq<NodeTag>)
    ensures sel == BuildAll(nodes).sel
  {
    var seen: Seen := map[];
    sel := [];
    for i := 0 to |nodes|
      invariant Building(seen, sel) == BuildAll(nodes[..i])
    {
      assert nodes[..i + 1][..i] == nodes[..i];
      var n := nodes[i];
      if n.protocol != "" {
        var tag;
        seen, tag := UniqueTag(seen, n.name);
        if !ValidateNode(n) {
          seen := Free(seen, tag);
        } else if n.protocol == AMNEZIAWG {
          if EndpointRenders(n) {
            sel := sel + [NodeTag(i, tag)];
          } else {
            seen := Free(seen, tag);
          }
        } else if HasOutbound(n) {
          sel := sel + [NodeTag(i, tag)];
        } else {
          seen := Free(seen, tag);
        }
      }
    }
    assert nodes[..|nodes|] == nodes;
  }

  function SelTags(sel: seq<NodeTag>): seq<string> {
    seq(|sel|, i requires 0 <= i < |sel| => sel[i].tag)
  }

  /** The tag the built selector starts on, without a multihop chain. */
  function SelectorDefault(nodes: seq<Node>, selected: string): Option<string> {
    var sel := BuildAll(nodes).sel;
    if sel == [] then None
    else if selected == "" || selected !in SelTags(sel) then Some(sel[0].tag)
    else Some(selected)
  }

  // ----- The mirror agrees with the builder -----

  function ProfileNodes(servers: seq<Server>): (nodes: seq<Node>)
    ensures |nodes| == |servers|
    ensures forall i :: 0 <= i < |servers| ==> nodes[i] == servers[i].node
  {
    seq(|servers|, i requires 0 <= i < |servers| => servers[i].node)
  }

  /** The tags by server id that a selector over these servers amounts to. */
  function TagsOfSelector(servers: seq<Server>, sel: seq<NodeTag>): map<string, string>
    requires forall k :: 0 <= k < |sel| ==> sel[k].index < |servers|
  {
    if sel == [] then map[]
    else
      var last := sel[|sel| - 1];
      TagsOfSelector(servers, sel[..|sel| - 1])[servers[last.index].id := last.tag]
  }

  lemma {:induction false} MoreServersSameTags(servers: seq<Server>, more: seq<Server>, sel: seq<NodeTag>)
    requires servers <= more
    requires forall k :: 0 <= k < |sel| ==> sel[k].index < |servers|
    ensures TagsOfSelector(servers, sel) == TagsOfSelector(more, sel)
  {
    if sel == [] {
    } else {
      MoreServersSameTags(servers, more, sel[..|sel| - 1]);
    }
  }

  lemma MirrorStep(servers: seq<Server>, i: nat, t: Tagging, b: Building)
    requires i < |servers|
    requires forall k :: 0 <= k < |b.sel| ==> b.sel[k].index < |servers|
    requires t == Tagging(b.seen, TagsOfSelector(servers, b.sel))
    ensures var b' := BuildNode(b, i, servers[i].node);
            && (forall k :: 0 <= k < |b'.sel| ==> b'.sel[k].index < |servers|)
            && TagServer(t, servers[i]) == Tagging(b'.seen, TagsOfSelector(servers, b'.sel))
  {
    var n := servers[i].node;
    if ValidateNode(n) {
      EveryKnownNodeIsEmitted(n);
    }
    var (_, tag) := Unique(b.seen, n.name);
    var sel := b.sel + [NodeTag(i, tag)];
    assert sel[..|sel| - 1] == b.sel;
    assert TagsOfSelector(servers, sel) == t.tags[servers[i].id := tag];
  }

  /** Validation leaves the builder nothing to drop of a known protocol, and nothing to emit of another. */
  lemma EveryKnownNodeIsEmitted(n: Node)
    requires ValidateNode(n)
    ensures n.protocol == AMNEZIAWG ==> EndpointRenders(n)
    ensures KnownProtocol(n.protocol) <==> n.protocol == AMNEZIAWG || HasOutbound(n)
  {
  }

  /** On every profile the daemon's tags are exactly those of the selector the builder emits. */
  lemma {:induction false} MirrorAgreesWithBuilder(servers: seq<Server>)
    ensures var b := BuildAll(ProfileNodes(servers));
            && (forall k :: 0 <= k < |b.sel| ==> b.sel[k].index < |servers|)
            && TagServers(servers) == Tagging(b.seen, TagsOfSelector(servers, b.sel))
  {
    if servers == [] {
    } else {
      var front := servers[..|servers| - 1];
      MirrorAgreesWithBuilder(front);
      var b := BuildAll(ProfileNodes(front));
      assert ProfileNodes(servers)[..|servers| - 1] == ProfileNodes(front);
      MoreServersSameTags(front, servers, b.sel);
      MirrorStep(servers, |servers| - 1, TagServers(front), b);
    }
  }

  lemma {:induction false} TagsComeFromTheSelector(servers: seq<Server>, sel: seq<NodeTag>, id: string)
    requires forall k :: 0 <= k < |sel| ==> sel[k].index < |servers|
    requires id in TagsOfSelector(servers, sel)
    ensures exists k ::
              0 <= k < |sel| && servers[sel[k].index].id == id && sel[k].tag == TagsOfSelector(servers, sel)[id]
  {
    var last := sel[|sel| - 1];
    if servers[last.index].id != id {
      TagsComeFromTheSelector(servers, sel[..|sel| - 1], id);
      var k :| 0 <= k < |sel| - 1 && servers[sel[..|sel| - 1][k].index].id == id
               && sel[..|sel| - 1][k].tag == TagsOfSelector(servers, sel[..|sel| - 1])[id];
      assert sel[k] == sel[..|sel| - 1][k];
    }
  }

  predicate EmittedApart(b: Building) {
    && (forall k :: 0 <= k < |b.sel| ==> b.sel[k].tag != [] && Count(b.seen, b.sel[k].tag) != 0)
    && (forall j, k :: 0 <= j < k < |b.sel| ==> b.sel[j].tag != b.sel[k].tag)
  }

  lemma BuildNodeKeepsApart(b: Building, i: nat, n: Node)
    requires EmittedApart(b)
    ensures EmittedApart(BuildNode(b, i, n))
  {
    UniqueIsFresh(b.seen, n.name);
    var (seen, tag) := Unique(b.seen, n.name);
    assert EmittedApart(Building(Free(seen, tag), b.sel));
    assert EmittedApart(Building(seen, b.sel + [NodeTag(i, tag)]));
  }

  /** No two servers the naming loop emits an outbound or an endpoint for share a tag. */
  lemma {:induction false} BuilderTagsAreDistinct(nodes: seq<Node>)
    ensures EmittedApart(BuildAll(nodes))
  {
    if nodes == [] {
    } else {
      BuilderTagsAreDistinct(nodes[..|nodes| - 1]);
      BuildNodeKeepsApart(BuildAll(nodes[..|nodes| - 1]), |nodes| - 1, nodes[|nodes| - 1]);
    }
  }

  /**
    The exit a candidate means is the member its selector starts on: every candidate has a tag, one server
    only among the selector's members has it, that server has the candidate's id, and the built selector
    defaults to it. BuiltConfig adds the outbounds that are not servers, which may carry the tag as well.
   */
  lemma {:induction false} SelectorStartsOnTheCandidate(servers: seq<Server>, id: string)
    requires exists i :: 0 <= i < |servers| && servers[i].id == id && Renderable(servers[i])
    ensures var tags, sel := TagServers(servers).tags, BuildAll(ProfileNodes(servers)).sel;
            && id in tags && tags[id] != ""
            && SelectorDefault(ProfileNodes(servers), tags[id]) == Some(tags[id])
            && (exists k ::
                  && 0 <= k < |sel| && sel[k].tag == tags[id]
                  && sel[k].index < |servers| && servers[sel[k].index].id == id)
            && (forall j, k :: 0 <= j < |sel| && 0 <= k < |sel| && sel[j].tag == tags[id] == sel[k].tag ==> j == k)
  {
    var tags, sel := TagServers(servers).tags, BuildAll(ProfileNodes(servers)).sel;
    RenderableServersAreTagged(servers, id);
    ServersGetDistinctTags(servers);
    MirrorAgreesWithBuilder(servers);
    TagsComeFromTheSelector(servers, sel, id);
    var k :| 0 <= k < |sel| && servers[sel[k].index].id == id && sel[k].tag == tags[id];
    assert SelTags(sel)[k] == tags[id];
    BuilderTagsAreDistinct(ProfileNodes(servers));
  }

  /** Whatever the walk is handed to try, the named server or any of the list, makes a selector that defaults to it. */
  lemma {:induction false} EveryCandidateStartsOnItself(servers: seq<Server>, explicit: string, a: Attempt)
    requires if explicit != "" then NamedCandidate(servers, explicit) == Ok([a]) else a in RenderableAttempts(servers)
    ensures var tags := TagServers(servers).tags;
            a.nodeId in tags && SelectorDefault(ProfileNodes(servers), tags[a.nodeId]) == Some(tags[a.nodeId])
  {
    if explicit == "" {
      AttemptsAreServers(servers, a);
    } else {
      assert a == [a][0];
      assert servers[FirstWithId(servers, explicit)].id == a.nodeId;
    }
    SelectorStartsOnTheCandidate(servers, a.nodeId);
  }

  // ----- Reshaped handshakes -----

  datatype Strategy = Strategy(name: string, fingerprint: string, serverName: string, fragment: bool) {
    predicate IsDefault() {
      fingerprint == "" && serverName == "" && !fragment
    }

    function ApplyTo(n: Node): Node {
      if IsDefault() || n.tls.None? then n
      else
        var tls := n.tls.value;
        n.(tls := Some(tls.(fingerprint := if fingerprint != "" then fingerprint else tls.fingerprint,
                            serverName := if serverName != "" then serverName else tls.serverName,
                            fragment := fragment || tls.fragment)))
    }
  }

  /** The node slice of one attempt: the strategy folded into the target node alone. */
  method ApplyStrategyToNodes(nodes: seq<Node>, nodeIds: seq<string>, target: string, strat: Strategy)
    returns (out: seq<Node>)
    ensures |out| == |nodes|
    ensures forall i :: 0 <= i < |nodes| ==>
              out[i] == if i < |nodeIds| && nodeIds[i] == target then strat.ApplyTo(nodes[i]) else nodes[i]
    ensures BuildAll(out).sel == BuildAll(nodes).sel
  {
    if strat.IsDefault() {
      return nodes;
    }
    out := nodes;
    for i := 0 to |nodes|
      invariant |out| == |nodes|
      invariant forall j :: 0 <= j < |nodes| ==>
                  out[j] == if j < i && j < |nodeIds| && nodeIds[j] == target then strat.ApplyTo(nodes[j]) else nodes[j]
    {
      if i < |nodeIds| && nodeIds[i] == target {
        out := out[i := strat.ApplyTo(out[i])];
      }
    }
    SameShapesSameTags(nodes, out);
  }

  /** What the builder's tag walk can see of a node. */
  predicate SameShape(a: Node, b: Node) {
    && a.name == b.name && a.protocol == b.protocol && a.wireGuard == b.wireGuard
    && (ValidateNode(a) <==> ValidateNode(b))
  }

  lemma {:induction false} SameShapesSameTags(a: seq<Node>, b: seq<Node>)
    requires |a| == |b| && forall i :: 0 <= i < |a| ==> SameShape(a[i], b[i])
    ensures BuildAll(a) == BuildAll(b)
  {
    if a == [] {
    } else {
      SameShapesSameTags(a[..|a| - 1], b[..|b| - 1]);
      assert SameShape(a[|a| - 1], b[|b| - 1]);
    }
  }
}
