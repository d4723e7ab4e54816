/**
  Which servers a profile offers, what they are called and how they are chained, said position by position
  (core/control/daemon.go, core/singbox/builder.go, core/fallback/strategy.go).
 */
module SelectorLaws {
  import opened SelectorTags
  import opened BuiltConfig
  import opened Tags
  import opened Wrappers

  // ----- The usable servers -----

  /** What a node of each protocol needs before anything can be built from it. */
  predicate Usable(n: Node) {
    && 0 < n.port < 65536
    && (n.tls.Some? && n.tls.value.realityPublicKey.Some? ==> n.tls.value.realityPublicKey.value != "")
    && (n.transport.Some? ==>
          || n.transport.value in {"", "ws", "grpc", "http", "httpupgrade"}
          || (n.transport.value == "quic" && (n.protocol in {"vless", "vmess"} ==> n.tls.Some? && n.tls.value.enabled)))
    && (|| (n.protocol in {"vless", "vmess"} && n.uuid != "")
        || (n.protocol in {"trojan", "hysteria2"} && n.password != "")
        || (n.protocol == "shadowsocks" && n.method_ != "" && n.password != "" && n.plugin == "")
        || (n.protocol == "amneziawg" && n.wireGuard.Some?
            && n.wireGuard.value.privateKey != "" && n.wireGuard.value.peerPublicKey != ""))
  }

  /** The daemon offers a server, and the builder emits it, exactly if it is usable. */
  lemma RenderableIffUsable(s: Server)
    ensures Renderable(s) <==> Usable(s.node)
    ensures Emits(s.node) <==> Usable(s.node)
  {
    var p := s.node.protocol;
    assert p == VLESS || p == VMESS || p == TROJAN || p == HYSTERIA2 || p == SHADOWSOCKS || p == AMNEZIAWG
           || !KnownProtocol(p);
  }

  /** The usable nodes' positions, each once and in order. */
  ghost predicate Picks(at: seq<nat>, nodes: seq<Node>) {
    && (forall k :: 0 <= k < |at| ==> at[k] < |nodes|)
    && (forall j, k :: 0 <= j < k < |at| ==> at[j] < at[k])
    && (forall i :: 0 <= i < |nodes| ==> (Usable(nodes[i]) <==> i in at))
  }

  lemma PicksOneMore(at: seq<nat>, nodes: seq<Node>, usable: bool)
    requires nodes != [] && Picks(at, nodes[..|nodes| - 1]) && (usable <==> Usable(nodes[|nodes| - 1]))
    ensures Picks(if usable then at + [|nodes| - 1] else at, nodes)
  {
    var at', front := if usable then at + [|nodes| - 1] else at, nodes[..|nodes| - 1];
    forall i | 0 <= i < |nodes|
      ensures Usable(nodes[i]) <==> i in at'
    {
      assert i < |front| ==> front[i] == nodes[i];
    }
  }

  lemma OneMoreCandidate(servers: seq<Server>) returns (usable: bool)
    requires servers != []
    ensures usable <==> Usable(servers[|servers| - 1].node)
    ensures var last := servers[|servers| - 1];
            RenderableAttempts(servers)
            == RenderableAttempts(servers[..|servers| - 1]) + if usable then [Attempt(last.id, last.node)] else []
  {
    usable := Renderable(servers[|servers| - 1]);
    RenderableIffUsable(servers[|servers| - 1]);
  }

  /** Without an explicit server, the candidates are all the usable servers of the profile, in its order. */
  lemma {:induction false} CandidatesAreTheUsableOnes(servers: seq<Server>) returns (at: seq<nat>)
    ensures Picks(at, ProfileNodes(servers)) && |at| == |RenderableAttempts(servers)|
    ensures forall k :: 0 <= k < |at| ==>
              RenderableAttempts(servers)[k] == Attempt(servers[at[k]].id, servers[at[k]].node)
  {
    at := [];
    if servers != [] {
      var front := servers[..|servers| - 1];
      at := CandidatesAreTheUsableOnes(front);
      var usable := OneMoreCandidate(servers);
      assert ProfileNodes(servers)[..|servers| - 1] == ProfileNodes(front);
      PicksOneMore(at, ProfileNodes(servers), usable);
      if usable {
        at := at + [|front|];
      }
    }
  }

  /** The positions of the builder's members. */
  function Indexes(sel: seq<NodeTag>): (at: seq<nat>)
    ensures |at| == |sel|
    ensures forall k :: 0 <= k < |sel| ==> at[k] == sel[k].index
  {
    seq(|sel|, k requires 0 <= k < |sel| => sel[k].index)
  }

  lemma OneMoreMember(nodes: seq<Node>) returns (usable: bool)
    requires nodes != []
    ensures usable <==> Usable(nodes[|nodes| - 1])
    ensures Indexes(BuildAll(nodes).sel)
            == Indexes(BuildAll(nodes[..|nodes| - 1]).sel) + if usable then [|nodes| - 1] else []
  {
    usable := Emits(nodes[|nodes| - 1]);
    RenderableIffUsable(Server("", nodes[|nodes| - 1]));
    MemberIsAdded(BuildAll(nodes[..|nodes| - 1]), |nodes| - 1, nodes[|nodes| - 1]);
  }

  lemma MemberIsAdded(b: Building, i: nat, n: Node)
    ensures Indexes(BuildNode(b, i, n).sel) == Indexes(b.sel) + if Emits(n) then [i] else []
  {
  }

  /** The builder's selector lists all the usable nodes, in their order. */
  lemma {:induction false} MembersAreTheUsableOnes(nodes: seq<Node>)
    ensures Picks(Indexes(BuildAll(nodes).sel), nodes)
  {
    if nodes != [] {
      MembersAreTheUsableOnes(nodes[..|nodes| - 1]);
      var usable := OneMoreMember(nodes);
      PicksOneMore(Indexes(BuildAll(nodes[..|nodes| - 1]).sel), nodes, usable);
    }
  }

  // ----- Names -----

  /** A character as it appears in a tag: control characters, quotes and backslashes are dashed out. */
  function Shown(c: char): char {
    if c < ' ' || c as int == 0x7f || c == '"' || c == '\\' then '-' else c
  }

  lemma DashedEnds(name: string)
    requires name != "" && Trimmed(name)
    ensures Dashed(name) != "" && Trimmed(Dashed(name)) && |Dashed(name)| == |name|
  {
  }

  /** A name without space at its ends becomes its tag character by character; a name of nothing but space is "node". */
  lemma NamesBecomeTags(name: string)
    ensures name != "" && Trimmed(name) ==>
              |Sanitized(name)| == |name| && forall i :: 0 <= i < |name| ==> Sanitized(name)[i] == Shown(name[i])
    ensures (forall i :: 0 <= i < |name| ==> IsSpace(name[i])) ==> Sanitized(name) == "node"
  {
    TrimSpaceTrims(name);
    if name != "" && Trimmed(name) {
      DashedEnds(name);
      TrimSpaceTrims(Dashed(name));
    }
    if forall i :: 0 <= i < |name| ==> IsSpace(name[i]) {
      if TrimSpace(name) != [] {
        assert TrimSpace(name)[0] in name;
      }
    }
  }

  /** A decimal numeral's value, digit by digit. */
  function Value(s: string): nat {
    if s == [] then 0
    else
      var d := s[|s| - 1];
      Value(s[..|s| - 1]) * 10 + if '0' <= d <= '9' then d as nat - '0' as nat else 0
  }

  /** A counter is written as its decimal numeral, without a leading zero. */
  lemma {:induction false} DecimalReadsBack(n: nat)
    ensures Value(Decimal(n)) == n && (n > 0 ==> Decimal(n)[0] != '0')
  {
    if n >= 10 {
      var s := Decimal(n);
      DecimalReadsBack(n / 10);
      assert s[..|s| - 1] == Decimal(n / 10);
    } else {
      assert Decimal(n)[..0] == [];
      assert Value([]) == 0;
    }
  }

  ghost predicate Namesakes(servers: seq<Server>, base: string) {
    && (forall i :: 0 <= i < |servers| ==> Renderable(servers[i]) && Sanitized(servers[i].node.name) == base)
    && (forall i, j :: 0 <= i < j < |servers| ==> servers[i].id != servers[j].id)
  }

  /** What the i-th of several servers of one name is called. */
  function Numbered(base: string, i: nat): string {
    if i == 0 then base else base + "-" + Decimal(i + 1)
  }

  /** After n servers of one name: their tags, and the counter of the name. */
  ghost predicate Numbering(servers: seq<Server>, base: string, t: Tagging) {
    && (forall i :: 0 <= i < |servers| ==> servers[i].id in t.tags && t.tags[servers[i].id] == Numbered(base, i))
    && Count(t.seen, base) == |servers|
    && (forall k: nat :: k > |servers| && k > 1 ==> Count(t.seen, Suffixed(base, k)) == 0)
  }

  lemma NextNamesake(seen: Seen, base: string, n: nat)
    requires Count(seen, base) == n && forall k: nat :: k > n && k > 1 ==> Count(seen, Suffixed(base, k)) == 0
    ensures n > 0 ==> FreeSuffix(seen, base, n) == n + 1
  {
    if n > 0 {
      assert Count(seen, Suffixed(base, n + 1)) == 0;
    }
  }

  lemma NumberIsTaken(seen: Seen, base: string, n: nat)
    requires Count(seen, base) == n && forall k: nat :: k > n && k > 1 ==> Count(seen, Suffixed(base, k)) == 0
    ensures var seen' := if n == 0 then seen[base := 1] else seen[base := n + 1][Suffixed(base, n + 1) := 1];
            && Count(seen', base) == n + 1
            && forall k: nat :: k > n + 1 ==> Count(seen', Suffixed(base, k)) == 0
  {
    forall k: nat | k > n + 1
      ensures Suffixed(base, k) != Suffixed(base, n + 1) && Suffixed(base, k) != base
    {
      if Suffixed(base, k) == Suffixed(base, n + 1) {
        SuffixesDiffer(base, k, n + 1);
      }
      assert |Suffixed(base, k)| > |base|;
    }
    assert |Suffixed(base, n + 1)| > |base|;
  }

  /** One more server of the name gets the next number. */
  lemma OneMoreNamesake(seen: Seen, name: string, n: nat)
    requires var base := Sanitized(name);
             Count(seen, base) == n && forall k: nat :: k > n && k > 1 ==> Count(seen, Suffixed(base, k)) == 0
    ensures var (seen', tag) := Unique(seen, name); var base := Sanitized(name);
            && tag == Numbered(base, n) && Count(seen', base) == n + 1
            && forall k: nat :: k > n + 1 ==> Count(seen', Suffixed(base, k)) == 0
  {
    NextNamesake(seen, Sanitized(name), n);
    NumberIsTaken(seen, Sanitized(name), n);
  }

  /** Servers of one name are called by it, and then numbered from two on in profile order. */
  lemma {:induction false} NamesakesAreNumbered(servers: seq<Server>, base: string)
    requires Namesakes(servers, base)
    ensures Numbering(servers, base, TagServers(servers))
  {
    if servers != [] {
      var front, last := servers[..|servers| - 1], servers[|servers| - 1];
      NamesakesAreNumbered(front, base);
      var t := TagServers(front);
      OneMoreNamesake(t.seen, last.node.name, |front|);
      NumberingGoesOn(servers, base, t, Unique(t.seen, last.node.name).0);
    }
  }

  lemma NumberingGoesOn(servers: seq<Server>, base: string, t: Tagging, seen: Seen)
    requires servers != [] && Namesakes(servers, base) && Numbering(servers[..|servers| - 1], base, t)
    requires Count(seen, base) == |servers| && forall k: nat :: k > |servers| ==> Count(seen, Suffixed(base, k)) == 0
    ensures Numbering(servers, base,
                      Tagging(seen, t.tags[servers[|servers| - 1].id := Numbered(base, |servers| - 1)]))
  {
    var front := servers[..|servers| - 1];
    assert forall i :: 0 <= i < |front| ==> front[i] == servers[i];
  }

  // ----- Chains -----

  lemma {:induction false} RegularOnesAre(nodes: seq<Node>, sel: seq<NodeTag>, t: NodeTag)
    ensures t in RegularOnes(nodes, sel) <==> t in sel && !IsEndpoint(nodes, t)
    ensures t in EndpointOnes(nodes, sel) <==> t in sel && IsEndpoint(nodes, t)
  {
    if sel != [] {
      var front, last := sel[..|sel| - 1], sel[|sel| - 1];
      RegularOnesAre(nodes, front, t);
      assert sel == front + [last];
    }
  }

  /** Some server that is not a WireGuard endpoint goes by this tag. */
  ghost predicate Chainable(nodes: seq<Node>, tag: string) {
    exists t :: t in BuildAll(nodes).sel && t.tag == tag && t.index < |nodes| && nodes[t.index].protocol != "amneziawg"
  }

  lemma ChainableIff(nodes: seq<Node>, tag: string)
    ensures tag in SelTags(RegularOnes(nodes, BuildAll(nodes).sel)) <==> Chainable(nodes, tag)
  {
    var sel := BuildAll(nodes).sel;
    var regular := RegularOnes(nodes, sel);
    MembersAreTheUsableOnes(nodes);
    if tag in SelTags(regular) {
      var k :| 0 <= k < |regular| && SelTags(regular)[k] == tag;
      RegularOnesAre(nodes, sel, regular[k]);
      assert regular[k].tag == tag;
    }
    if Chainable(nodes, tag) {
      var t :| t in sel && t.tag == tag && t.index < |nodes| && nodes[t.index].protocol != "amneziawg";
      RegularOnesAre(nodes, sel, t);
      var k :| 0 <= k < |regular| && regular[k] == t;
      assert SelTags(regular)[k] == tag;
    }
  }

  /**
    A configuration is built exactly if some server is usable and, with a chain, its two ends are different servers
    that are outbounds.
   */
  lemma {:induction false} BuildsIff(nodes: seq<Node>, selected: string, chain: Option<Chain>)
    ensures Build(nodes, selected, chain).Ok?
            <==> (exists i :: 0 <= i < |nodes| && Usable(nodes[i]))
                 && (chain.Some? ==>
                       && chain.value.entry != "" && chain.value.exit != "" && chain.value.entry != chain.value.exit
                       && Chainable(nodes, chain.value.entry) && Chainable(nodes, chain.value.exit))
  {
    MembersAreTheUsableOnes(nodes);
    var sel := BuildAll(nodes).sel;
    if sel != [] {
      assert 0 <= sel[0].index < |nodes|;
      assert Usable(nodes[sel[0].index]);
    }
    if chain.Some? {
      ChainableIff(nodes, chain.value.entry);
      ChainableIff(nodes, chain.value.exit);
    }
  }

  /** The outbound dials through another one. */
  predicate Detours(o: Outbound) {
    o.Exit? && o.detour.Some?
  }

  /** Without a chain every server is dialled directly. */
  lemma NobodyDetours(nodes: seq<Node>, selected: string)
    requires Build(nodes, selected, None).Ok?
    ensures forall o :: o in Build(nodes, selected, None).value.outbounds ==> !Detours(o)
  {
  }

  lemma {:induction false} RegularOnesAreApart(nodes: seq<Node>, sel: seq<NodeTag>)
    requires forall j, k :: 0 <= j < k < |sel| ==> sel[j].tag != sel[k].tag
    ensures var regular := RegularOnes(nodes, sel);
            forall j, k :: 0 <= j < k < |regular| ==> regular[j].tag != regular[k].tag
  {
    if sel != [] {
      var front, last := sel[..|sel| - 1], sel[|sel| - 1];
      RegularOnesAreApart(nodes, front);
      var regular := RegularOnes(nodes, front);
      forall j | 0 <= j < |regular|
        ensures regular[j].tag != last.tag
      {
        RegularOnesAre(nodes, front, regular[j]);
        var k :| 0 <= k < |front| && front[k] == regular[j];
        assert sel[k] == front[k];
      }
    }
  }

  /** One outbound dials through another, which is dialled directly, and no other dials through anything. */
  ghost predicate HopsAt(outs: seq<Outbound>, chain: Chain, exit: nat, entry: nat) {
    && exit < |outs| && entry < |outs| && exit != entry
    && outs[exit].Exit? && outs[exit].tag == chain.exit && outs[exit].detour == Some(chain.entry)
    && outs[entry].Exit? && outs[entry].tag == chain.entry && outs[entry].detour == None
    && forall i :: 0 <= i < |outs| && Detours(outs[i]) ==> i == exit
  }

  /**
    A chain has two hops: the selector offers its exit alone, the exit is the one outbound that dials through another,
    and that one is the entry, a different server that is dialled directly.
   */
  lemma {:induction false} AChainHasTwoHops(nodes: seq<Node>, selected: string, chain: Chain)
      returns (exit: nat, entry: nat)
    requires Build(nodes, selected, Some(chain)).Ok?
    ensures var outs := Build(nodes, selected, Some(chain)).value.outbounds;
            HopsAt(outs, chain, exit, entry) && outs[0] == Selector("proxy", [chain.exit], chain.exit)
  {
    var regular := RegularOnes(nodes, BuildAll(nodes).sel);
    RegularTagsDiffer(nodes);
    ChainedOutbounds(nodes, selected, chain);
    exit, entry := TwoHops(regular, chain);
    HopsInTheMiddle(Selector("proxy", [chain.exit], chain.exit), ServerOutbounds(regular, Some(chain)),
                    chain, exit, entry);
    exit, entry := exit + 1, entry + 1;
  }

  lemma HopsInTheMiddle(selector: Outbound, servers: seq<Outbound>, chain: Chain, exit: nat, entry: nat)
    requires selector.Selector? && HopsAt(servers, chain, exit, entry)
    ensures HopsAt([selector] + servers + [Direct("direct"), Block("block")], chain, exit + 1, entry + 1)
  {
    var outs := [selector] + servers + [Direct("direct"), Block("block")];
    forall i | 0 <= i < |outs| && Detours(outs[i])
      ensures i == exit + 1
    {
      assert 1 <= i <= |servers| && outs[i] == servers[i - 1];
    }
  }

  lemma TwoHops(regular: seq<NodeTag>, chain: Chain) returns (x: nat, e: nat)
    requires chain.exit in SelTags(regular) && chain.entry in SelTags(regular)
    requires chain.entry != chain.exit && forall j, k :: 0 <= j < k < |regular| ==> regular[j].tag != regular[k].tag
    ensures HopsAt(ServerOutbounds(regular, Some(chain)), chain, x, e)
  {
    x :| 0 <= x < |regular| && SelTags(regular)[x] == chain.exit;
    e :| 0 <= e < |regular| && SelTags(regular)[e] == chain.entry;
  }

  lemma {:induction false} RegularTagsDiffer(nodes: seq<Node>)
    ensures var regular := RegularOnes(nodes, BuildAll(nodes).sel);
            forall j, k :: 0 <= j < k < |regular| ==> regular[j].tag != regular[k].tag
  {
    BuilderTagsAreDistinct(nodes);
    RegularOnesAreApart(nodes, BuildAll(nodes).sel);
  }

  lemma {:induction false} ChainedOutbounds(nodes: seq<Node>, selected: string, chain: Chain)
    requires Build(nodes, selected, Some(chain)).Ok?
    ensures Build(nodes, selected, Some(chain)).value.outbounds
            == [Selector("proxy", [chain.exit], chain.exit)]
               + ServerOutbounds(RegularOnes(nodes, BuildAll(nodes).sel), Some(chain))
               + [Direct("direct"), Block("block")]
    ensures chain.entry != chain.exit
    ensures chain.entry in SelTags(RegularOnes(nodes, BuildAll(nodes).sel))
    ensures chain.exit in SelTags(RegularOnes(nodes, BuildAll(nodes).sel))
  {
  }

  /** Every server of the selector is in the configuration: a WireGuard one as an endpoint, any other as an outbound. */
  lemma {:induction false} EveryMemberIsThere(nodes: seq<Node>, selected: string, chain: Option<Chain>, t: NodeTag)
    requires Build(nodes, selected, chain).Ok? && t in BuildAll(nodes).sel
    ensures var cfg := Build(nodes, selected, chain).value;
            && t.index < |nodes| && Usable(nodes[t.index])
            && if nodes[t.index].protocol == "amneziawg" then t in cfg.endpoints
               else exists o :: o in cfg.outbounds && o.Exit? && o.tag == t.tag && o.index == t.index
  {
    var sel, cfg := BuildAll(nodes).sel, Build(nodes, selected, chain).value;
    MembersAreTheUsableOnes(nodes);
    RegularOnesAre(nodes, sel, t);
    if nodes[t.index].protocol != "amneziawg" {
      var regular := RegularOnes(nodes, sel);
      var k :| 0 <= k < |regular| && regular[k] == t;
      assert cfg.outbounds[k + 1].Exit?;
    }
  }

  // ----- Reshaped handshakes -----

  /** A field that the strategy sets, or else the node's own. */
  predicate SetOrKept(wanted: string, was: string, now: string) {
    (wanted != "" ==> now == wanted) && (wanted == "" ==> now == was)
  }

  /**
    A strategy reshapes the handshake and nothing else: of a node with TLS it sets the fingerprint and the server name
    it names and adds the fragmentation it asks for; twice is the same as once, and the node stays as usable as it was.
   */
  lemma AStrategyReshapesTheHandshake(strat: Strategy, n: Node)
    ensures var m := strat.ApplyTo(n);
            && m == n.(tls := m.tls) && (n.tls.None? ==> m.tls.None?)
            && (n.tls.Some? ==>
                  && m.tls.Some?
                  && m.tls.value == n.tls.value.(fingerprint := m.tls.value.fingerprint,
                                                 serverName := m.tls.value.serverName,
                                                 fragment := m.tls.value.fragment)
                  && SetOrKept(strat.fingerprint, n.tls.value.fingerprint, m.tls.value.fingerprint)
                  && SetOrKept(strat.serverName, n.tls.value.serverName, m.tls.value.serverName)
                  && (m.tls.value.fragment <==> n.tls.value.fragment || strat.fragment))
            && strat.ApplyTo(m) == m
            && (Usable(m) <==> Usable(n))
  {
  }
}
