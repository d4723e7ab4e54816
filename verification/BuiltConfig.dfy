/**
  The outbounds and endpoints of a built configuration (core/singbox/builder.go): beside the servers' own
  tags it holds three of the builder's, which the naming loop does not reserve.
 */
module BuiltConfig {
  import opened SelectorTags
  import opened Tags
  import opened Wrappers

  const PROXY_TAG := "proxy"
  const DIRECT_TAG := "direct"
  const BLOCK_TAG := "block"

  /** The tags of the outbounds every configuration has. */
  predicate Reserved(tag: string) {
    tag == PROXY_TAG || tag == DIRECT_TAG || tag == BLOCK_TAG
  }

  // ----- The configuration -----

  datatype Outbound =
    | Selector(tag: string, members: seq<string>, start: string)
    | Exit(tag: string, index: nat, detour: Option<string>)
    | Direct(tag: string)
    | Block(tag: string)

  /** A WireGuard server is an endpoint, in an array of its own. */
  datatype Config = Config(outbounds: seq<Outbound>, endpoints: seq<NodeTag>)

  datatype BuildError = NoUsableNodes | ChainNeedsBoth | ChainNeedsTwo | NoChainableEntry | NoChainableExit

  /** The tags of a two-hop chain. */
  datatype Chain = Chain(entry: string, exit: string)

  predicate IsEndpoint(nodes: seq<Node>, t: NodeTag) {
    t.index < |nodes| && nodes[t.index].protocol == AMNEZIAWG
  }

  function RegularOnes(nodes: seq<Node>, sel: seq<NodeTag>): seq<NodeTag> {
    if sel == [] then []
    else
      var last := sel[|sel| - 1];
      RegularOnes(nodes, sel[..|sel| - 1]) + if IsEndpoint(nodes, last) then [] else [last]
  }

  function EndpointOnes(nodes: seq<Node>, sel: seq<NodeTag>): seq<NodeTag> {
    if sel == [] then []
    else
      var last := sel[|sel| - 1];
      EndpointOnes(nodes, sel[..|sel| - 1]) + if IsEndpoint(nodes, last) then [last] else []
  }

  /** validateMultihopOutbounds: both ends are different regular outbounds. */
  function CheckChain(regular: seq<NodeTag>, chain: Chain): Result<(), BuildError> {
    if chain.entry == "" || chain.exit == "" then Err(ChainNeedsBoth)
    else if chain.entry == chain.exit then Err(ChainNeedsTwo)
    else if chain.entry !in SelTags(regular) then Err(NoChainableEntry)
    else if chain.exit !in SelTags(regular) then Err(NoChainableExit)
    else Ok(())
  }

  function ServerOutbounds(regular: seq<NodeTag>, chain: Option<Chain>): (outs: seq<Outbound>)
    ensures |outs| == |regular|
    ensures forall i :: 0 <= i < |outs| ==> outs[i].Exit? && outs[i].tag == regular[i].tag
  {
    seq(|regular|, i requires 0 <= i < |regular| =>
      Exit(regular[i].tag, regular[i].index,
             if chain.Some? && regular[i].tag == chain.value.exit then Some(chain.value.entry) else None))
  }

  function Assemble(nodes: seq<Node>, sel: seq<NodeTag>, members: seq<string>, start: string,
                    chain: Option<Chain>): Config {
    Config([Selector(PROXY_TAG, members, start)] + ServerOutbounds(RegularOnes(nodes, sel), chain)
           + [Direct(DIRECT_TAG), Block(BLOCK_TAG)],
           EndpointOnes(nodes, sel))
  }

  function Build(nodes: seq<Node>, selected: string, chain: Option<Chain>): Result<Config, BuildError> {
    var sel := BuildAll(nodes).sel;
    if sel == [] then Err(NoUsableNodes)
    else if chain.None? then
      var start := if selected == "" || selected !in SelTags(sel) then sel[0].tag else selected;
      Ok(Assemble(nodes, sel, SelTags(sel), start, None))
    else
      match CheckChain(RegularOnes(nodes, sel), chain.value)
      case Err(error) => Err(error)
      case Ok(_) => Ok(Assemble(nodes, sel, [chain.value.exit], chain.value.exit, chain))
  }

  /** The first outbound that is a selector tagged "proxy". */
  method ProxySelector(cfg: Config) returns (found: Option<Outbound>)
    ensures found == FoundSelector(cfg.outbounds)
  {
    for i := 0 to |cfg.outbounds|
      invariant FoundSelector(cfg.outbounds) == FoundSelector(cfg.outbounds[i..])
    {
      var o := cfg.outbounds[i];
      assert cfg.outbounds[i..][1..] == cfg.outbounds[i + 1..];
      if o.Selector? && o.tag == PROXY_TAG {
        return Some(o);
      }
    }
    return None;
  }

  function FoundSelector(outs: seq<Outbound>): Option<Outbound> {
    if outs == [] then None
    else if outs[0].Selector? && outs[0].tag == PROXY_TAG then Some(outs[0])
    else FoundSelector(outs[1..])
  }

  // ----- Whose tag is whose -----

  function TagsOf(outs: seq<Outbound>): (tags: seq<string>)
    ensures |tags| == |outs|
  {
    seq(|outs|, i requires 0 <= i < |outs| => outs[i].tag)
  }

  /** Every tag the engine will be asked to register. */
  function AllTags(cfg: Config): seq<string> {
    TagsOf(cfg.outbounds) + SelTags(cfg.endpoints)
  }

  /** How many outbounds and endpoints carry a tag. */
  function Carriers(cfg: Config, tag: string): nat {
    multiset(AllTags(cfg))[tag]
  }

  ghost predicate TagsAreDistinct(cfg: Config) {
    forall tag :: tag in AllTags(cfg) ==> Carriers(cfg, tag) == 1
  }

  lemma SelTagsGrow(sel: seq<NodeTag>, t: NodeTag)
    ensures SelTags(sel + [t]) == SelTags(sel) + [t.tag]
  {
  }

  lemma {:induction false} PartsMakeTheWhole(nodes: seq<Node>, sel: seq<NodeTag>)
    ensures multiset(SelTags(RegularOnes(nodes, sel))) + multiset(SelTags(EndpointOnes(nodes, sel)))
            == multiset(SelTags(sel))
  {
    if sel == [] {
    } else {
      var front, last := sel[..|sel| - 1], sel[|sel| - 1];
      PartsMakeTheWhole(nodes, front);
      SelTagsGrow(front, last);
      SelTagsGrow(RegularOnes(nodes, front), last);
      SelTagsGrow(EndpointOnes(nodes, front), last);
      assert sel == front + [last];
      assert RegularOnes(nodes, front) + [] == RegularOnes(nodes, front);
      assert EndpointOnes(nodes, front) + [] == EndpointOnes(nodes, front);
    }
  }

  lemma {:induction false} ApartMeansOnce(sel: seq<NodeTag>, tag: string)
    requires forall j, k :: 0 <= j < k < |sel| ==> sel[j].tag != sel[k].tag
    ensures multiset(SelTags(sel))[tag] == if tag in SelTags(sel) then 1 else 0
  {
    if sel == [] {
    } else {
      var front, last := sel[..|sel| - 1], sel[|sel| - 1];
      ApartMeansOnce(front, tag);
      SelTagsGrow(front, last);
      assert sel == front + [last];
      assert last.tag !in SelTags(front);
    }
  }

  lemma InAnyOrder(a: string, middle: seq<string>, b: string, c: string, last: seq<string>)
    ensures multiset([a] + middle + [b, c] + last) == multiset{a, b, c} + (multiset(middle) + multiset(last))
  {
    var outer := [b, c];
    assert multiset(outer) == multiset{b, c};
    assert multiset([a] + middle) == multiset{a} + multiset(middle);
    assert multiset([a] + middle + outer) == multiset{a} + multiset(middle) + multiset{b, c};
  }

  lemma AssembledTags(nodes: seq<Node>, sel: seq<NodeTag>, members: seq<string>, start: string, chain: Option<Chain>)
    ensures multiset(AllTags(Assemble(nodes, sel, members, start, chain)))
            == multiset{PROXY_TAG, DIRECT_TAG, BLOCK_TAG} + multiset(SelTags(sel))
  {
    var regular, endpoints := SelTags(RegularOnes(nodes, sel)), SelTags(EndpointOnes(nodes, sel));
    PartsMakeTheWhole(nodes, sel);
    InAnyOrder(PROXY_TAG, regular, DIRECT_TAG, BLOCK_TAG, endpoints);
    OutboundTags(nodes, sel, members, start, chain);
  }

  lemma OutboundTags(nodes: seq<Node>, sel: seq<NodeTag>, members: seq<string>, start: string, chain: Option<Chain>)
    ensures TagsOf(Assemble(nodes, sel, members, start, chain).outbounds)
            == [PROXY_TAG] + SelTags(RegularOnes(nodes, sel)) + [DIRECT_TAG, BLOCK_TAG]
  {
  }

  /** How often a built configuration carries a tag: once for a server that has it, once more for one of the three. */
  lemma CarriersOfATag(nodes: seq<Node>, selected: string, chain: Option<Chain>, tag: string)
    requires Build(nodes, selected, chain).Ok?
    ensures Carriers(Build(nodes, selected, chain).value, tag)
            == (if tag in SelTags(BuildAll(nodes).sel) then 1 else 0) + (if Reserved(tag) then 1 else 0)
  {
    var sel, cfg := BuildAll(nodes).sel, Build(nodes, selected, chain).value;
    BuilderTagsAreDistinct(nodes);
    ApartMeansOnce(sel, tag);
    var selector := cfg.outbounds[0];
    AssembledTags(nodes, sel, selector.members, selector.start, chain);
    ReservedTagsDiffer();
    assert cfg == Assemble(nodes, sel, selector.members, selector.start, chain);
  }

  lemma ReservedTagsDiffer()
    ensures PROXY_TAG != DIRECT_TAG && PROXY_TAG != BLOCK_TAG && DIRECT_TAG != BLOCK_TAG
  {
    assert PROXY_TAG[0] == 'p' && DIRECT_TAG[0] == 'd' && BLOCK_TAG[0] == 'b';
  }

  // ----- Which names take one of the three -----

  /** The builder emits an outbound or an endpoint for the node. */
  predicate Emits(n: Node) {
    n.protocol != "" && ValidateNode(n) && if n.protocol == AMNEZIAWG then EndpointRenders(n) else HasOutbound(n)
  }

  lemma DecimalEndsInADigit(n: nat)
    ensures var s := Decimal(n); s != [] && '0' <= s[|s| - 1] <= '9'
  {
  }

  lemma SuffixesAreNotReserved(base: string, n: nat)
    ensures !Reserved(Suffixed(base, n))
  {
    DecimalEndsInADigit(n);
    var s, d := Suffixed(base, n), Decimal(n);
    assert s[|s| - 1] == d[|d| - 1];
    assert PROXY_TAG[|PROXY_TAG| - 1] == 'y';
    assert DIRECT_TAG[|DIRECT_TAG| - 1] == 't';
    assert BLOCK_TAG[|BLOCK_TAG| - 1] == 'k';
  }

  ghost predicate SomeoneIsNamed(nodes: seq<Node>, tag: string) {
    exists i :: 0 <= i < |nodes| && Emits(nodes[i]) && Sanitized(nodes[i].name) == tag
  }

  lemma OneMoreName(nodes: seq<Node>, n: Node, tag: string)
    ensures SomeoneIsNamed(nodes + [n], tag) <==> SomeoneIsNamed(nodes, tag) || (Emits(n) && Sanitized(n.name) == tag)
  {
    var more := nodes + [n];
    if SomeoneIsNamed(more, tag) {
      var i :| 0 <= i < |more| && Emits(more[i]) && Sanitized(more[i].name) == tag;
      assert i < |nodes| ==> nodes[i] == more[i];
    }
    if SomeoneIsNamed(nodes, tag) {
      var i :| 0 <= i < |nodes| && Emits(nodes[i]) && Sanitized(nodes[i].name) == tag;
      assert more[i] == nodes[i];
    }
    assert more[|nodes|] == n;
  }

  /** A reserved tag is taken exactly while the builder has emitted it. */
  predicate TakenIffEmitted(b: Building, tag: string) {
    Count(b.seen, tag) != 0 <==> tag in SelTags(b.sel)
  }

  lemma OneMoreNode(b: Building, i: nat, n: Node, tag: string)
    requires Reserved(tag) && TakenIffEmitted(b, tag)
    ensures var b' := BuildNode(b, i, n);
            && TakenIffEmitted(b', tag)
            && (tag in SelTags(b'.sel) <==> tag in SelTags(b.sel) || (Emits(n) && Sanitized(n.name) == tag))
  {
    var (seen, given) := Unique(b.seen, n.name);
    var base := Sanitized(n.name);
    if Count(b.seen, base) != 0 {
      SuffixesAreNotReserved(base, FreeSuffix(b.seen, base, Count(b.seen, base)));
    }
    SelTagsGrow(b.sel, NodeTag(i, given));
  }

  /** A server takes a reserved tag exactly when its sanitised name is one: no suffix ever makes one. */
  lemma {:induction false} ReservedTagIffNamed(nodes: seq<Node>, tag: string)
    requires Reserved(tag)
    ensures TakenIffEmitted(BuildAll(nodes), tag)
    ensures tag in SelTags(BuildAll(nodes).sel) <==> SomeoneIsNamed(nodes, tag)
  {
    if nodes == [] {
    } else {
      var front, last := nodes[..|nodes| - 1], nodes[|nodes| - 1];
      ReservedTagIffNamed(front, tag);
      OneMoreNode(BuildAll(front), |front|, last, tag);
      OneMoreName(front, last, tag);
      assert nodes == front + [last];
    }
  }

  // ----- The laws -----

  /**
    The tags of a built configuration are pairwise different exactly when no server the builder emits is
    named, once sanitised, "proxy", "direct" or "block".
   */
  lemma ConfigTagsAreDistinctIff(nodes: seq<Node>, selected: string, chain: Option<Chain>)
    requires Build(nodes, selected, chain).Ok?
    ensures TagsAreDistinct(Build(nodes, selected, chain).value)
            <==> forall i :: 0 <= i < |nodes| && Emits(nodes[i]) ==> !Reserved(Sanitized(nodes[i].name))
  {
    var cfg, sel := Build(nodes, selected, chain).value, BuildAll(nodes).sel;
    forall tag
      ensures Carriers(cfg, tag) == (if tag in SelTags(sel) then 1 else 0) + (if Reserved(tag) then 1 else 0)
    {
      CarriersOfATag(nodes, selected, chain, tag);
    }
    forall tag | Reserved(tag)
      ensures tag in SelTags(sel) <==> SomeoneIsNamed(nodes, tag)
    {
      ReservedTagIffNamed(nodes, tag);
    }
    if tag :| Reserved(tag) && SomeoneIsNamed(nodes, tag) {
      assert Carriers(cfg, tag) == 2;
      assert tag in AllTags(cfg);
    }
    forall i | 0 <= i < |nodes| && Emits(nodes[i]) && Reserved(Sanitized(nodes[i].name))
      ensures SomeoneIsNamed(nodes, Sanitized(nodes[i].name))
    {
    }
  }

  /** What the selector of a built configuration says: the requested tag if it is a member, or the chain's exit. */
  lemma TheSelectorReadsBack(nodes: seq<Node>, selected: string, chain: Option<Chain>)
    requires Build(nodes, selected, chain).Ok?
    ensures var found := FoundSelector(Build(nodes, selected, chain).value.outbounds);
            && found.Some?
            && (chain.None? ==> SelectorDefault(nodes, selected) == Some(found.value.start)
                                && found.value.members == SelTags(BuildAll(nodes).sel))
            && (chain.Some? ==> found.value.start == chain.value.exit && found.value.members == [chain.value.exit])
            && found.value.start in found.value.members
  {
    var sel := BuildAll(nodes).sel;
    assert SelTags(sel)[0] == sel[0].tag;
  }

  /** Without a chain the selector lists itself exactly when an emitted server is named "proxy". */
  lemma SelectorListsItselfIff(nodes: seq<Node>, selected: string)
    requires Build(nodes, selected, None).Ok?
    ensures PROXY_TAG in FoundSelector(Build(nodes, selected, None).value.outbounds).value.members
            <==> SomeoneIsNamed(nodes, PROXY_TAG)
  {
    TheSelectorReadsBack(nodes, selected, None);
    ReservedTagIffNamed(nodes, PROXY_TAG);
  }

  /**
    The exit a candidate means is the exit its configuration starts on - the selector's default is the candidate's
    own tag, and its outbound or endpoint is the only one with that tag - exactly when the tag is none of the three.
   */
  lemma {:induction false} CandidateOwnsItsTagIff(servers: seq<Server>, id: string)
    requires exists i :: 0 <= i < |servers| && servers[i].id == id && Renderable(servers[i])
    ensures id in TagServers(servers).tags
    ensures var nodes, tag := ProfileNodes(servers), TagServers(servers).tags[id];
            && Build(nodes, tag, None).Ok?
            && FoundSelector(Build(nodes, tag, None).value.outbounds).value.start == tag
            && Carriers(Build(nodes, tag, None).value, tag) == if Reserved(tag) then 2 else 1
  {
    var nodes := ProfileNodes(servers);
    SelectorStartsOnTheCandidate(servers, id);
    var tag, sel := TagServers(servers).tags[id], BuildAll(nodes).sel;
    var k :| 0 <= k < |sel| && sel[k].tag == tag;
    assert SelTags(sel)[k] == tag;
    TheSelectorReadsBack(nodes, tag, None);
    CarriersOfATag(nodes, tag, None, tag);
  }

  lemma CleanNamesStay(name: string)
    requires name != "" && Trimmed(name) && Printable(name)
    ensures Sanitized(name) == name
  {
    TrimSpaceTrims(name);
    DashedIsPrintable(name);
  }

  /** One server alone gets its sanitised name as tag, beside the builder's three. */
  lemma AloneItKeepsItsName(s: Server)
    requires Renderable(s) && s.node.protocol != AMNEZIAWG
    ensures var tag, nodes := Sanitized(s.node.name), ProfileNodes([s]);
            && TagServers([s]).tags == map[s.id := tag]
            && BuildAll(nodes).sel == [NodeTag(0, tag)]
            && Build(nodes, tag, None).Ok?
            && TagsOf(Build(nodes, tag, None).value.outbounds) == [PROXY_TAG, tag, DIRECT_TAG, BLOCK_TAG]
  {
    var tag, nodes := Sanitized(s.node.name), ProfileNodes([s]);
    assert [s][..0] == [] && nodes == [s.node] && nodes[..0] == [];
    var sel := [NodeTag(0, tag)];
    assert BuildAll(nodes).sel == sel;
    assert sel[..0] == [] && RegularOnes(nodes, sel) == sel;
    OutboundTags(nodes, sel, SelTags(sel), Build(nodes, tag, None).value.outbounds[0].start, None);
  }

  /** A server named "direct" gets that tag, and its configuration carries the tag twice. */
  lemma ANameCanCollide(n: Node)
    requires n.protocol == TROJAN && n.name == "direct" && n.port == 443 && n.password == "secret"
    requires n.tls == None && n.transport == None
    ensures TagServers([Server("id", n)]).tags == map["id" := "direct"]
    ensures var built := Build(ProfileNodes([Server("id", n)]), "direct", None);
            && built.Ok?
            && TagsOf(built.value.outbounds) == ["proxy", "direct", "direct", "block"]
            && FoundSelector(built.value.outbounds).value.start == "direct"
  {
    var s := Server("id", n);
    CleanNamesStay("direct");
    AloneItKeepsItsName(s);
    TheSelectorReadsBack(ProfileNodes([s]), "direct", None);
    assert SelTags(BuildAll(ProfileNodes([s])).sel) == ["direct"];
  }
}
