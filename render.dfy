/** What the screen output prints for one frame, as functions of the frame:
    the header, the dispatch of each protocol-queue entry to its renderer or
    to one of the two "Unknown Protocol" diagnostics, the eight renderers,
    and the optional payload block with the closing separator. */
module Render {
  import opened Wrappers
  import opened Text
  import opened Frames
  import Utf8

  // ----- the renderer registry -----

  /** The renderers the screen output has, one per `_display_<key>_data`. */
  datatype Renderer = Ethernet | Ipv4 | Ipv6 | Tcp | Udp | Icmpv4 | Icmpv6 | Arp

  /** The lower-case key a renderer is found under. */
  function Key(p: Renderer): string
  {
    match p
    case Ethernet => "ethernet"
    case Ipv4 => "ipv4"
    case Ipv6 => "ipv6"
    case Tcp => "tcp"
    case Udp => "udp"
    case Icmpv4 => "icmpv4"
    case Icmpv6 => "icmpv6"
    case Arp => "arp"
  }

  /** Which renderer, if any, exists for a lower-case key. */
  const Registry: map<string, Renderer> :=
    map["ethernet" := Ethernet, "ipv4" := Ipv4, "ipv6" := Ipv6, "tcp" := Tcp,
        "udp" := Udp, "icmpv4" := Icmpv4, "icmpv6" := Icmpv6, "arp" := Arp]

  /** The registry holds exactly one entry per renderer, under its key. */
  lemma RegistryIsKeyed(k: string, p: Renderer)
    ensures Key(p) in Registry && Registry[Key(p)] == p
    ensures k in Registry ==> Key(Registry[k]) == k
  {
  }

  /** How a renderer's first line starts, after the indentation: the
      protocol it announces. */
  function Tag(p: Renderer): string
  {
    match p
    case Ethernet => "[+] Ethernet "
    case Ipv4 => "[+] IPv4 "
    case Ipv6 => "[+] IPv6 "
    case Tcp => "[+] TCP "
    case Udp => "[+] UDP "
    case Icmpv4 => "[+] ICMPv4 "
    case Icmpv6 => "[+] ICMPv6 "
    case Arp => "[+] ARP "
  }

  /** How many lines each renderer prints. */
  function LineCount(p: Renderer): nat
  {
    match p
    case Ethernet => 1
    case Ipv4 => 5
    case Ipv6 => 3
    case Tcp => 5
    case Udp => 2
    case Icmpv4 => 2
    case Icmpv6 => 3
    case Arp => 5
  }

  /** Whether a field group has the shape renderer `p` reads. */
  predicate Fits(g: FieldGroup, p: Renderer)
  {
    match p
    case Ethernet => g.EthernetGroup?
    case Ipv4 => g.Ipv4Group?
    case Ipv6 => g.Ipv6Group?
    case Tcp => g.TcpGroup?
    case Udp => g.UdpGroup?
    case Icmpv4 => g.Icmpv4Group?
    case Icmpv6 => g.Icmpv6Group?
    case Arp => g.ArpGroup?
  }

  /** What renderer `p` reads from the frame: its own group and, for the
      ICMP renderers, the addresses of the IP group beneath. */
  predicate Renderable(f: Frame, p: Renderer)
  {
    Key(p) in f.groups && Fits(f.groups[Key(p)], p) &&
    (p == Icmpv4 ==> "ipv4" in f.groups && f.groups["ipv4"].Ipv4Group?) &&
    (p == Icmpv6 ==> "ipv6" in f.groups && f.groups["ipv6"].Ipv6Group?)
  }

  // ----- the shape of a printed block -----

  /** A block: one line at the first indentation level, then detail lines at the second. */
  predicate IsBlock(r: seq<string>)
  {
    |r| > 0 && AtLevel(r[0], 1) && forall j :: 1 <= j < |r| ==> AtLevel(r[j], 2)
  }

  /** The line that opens the payload block. */
  const DataMarker: string := TopLine("[+] DATA:")

  // ----- the eight renderers -----

  /** A first line whose text starts with `tag` is at the first level and
      starts, after the indentation, with `tag`. */
  lemma Announces(tag: string, text: string)
    requires |tag| > 0 && tag[0] != ' ' && tag <= text
    ensures AtLevel(TopLine(text), 1)
    ensures Indent + tag <= TopLine(text)
  {
    assert (Indent + tag) == TopLine(text)[..|Indent + tag|];
  }

  function EthernetLines(g: FieldGroup): (r: seq<string>)
    requires g.EthernetGroup?
    ensures |r| == LineCount(Ethernet) && IsBlock(r)
    ensures Indent + Tag(Ethernet) <= r[0]
  {
    var head := "[+] Ethernet ...." + g.src + " -> " + g.dst;
    Announces(Tag(Ethernet), head);
    [TopLine(head)]
  }

  function Ipv4Lines(g: FieldGroup): (r: seq<string>)
    requires g.Ipv4Group?
    ensures |r| == LineCount(Ipv4) && IsBlock(r)
    ensures Indent + Tag(Ipv4) <= r[0]
  {
    var head := "[+] IPv4 ...." + g.src + " -> " + g.dst;
    Announces(Tag(Ipv4), head);
    [TopLine(head),
     DetailLine("Traffic Class: " + g.dscp),
     DetailLine("Total Length: " + g.len + " | ID: " + g.id),
     DetailLine("Flags: " + g.flagsStr + " | TTL: " + g.ttl),
     DetailLine("Protocol: " + g.encapsulatedProto + " | Checksum: " + g.chksumHexStr)]
  }

  function Ipv6Lines(g: FieldGroup): (r: seq<string>)
    requires g.Ipv6Group?
    ensures |r| == LineCount(Ipv6) && IsBlock(r)
    ensures Indent + Tag(Ipv6) <= r[0]
  {
    var head := "[+] IPv6 ...." + g.src + " -> " + g.dst;
    Announces(Tag(Ipv6), head);
    [TopLine(head),
     DetailLine("Traffic Class: " + g.tclassHexStr + " | Flow Label: " + g.flabelTxtStr),
     DetailLine("Payload Length: " + g.payloadLen + " | Hop Limit: " + g.hopLimit)]
  }

  function TcpLines(g: FieldGroup): (r: seq<string>)
    requires g.TcpGroup?
    ensures |r| == LineCount(Tcp) && IsBlock(r)
    ensures Indent + Tag(Tcp) <= r[0]
  {
    var head := "[+] TCP ...." + g.sport + " -> " + g.dport;
    Announces(Tag(Tcp), head);
    [TopLine(head),
     DetailLine("Sequence Number: " + g.seqNum + " | ACK: " + g.ack),
     DetailLine("Flags: " + g.flagsHexStr + " (" + g.flagsStr + ")"),
     DetailLine("Window Size: " + g.window + " | Checksum: " + g.chksumHexStr),
     DetailLine("Urgent Pointer: " + g.urg)]
  }

  function UdpLines(g: FieldGroup): (r: seq<string>)
    requires g.UdpGroup?
    ensures |r| == LineCount(Udp) && IsBlock(r)
    ensures Indent + Tag(Udp) <= r[0]
  {
    var head := "[+] UDP ...." + g.sport + " -> " + g.dport;
    Announces(Tag(Udp), head);
    [TopLine(head),
     DetailLine("Length: " + g.len + " | Checksum: " + g.chksum)]
  }

  /** ICMPv4 takes its addresses from the IPv4 group `ip`. */
  function Icmpv4Lines(ip: FieldGroup, g: FieldGroup): (r: seq<string>)
    requires ip.Ipv4Group? && g.Icmpv4Group?
    ensures |r| == LineCount(Icmpv4) && IsBlock(r)
    ensures Indent + Tag(Icmpv4) <= r[0]
  {
    var head := "[+] ICMPv4 ...." + ip.src + " -> " + ip.dst;
    Announces(Tag(Icmpv4), head);
    [TopLine(head),
     DetailLine("Type: " + g.icmpType + " (" + g.typeStr + ") | Checksum: " + g.chksumHexStr)]
  }

  /** ICMPv6 takes its addresses from the IPv6 group `ip`. */
  function Icmpv6Lines(ip: FieldGroup, g: FieldGroup): (r: seq<string>)
    requires ip.Ipv6Group? && g.Icmpv6Group?
    ensures |r| == LineCount(Icmpv6) && IsBlock(r)
    ensures Indent + Tag(Icmpv6) <= r[0]
  {
    var head := "[+] ICMPv6 ...." + ip.src + " -> " + ip.dst;
    Announces(Tag(Icmpv6), head);
    [TopLine(head),
     DetailLine("Type: " + g.icmpType + " (" + g.typeStr + ") | Subtype: " + g.code),
     DetailLine("Checksum: " + g.chksumHexStr)]
  }

  /** ARP phrases a request (operation 1) as a question and anything else as an answer. */
  function ArpLines(g: FieldGroup): (r: seq<string>)
    requires g.ArpGroup?
    ensures |r| == LineCount(Arp) && IsBlock(r)
    ensures Indent + Tag(Arp) <= r[0]
    ensures g.oper == 1 ==> r[0] == TopLine("[+] ARP Who has " + g.tpa + " ? -> Tell " + g.spa)
    ensures g.oper != 1 ==> r[0] == TopLine("[+] ARP " + g.spa + " -> Is at " + g.sha)
  {
    var head := if g.oper == 1 then "[+] ARP Who has " + g.tpa + " ? -> Tell " + g.spa
                else "[+] ARP " + g.spa + " -> Is at " + g.sha;
    Announces(Tag(Arp), head);
    [TopLine(head),
     DetailLine("Hardware Type: " + g.htype + " | Protocol Type: " + g.ptypeStr + " (" + g.ptypeHexStr + ")"),
     DetailLine("Operation: " + Decimal(g.oper) + " (" + g.operStr + ")"),
     DetailLine("Sender MAC: " + g.sha + " | Sender IP: " + g.spa),
     DetailLine("Target MAC: " + g.tha + " | Target IP: " + g.tpa)]
  }

  /** The lines renderer `p` prints for frame `f`: the getattr dispatch. */
  function RenderLines(f: Frame, p: Renderer): (r: seq<string>)
    requires Renderable(f, p)
    ensures |r| == LineCount(p) && IsBlock(r)
    ensures Indent + Tag(p) <= r[0]
  {
    match p
    case Ethernet => EthernetLines(f.groups["ethernet"])
    case Ipv4 => Ipv4Lines(f.groups["ipv4"])
    case Ipv6 => Ipv6Lines(f.groups["ipv6"])
    case Tcp => TcpLines(f.groups["tcp"])
    case Udp => UdpLines(f.groups["udp"])
    case Icmpv4 => Icmpv4Lines(f.groups["ipv4"], f.groups["icmpv4"])
    case Icmpv6 => Icmpv6Lines(f.groups["ipv6"], f.groups["icmpv6"])
    case Arp => ArpLines(f.groups["arp"])
  }

  // ----- dispatch of one protocol-queue entry -----

  const NoDisplayMethod: string := "No display method"
  const NoAttributeFound: string := "No attribute found"

  /** The diagnostic for an entry that is not rendered: a first-level line
      that names the entry as queued, verbatim, and then the reason. */
  function UnknownLine(proto: string, reason: string): (line: string)
    ensures AtLevel(line, 1)
    ensures |line| == 26 + |proto| + 2 + |reason| + 1
    ensures line[..26] == Indent + "[+] Unknown Protocol: "
    ensures line[26..26 + |proto|] == proto
    ensures line[26 + |proto|..] == " (" + reason + ")"
  {
    Announces("[+] Unknown Protocol: ", "[+] Unknown Protocol: " + proto + " (" + reason + ")");
    TopLine("[+] Unknown Protocol: " + proto + " (" + reason + ")")
  }

  /** What happens to one entry. */
  datatype Outcome = Rendered(renderer: Renderer) | MissingRenderer | MissingGroup

  /** The two lookups, in order: the field group under the lower-cased
      name first, then the renderer under the same key. */
  function Resolve(f: Frame, proto: string): (o: Outcome)
    ensures o.MissingGroup? <==> Lower(proto) !in f.groups
    ensures o.MissingRenderer? <==> Lower(proto) in f.groups && Lower(proto) !in Registry
    ensures o.Rendered? ==> Lower(proto) in f.groups && Key(o.renderer) == Lower(proto)
  {
    var k := Lower(proto);
    if k !in f.groups then MissingGroup
    else if k !in Registry then MissingRenderer
    else RegistryIsKeyed(k, Ethernet); Rendered(Registry[k])
  }

  /** The frame holds what the renderer chosen for `proto`, if any, reads. */
  predicate EntryRenderable(f: Frame, proto: string)
  {
    var o := Resolve(f, proto);
    o.Rendered? ==> Renderable(f, o.renderer)
  }

  /** Every entry of the queue `q` can be dispatched without a missing field. */
  predicate QueueRenderable(f: Frame, q: seq<string>)
  {
    forall j :: 0 <= j < |q| ==> EntryRenderable(f, q[j])
  }

  /** The lines one entry produces. */
  function Dispatch(f: Frame, proto: string): (r: seq<string>)
    requires EntryRenderable(f, proto)
    ensures IsBlock(r)
  {
    match Resolve(f, proto)
    case MissingGroup => Announces("[+] Unknown Protocol: ", "[+] Unknown Protocol: " + proto + " (" + NoAttributeFound + ")");
      [UnknownLine(proto, NoAttributeFound)]
    case MissingRenderer => Announces("[+] Unknown Protocol: ", "[+] Unknown Protocol: " + proto + " (" + NoDisplayMethod + ")");
      [UnknownLine(proto, NoDisplayMethod)]
    case Rendered(p) => RenderLines(f, p)
  }

  /** The dispatch rule stated on the lookups themselves: a missing field
      group gives "No attribute found" even when a renderer exists, a present
      group without a renderer gives "No display method", and otherwise the
      renderer under the lower-cased name prints; both diagnostics name the
      entry as queued, not lower-cased. */
  lemma DispatchRule(f: Frame, proto: string)
    requires EntryRenderable(f, proto)
    ensures Lower(proto) !in f.groups ==> Dispatch(f, proto) == [UnknownLine(proto, NoAttributeFound)]
    ensures Lower(proto) in f.groups && Lower(proto) !in Registry ==>
      Dispatch(f, proto) == [UnknownLine(proto, NoDisplayMethod)]
    ensures Lower(proto) in f.groups && Lower(proto) in Registry ==>
      Renderable(f, Registry[Lower(proto)]) && Dispatch(f, proto) == RenderLines(f, Registry[Lower(proto)])
  {
  }

  /** An entry whose lower-cased name is a renderer's key, with that
      renderer's fields present, is printed by that renderer. */
  lemma DispatchRendered(f: Frame, proto: string, p: Renderer)
    requires Lower(proto) == Key(p) && Renderable(f, p)
    ensures EntryRenderable(f, proto) && Dispatch(f, proto) == RenderLines(f, p)
  {
    RegistryIsKeyed(Key(p), p);
  }

  /** The blocks of the queue `q`, one per entry, in queue order. */
  function Outcomes(f: Frame, q: seq<string>): (bs: seq<seq<string>>)
    requires QueueRenderable(f, q)
    ensures |bs| == |q|
  {
    seq(|q|, j requires 0 <= j < |q| => Dispatch(f, q[j]))
  }

  /** The lines of a sequence of blocks, block after block. */
  function Concat(bs: seq<seq<string>>): seq<string>
  {
    if bs == [] then [] else Concat(bs[..|bs| - 1]) + bs[|bs| - 1]
  }

  /** Blocks laid end to end: at least one line per block, each line at the
      first or the second indentation level. */
  lemma {:induction false} ConcatOfBlocks(bs: seq<seq<string>>)
    requires forall j :: 0 <= j < |bs| ==> IsBlock(bs[j])
    ensures |Concat(bs)| >= |bs|
    ensures forall j :: 0 <= j < |Concat(bs)| ==> AtLevel(Concat(bs)[j], 1) || AtLevel(Concat(bs)[j], 2)
  {
    if bs != [] {
      var bs', b := bs[..|bs| - 1], bs[|bs| - 1];
      ConcatOfBlocks(bs');
      var c := Concat(bs');
      forall j | 0 <= j < |c + b| ensures AtLevel((c + b)[j], 1) || AtLevel((c + b)[j], 2) {
        if j >= |c| {
          assert (c + b)[j] == b[j - |c|];
        }
      }
    }
  }

  /** The lines the whole queue `q` produces: nothing for an empty queue,
      at least one line per entry, and every line at the first or the
      second indentation level. */
  function ProtocolLines(f: Frame, q: seq<string>): (r: seq<string>)
    requires QueueRenderable(f, q)
    ensures q == [] ==> r == []
    ensures |r| >= |q|
    ensures forall j :: 0 <= j < |r| ==> AtLevel(r[j], 1) || AtLevel(r[j], 2)
  {
    ConcatOfBlocks(Outcomes(f, q));
    Concat(Outcomes(f, q))
  }

  lemma {:induction false} ConcatAppend(xs: seq<seq<string>>, ys: seq<seq<string>>)
    ensures Concat(xs + ys) == Concat(xs) + Concat(ys)
  {
    if ys == [] {
      assert xs + ys == xs;
    } else {
      var ys', y := ys[..|ys| - 1], ys[|ys| - 1];
      assert (xs + ys)[..|xs + ys| - 1] == xs + ys';
      ConcatAppend(xs, ys');
    }
  }

  /** Both parts of a dispatchable queue are dispatchable. */
  lemma QueueRenderableParts(f: Frame, a: seq<string>, b: seq<string>)
    requires QueueRenderable(f, a + b)
    ensures QueueRenderable(f, a) && QueueRenderable(f, b)
  {
    forall j | 0 <= j < |a| ensures EntryRenderable(f, a[j]) {
      assert a[j] == (a + b)[j];
    }
    forall j | 0 <= j < |b| ensures EntryRenderable(f, b[j]) {
      assert b[j] == (a + b)[|a| + j];
    }
  }

  /** Entries are rendered independently: the lines of a queue are the
      lines of its parts, so a repeated entry is printed again in full. */
  lemma ProtocolLinesAppend(f: Frame, a: seq<string>, b: seq<string>)
    requires QueueRenderable(f, a + b)
    ensures QueueRenderable(f, a) && QueueRenderable(f, b)
    ensures ProtocolLines(f, a + b) == ProtocolLines(f, a) + ProtocolLines(f, b)
  {
    QueueRenderableParts(f, a, b);
    assert Outcomes(f, a + b) == Outcomes(f, a) + Outcomes(f, b) by {
      forall j | 0 <= j < |a + b|
        ensures Outcomes(f, a + b)[j] == (Outcomes(f, a) + Outcomes(f, b))[j]
      {
        if j < |a| {
          assert (a + b)[j] == a[j];
        } else {
          assert (a + b)[j] == b[j - |a|];
        }
      }
    }
    ConcatAppend(Outcomes(f, a), Outcomes(f, b));
  }

  /** One more entry adds its block at the end. */
  lemma ProtocolLinesSnoc(f: Frame, q: seq<string>, proto: string)
    requires QueueRenderable(f, q + [proto])
    ensures QueueRenderable(f, q) && EntryRenderable(f, proto)
    ensures ProtocolLines(f, q + [proto]) == ProtocolLines(f, q) + Dispatch(f, proto)
  {
    QueueRenderableParts(f, q, [proto]);
    assert [proto][0] == proto;
    var xs, x := Outcomes(f, q), Dispatch(f, proto);
    assert Outcomes(f, q + [proto]) == xs + [x] by {
      forall j | 0 <= j <= |q| ensures Outcomes(f, q + [proto])[j] == (xs + [x])[j] {
        assert (q + [proto])[j] == if j < |q| then q[j] else proto;
      }
    }
    assert (xs + [x])[..|xs|] == xs;
  }

  /** A queue of one entry writes exactly that entry's block. */
  lemma ProtocolLinesSingle(f: Frame, proto: string)
    requires EntryRenderable(f, proto)
    ensures QueueRenderable(f, [proto]) && ProtocolLines(f, [proto]) == Dispatch(f, proto)
  {
    assert Outcomes(f, [proto]) == [Dispatch(f, proto)];
    assert Concat([Dispatch(f, proto)]) == Concat([]) + Dispatch(f, proto);
  }

  /** The lines of the first `j` entries of the queue `q`. */
  function ProtocolLinesUpTo(f: Frame, q: seq<string>, j: nat): seq<string>
    requires QueueRenderable(f, q) && j <= |q|
  {
    assert QueueRenderable(f, q[..j]) by {
      assert q == q[..j] + q[j..];
      QueueRenderableParts(f, q[..j], q[j..]);
    }
    ProtocolLines(f, q[..j])
  }

  /** Before the first entry nothing is printed; after the last, the lines of the whole queue. */
  lemma ProtocolLinesUpToEnds(f: Frame, q: seq<string>)
    requires QueueRenderable(f, q)
    ensures ProtocolLinesUpTo(f, q, 0) == [] && ProtocolLinesUpTo(f, q, |q|) == ProtocolLines(f, q)
  {
    assert q[..|q|] == q;
    assert Outcomes(f, q[..0]) == [];
  }

  /** Processing entry `j` of the queue extends the lines of the entries
      before it by its block. */
  lemma ProtocolLinesStep(f: Frame, q: seq<string>, j: nat)
    requires QueueRenderable(f, q) && j < |q|
    ensures EntryRenderable(f, q[j])
    ensures ProtocolLinesUpTo(f, q, j + 1) == ProtocolLinesUpTo(f, q, j) + Dispatch(f, q[j])
  {
    assert q[..j + 1] == q[..j] + [q[j]];
    assert q == q[..j + 1] + q[j + 1..];
    QueueRenderableParts(f, q[..j + 1], q[j + 1..]);
    ProtocolLinesSnoc(f, q[..j], q[j]);
  }

  // ----- one outcome per entry -----

  /** The lines at the first indentation level, in order. */
  function Heads(lines: seq<string>): seq<string>
  {
    if lines == [] then []
    else Heads(lines[..|lines| - 1]) + (if AtLevel(lines[|lines| - 1], 1) then [lines[|lines| - 1]] else [])
  }

  lemma {:induction false} HeadsAppend(a: seq<string>, b: seq<string>)
    ensures Heads(a + b) == Heads(a) + Heads(b)
  {
    if b != [] {
      assert (a + b)[..|a + b| - 1] == a + b[..|b| - 1];
      HeadsAppend(a, b[..|b| - 1]);
    } else {
      assert a + b == a;
    }
  }

  /** A block has exactly one line at the first level: its first. */
  lemma {:induction false} HeadsOfBlock(r: seq<string>)
    requires IsBlock(r)
    ensures Heads(r) == [r[0]]
  {
    if |r| > 1 {
      var r' := r[..|r| - 1];
      assert IsBlock(r');
      HeadsOfBlock(r');
      LevelsDiffer(r[|r| - 1]);
    }
  }

  /** Concatenated blocks have one first-level line per block: its first. */
  lemma {:induction false} HeadsOfBlocks(bs: seq<seq<string>>)
    requires forall j :: 0 <= j < |bs| ==> IsBlock(bs[j])
    ensures |Heads(Concat(bs))| == |bs|
    ensures forall j :: 0 <= j < |bs| ==> |bs[j]| > 0 && Heads(Concat(bs))[j] == bs[j][0]
  {
    if bs != [] {
      var bs', b := bs[..|bs| - 1], bs[|bs| - 1];
      HeadsOfBlocks(bs');
      HeadsAppend(Concat(bs'), b);
      HeadsOfBlock(b);
    }
  }

  /** Every entry of the queue yields exactly one outcome, in queue order:
      the first-level lines of the protocol section are the first lines of
      the entries' blocks, one per entry. */
  lemma OneOutcomePerEntry(f: Frame, q: seq<string>)
    requires QueueRenderable(f, q)
    ensures |Heads(ProtocolLines(f, q))| == |q|
    ensures forall j :: 0 <= j < |q| ==> Heads(ProtocolLines(f, q))[j] == Dispatch(f, q[j])[0]
  {
    HeadsOfBlocks(Outcomes(f, q));
  }

  /** A renderer's first line is never a diagnostic. */
  lemma RenderedIsNoDiagnostic(f: Frame, p: Renderer, proto: string, reason: string)
    requires Renderable(f, p)
    ensures RenderLines(f, p)[0] != UnknownLine(proto, reason)
  {
    var unknown := Indent + "[+] Unknown Protocol: ";
    var tag := Indent + Tag(p);
    Announces("[+] Unknown Protocol: ", "[+] Unknown Protocol: " + proto + " (" + reason + ")");
    assert unknown[8] == 'U' && unknown[9] == 'n';
    assert tag[8] != 'U' || tag[9] != 'n' by {
      if p == Udp { assert tag[9] == 'D'; } else { assert tag[8] != 'U'; }
    }
    assert unknown[..10][8] == unknown[8] && unknown[..10][9] == unknown[9];
    assert tag[..10][8] == tag[8] && tag[..10][9] == tag[9];
  }

  /** Each diagnostic tells which lookup failed: "No attribute found" exactly
      when the frame has no field group under the lower-cased name (whether
      or not a renderer exists), "No display method" exactly when the group
      is there but no renderer is. */
  lemma DiagnosticTellsWhichLookupFailed(f: Frame, proto: string)
    requires EntryRenderable(f, proto)
    ensures Dispatch(f, proto) == [UnknownLine(proto, NoAttributeFound)] <==> Lower(proto) !in f.groups
    ensures Dispatch(f, proto) == [UnknownLine(proto, NoDisplayMethod)] <==>
      Lower(proto) in f.groups && Lower(proto) !in Registry
  {
    var k := Lower(proto);
    assert |UnknownLine(proto, NoAttributeFound)| != |UnknownLine(proto, NoDisplayMethod)|;
    if k in f.groups && k in Registry {
      RenderedIsNoDiagnostic(f, Registry[k], proto, NoAttributeFound);
      RenderedIsNoDiagnostic(f, Registry[k], proto, NoDisplayMethod);
    }
  }

  // ----- the payload block never mistaken for a protocol line -----

  /** No line of a block whose first line is not the marker is the marker. */
  lemma MarkerOnlyFirst(r: seq<string>)
    requires IsBlock(r) && r[0] != DataMarker
    ensures DataMarker !in r
  {
    assert DataMarker[4] == '[';
    forall j | 1 <= j < |r| ensures r[j] != DataMarker {
      assert r[j][..8][4] == ' ';
    }
  }

  lemma MarkerNotInRendered(f: Frame, p: Renderer)
    requires Renderable(f, p)
    ensures DataMarker !in RenderLines(f, p)
  {
    var r := RenderLines(f, p);
    var tag := Indent + Tag(p);
    assert DataMarker[8] == 'D';
    assert r[0][..|tag|] == tag;
    assert r[0][8] == tag[8] != 'D';
    MarkerOnlyFirst(r);
  }

  lemma DiagnosticIsNoMarker(proto: string, reason: string)
    ensures UnknownLine(proto, reason) != DataMarker
  {
    var unknown := "[+] Unknown Protocol: ";
    Announces(unknown, unknown + proto + " (" + reason + ")");
    assert UnknownLine(proto, reason)[..|Indent + unknown|] == Indent + unknown;
    assert UnknownLine(proto, reason)[8] == 'U' && DataMarker[8] == 'D';
  }

  /** No protocol block contains the payload marker. */
  lemma MarkerNotInBlock(f: Frame, proto: string)
    requires EntryRenderable(f, proto)
    ensures DataMarker !in Dispatch(f, proto)
  {
    DispatchRule(f, proto);
    var k := Lower(proto);
    if k !in f.groups {
      DiagnosticIsNoMarker(proto, NoAttributeFound);
    } else if k !in Registry {
      DiagnosticIsNoMarker(proto, NoDisplayMethod);
    } else {
      MarkerNotInRendered(f, Registry[k]);
    }
  }

  lemma {:induction false} NotInConcat(x: string, bs: seq<seq<string>>)
    requires forall j :: 0 <= j < |bs| ==> x !in bs[j]
    ensures x !in Concat(bs)
  {
    if bs != [] {
      NotInConcat(x, bs[..|bs| - 1]);
    }
  }

  /** The payload marker never appears among the protocol lines. */
  lemma MarkerNotInProtocolLines(f: Frame, q: seq<string>)
    requires QueueRenderable(f, q)
    ensures DataMarker !in ProtocolLines(f, q)
  {
    forall j | 0 <= j < |q| ensures DataMarker !in Outcomes(f, q)[j] {
      MarkerNotInBlock(f, q[j]);
    }
    NotInConcat(DataMarker, Outcomes(f, q));
  }

  // ----- header -----

  /** `interface or 'all'`: an absent or empty interface name reads "all". */
  function InterfaceName(iface: Option<string>): (name: string)
    ensures name != ""
    ensures iface.Some? && iface.value != "" ==> name == iface.value
    ensures iface.None? || iface.value == "" ==> name == "all"
  {
    if iface.None? || iface.value == "" then "all" else iface.value
  }

  /** The five header lines; `localTime` is the wall-clock time of printing. */
  function HeaderLines(f: Frame, localTime: string): (r: seq<string>)
    ensures |r| == 5 && r[0] == "\n" + Separator
    ensures forall j :: 2 <= j < 5 ==> AtLevel(r[j], 1)
    ensures f.interface.None? || f.interface == Some("") ==> r[2] == TopLine("Interface: all")
    ensures f.interface.Some? && f.interface.value != "" ==>
      r[2] == TopLine("Interface: " + f.interface.value)
    ensures r[1] == "[>] Frame #" + Decimal(f.packetNum) + " at " + localTime + ":"
    ensures r[3] == TopLine("Frame Length: " + Decimal(f.frameLength))
    ensures r[4] == TopLine("Epoch Time: " + f.epochTime)
    ensures DataMarker !in r
  {
    var r := ["\n" + Separator,
      "[>] Frame #" + Decimal(f.packetNum) + " at " + localTime + ":",
      TopLine("Interface: " + InterfaceName(f.interface)),
      TopLine("Frame Length: " + Decimal(f.frameLength)),
      TopLine("Epoch Time: " + f.epochTime)];
    assert DataMarker[0] == ' ' && DataMarker[4] == '[';
    assert r[0][0] == '\n' && r[1][0] == '[';
    assert r[2][4] == 'I' && r[3][4] == 'F' && r[4][4] == 'E';
    r
  }

  /** The frame number can be read back off the frame line: the digits
      after "Frame #". */
  lemma FrameNumberReadBack(f: Frame, localTime: string)
    ensures ParseDecimal(LeadingDigits(HeaderLines(f, localTime)[1][11..])) == f.packetNum
  {
    var head, rest := "[>] Frame #", " at " + localTime + ":";
    var n := Decimal(f.packetNum);
    assert HeaderLines(f, localTime)[1] == head + (n + rest);
    assert |head| == 11;
    assert (head + (n + rest))[11..] == n + rest;
    ReadNumber(f.packetNum, rest);
  }

  /** The frame length can be read back off its line: the digits after
      "Frame Length: ". */
  lemma FrameLengthReadBack(f: Frame, localTime: string)
    ensures ParseDecimal(LeadingDigits(HeaderLines(f, localTime)[3][18..])) == f.frameLength
  {
    var head := Indent + "Frame Length: ";
    var m := Decimal(f.frameLength);
    assert HeaderLines(f, localTime)[3] == head + (m + "");
    assert |head| == 18;
    assert (head + (m + ""))[18..] == m + "";
    ReadNumber(f.frameLength, "");
  }

  // ----- payload and closing separator -----

  lemma NewlinesIndentedAfterIndent(x: string)
    requires NewlinesIndented(x)
    ensures NewlinesIndented(Indent + x)
  {
    var y := Indent + x;
    forall j | 0 <= j < |y| && y[j] == '\n' ensures j + 9 <= |y| && y[j + 1..j + 9] == Indent2 {
      assert j >= 4;
      assert x[j - 4] == '\n';
      assert y[j + 1..j + 9] == x[j - 3..j + 5];
    }
  }

  /** `_display_packet_contents`: the payload block when payload display is
      on and the frame has payload bytes, then the closing separator. */
  function ContentsLines(displayData: bool, data: seq<Utf8.byte>): (r: seq<string>)
    ensures |r| == (if displayData && |data| > 0 then 3 else 1)
    ensures r[|r| - 1] == Separator
    ensures DataMarker in r <==> displayData && |data| > 0
    ensures |r| == 3 ==>
      r[0] == DataMarker && Indent <= r[1] && NewlinesIndented(r[1]) &&
      Dedent(r[1][|Indent|..]) == Utf8.Decode(data)
  {
    assert Separator[0] == '-' && DataMarker[0] == ' ';
    if displayData && |data| > 0 then
      var text := Reindent(Utf8.Decode(data));
      ReindentedNewlinesIndented(Utf8.Decode(data));
      NewlinesIndentedAfterIndent(text);
      ReindentRoundTrip(Utf8.Decode(data));
      assert (Indent + text)[|Indent|..] == text;
      [DataMarker, Indent + text, Separator]
    else
      [Separator]
  }

  // ----- one whole frame -----

  /** Everything `update` prints for one frame, in order: header, protocol
      blocks, payload block, separator. */
  function FrameLines(f: Frame, localTime: string, displayData: bool): (r: seq<string>)
    requires QueueRenderable(f, f.protocolQueue)
    ensures |r| == 5 + |ProtocolLines(f, f.protocolQueue)| + |ContentsLines(displayData, f.data)|
    ensures r[..5] == HeaderLines(f, localTime)
    ensures r[5..|r| - |ContentsLines(displayData, f.data)|] == ProtocolLines(f, f.protocolQueue)
    ensures r[|r| - 1] == Separator
    ensures DataMarker in r <==> displayData && |f.data| > 0
    ensures r == HeaderLines(f, localTime) + ProtocolLines(f, f.protocolQueue) + ContentsLines(displayData, f.data)
  {
    var h, p, c := HeaderLines(f, localTime), ProtocolLines(f, f.protocolQueue), ContentsLines(displayData, f.data);
    MarkerNotInProtocolLines(f, f.protocolQueue);
    var r := h + p + c;
    assert r[..5] == h;
    assert r[5..|r| - |c|] == p;
    assert DataMarker in r <==> DataMarker in c;
    r
  }
}
