/** Concrete frames worked through the model: a TCP/IPv4 frame over
    Ethernet, a frame with an undecoded layer, a repeated layer written in
    two cases, and a payload with an invalid byte. */
module Scenarios {
  import opened Wrappers
  import opened Text
  import opened Frames
  import opened Render
  import Utf8

  lemma LowerNames()
    ensures Lower("Ethernet") == "ethernet" && Lower("IPv4") == "ipv4"
  {
  }

  lemma LowerMoreNames()
    ensures Lower("TCP") == "tcp" && Lower("tcp") == "tcp" && Lower("SCTP") == "sctp"
  {
  }

  /** A queue of three entries writes their three blocks in order. */
  lemma ThreeEntries(f: Frame, q: seq<string>)
    requires |q| == 3
    requires EntryRenderable(f, q[0]) && EntryRenderable(f, q[1]) && EntryRenderable(f, q[2])
    ensures QueueRenderable(f, q)
    ensures ProtocolLines(f, q) == Dispatch(f, q[0]) + Dispatch(f, q[1]) + Dispatch(f, q[2])
  {
    assert QueueRenderable(f, q) by {
      forall j | 0 <= j < |q| ensures EntryRenderable(f, q[j]) {
        if j == 0 { } else if j == 1 { } else { }
      }
    }
    assert q == [q[0]] + ([q[1]] + [q[2]]);
    ProtocolLinesAppend(f, [q[0]], [q[1]] + [q[2]]);
    ProtocolLinesAppend(f, [q[1]], [q[2]]);
    ProtocolLinesSingle(f, q[0]);
    ProtocolLinesSingle(f, q[1]);
    ProtocolLinesSingle(f, q[2]);
  }

  /** An "Ethernet" entry goes to the Ethernet renderer when its fields are present. */
  lemma EthernetEntry(f: Frame)
    requires "ethernet" in f.groups && f.groups["ethernet"].EthernetGroup?
    ensures EntryRenderable(f, "Ethernet") && Dispatch(f, "Ethernet") == EthernetLines(f.groups["ethernet"])
  {
    LowerNames();
    DispatchRendered(f, "Ethernet", Ethernet);
  }

  /** An "IPv4" entry goes to the IPv4 renderer when its fields are present. */
  lemma Ipv4Entry(f: Frame)
    requires "ipv4" in f.groups && f.groups["ipv4"].Ipv4Group?
    ensures EntryRenderable(f, "IPv4") && Dispatch(f, "IPv4") == Ipv4Lines(f.groups["ipv4"])
  {
    LowerNames();
    DispatchRendered(f, "IPv4", Ipv4);
  }

  /** A "TCP" entry goes to the TCP renderer when its fields are present. */
  lemma TcpEntry(f: Frame)
    requires "tcp" in f.groups && f.groups["tcp"].TcpGroup?
    ensures EntryRenderable(f, "TCP") && Dispatch(f, "TCP") == TcpLines(f.groups["tcp"])
  {
    LowerMoreNames();
    DispatchRendered(f, "TCP", Tcp);
  }

  /** Ethernet, IPv4 and TCP all decoded: three blocks in queue order. */
  lemma FullyDecodedFrame(f: Frame, eth: FieldGroup, ip: FieldGroup, tcp: FieldGroup)
    requires eth.EthernetGroup? && ip.Ipv4Group? && tcp.TcpGroup?
    requires f.protocolQueue == ["Ethernet", "IPv4", "TCP"]
    requires f.groups == map["ethernet" := eth, "ipv4" := ip, "tcp" := tcp]
    ensures QueueRenderable(f, f.protocolQueue)
    ensures ProtocolLines(f, f.protocolQueue) == EthernetLines(eth) + Ipv4Lines(ip) + TcpLines(tcp)
  {
    EthernetEntry(f);
    Ipv4Entry(f);
    TcpEntry(f);
    ThreeEntries(f, f.protocolQueue);
  }

  /** A queue of two entries writes their two blocks in order. */
  lemma TwoEntries(f: Frame, q: seq<string>)
    requires |q| == 2 && EntryRenderable(f, q[0]) && EntryRenderable(f, q[1])
    ensures QueueRenderable(f, q)
    ensures ProtocolLines(f, q) == Dispatch(f, q[0]) + Dispatch(f, q[1])
  {
    assert QueueRenderable(f, q) by {
      forall j | 0 <= j < |q| ensures EntryRenderable(f, q[j]) {
        if j == 0 { } else { }
      }
    }
    assert q == [q[0]] + [q[1]];
    ProtocolLinesAppend(f, [q[0]], [q[1]]);
    ProtocolLinesSingle(f, q[0]);
    ProtocolLinesSingle(f, q[1]);
  }

  /** A layer the dissector named but did not decode is reported, under
      its name as written, as having no fields; the decoded layer before it
      is still printed. */
  lemma UndecodedLayer(f: Frame, eth: FieldGroup)
    requires eth.EthernetGroup?
    requires f.protocolQueue == ["Ethernet", "SCTP"]
    requires f.groups == map["ethernet" := eth]
    ensures QueueRenderable(f, f.protocolQueue)
    ensures ProtocolLines(f, f.protocolQueue) == EthernetLines(eth) + [UnknownLine("SCTP", NoAttributeFound)]
  {
    var q := f.protocolQueue;
    EthernetEntry(f);
    LowerMoreNames();
    DispatchRule(f, q[1]);
    TwoEntries(f, q);
  }

  /** A layer whose fields were decoded but which has no renderer is
      reported as having no display method. */
  lemma UnrenderedLayer(f: Frame, eth: FieldGroup)
    requires eth.EthernetGroup?
    requires f.protocolQueue == ["Ethernet", "SCTP"]
    requires f.groups == map["ethernet" := eth, "sctp" := OtherGroup]
    ensures QueueRenderable(f, f.protocolQueue)
    ensures ProtocolLines(f, f.protocolQueue) == EthernetLines(eth) + [UnknownLine("SCTP", NoDisplayMethod)]
  {
    var q := f.protocolQueue;
    EthernetEntry(f);
    LowerMoreNames();
    DispatchRule(f, q[1]);
    TwoEntries(f, q);
  }

  /** A layer named twice, in two letter cases, is printed twice by the
      same renderer. */
  lemma RepeatedLayer(f: Frame, tcp: FieldGroup)
    requires tcp.TcpGroup?
    requires f.protocolQueue == ["TCP", "tcp"]
    requires f.groups == map["tcp" := tcp]
    ensures QueueRenderable(f, f.protocolQueue)
    ensures ProtocolLines(f, f.protocolQueue) == TcpLines(tcp) + TcpLines(tcp)
  {
    var q := f.protocolQueue;
    LowerMoreNames();
    DispatchRendered(f, q[0], Tcp);
    DispatchRendered(f, q[1], Tcp);
    TwoEntries(f, q);
  }

  /** A payload "h", 0xFF, "i": the byte that cannot start a UTF-8
      sequence is dropped and the rest decodes to "hi". */
  lemma PayloadDecoding()
    ensures Utf8.Decode([0x68, 0xFF, 0x69]) == "hi"
  {
    var b: seq<Utf8.byte> := [0x68, 0xFF, 0x69];
    assert b[1..] == [0xFF] + [0x69];
    Utf8.DecodeDropsInvalidLead(0xFF, [0x69]);
    Utf8.DecodeAscii([0x69]);
  }

  /** The same payload printed with payload display on: the marker line,
      the decoded text one level in, and the closing separator. */
  lemma PayloadWithInvalidByte()
    ensures ContentsLines(true, [0x68, 0xFF, 0x69]) == [DataMarker, Indent + "hi", Separator]
  {
    PayloadDecoding();
    ReindentSingleLine("hi");
  }
}
