/** The screen observer: each frame the sniffer hands to `Update` is
    printed line by line onto `lines`, the stream the model keeps in place
    of standard output. */
module Screen {
  import opened Wrappers
  import opened Text
  import opened Frames
  import opened Render
  import Utf8

  /** Appending in two steps is appending the two parts at once. */
  lemma AppendAssociative(a: seq<string>, b: seq<string>, c: seq<string>)
    ensures (a + b) + c == a + (b + c)
  {
  }

  class OutputToScreen {
    /** Whether the payload of each frame is printed. */
    const displayData: bool
    /** The frame being printed; none before the first update. */
    var frame: Option<Frame>
    /** Every line printed so far, oldest first. */
    var lines: seq<string>

    constructor (displayData: bool)
      ensures this.displayData == displayData
      ensures frame == None && lines == []
    {
      this.displayData := displayData;
      frame := None;
      lines := [];
    }

    /** One print call. */
    method Print(line: string)
      modifies this`lines
      ensures lines == old(lines) + [line]
    {
      lines := lines + [line];
    }

    /** Prints frame `f` completely; `localTime` is the clock reading at the
        time of printing. */
    method Update(f: Frame, localTime: string)
      requires QueueRenderable(f, f.protocolQueue)
      modifies this
      ensures frame == Some(f)
      ensures lines == old(lines) + FrameLines(f, localTime, displayData)
    {
      frame := Some(f);
      ghost var h, p, c := HeaderLines(f, localTime), ProtocolLines(f, f.protocolQueue), ContentsLines(displayData, f.data);
      AppendAssociative(old(lines), h, p);
      AppendAssociative(old(lines), h + p, c);
      DisplayOutputHeader(localTime);
      DisplayProtocolInfo();
      DisplayPacketContents();
    }

    method DisplayOutputHeader(localTime: string)
      requires frame.Some?
      modifies this`lines
      ensures lines == old(lines) + HeaderLines(frame.value, localTime)
    {
      var f := frame.value;
      ghost var start := lines;
      Print("\n" + Separator);
      Print("[>] Frame #" + Decimal(f.packetNum) + " at " + localTime + ":");
      assert lines == start + HeaderLines(f, localTime)[..2];
      Print(TopLine("Interface: " + InterfaceName(f.interface)));
      Print(TopLine("Frame Length: " + Decimal(f.frameLength)));
      assert lines == start + HeaderLines(f, localTime)[..4];
      Print(TopLine("Epoch Time: " + f.epochTime));
    }

    /** Dispatches every protocol-queue entry in order. */
    method DisplayProtocolInfo()
      requires frame.Some? && QueueRenderable(frame.value, frame.value.protocolQueue)
      modifies this`lines
      ensures lines == old(lines) + ProtocolLines(frame.value, frame.value.protocolQueue)
    {
      var f := frame.value;
      var q := f.protocolQueue;
      ProtocolLinesUpToEnds(f, q);
      for j := 0 to |q|
        invariant lines == old(lines) + ProtocolLinesUpTo(f, q, j)
      {
        ProtocolLinesStep(f, q, j);
        AppendAssociative(old(lines), ProtocolLinesUpTo(f, q, j), Dispatch(f, q[j]));
        DisplayEntry(q[j]);
      }
    }

    /** One turn of the loop: the two lookups under the lower-cased name,
        field group first, then renderer. */
    method DisplayEntry(proto: string)
      requires frame.Some? && EntryRenderable(frame.value, proto)
      modifies this`lines
      ensures lines == old(lines) + Dispatch(frame.value, proto)
    {
      var f := frame.value;
      DispatchRule(f, proto);
      var key := Lower(proto);
      if key in f.groups {
        if key in Registry {
          DisplayData(Registry[key]);
        } else {
          Print(UnknownLine(proto, NoDisplayMethod));
        }
      } else {
        Print(UnknownLine(proto, NoAttributeFound));
      }
    }

    /** Calls the renderer method `p` names. */
    method DisplayData(p: Renderer)
      requires frame.Some? && Renderable(frame.value, p)
      modifies this`lines
      ensures lines == old(lines) + RenderLines(frame.value, p)
    {
      match p
      case Ethernet => DisplayEthernetData();
      case Ipv4 => DisplayIpv4Data();
      case Ipv6 => DisplayIpv6Data();
      case Tcp => DisplayTcpData();
      case Udp => DisplayUdpData();
      case Icmpv4 => DisplayIcmpv4Data();
      case Icmpv6 => DisplayIcmpv6Data();
      case Arp => DisplayArpData();
    }

    method DisplayEthernetData()
      requires frame.Some? && Renderable(frame.value, Ethernet)
      modifies this`lines
      ensures lines == old(lines) + RenderLines(frame.value, Ethernet)
    {
      var eth := frame.value.groups["ethernet"];
      Print(TopLine("[+] Ethernet ...." + eth.src + " -> " + eth.dst));
    }

    method DisplayIpv4Data()
      requires frame.Some? && Renderable(frame.value, Ipv4)
      modifies this`lines
      ensures lines == old(lines) + RenderLines(frame.value, Ipv4)
    {
      var ipv4 := frame.value.groups["ipv4"];
      Print(TopLine("[+] IPv4 ...." + ipv4.src + " -> " + ipv4.dst));
      Print(DetailLine("Traffic Class: " + ipv4.dscp));
      Print(DetailLine("Total Length: " + ipv4.len + " | ID: " + ipv4.id));
      Print(DetailLine("Flags: " + ipv4.flagsStr + " | TTL: " + ipv4.ttl));
      Print(DetailLine("Protocol: " + ipv4.encapsulatedProto + " | Checksum: " + ipv4.chksumHexStr));
    }

    method DisplayIpv6Data()
      requires frame.Some? && Renderable(frame.value, Ipv6)
      modifies this`lines
      ensures lines == old(lines) + RenderLines(frame.value, Ipv6)
    {
      var ipv6 := frame.value.groups["ipv6"];
      Print(TopLine("[+] IPv6 ...." + ipv6.src + " -> " + ipv6.dst));
      Print(DetailLine("Traffic Class: " + ipv6.tclassHexStr + " | Flow Label: " + ipv6.flabelTxtStr));
      Print(DetailLine("Payload Length: " + ipv6.payloadLen + " | Hop Limit: " + ipv6.hopLimit));
    }

    method DisplayTcpData()
      requires frame.Some? && Renderable(frame.value, Tcp)
      modifies this`lines
      ensures lines == old(lines) + RenderLines(frame.value, Tcp)
    {
      var tcp := frame.value.groups["tcp"];
      Print(TopLine("[+] TCP ...." + tcp.sport + " -> " + tcp.dport));
      Print(DetailLine("Sequence Number: " + tcp.seqNum + " | ACK: " + tcp.ack));
      Print(DetailLine("Flags: " + tcp.flagsHexStr + " (" + tcp.flagsStr + ")"));
      Print(DetailLine("Window Size: " + tcp.window + " | Checksum: " + tcp.chksumHexStr));
      Print(DetailLine("Urgent Pointer: " + tcp.urg));
    }

    method DisplayUdpData()
      requires frame.Some? && Renderable(frame.value, Udp)
      modifies this`lines
      ensures lines == old(lines) + RenderLines(frame.value, Udp)
    {
      var udp := frame.value.groups["udp"];
      Print(TopLine("[+] UDP ...." + udp.sport + " -> " + udp.dport));
      Print(DetailLine("Length: " + udp.len + " | Checksum: " + udp.chksum));
    }

    method DisplayIcmpv4Data()
      requires frame.Some? && Renderable(frame.value, Icmpv4)
      modifies this`lines
      ensures lines == old(lines) + RenderLines(frame.value, Icmpv4)
    {
      var ipv4 := frame.value.groups["ipv4"];
      var icmpv4 := frame.value.groups["icmpv4"];
      Print(TopLine("[+] ICMPv4 ...." + ipv4.src + " -> " + ipv4.dst));
      Print(DetailLine("Type: " + icmpv4.icmpType + " (" + icmpv4.typeStr + ") | Checksum: " + icmpv4.chksumHexStr));
    }

    method DisplayIcmpv6Data()
      requires frame.Some? && Renderable(frame.value, Icmpv6)
      modifies this`lines
      ensures lines == old(lines) + RenderLines(frame.value, Icmpv6)
    {
      var ipv6 := frame.value.groups["ipv6"];
      var icmpv6 := frame.value.groups["icmpv6"];
      Print(TopLine("[+] ICMPv6 ...." + ipv6.src + " -> " + ipv6.dst));
      Print(DetailLine("Type: " + icmpv6.icmpType + " (" + icmpv6.typeStr + ") | Subtype: " + icmpv6.code));
      Print(DetailLine("Checksum: " + icmpv6.chksumHexStr));
    }

    method DisplayArpData()
      requires frame.Some? && Renderable(frame.value, Arp)
      modifies this`lines
      ensures lines == old(lines) + RenderLines(frame.value, Arp)
    {
      var arp := frame.value.groups["arp"];
      var head;
      if arp.oper == 1 {
        head := "[+] ARP Who has " + arp.tpa + " ? -> Tell " + arp.spa;
      } else {
        head := "[+] ARP " + arp.spa + " -> Is at " + arp.sha;
      }
      ghost var start := lines;
      Print(TopLine(head));
      assert lines == start + ArpLines(arp)[..1];
      Print(DetailLine("Hardware Type: " + arp.htype + " | Protocol Type: " + arp.ptypeStr + " (" + arp.ptypeHexStr + ")"));
      Print(DetailLine("Operation: " + Decimal(arp.oper) + " (" + arp.operStr + ")"));
      assert lines == start + ArpLines(arp)[..3];
      Print(DetailLine("Sender MAC: " + arp.sha + " | Sender IP: " + arp.spa));
      Print(DetailLine("Target MAC: " + arp.tha + " | Target IP: " + arp.tpa));
    }

    /** Prints the payload block if payload display is on and the frame
        has payload bytes, then the closing separator. */
    method DisplayPacketContents()
      requires frame.Some?
      modifies this`lines
      ensures lines == old(lines) + ContentsLines(displayData, frame.value.data)
    {
      var f := frame.value;
      if displayData && |f.data| > 0 {
        Print(DataMarker);
        var data := Reindent(Utf8.Decode(f.data));
        Print(Indent + data);
      }
      Print(Separator);
    }
  }
}
