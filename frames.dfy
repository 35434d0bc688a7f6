/** A decoded frame as the frame decoder hands it to the screen output.
    Field values are the decoder's own texts (addresses, hex checksums,
    flag names); only the numbers the output inspects or formats itself
    are numbers here. */
module Frames {
  import opened Wrappers
  import Utf8

  /** The parsed fields of one protocol layer, one variant per layer the
      screen output knows how to print, plus any other layer the decoder
      attached. */
  datatype FieldGroup =
    | EthernetGroup(src: string, dst: string)
    | Ipv4Group(src: string, dst: string, dscp: string, len: string, id: string,
                flagsStr: string, ttl: string, encapsulatedProto: string, chksumHexStr: string)
    | Ipv6Group(src: string, dst: string, tclassHexStr: string, flabelTxtStr: string,
                payloadLen: string, hopLimit: string)
    | TcpGroup(sport: string, dport: string, seqNum: string, ack: string, flagsHexStr: string,
               flagsStr: string, window: string, chksumHexStr: string, urg: string)
    | UdpGroup(sport: string, dport: string, len: string, chksum: string)
    | Icmpv4Group(icmpType: string, typeStr: string, chksumHexStr: string)
    | Icmpv6Group(icmpType: string, typeStr: string, code: string, chksumHexStr: string)
    | ArpGroup(htype: string, ptypeStr: string, ptypeHexStr: string, oper: nat, operStr: string,
               sha: string, spa: string, tha: string, tpa: string)
    | OtherGroup

  /** One decoded frame. `groups` holds the field groups the decoder
      attached, under their lower-case attribute names; `epochTime` is the
      capture time already written with six decimals. */
  datatype Frame = Frame(
    packetNum: nat,
    interface: Option<string>,
    frameLength: nat,
    epochTime: string,
    protocolQueue: seq<string>,
    groups: map<string, FieldGroup>,
    data: seq<Utf8.byte>)
}
