# Packet sniffer screen output, modelled in Dafny

This project models the screen output of a packet sniffer: the observer
`OutputToScreen` (output.py) that the sniffer hands each decoded frame to.
For one frame it prints a header, then one block per entry of the frame's
protocol queue, then the payload when payload display is on, then a closing
separator.

The model keeps the source's shape:

- `Screen.OutputToScreen` is a class. It has the `displayData` switch, the
  current `frame`, and a `lines` field that stands in for standard output:
  each `print` call appends one entry.
- `update` and the display methods are methods that append to `lines`. The
  protocol loop is a `for` loop whose invariant ties the lines written so far
  to the processed prefix of the queue.
- Each method is proved against a function in `Render` that gives the lines
  it must print: `HeaderLines`, `Dispatch` and `ProtocolLines`, the eight
  renderers, `ContentsLines` and `FrameLines`. The lemmas about those
  functions carry the properties.

Python reflection becomes explicit lookups:

- `hasattr(frame, name)` is `name in f.groups`, a map from lower-case
  attribute name to field group.
- `hasattr(self, "_display_<name>_data")` is `name in Registry`, a map from
  lower-case key to renderer.

Field values (addresses, hex checksums, flag names) are the decoder's own
texts and are treated as opaque strings.

Supporting modules:

- `Text`: indentation levels, the 50-dash separator, ASCII lower-casing,
  decimal numerals, and the newline re-indentation of the payload with its
  inverse.
- `Utf8`: `bytes.decode(errors="ignore")` as a UTF-8 decoder that drops
  every maximal ill-formed subpart.
- `Frames`: the frame and its field groups.
- `Scenarios`: concrete frames worked through the model.

## Model

| member | source | states |
|---|---|---|
| Screen.OutputToScreen.constructor | output.py:22-32 | the payload switch is stored, no frame is held yet and nothing has been printed |
| Screen.OutputToScreen.Print | output.py:47 | one print call appends exactly its argument as one line |
| Screen.OutputToScreen.Update | output.py:39-43 | stores the frame, then appends exactly `FrameLines`: header, protocol blocks, payload block, separator |
| Screen.OutputToScreen.DisplayOutputHeader | output.py:45-51 | appends exactly the five header lines of `HeaderLines` |
| Screen.OutputToScreen.DisplayProtocolInfo | output.py:53-63 | the loop appends exactly `ProtocolLines` of the whole queue; after j turns the output holds the blocks of the first j entries |
| Screen.OutputToScreen.DisplayEntry | output.py:56-63 | one turn of the loop appends exactly `Dispatch` of the entry: field-group lookup first, then renderer lookup, on the lower-cased name |
| Screen.OutputToScreen.DisplayData | output.py:59 | the getattr call appends exactly the lines of the renderer found |
| Screen.OutputToScreen.DisplayEthernetData | output.py:65-67 | appends exactly the Ethernet block |
| Screen.OutputToScreen.DisplayIpv4Data | output.py:69-75 | appends exactly the IPv4 block |
| Screen.OutputToScreen.DisplayIpv6Data | output.py:77-81 | appends exactly the IPv6 block |
| Screen.OutputToScreen.DisplayTcpData | output.py:83-89 | appends exactly the TCP block |
| Screen.OutputToScreen.DisplayUdpData | output.py:91-94 | appends exactly the UDP block |
| Screen.OutputToScreen.DisplayIcmpv4Data | output.py:96-100 | appends exactly the ICMPv4 block, whose addresses come from the IPv4 group |
| Screen.OutputToScreen.DisplayIcmpv6Data | output.py:102-107 | appends exactly the ICMPv6 block, whose addresses come from the IPv6 group |
| Screen.OutputToScreen.DisplayArpData | output.py:109-119 | appends exactly the ARP block, including its branch on the operation |
| Screen.OutputToScreen.DisplayPacketContents | output.py:121-127 | appends exactly `ContentsLines` for the payload switch and the frame's payload |
| Render.EthernetLines | output.py:65-67 | one line, at the first indentation level, announcing "[+] Ethernet " |
| Render.Ipv4Lines | output.py:69-75 | five lines: a first-level line announcing "[+] IPv4 ", then four second-level lines |
| Render.Ipv6Lines | output.py:77-81 | three lines: a first-level line announcing "[+] IPv6 ", then two second-level lines |
| Render.TcpLines | output.py:83-89 | five lines: a first-level line announcing "[+] TCP ", then four second-level lines |
| Render.UdpLines | output.py:91-94 | two lines: a first-level line announcing "[+] UDP ", then one second-level line |
| Render.Icmpv4Lines | output.py:96-100 | two lines: a first-level line announcing "[+] ICMPv4 ", then one second-level line |
| Render.Icmpv6Lines | output.py:102-107 | three lines: a first-level line announcing "[+] ICMPv6 ", then two second-level lines |
| Render.ArpLines | output.py:109-119 | five lines; for operation 1 the first is "Who has tpa ? -> Tell spa", otherwise "spa -> Is at sha"; four second-level detail lines follow either way |
| Render.RenderLines | output.py:65-119 | every renderer prints its fixed number of lines (1, 5, 3, 5, 2, 2, 3, 5): one at four spaces announcing the protocol, the rest at eight |
| Render.RegistryIsKeyed | output.py:56-59 | the registry holds every renderer under its own lower-case key and nothing else |
| Render.Resolve | output.py:56-63 | missing group if and only if the lower-cased name is not a field group; missing renderer if and only if the group is there but no renderer is; otherwise the renderer whose key is the lower-cased name |
| Render.UnknownLine | output.py:61-63 | a first-level line: "[+] Unknown Protocol: ", then the entry exactly as queued, then the reason in parentheses |
| Render.Dispatch | output.py:55-63 | every entry yields one block: one first-level line, and detail lines at the second level |
| Render.DispatchRule | output.py:56-63 | a missing group gives "(No attribute found)" even when a renderer exists; a present group without a renderer gives "(No display method)"; otherwise the renderer prints; both diagnostics echo the entry as queued, not lower-cased |
| Render.DispatchRendered | output.py:56-59 | an entry whose lower-cased name is a renderer's key, with that renderer's fields present, prints that renderer's lines |
| Render.DiagnosticTellsWhichLookupFailed | output.py:57-63 | each diagnostic is printed exactly when its lookup failed, in both directions |
| Render.RenderedIsNoDiagnostic | output.py:59-63 | no renderer's first line can be mistaken for an "Unknown Protocol" line |
| Render.Outcomes | output.py:55 | one block per queue entry |
| Render.ProtocolLines | output.py:55-63 | the output of the whole loop: nothing for an empty queue, at least one line per entry, every line at the first or second indentation level |
| Render.ConcatOfBlocks | output.py:55-63 | blocks printed one after another give at least one line per block, each at the first or second level |
| Render.ProtocolLinesAppend | output.py:55-63 | the lines of a queue are the lines of its two halves, one after the other: order is kept and entries do not interact |
| Render.ProtocolLinesSnoc | output.py:55-63 | processing one more entry appends exactly that entry's block |
| Render.ProtocolLinesSingle | output.py:55-63 | a one-entry queue prints exactly that entry's block |
| Render.ProtocolLinesUpToEnds | output.py:55-63 | before the loop nothing has been written; after it, the whole queue's lines |
| Render.ProtocolLinesStep | output.py:55-63 | each turn of the loop extends the output by the current entry's block |
| Render.OneOutcomePerEntry | output.py:55-63 | the protocol section has exactly one first-level line per queue entry, in queue order: the first line of that entry's renderer block or diagnostic |
| Render.HeadsOfBlocks | output.py:55-63 | concatenated blocks have exactly one first-level line per block |
| Render.MarkerNotInProtocolLines | output.py:55-63 | no protocol block contains the "[+] DATA:" line |
| Render.MarkerNotInBlock | output.py:55-63 | no entry's block, renderer or diagnostic, is the "[+] DATA:" line |
| Render.HeaderLines | output.py:45-51 | five lines: the 50-dash separator after a newline; "[>] Frame #" with the frame number in decimal and the clock reading; then interface, frame length in decimal and epoch time, each at the first level; the interface reads "all" when absent or empty and the name verbatim otherwise; none of them is the "[+] DATA:" line |
| Render.InterfaceName | output.py:49 | `interface or 'all'`: never empty; the interface name verbatim when it is present and non-empty, "all" otherwise |
| Render.FrameNumberReadBack | output.py:48 | the frame number is read back off the frame line as the digits after "Frame #" |
| Render.FrameLengthReadBack | output.py:50 | the frame length is read back off its line as the digits after "Frame Length: " |
| Render.ContentsLines | output.py:121-127 | the "[+] DATA:" block is there if and only if payload display is on and the payload is non-empty; the payload line starts with four spaces, every newline in it is followed by eight spaces, and removing those gives back the decoded payload; the separator is always last |
| Render.FrameLines | output.py:39-43 | header, then protocol lines, then payload block; the separator is last, and the "[+] DATA:" line appears if and only if payload display is on and the payload is non-empty |
| Text.Repeat | output.py:47 | n copies of the character, and nothing else |
| Text.TopLine | output.py:18 | four spaces before a text that does not start with a space make a line at the first indentation level |
| Text.DetailLine | output.py:18 | eight spaces before a text that does not start with a space make a line at the second indentation level |
| Text.LevelsDiffer | output.py:18 | no line is at both indentation levels |
| Text.Lower | output.py:56-57 | same length; every upper-case ASCII letter is lowered and everything else is kept |
| Text.Decimal | output.py:48-50 | a non-empty run of digits with no leading zero |
| Text.DecimalRoundTrip | output.py:48-50 | reading the numeral back gives the number |
| Text.LeadingDigits | output.py:48-50 | a prefix of the text made of digits only |
| Text.LeadingDigitsOfNumeral | output.py:48-50 | a numeral followed by a non-digit is taken off the front whole |
| Text.ReadNumber | output.py:48-50 | a number printed in decimal in front of a non-digit is read back exactly |
| Text.Reindent | output.py:124 | the text grows by exactly eight characters per newline |
| Text.ReindentRoundTrip | output.py:124 | removing the eight spaces after each newline gives back the original text |
| Text.ReindentSingleLine | output.py:124 | text without newlines is printed unchanged |
| Text.ReindentedNewlinesIndented | output.py:124 | after re-indentation every newline is followed by eight spaces |
| Utf8.DecodeStep | output.py:124 | each step consumes at least one byte and never more than are left; a decoded character consumes its whole sequence, a one-byte one keeps its code, and a dropped subpart is shorter than the sequence its lead byte announces |
| Utf8.Decode | output.py:124 | decoding never yields more characters than there are bytes |
| Utf8.DecodeAscii | output.py:124 | ASCII bytes decode one for one to the characters with the same codes |
| Utf8.DecodeDropsInvalidLead | output.py:124 | a byte that cannot start a UTF-8 sequence is dropped and decoding goes on after it |
| Scenarios.FullyDecodedFrame | output.py:55-89 | an Ethernet/IPv4/TCP frame prints the Ethernet, IPv4 and TCP blocks, in that order |
| Scenarios.UndecodedLayer | output.py:55-67 | a queued layer with no field group prints "Unknown Protocol: SCTP (No attribute found)" after the Ethernet block |
| Scenarios.UnrenderedLayer | output.py:55-67 | a queued layer with a field group but no renderer prints "Unknown Protocol: SCTP (No display method)" |
| Scenarios.RepeatedLayer | output.py:55-63 | "TCP" and "tcp" in one queue are each printed by the TCP renderer |
| Scenarios.PayloadDecoding | output.py:124 | the payload "h", 0xFF, "i" decodes to "hi" |
| Scenarios.PayloadWithInvalidByte | output.py:121-127 | that payload prints as the marker, "    hi" and the separator |

## Left out

- Standard output: every `print` call appends its argument to `lines`. A
  text that holds newlines stays one entry.
- The observer plumbing is not modelled: the `Output` base class, the
  `subject.register` call and the start-up banner of `_initialize`
  (output.py:5-15, 34-37).
- The clock read at output.py:46 is an input string (`localTime`).
- The `:.6f` formatting of the epoch time (output.py:51) is floating point.
  The frame carries the formatted text.
- How the frame decoder computes field values is not modelled. This covers
  flag names, hex checksums and type names, and the decoder is not part of
  this model.
- `Text.Lower`: lower-cases ASCII letters only. Python's `str.lower` also
  maps other Unicode letters, but queue entries are the decoder's ASCII
  protocol names.
- Exceptions are not modelled. The ICMP renderers read the IPv4/IPv6 group
  unguarded (output.py:97, 104), so the model makes the IP group a
  precondition. Each renderer also needs its group to have the fields it
  reads. `update` has no exception handling (output.py:39-43), so a frame
  that breaks these preconditions raises; the model does not describe
  that exception or any partial output before it.
- Payload decoding (output.py:124, `errors="ignore"`): invalid bytes are
  dropped, not replaced by a placeholder.
- `hasattr(self._frame, name)` also succeeds for frame attributes that are
  not field groups (`data`, `interface`, `packet_num`, …). The model looks
  names up in the field-group map only. A queue entry named after such an
  attribute is therefore reported as "No attribute found", where the
  source reports "No display method".
- `Utf8.Decode`: the decoder drops each maximal ill-formed subpart, as
  CPython does. Its contract proves only the length bound, the ASCII case
  and the dropping of an invalid lead byte, not full agreement with
  CPython.
