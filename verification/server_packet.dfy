/** The scrolling header messages (`ServerPacket`): the line of text that scrolls at
    the top of every player's screen. */
module ServerPacket {
  import opened Packets

  /** The SMSG_MESSAGE type of a scrolling header. */
  const ScrollingHeaderType: int8 := 4

  function ShowScrollingHeaderFields(msg: string): (p: Packet)
    ensures |p| == 4 && p[2] == I8(1) && p[3] == Str(msg)
    ensures p[..2] == [Header(SmsgMessage), I8(ScrollingHeaderType)]
  {
    [Header(SmsgMessage), I8(ScrollingHeaderType), I8(1), Str(msg)]
  }

  /** `changeScrollingHeader`: a flag says whether a message follows; an empty message
      clears the header and carries no string at all. */
  function ChangeScrollingHeaderFields(msg: string): (p: Packet)
    ensures |p| == (if |msg| > 0 then 4 else 3)
    ensures p[..3] == [Header(SmsgMessage), I8(ScrollingHeaderType), Bool(|msg| > 0)]
    ensures |msg| > 0 ==> p[3] == Str(msg)
  {
    [Header(SmsgMessage), I8(ScrollingHeaderType), Bool(|msg| > 0)]
    + (if |msg| > 0 then [Str(msg)] else [])
  }

  /** What a client makes of a `changeScrollingHeader` packet: the new header text, empty
      when the flag is clear. A set flag with an empty string is not a packet the server sends. */
  function ParseChangeScrollingHeader(p: Packet): Option<string> {
    if |p| < 3 || p[..2] != [Header(SmsgMessage), I8(ScrollingHeaderType)] || !p[2].Bool? then None
    else if !p[2].b then (if |p| == 3 then Some("") else None)
    else if |p| == 4 && p[3].Str? && p[3].s != "" then Some(p[3].s)
    else None
  }

  /** Every message, the empty one included, comes back as it was sent. */
  lemma ChangeScrollingHeaderRoundTrip(msg: string)
    ensures ParseChangeScrollingHeader(ChangeScrollingHeaderFields(msg)) == Some(msg)
  {
  }

  /** Each packet the client accepts is the encoding of exactly the message it reads. */
  lemma ChangeScrollingHeaderParseInverse(p: Packet)
    requires ParseChangeScrollingHeader(p).Some?
    ensures p == ChangeScrollingHeaderFields(ParseChangeScrollingHeader(p).value)
  {
    if p[2].b {
      assert p == p[..3] + [p[3]];
    } else {
      assert p == p[..3];
    }
  }

  /** Both scrolling header packets open with the same two fields. */
  lemma ScrollingHeadersShareHead(shown: string, changed: string)
    ensures ShowScrollingHeaderFields(shown)[..2] == ChangeScrollingHeaderFields(changed)[..2]
         == [Header(SmsgMessage), I8(ScrollingHeaderType)]
  {
  }

  /** Clearing the header is the three-field packet. */
  lemma ClearScrollingHeader()
    ensures ChangeScrollingHeaderFields("") == [Header(SmsgMessage), I8(ScrollingHeaderType), Bool(false)]
  {
  }

  method ShowScrollingHeader(msg: string) returns (p: Packet)
    ensures p == ShowScrollingHeaderFields(msg)
  {
    var builder := new PacketBuilder();
    builder.Add(Header(SmsgMessage));
    builder.Add(I8(ScrollingHeaderType));
    builder.Add(I8(1));
    builder.Add(Str(msg));
    p := builder.fields;
  }

  method ChangeScrollingHeader(msg: string) returns (p: Packet)
    ensures p == ChangeScrollingHeaderFields(msg)
  {
    var builder := new PacketBuilder();
    builder.Add(Header(SmsgMessage));
    builder.Add(I8(ScrollingHeaderType));
    builder.Add(Bool(|msg| > 0));
    if |msg| > 0 {
      builder.Add(Str(msg));
    }
    p := builder.fields;
  }
}
