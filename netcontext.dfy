/**
 * Typed views of the network labelling statements of an SELinux policy:
 * `netifcon`, `nodecon` and `portcon`.
 *
 * Each statement wraps a backing policy handle. Handles are modelled as plain
 * records of the fields their accessors return; every property of a statement is
 * then a total function of its handle (or a Result where the source raises).
 */
module Netcontext {
  import opened Wrappers
  import Text

  /** A security context, known here by its rendered text; two contexts are equal when their texts are. */
  datatype Context = Context(text: string)

  /** The exceptions this module raises. */
  datatype Error =
    | NotImplementedError         // factory given the wrong handle kind; rendering the base class
    | ValueError(code: int)       // a raw protocol or family code with no enumeration member
    | AttributeError(attr: string) // a handle without the requested accessor

  /**
   * The host's network-stack constants: the address families, the TCP and UDP
   * protocol numbers, and what the protocol database answers for "dccp"
   * (None when the lookup raises).
   */
  datatype Platform = Platform(
    afInet: int,
    afInet6: int,
    ipprotoTcp: int,
    ipprotoUdp: int,
    dccpByName: Option<int>)

  /** The protocol number used for DCCP when the protocol database does not know it. */
  const DccpFallback: int := 33

  /** The protocol number of DCCP: what the protocol database answers, or the fallback when the lookup raises. */
  function DccpCode(pl: Platform): (code: int)
    ensures pl.dccpByName.Some? ==> code == pl.dccpByName.value
    ensures pl.dccpByName.None? ==> code == 33
  {
    match pl.dccpByName
    case Some(code) => code
    case None => DccpFallback
  }

  // ---------------------------------------------------------------------------
  // Enumerations decoded from raw codes

  datatype IPVersion = IPv4 | IPv6

  /** The raw family code that each IP version stands for. */
  function IPVersionCode(pl: Platform, v: IPVersion): int {
    match v
    case IPv4 => pl.afInet
    case IPv6 => pl.afInet6
  }

  /**
   * Decoding of a raw family code: the first declared member whose value is the
   * code, or a ValueError.
   */
  function DecodeIPVersion(pl: Platform, code: int): (r: Result<IPVersion, Error>)
    ensures r.Success? <==> code == pl.afInet || code == pl.afInet6
    ensures r.Success? ==> IPVersionCode(pl, r.value) == code
    ensures r.Failure? ==> r.error == ValueError(code)
  {
    if code == pl.afInet then Success(IPv4)
    else if code == pl.afInet6 then Success(IPv6)
    else Failure(ValueError(code))
  }

  lemma IPVersionRoundTrip(pl: Platform, v: IPVersion)
    requires pl.afInet != pl.afInet6
    ensures DecodeIPVersion(pl, IPVersionCode(pl, v)) == Success(v)
  {
  }

  datatype Protocol = Tcp | Udp | Dccp

  function ProtocolCode(pl: Platform, p: Protocol): int {
    match p
    case Tcp => pl.ipprotoTcp
    case Udp => pl.ipprotoUdp
    case Dccp => DccpCode(pl)
  }

  /** The text a protocol prints as in statements and hash keys. */
  function ProtocolName(p: Protocol): (s: string)
    ensures |s| > 0 && ' ' !in s && '|' !in s
  {
    match p
    case Tcp => "tcp"
    case Udp => "udp"
    case Dccp => "dccp"
  }

  lemma ProtocolNameInjective(p: Protocol, q: Protocol)
    ensures ProtocolName(p) == ProtocolName(q) <==> p == q
  {
  }

  function DecodeProtocol(pl: Platform, code: int): (r: Result<Protocol, Error>)
    ensures r.Success? <==> code == pl.ipprotoTcp || code == pl.ipprotoUdp || code == DccpCode(pl)
    ensures r.Success? ==> ProtocolCode(pl, r.value) == code
    ensures r.Failure? ==> r.error == ValueError(code)
  {
    if code == pl.ipprotoTcp then Success(Tcp)
    else if code == pl.ipprotoUdp then Success(Udp)
    else if code == DccpCode(pl) then Success(Dccp)
    else Failure(ValueError(code))
  }

  predicate DistinctProtocolCodes(pl: Platform) {
    pl.ipprotoTcp != pl.ipprotoUdp && pl.ipprotoTcp != DccpCode(pl) && pl.ipprotoUdp != DccpCode(pl)
  }

  lemma ProtocolRoundTrip(pl: Platform, p: Protocol)
    requires DistinctProtocolCodes(pl)
    ensures DecodeProtocol(pl, ProtocolCode(pl, p)) == Success(p)
  {
  }

  // ---------------------------------------------------------------------------
  // Backing handles and statements

  datatype NetifconHandle = NetifconHandle(name: string, ifCon: Context, msgCon: Context)
  datatype NodeconHandle = NodeconHandle(protocol: int, addr: string, mask: string, context: Context)
  datatype PortconHandle = PortconHandle(protocol: int, lowPort: nat, highPort: nat, context: Context)

  /** A backing policy handle: one of the three network kinds, or a handle of any other kind. */
  datatype QpolHandle =
    | QpolNetifcon(netifcon: NetifconHandle)
    | QpolNodecon(nodecon: NodeconHandle)
    | QpolPortcon(portcon: PortconHandle)
    | QpolOther(typeName: string)

  /** A network-context statement: the base class, or one of the three concrete kinds. */
  datatype NetContext =
    | BaseNetContext(handle: QpolHandle)
    | Netifcon(ifh: NetifconHandle)
    | Nodecon(nodeh: NodeconHandle)
    | Portcon(porth: PortconHandle)

  /** The handle a statement wraps. */
  function HandleOf(nc: NetContext): QpolHandle {
    match nc
    case BaseNetContext(h) => h
    case Netifcon(h) => QpolNetifcon(h)
    case Nodecon(h) => QpolNodecon(h)
    case Portcon(h) => QpolPortcon(h)
  }

  function NetifconFactory(h: QpolHandle): (r: Result<NetContext, Error>)
    ensures r.Success? <==> h.QpolNetifcon?
    ensures r.Success? ==> r.value.Netifcon? && HandleOf(r.value) == h
    ensures r.Failure? ==> r.error == NotImplementedError
  {
    if h.QpolNetifcon? then Success(Netifcon(h.netifcon)) else Failure(NotImplementedError)
  }

  function NodeconFactory(h: QpolHandle): (r: Result<NetContext, Error>)
    ensures r.Success? <==> h.QpolNodecon?
    ensures r.Success? ==> r.value.Nodecon? && HandleOf(r.value) == h
    ensures r.Failure? ==> r.error == NotImplementedError
  {
    if h.QpolNodecon? then Success(Nodecon(h.nodecon)) else Failure(NotImplementedError)
  }

  function PortconFactory(h: QpolHandle): (r: Result<NetContext, Error>)
    ensures r.Success? <==> h.QpolPortcon?
    ensures r.Success? ==> r.value.Portcon? && HandleOf(r.value) == h
    ensures r.Failure? ==> r.error == NotImplementedError
  {
    if h.QpolPortcon? then Success(Portcon(h.portcon)) else Failure(NotImplementedError)
  }

  /** At most one factory accepts a handle, and none accepts a handle of another kind. */
  lemma FactoriesPartitionHandles(h: QpolHandle)
    ensures !(NetifconFactory(h).Success? && NodeconFactory(h).Success?)
    ensures !(NetifconFactory(h).Success? && PortconFactory(h).Success?)
    ensures !(NodeconFactory(h).Success? && PortconFactory(h).Success?)
    ensures h.QpolOther? ==>
      NetifconFactory(h) == NodeconFactory(h) == PortconFactory(h) == Failure(NotImplementedError)
  {
  }

  // ---------------------------------------------------------------------------
  // Properties

  /** The generic context accessor of the backing handle. */
  function HandleContext(h: QpolHandle): (r: Result<Context, Error>)
    ensures r.Success? <==> h.QpolNodecon? || h.QpolPortcon?
    ensures h.QpolNodecon? ==> r == Success(h.nodecon.context)
    ensures h.QpolPortcon? ==> r == Success(h.portcon.context)
  {
    match h
    case QpolNodecon(n) => Success(n.context)
    case QpolPortcon(p) => Success(p.context)
    case _ => Failure(AttributeError("context"))
  }

  /** The `context` property; a netifcon answers with its interface context. */
  function ContextOf(nc: NetContext): (r: Result<Context, Error>)
    ensures r.Success? <==> !nc.BaseNetContext? || HandleContext(nc.handle).Success?
    ensures nc.Netifcon? ==> r == Success(nc.ifh.ifCon)
    ensures nc.Nodecon? ==> r == Success(nc.nodeh.context)
    ensures nc.Portcon? ==> r == Success(nc.porth.context)
  {
    match nc
    case Netifcon(h) => Success(h.ifCon)
    case _ => HandleContext(HandleOf(nc))
  }

  function Netif(h: NetifconHandle): string {
    h.name
  }

  function Packet(h: NetifconHandle): Context {
    h.msgCon
  }

  /** The `ip_version` property: the version whose family code is the handle's raw code. */
  function IPVersionOf(pl: Platform, h: NodeconHandle): (r: Result<IPVersion, Error>)
    ensures r.Success? <==> h.protocol == pl.afInet || h.protocol == pl.afInet6
    ensures r.Success? ==> IPVersionCode(pl, r.value) == h.protocol
    ensures r.Failure? ==> r.error == ValueError(h.protocol)
  {
    DecodeIPVersion(pl, h.protocol)
  }

  /** The `protocol` property: the protocol whose number is the handle's raw code. */
  function ProtocolOf(pl: Platform, h: PortconHandle): (r: Result<Protocol, Error>)
    ensures r.Success? <==> h.protocol in {pl.ipprotoTcp, pl.ipprotoUdp, DccpCode(pl)}
    ensures r.Success? ==> ProtocolCode(pl, r.value) == h.protocol
    ensures r.Failure? ==> r.error == ValueError(h.protocol)
  {
    DecodeProtocol(pl, h.protocol)
  }

  datatype PortconRange = PortconRange(low: nat, high: nat)

  function Ports(h: PortconHandle): PortconRange {
    PortconRange(h.lowPort, h.highPort)
  }

  // ---------------------------------------------------------------------------
  // Rendering

  /** The port part of a portcon statement: one number, or `low-high` when the bounds differ. */
  function PortsText(r: PortconRange): string {
    if r.low == r.high then Text.NatToString(r.low)
    else Text.NatToString(r.low) + "-" + Text.NatToString(r.high)
  }

  function NetifconText(h: NetifconHandle): string {
    "netifcon " + h.name + " " + h.ifCon.text + " " + h.msgCon.text
  }

  function NodeconText(h: NodeconHandle): string {
    "nodecon " + h.addr + " " + h.mask + " " + h.context.text
  }

  /** A portcon's string form; it raises exactly when the protocol code does not decode. */
  function PortconText(pl: Platform, h: PortconHandle): (r: Result<string, Error>)
    ensures r.Success? <==> ProtocolOf(pl, h).Success?
    ensures r.Failure? ==> r.error == ValueError(h.protocol)
  {
    match ProtocolOf(pl, h)
    case Failure(e) => Failure(e)
    case Success(p) =>
      Success("portcon " + ProtocolName(p) + " " + PortsText(Ports(h)) + " " + h.context.text)
  }

  /** The string form of a statement; the base class has none. */
  function Render(pl: Platform, nc: NetContext): (r: Result<string, Error>)
    ensures r.Success? <==> !nc.BaseNetContext? && (nc.Portcon? ==> ProtocolOf(pl, nc.porth).Success?)
    ensures nc.BaseNetContext? ==> r == Failure(NotImplementedError)
    ensures nc.Portcon? && r.Failure? ==> r.error == ValueError(nc.porth.protocol)
  {
    match nc
    case BaseNetContext(_) => Failure(NotImplementedError)
    case Netifcon(h) => Success(NetifconText(h))
    case Nodecon(h) => Success(NodeconText(h))
    case Portcon(h) => PortconText(pl, h)
  }

  /** `statement()`: the string form. */
  function StatementText(pl: Platform, nc: NetContext): Result<string, Error> {
    Render(pl, nc)
  }

  lemma BaseRenderingRaises(pl: Platform, h: QpolHandle)
    ensures StatementText(pl, BaseNetContext(h)) == Failure(NotImplementedError)
  {
  }

  lemma StatementIsRender(pl: Platform, nc: NetContext)
    ensures StatementText(pl, nc) == Render(pl, nc)
  {
  }

  /** A netifcon renders its name, its `context` property (the interface context) and its packet context. */
  lemma NetifconRendering(pl: Platform, h: NetifconHandle)
    ensures ContextOf(Netifcon(h)).Success?
    ensures Render(pl, Netifcon(h)) ==
      Success("netifcon " + Netif(h) + " " + ContextOf(Netifcon(h)).value.text + " " + Packet(h).text)
  {
  }

  /** The single-port form is used exactly when the bounds are equal; any other pair, in either order, gets the range form. */
  lemma PortconRenderingForms(pl: Platform, h: PortconHandle)
    requires ProtocolOf(pl, h).Success?
    ensures var head := "portcon " + ProtocolName(ProtocolOf(pl, h).value) + " ";
      && (h.lowPort == h.highPort ==>
          PortconText(pl, h) == Success(head + Text.NatToString(h.lowPort) + " " + h.context.text))
      && (h.lowPort != h.highPort ==>
          PortconText(pl, h) ==
          Success(head + Text.NatToString(h.lowPort) + "-" + Text.NatToString(h.highPort) + " " + h.context.text))
  {
    var head := "portcon " + ProtocolName(ProtocolOf(pl, h).value) + " ";
    var lo, hi := Text.NatToString(h.lowPort), Text.NatToString(h.highPort);
    if h.lowPort != h.highPort {
      assert head + (lo + "-" + hi) + " " + h.context.text == head + lo + "-" + hi + " " + h.context.text;
    }
  }

  /** The constants of a Linux host: AF_INET 2, AF_INET6 10, TCP 6, UDP 17, DCCP 33. */
  const LinuxPlatform: Platform := Platform(2, 10, 6, 17, Some(33))

  lemma PortconExampleSingle(ctx: Context)
    ensures PortconText(LinuxPlatform, PortconHandle(6, 80, 80, ctx)) == Success("portcon tcp 80 " + ctx.text)
  {
    assert Text.NatToString(8) == "8";
    assert Text.NatToString(80) == "80";
    var h := PortconHandle(6, 80, 80, ctx);
    assert ProtocolOf(LinuxPlatform, h) == Success(Tcp);
    assert PortsText(Ports(h)) == "80";
    assert PortconText(LinuxPlatform, h) == Success("portcon " + "tcp" + " " + "80" + " " + ctx.text);
    assert "portcon " + "tcp" + " " + "80" + " " == "portcon tcp 80 ";
  }

  lemma PortconExampleRange(ctx: Context)
    ensures PortconText(LinuxPlatform, PortconHandle(17, 1024, 2048, ctx)) ==
      Success("portcon udp 1024-2048 " + ctx.text)
  {
    DecimalExamples();
    var h := PortconHandle(17, 1024, 2048, ctx);
    assert ProtocolOf(LinuxPlatform, h) == Success(Udp);
    assert PortsText(Ports(h)) == "1024-2048";
    assert PortconText(LinuxPlatform, h) == Success("portcon " + "udp" + " " + "1024-2048" + " " + ctx.text);
    assert "portcon " + "udp" + " " + "1024-2048" + " " == "portcon udp 1024-2048 ";
  }

  lemma DecimalExamples()
    ensures Text.NatToString(1024) == "1024" && Text.NatToString(2048) == "2048"
  {
  }

  /** Reads back the port part of a portcon statement. */
  function ParsePortsText(s: string): Option<PortconRange> {
    match Text.SplitFirst(s, '-')
    case None =>
      (match Text.ParseNat(s)
       case None => None
       case Some(n) => Some(PortconRange(n, n)))
    case Some(parts) =>
      (match (Text.ParseNat(parts.0), Text.ParseNat(parts.1))
       case (Some(lo), Some(hi)) => Some(PortconRange(lo, hi))
       case _ => None)
  }

  /** The port text loses nothing: both forms read back as the range they were printed from. */
  lemma PortsTextRoundTrip(r: PortconRange)
    ensures ParsePortsText(PortsText(r)) == Some(r)
  {
    Text.NatToStringLacks(r.low, '-');
    Text.ParseNatToString(r.low);
    if r.low != r.high {
      Text.NatToStringLacks(r.high, '-');
      Text.ParseNatToString(r.high);
      Text.SplitFirstJoin(Text.NatToString(r.low), '-', Text.NatToString(r.high));
    }
  }

  /** Reads a `portcon` line back into its protocol text, port range and context text. */
  function ParsePortconText(s: string): Option<(string, PortconRange, string)> {
    match Text.SplitFirst(s, ' ')
    case None => None
    case Some(p1) =>
      if p1.0 != "portcon" then None
      else match Text.SplitFirst(p1.1, ' ')
        case None => None
        case Some(p2) =>
          match Text.SplitFirst(p2.1, ' ')
          case None => None
          case Some(p3) =>
            match ParsePortsText(p3.0)
            case None => None
            case Some(r) => Some((p2.0, r, p3.1))
  }

  lemma {:induction false} PortconTextRoundTrip(pl: Platform, h: PortconHandle)
    requires ProtocolOf(pl, h).Success?
    ensures ParsePortconText(PortconText(pl, h).value) ==
      Some((ProtocolName(ProtocolOf(pl, h).value), Ports(h), h.context.text))
  {
    var name := ProtocolName(ProtocolOf(pl, h).value);
    var ports := PortsText(Ports(h));
    var ctx := h.context.text;
    Text.NatToStringLacks(h.lowPort, ' ');
    Text.NatToStringLacks(h.highPort, ' ');
    assert ' ' !in ports;
    assert PortconText(pl, h).value == "portcon" + [' '] + name + [' '] + ports + [' '] + ctx;
    Text.SplitFirstThree("portcon", name, ports, ctx, ' ');
    PortsTextRoundTrip(Ports(h));
  }

  /**
   * Reads a three-field statement `<keyword> <a> <b> <rest>` back into its
   * fields; the last field runs to the end of the line.
   */
  function ParseThreeFields(keyword: string, s: string): Option<(string, string, string)> {
    match Text.SplitFirst(s, ' ')
    case None => None
    case Some(p1) =>
      if p1.0 != keyword then None
      else match Text.SplitFirst(p1.1, ' ')
        case None => None
        case Some(p2) =>
          match Text.SplitFirst(p2.1, ' ')
          case None => None
          case Some(p3) => Some((p2.0, p3.0, p3.1))
  }

  /** A rendered netifcon reads back as its interface name, interface context and packet context. */
  lemma NetifconTextRoundTrip(h: NetifconHandle)
    requires ' ' !in h.name && ' ' !in h.ifCon.text
    ensures ParseThreeFields("netifcon", NetifconText(h)) == Some((h.name, h.ifCon.text, h.msgCon.text))
  {
    assert NetifconText(h) == "netifcon" + [' '] + h.name + [' '] + h.ifCon.text + [' '] + h.msgCon.text;
    Text.SplitFirstThree("netifcon", h.name, h.ifCon.text, h.msgCon.text, ' ');
  }

  /** A rendered nodecon reads back as its address, netmask and context. */
  lemma NodeconTextRoundTrip(h: NodeconHandle)
    requires ' ' !in h.addr && ' ' !in h.mask
    ensures ParseThreeFields("nodecon", NodeconText(h)) == Some((h.addr, h.mask, h.context.text))
  {
    assert NodeconText(h) == "nodecon" + [' '] + h.addr + [' '] + h.mask + [' '] + h.context.text;
    Text.SplitFirstThree("nodecon", h.addr, h.mask, h.context.text, ' ');
  }

  // ---------------------------------------------------------------------------
  // Hash keys

  function NetifconKey(h: NetifconHandle): string {
    "netifcon|" + h.name
  }

  function NodeconKey(h: NodeconHandle): string {
    "nodecon|" + h.addr + "|" + h.mask
  }

  /** A portcon's hash key; hashing raises exactly when the protocol code does not decode. */
  function PortconKey(pl: Platform, h: PortconHandle): (r: Result<string, Error>)
    ensures r.Success? <==> ProtocolOf(pl, h).Success?
    ensures r.Failure? ==> r.error == ValueError(h.protocol)
  {
    match ProtocolOf(pl, h)
    case Failure(e) => Failure(e)
    case Success(p) =>
      Success("portcon|" + ProtocolName(p) + "|" + Text.NatToString(h.lowPort) + "|" + Text.NatToString(h.highPort))
  }

  /** Interfaces are keyed by their name and by nothing else. */
  lemma NetifconKeyIsName(a: NetifconHandle, b: NetifconHandle)
    ensures NetifconKey(a) == NetifconKey(b) <==> a.name == b.name
  {
    if NetifconKey(a) == NetifconKey(b) {
      assert a.name == NetifconKey(a)[9..];
    }
  }

  /** Reads a portcon hash key back into protocol text, low and high port. */
  function ParsePortconKey(k: string): Option<(string, nat, nat)> {
    match Text.SplitFirst(k, '|')
    case None => None
    case Some(p1) =>
      if p1.0 != "portcon" then None
      else match Text.SplitFirst(p1.1, '|')
        case None => None
        case Some(p2) =>
          match Text.SplitFirst(p2.1, '|')
          case None => None
          case Some(p3) =>
            match (Text.ParseNat(p3.0), Text.ParseNat(p3.1))
            case (Some(lo), Some(hi)) => Some((p2.0, lo, hi))
            case _ => None
  }

  lemma {:induction false} PortconKeyRoundTrip(pl: Platform, h: PortconHandle)
    requires ProtocolOf(pl, h).Success?
    ensures ParsePortconKey(PortconKey(pl, h).value) ==
      Some((ProtocolName(ProtocolOf(pl, h).value), h.lowPort, h.highPort))
  {
    var name := ProtocolName(ProtocolOf(pl, h).value);
    var lo, hi := Text.NatToString(h.lowPort), Text.NatToString(h.highPort);
    Text.NatToStringLacks(h.lowPort, '|');
    assert PortconKey(pl, h).value == "portcon" + ['|'] + name + ['|'] + lo + ['|'] + hi;
    Text.SplitFirstThree("portcon", name, lo, hi, '|');
    Text.ParseNatToString(h.lowPort);
    Text.ParseNatToString(h.highPort);
  }

  /** Two portcons share a hash key exactly when protocol, low and high port agree; the context plays no part. */
  lemma PortconKeyIdentifies(pl: Platform, a: PortconHandle, b: PortconHandle)
    requires ProtocolOf(pl, a).Success? && ProtocolOf(pl, b).Success?
    ensures PortconKey(pl, a) == PortconKey(pl, b) <==>
      ProtocolOf(pl, a) == ProtocolOf(pl, b) && Ports(a) == Ports(b)
  {
    if PortconKey(pl, a) == PortconKey(pl, b) {
      PortconKeyRoundTrip(pl, a);
      PortconKeyRoundTrip(pl, b);
      ProtocolNameInjective(ProtocolOf(pl, a).value, ProtocolOf(pl, b).value);
    }
  }

  // ---------------------------------------------------------------------------
  // Nodecon equality

  /** What a nodecon can be compared with: a statement of this module, or any other object, known by its string form. */
  datatype Comparand = Stmt(stmt: NetContext) | PlainObject(str: string)

  /**
   * Nodecon equality: field by field (address, netmask, context) when the other
   * side has those properties, otherwise the string forms are compared, and an
   * exception raised while rendering the other side propagates.
   */
  function NodeconEquals(pl: Platform, self: NodeconHandle, other: Comparand): (r: Result<bool, Error>)
    ensures r.Failure? <==> other.Stmt? && !other.stmt.Nodecon? && Render(pl, other.stmt).Failure?
    ensures r.Failure? ==> r.error == Render(pl, other.stmt).error
    ensures other.PlainObject? ==> r == Success(NodeconText(self) == other.str)
  {
    match other
    case Stmt(Nodecon(o)) => Success(self.addr == o.addr && self.mask == o.mask && self.context == o.context)
    case Stmt(nc) =>
      (match Render(pl, nc)
       case Failure(e) => Failure(e)
       case Success(t) => Success(NodeconText(self) == t))
    case PlainObject(t) => Success(NodeconText(self) == t)
  }

  lemma NodeconEqualsStructural(pl: Platform, a: NodeconHandle, b: NodeconHandle)
    ensures NodeconEquals(pl, a, Stmt(Nodecon(b))) ==
      Success(a.addr == b.addr && a.mask == b.mask && a.context == b.context)
  {
  }

  /** Equality does not depend on which handle backs a nodecon, only on its address, netmask and context. */
  lemma NodeconEqualsIgnoresHandle(pl: Platform, a: NodeconHandle, b: NodeconHandle, c: Comparand)
    requires a.addr == b.addr && a.mask == b.mask && a.context == b.context
    ensures NodeconEquals(pl, a, c) == NodeconEquals(pl, b, c)
    ensures NodeconEquals(pl, a, Stmt(Nodecon(b))) == Success(true)
  {
  }

  /** Structurally equal nodecons have the same hash key. */
  lemma NodeconKeyConsistent(pl: Platform, a: NodeconHandle, b: NodeconHandle)
    requires NodeconEquals(pl, a, Stmt(Nodecon(b))) == Success(true)
    ensures NodeconKey(a) == NodeconKey(b)
  {
  }

  /** The nodecon hash key is built from address and netmask alone: contexts play no part. */
  lemma NodeconKeyIgnoresContext(a: NodeconHandle, b: NodeconHandle)
    requires a.addr == b.addr && a.mask == b.mask
    ensures NodeconKey(a) == NodeconKey(b)
  {
  }

  /** Without the needed properties on the other side, the comparison is by string form. */
  lemma NodeconEqualsFallback(pl: Platform, a: NodeconHandle, nc: NetContext)
    requires !nc.Nodecon?
    ensures Render(pl, nc).Failure? ==> NodeconEquals(pl, a, Stmt(nc)) == Failure(Render(pl, nc).error)
    ensures Render(pl, nc).Success? ==>
      NodeconEquals(pl, a, Stmt(nc)) == Success(NodeconText(a) == Render(pl, nc).value)
  {
  }

  /**
   * For addresses and netmasks without spaces, comparing the string forms of two
   * nodecons agrees with comparing them field by field: both tiers of the
   * equality give the same answer.
   */
  lemma {:induction false} NodeconTextAgrees(a: NodeconHandle, b: NodeconHandle)
    requires ' ' !in a.addr && ' ' !in a.mask && ' ' !in b.addr && ' ' !in b.mask
    ensures NodeconText(a) == NodeconText(b) <==>
      a.addr == b.addr && a.mask == b.mask && a.context == b.context
  {
    if NodeconText(a) == NodeconText(b) {
      NodeconTextRoundTrip(a);
      NodeconTextRoundTrip(b);
    }
  }
}
