/** The mutual handshake: hello, tag and acknowledgement, then a challenge and a proof in each direction. */
module Handshake {
  import Router = RemoteRouter

  type Byte = n: nat | n < 0x100
  type Bytes = seq<Byte>
  type SigningKey = nat

  const AUTH_DOMAIN: Bytes :=
    [0x76, 0x6f, 0x63, 0x61, 0x6c, 0x2d, 0x63, 0x61, 0x6c, 0x63, 0x75, 0x6c, 0x61, 0x74, 0x6f, 0x72,
     0x2d, 0x61, 0x75, 0x74, 0x68, 0x2d, 0x76, 0x35]
  const CLIENT_ROLE: Bytes := [0x63, 0x6c, 0x69, 0x65, 0x6e, 0x74]
  const SERVER_ROLE: Bytes := [0x73, 0x65, 0x72, 0x76, 0x65, 0x72]
  const PROTOCOL_VERSION := 5
  const APP_ID := "vocal_calculator"
  const MAX_DISPLAY_NAME_BYTES := 64

  /** The identity a peer claims and, at the end, has proved. */
  datatype Identity = Identity(id: Bytes, name: string, key: Bytes)

  datatype Frame =
    | Hello(who: Identity, version: nat, app: string)
    | HelloAck(who: Identity, version: nat, app: string)
    | Raw(bytes: Bytes)
    | AuthChallenge(nonce: Bytes)
    | AuthProof(signature: Bytes)

  /** The cryptographic library and the wire encoding, as functions. */
  datatype Crypto = Crypto(
    encode: Frame -> Bytes,
    mac: Bytes -> Bytes,
    publicOf: SigningKey -> Bytes,
    sign: (SigningKey, Bytes) -> Bytes,
    verify: (Bytes, Bytes, Bytes) -> bool,
    wellFormedKey: Bytes -> bool,
    deriveId: Bytes -> Bytes)

  /** A signature made with a key verifies under its public half, and a tag has 32 bytes. */
  ghost predicate Correct(cr: Crypto) {
    && (forall sk, m :: cr.verify(cr.publicOf(sk), m, cr.sign(sk, m)))
    && (forall m :: |cr.mac(m)| == 32)
  }

  predicate IsSpace(c: char) {
    var u := c as int;
    9 <= u <= 13 || u == 0x20 || u == 0x85 || u == 0xa0 || u == 0x1680 || 0x2000 <= u <= 0x200a
    || u == 0x2028 || u == 0x2029 || u == 0x202f || u == 0x205f || u == 0x3000
  }

  predicate ValidName(name: string) {
    && (exists i | 0 <= i < |name| :: !IsSpace(name[i]))
    && Router.Utf8Len(name) <= MAX_DISPLAY_NAME_BYTES && Router.NoControl(name)
  }

  predicate VerifiedIdentity(cr: Crypto, who: Identity) {
    who.key != seq(32, _ => 0) && cr.wellFormedKey(who.key) && cr.deriveId(who.key) == who.id
  }

  predicate AcceptableHello(cr: Crypto, who: Identity, version: nat, app: string) {
    ValidName(who.name) && app == APP_ID && version == PROTOCOL_VERSION && VerifiedIdentity(cr, who)
  }

  function AuthPayload(role: Bytes, nonce: Bytes, signer: Identity, verifier: Identity): Bytes {
    AUTH_DOMAIN + role + nonce + signer.id + signer.key + verifier.id + verifier.key
  }

  /** Equal payloads mean the same role, nonce and pair of identities: no field can borrow bytes from its neighbour. */
  lemma AuthPayloadInjective(r1: Bytes, n1: Bytes, s1: Identity, v1: Identity,
                             r2: Bytes, n2: Bytes, s2: Identity, v2: Identity)
    requires r1 in {CLIENT_ROLE, SERVER_ROLE} && r2 in {CLIENT_ROLE, SERVER_ROLE} && |n1| == |n2| == 32
    requires |s1.id| == |s2.id| == |v1.id| == |v2.id| == 16 && |s1.key| == |s2.key| == |v1.key| == |v2.key| == 32
    requires AuthPayload(r1, n1, s1, v1) == AuthPayload(r2, n2, s2, v2)
    ensures r1 == r2 && n1 == n2 && s1.id == s2.id && s1.key == s2.key && v1.id == v2.id && v1.key == v2.key
  {
    var a1, a2 := AUTH_DOMAIN + r1, AUTH_DOMAIN + r2;
    var b1, b2 := a1 + n1, a2 + n2;
    var c1, c2 := b1 + s1.id, b2 + s2.id;
    var d1, d2 := c1 + s1.key, c2 + s2.key;
    var e1, e2 := d1 + v1.id, d2 + v2.id;
    Peel(e1, v1.key, e2, v2.key);
    Peel(d1, v1.id, d2, v2.id);
    Peel(c1, s1.key, c2, s2.key);
    Peel(b1, s1.id, b2, s2.id);
    Peel(a1, n1, a2, n2);
    Peel(AUTH_DOMAIN, r1, AUTH_DOMAIN, r2);
  }

  lemma Peel(a: Bytes, x: Bytes, b: Bytes, y: Bytes)
    requires a + x == b + y && |x| == |y|
    ensures a == b && x == y
  {
    var whole := a + x;
    assert whole[..|a|] == a && whole[|a|..] == x && whole[..|b|] == b && whole[|b|..] == y;
  }

  // ---------- the two sequential programs ----------

  datatype Party = Party(self: Identity, signing: SigningKey)

  datatype Client =
    | SendHello | SendTag | AwaitAck
    | AwaitChallenge(remote: Identity) | SendChallenge(remote: Identity) | AwaitProof(remote: Identity)
    | Done(remote: Identity) | Failed

  datatype Server =
    | AwaitHello | AwaitTag(remote: Identity, raw: Bytes) | SendAck(remote: Identity)
    | SendChallenge(remote: Identity) | AwaitProof(remote: Identity) | AwaitChallenge(remote: Identity)
    | Done(remote: Identity) | Failed

  /** Both parties, the nonce each will draw, and the cryptography they share. */
  datatype Setup = Setup(cr: Crypto, client: Party, server: Party, clientNonce: Bytes, serverNonce: Bytes)

  datatype World = World(
    client: Client,
    server: Server,
    toServer: seq<Frame>,
    toClient: seq<Frame>,
    clientSigned: seq<Bytes>,
    serverChecked: seq<Bytes>,
    serverSigned: seq<Bytes>,
    clientChecked: seq<Bytes>)

  ghost function HelloOf(p: Party): Frame {
    Hello(p.self, PROTOCOL_VERSION, APP_ID)
  }

  ghost predicate ClientReady(w: World) {
    match w.client
    case SendHello => true
    case SendTag => true
    case SendChallenge(_) => true
    case Done(_) => false
    case Failed => false
    case _ => w.toClient != []
  }

  ghost predicate ServerReady(w: World) {
    match w.server
    case SendAck(_) => true
    case SendChallenge(_) => true
    case Done(_) => false
    case Failed => false
    case _ => w.toServer != []
  }

  /** The client's next action, exactly as its program takes it. */
  ghost function ClientStep(u: Setup, w: World): World
    requires ClientReady(w)
  {
    var me := u.client;
    match w.client
    case SendHello =>
      if !ValidName(me.self.name) then w.(client := Client.Failed)
      else w.(client := SendTag, toServer := w.toServer + [HelloOf(me)])
    case SendTag => w.(client := AwaitAck, toServer := w.toServer + [Raw(u.cr.mac(u.cr.encode(HelloOf(me))))])
    case AwaitAck =>
      var f, rest := w.toClient[0], w.(toClient := w.toClient[1..]);
      if f.HelloAck? && AcceptableHello(u.cr, f.who, f.version, f.app)
      then rest.(client := Client.AwaitChallenge(f.who)) else rest.(client := Client.Failed)
    case AwaitChallenge(remote) =>
      var f, rest := w.toClient[0], w.(toClient := w.toClient[1..]);
      if !f.AuthChallenge? then rest.(client := Client.Failed)
      else
        var payload := AuthPayload(CLIENT_ROLE, f.nonce, me.self, remote);
        rest.(client := Client.SendChallenge(remote),
              toServer := w.toServer + [AuthProof(u.cr.sign(me.signing, payload))],
              clientSigned := w.clientSigned + [payload])
    case SendChallenge(remote) =>
      w.(client := Client.AwaitProof(remote), toServer := w.toServer + [AuthChallenge(u.clientNonce)])
    case AwaitProof(remote) =>
      var f, rest := w.toClient[0], w.(toClient := w.toClient[1..]);
      var payload := AuthPayload(SERVER_ROLE, u.clientNonce, remote, me.self);
      if f.AuthProof? && u.cr.verify(remote.key, payload, f.signature)
      then rest.(client := Client.Done(remote), clientChecked := w.clientChecked + [payload])
      else rest.(client := Client.Failed)
  }

  /** The server's next action, exactly as its program takes it. */
  ghost function ServerStep(u: Setup, w: World): World
    requires ServerReady(w)
  {
    var me := u.server;
    match w.server
    case AwaitHello =>
      var f, rest := w.toServer[0], w.(toServer := w.toServer[1..]);
      if ValidName(me.self.name) && f.Hello? && ValidName(f.who.name) && f.app == APP_ID
         && f.version != PROTOCOL_VERSION
      then rest.(server := Server.Failed, toClient := w.toClient + [HelloAck(me.self, 0, APP_ID)])
      else if ValidName(me.self.name) && f.Hello? && AcceptableHello(u.cr, f.who, f.version, f.app)
      then rest.(server := AwaitTag(f.who, u.cr.encode(f))) else rest.(server := Server.Failed)
    case AwaitTag(remote, raw) =>
      var f, rest := w.toServer[0], w.(toServer := w.toServer[1..]);
      if f.Raw? && |f.bytes| == 32 && f.bytes == u.cr.mac(raw) then rest.(server := SendAck(remote))
      else rest.(server := Server.Failed)
    case SendAck(remote) =>
      w.(server := Server.SendChallenge(remote), toClient := w.toClient + [HelloAck(me.self, PROTOCOL_VERSION, APP_ID)])
    case SendChallenge(remote) =>
      w.(server := Server.AwaitProof(remote), toClient := w.toClient + [AuthChallenge(u.serverNonce)])
    case AwaitProof(remote) =>
      var f, rest := w.toServer[0], w.(toServer := w.toServer[1..]);
      var payload := AuthPayload(CLIENT_ROLE, u.serverNonce, remote, me.self);
      if f.AuthProof? && u.cr.verify(remote.key, payload, f.signature)
      then rest.(server := Server.AwaitChallenge(remote), serverChecked := w.serverChecked + [payload])
      else rest.(server := Server.Failed)
    case AwaitChallenge(remote) =>
      var f, rest := w.toServer[0], w.(toServer := w.toServer[1..]);
      if !f.AuthChallenge? then rest.(server := Server.Failed)
      else
        var payload := AuthPayload(SERVER_ROLE, f.nonce, me.self, remote);
        rest.(server := Server.Done(remote), toClient := w.toClient + [AuthProof(u.cr.sign(me.signing, payload))],
              serverSigned := w.serverSigned + [payload])
  }

  const START := World(SendHello, AwaitHello, [], [], [], [], [], [])

  ghost predicate Honest(cr: Crypto, p: Party) {
    && |p.self.id| == 16 && |p.self.key| == 32 && ValidName(p.self.name) && VerifiedIdentity(cr, p.self)
    && p.self.key == cr.publicOf(p.signing)
  }

  ghost predicate HonestSetup(u: Setup) {
    Correct(u.cr) && Honest(u.cr, u.client) && Honest(u.cr, u.server) && |u.clientNonce| == |u.serverNonce| == 32
  }

  // ---------- the product of the two programs ----------

  ghost function ClientProved(u: Setup): Bytes {
    AuthPayload(CLIENT_ROLE, u.serverNonce, u.client.self, u.server.self)
  }

  ghost function ServerProved(u: Setup): Bytes {
    AuthPayload(SERVER_ROLE, u.clientNonce, u.server.self, u.client.self)
  }

  ghost function ClientScript(u: Setup): (s: seq<Frame>)
    ensures |s| == 4
  {
    [HelloOf(u.client), Raw(u.cr.mac(u.cr.encode(HelloOf(u.client)))),
     AuthProof(u.cr.sign(u.client.signing, ClientProved(u))), AuthChallenge(u.clientNonce)]
  }

  ghost function ServerScript(u: Setup): (s: seq<Frame>)
    ensures |s| == 3
  {
    [HelloAck(u.server.self, PROTOCOL_VERSION, APP_ID), AuthChallenge(u.serverNonce),
     AuthProof(u.cr.sign(u.server.signing, ServerProved(u)))]
  }

  /** How many actions each program has taken, and how many frames it has sent and received by then. */
  ghost function ClientAt(c: Client): nat {
    match c
    case SendHello => 0 case SendTag => 1 case AwaitAck => 2 case AwaitChallenge(_) => 3
    case SendChallenge(_) => 4 case AwaitProof(_) => 5 case Done(_) => 6 case Failed => 7
  }

  ghost function ServerAt(s: Server): nat {
    match s
    case AwaitHello => 0 case AwaitTag(_, _) => 1 case SendAck(_) => 2 case SendChallenge(_) => 3
    case AwaitProof(_) => 4 case AwaitChallenge(_) => 5 case Done(_) => 6 case Failed => 7
  }

  ghost function ClientSent(n: nat): nat {
    if n <= 2 then n else if n == 3 then 2 else if n == 4 then 3 else 4
  }

  ghost function ClientGot(n: nat): nat {
    if n <= 2 then 0 else if n == 3 then 1 else if n <= 5 then 2 else 3
  }

  ghost function ServerSent(n: nat): nat {
    if n <= 2 then 0 else if n == 3 then 1 else if n <= 5 then 2 else 3
  }

  ghost function ServerGot(n: nat): nat {
    if n <= 2 then n else if n <= 4 then 2 else if n == 5 then 3 else 4
  }

  ghost predicate ClientInv(u: Setup, w: World) {
    var n := ClientAt(w.client);
    && n <= 6 && (n >= 3 ==> w.client.remote == u.server.self)
    && w.clientSigned == (if n >= 4 then [ClientProved(u)] else [])
    && w.clientChecked == (if n == 6 then [ServerProved(u)] else [])
  }

  ghost predicate ServerInv(u: Setup, w: World) {
    var n := ServerAt(w.server);
    && n <= 6 && (n >= 1 ==> w.server.remote == u.client.self)
    && (n == 1 ==> w.server.raw == u.cr.encode(HelloOf(u.client)))
    && w.serverChecked == (if n >= 5 then [ClientProved(u)] else [])
    && w.serverSigned == (if n == 6 then [ServerProved(u)] else [])
  }

  ghost predicate ChannelInv(u: Setup, w: World) {
    var c, s := ClientAt(w.client), ServerAt(w.server);
    && ServerGot(s) <= ClientSent(c) && ClientGot(c) <= ServerSent(s)
    && w.toServer == ClientScript(u)[ServerGot(s)..ClientSent(c)]
    && w.toClient == ServerScript(u)[ClientGot(c)..ServerSent(s)]
  }

  ghost predicate Inv(u: Setup, w: World) {
    ClientInv(u, w) && ServerInv(u, w) && ChannelInv(u, w)
  }

  lemma ScriptSlice(script: seq<Frame>, lo: nat, hi: nat)
    requires lo <= hi <= |script|
    ensures lo < hi ==> script[lo..hi][0] == script[lo] && script[lo..hi][1..] == script[lo + 1..hi]
    ensures hi < |script| ==> script[lo..hi] + [script[hi]] == script[lo..hi + 1]
  {
  }

  /** One turn of the client: it takes the next frame, or appends the next of its script, or both. */
  lemma ClientEffect(u: Setup, w: World)
    requires HonestSetup(u) && ClientInv(u, w) && ClientReady(w)
    requires var n := ClientGot(ClientAt(w.client)); w.toClient != [] ==> n < 3 && w.toClient[0] == ServerScript(u)[n]
    ensures var n, v := ClientAt(w.client), ClientStep(u, w);
            && n < 6 && ClientAt(v.client) == n + 1 && ClientInv(u, v)
            && v == w.(client := v.client, clientSigned := v.clientSigned, clientChecked := v.clientChecked,
                       toClient := if ClientGot(n + 1) > ClientGot(n) then w.toClient[1..] else w.toClient,
                       toServer := if ClientSent(n + 1) > ClientSent(n)
                                   then w.toServer + [ClientScript(u)[ClientSent(n)]] else w.toServer)
            && (ClientGot(n + 1) > ClientGot(n) ==> w.toClient != [])
  {
    hide AuthPayload, ValidName, VerifiedIdentity, HonestSetup, AcceptableHello;
    HonestFacts(u);
  }

  lemma ServerEffect(u: Setup, w: World)
    requires HonestSetup(u) && ServerInv(u, w) && ServerReady(w)
    requires var n := ServerGot(ServerAt(w.server)); w.toServer != [] ==> n < 4 && w.toServer[0] == ClientScript(u)[n]
    ensures var n, v := ServerAt(w.server), ServerStep(u, w);
            && n < 6 && ServerAt(v.server) == n + 1 && ServerInv(u, v)
            && v == w.(server := v.server, serverSigned := v.serverSigned, serverChecked := v.serverChecked,
                       toServer := if ServerGot(n + 1) > ServerGot(n) then w.toServer[1..] else w.toServer,
                       toClient := if ServerSent(n + 1) > ServerSent(n)
                                   then w.toClient + [ServerScript(u)[ServerSent(n)]] else w.toClient)
            && (ServerGot(n + 1) > ServerGot(n) ==> w.toServer != [])
  {
    hide AuthPayload, ValidName, VerifiedIdentity, HonestSetup, AcceptableHello;
    HonestFacts(u);
  }

  lemma ClientKeeps(u: Setup, w: World)
    requires HonestSetup(u) && Inv(u, w) && ClientReady(w)
    ensures Inv(u, ClientStep(u, w)) && ClientAt(ClientStep(u, w).client) == ClientAt(w.client) + 1
  {
    hide ClientStep, ClientScript, ServerScript, HonestSetup, ClientReady, AuthPayload, ClientInv, ClientProved,
         ServerProved;
    ScriptSlice(ClientScript(u), ServerGot(ServerAt(w.server)), ClientSent(ClientAt(w.client)));
    ScriptSlice(ServerScript(u), ClientGot(ClientAt(w.client)), ServerSent(ServerAt(w.server)));
    ClientEffect(u, w);
  }

  lemma ServerKeeps(u: Setup, w: World)
    requires HonestSetup(u) && Inv(u, w) && ServerReady(w)
    ensures Inv(u, ServerStep(u, w)) && ServerAt(ServerStep(u, w).server) == ServerAt(w.server) + 1
  {
    hide ServerStep, ClientScript, ServerScript, HonestSetup, ServerReady, AuthPayload, ServerInv, ClientProved,
         ServerProved;
    ScriptSlice(ClientScript(u), ServerGot(ServerAt(w.server)), ClientSent(ClientAt(w.client)));
    ScriptSlice(ServerScript(u), ClientGot(ClientAt(w.client)), ServerSent(ServerAt(w.server)));
    ServerEffect(u, w);
  }

  lemma HonestFacts(u: Setup)
    requires HonestSetup(u)
    ensures AcceptableHello(u.cr, u.client.self, PROTOCOL_VERSION, APP_ID)
            && AcceptableHello(u.cr, u.server.self, PROTOCOL_VERSION, APP_ID)
    ensures u.cr.verify(u.client.self.key, ClientProved(u), u.cr.sign(u.client.signing, ClientProved(u)))
    ensures u.cr.verify(u.server.self.key, ServerProved(u), u.cr.sign(u.server.signing, ServerProved(u)))
    ensures |u.cr.mac(u.cr.encode(HelloOf(u.client)))| == 32 && ValidName(u.client.self.name)
            && ValidName(u.server.self.name)
  {
    hide AuthPayload, ValidName, VerifiedIdentity;
  }

  // ---------- every schedule ----------

  /** A schedule says whose turn it is; a turn that finds its program waiting is not a turn. */
  ghost predicate Legal(u: Setup, w: World, turns: seq<bool>)
    decreases |turns|
  {
    turns == [] ||
    (if turns[0] then ClientReady(w) && Legal(u, ClientStep(u, w), turns[1..])
     else ServerReady(w) && Legal(u, ServerStep(u, w), turns[1..]))
  }

  ghost function Run(u: Setup, w: World, turns: seq<bool>): World
    requires Legal(u, w, turns)
    decreases |turns|
  {
    if turns == [] then w
    else if turns[0] then Run(u, ClientStep(u, w), turns[1..])
    else Run(u, ServerStep(u, w), turns[1..])
  }

  lemma {:induction false} InvAlways(u: Setup, w: World, turns: seq<bool>)
    requires HonestSetup(u) && Inv(u, w) && Legal(u, w, turns)
    ensures var v := Run(u, w, turns);
            Inv(u, v) && ClientAt(v.client) + ServerAt(v.server) == ClientAt(w.client) + ServerAt(w.server) + |turns|
    decreases |turns|
  {
    hide Inv, HonestSetup, ClientAt, ServerAt;
    if turns != [] {
      if turns[0] {
        ClientKeeps(u, w);
        ServerUnmoved(u, w);
        InvAlways(u, ClientStep(u, w), turns[1..]);
      } else {
        ServerKeeps(u, w);
        ClientUnmoved(u, w);
        InvAlways(u, ServerStep(u, w), turns[1..]);
      }
    }
  }

  lemma ServerUnmoved(u: Setup, w: World)
    requires ClientReady(w)
    ensures ClientStep(u, w).server == w.server
  {
  }

  lemma ClientUnmoved(u: Setup, w: World)
    requires ServerReady(w)
    ensures ServerStep(u, w).client == w.client
  {
  }

  /** In no reachable state do both sides wait; whoever is not done can be served. */
  lemma NeverBothWait(u: Setup, w: World)
    requires Inv(u, w)
    ensures ClientReady(w) || ServerReady(w) || (w.client.Done? && w.server.Done?)
  {
    var c, s := ClientAt(w.client), ServerAt(w.server);
    assert |w.toServer| == ClientSent(c) - ServerGot(s) && |w.toClient| == ServerSent(s) - ClientGot(c);
  }

  /**
    Honest parties over any schedule: neither program fails, they are never both waiting, after twelve turns
    each holds the other's identity, and every payload that was signed is byte for byte the one checked.
   */
  lemma HandshakeCompletes(u: Setup, turns: seq<bool>)
    requires HonestSetup(u) && Legal(u, START, turns)
    ensures |turns| <= 12
    ensures var w := Run(u, START, turns);
            && !w.client.Failed? && !w.server.Failed?
            && (ClientReady(w) || ServerReady(w) || |turns| == 12)
            && (|turns| == 12 ==>
                  && w.client == Client.Done(u.server.self) && w.server == Server.Done(u.client.self)
                  && |w.clientSigned| == |w.serverSigned| == 1
                  && w.serverChecked == w.clientSigned && w.clientChecked == w.serverSigned)
            && w.serverChecked <= w.clientSigned && w.clientChecked <= w.serverSigned
  {
    hide AuthPayload, ClientScript, ServerScript;
    StartInv(u);
    InvAlways(u, START, turns);
    NeverBothWait(u, Run(u, START, turns));
    CheckedWasSigned(u, Run(u, START, turns));
  }

  lemma CheckedWasSigned(u: Setup, w: World)
    requires Inv(u, w)
    ensures w.serverChecked <= w.clientSigned && w.clientChecked <= w.serverSigned
  {
    hide AuthPayload, ClientScript, ServerScript;
  }

  lemma StartInv(u: Setup)
    ensures Inv(u, START)
  {
  }

  // ---------- any other party at the far end ----------

  /** One of the frames proves, over this very payload, possession of the key. */
  ghost predicate Proves(cr: Crypto, frames: seq<Frame>, key: Bytes, payload: Bytes) {
    exists i | 0 <= i < |frames| :: frames[i].AuthProof? && cr.verify(key, payload, frames[i].signature)
  }

  ghost predicate Unread(rest: seq<Frame>, frames: seq<Frame>) {
    |rest| <= |frames| && rest == frames[|frames| - |rest|..]
  }

  /** The server left alone with whatever frames its peer chooses to send. */
  ghost function ServerAlone(u: Setup, w: World): World
    decreases 7 - ServerAt(w.server)
  {
    if ServerReady(w) && ServerAt(ServerStep(u, w).server) > ServerAt(w.server)
    then ServerAlone(u, ServerStep(u, w)) else w
  }

  ghost function ClientAlone(u: Setup, w: World): World
    decreases 7 - ClientAt(w.client)
  {
    if ClientReady(w) && ClientAt(ClientStep(u, w).client) > ClientAt(w.client)
    then ClientAlone(u, ClientStep(u, w)) else w
  }

  ghost predicate ServerGuard(u: Setup, frames: seq<Frame>, w: World) {
    var n := ServerAt(w.server);
    && Unread(w.toServer, frames)
    && (1 <= n <= 6 ==> AcceptableHello(u.cr, w.server.remote, PROTOCOL_VERSION, APP_ID))
    && (5 <= n <= 6 ==>
          Proves(u.cr, frames, w.server.remote.key,
                 AuthPayload(CLIENT_ROLE, u.serverNonce, w.server.remote, u.server.self)))
  }

  ghost predicate ClientGuard(u: Setup, frames: seq<Frame>, w: World) {
    var n := ClientAt(w.client);
    && Unread(w.toClient, frames)
    && (3 <= n <= 6 ==> AcceptableHello(u.cr, w.client.remote, PROTOCOL_VERSION, APP_ID))
    && (n == 6 ==>
          Proves(u.cr, frames, w.client.remote.key,
                 AuthPayload(SERVER_ROLE, u.clientNonce, w.client.remote, u.client.self)))
  }

  lemma NextFrame(rest: seq<Frame>, frames: seq<Frame>)
    requires rest != [] && Unread(rest, frames)
    ensures Unread(rest[1..], frames) && exists i | 0 <= i < |frames| :: frames[i] == rest[0]
  {
    assert frames[|frames| - |rest|] == rest[0];
  }

  lemma ServerGuardStep(u: Setup, frames: seq<Frame>, w: World)
    requires ServerGuard(u, frames, w) && ServerReady(w)
    ensures ServerGuard(u, frames, ServerStep(u, w)) && ServerAt(ServerStep(u, w).server) > ServerAt(w.server)
  {
    hide AuthPayload, ValidName, VerifiedIdentity, Unread;
    if w.toServer != [] {
      NextFrame(w.toServer, frames);
    }
  }

  lemma ClientGuardStep(u: Setup, frames: seq<Frame>, w: World)
    requires ClientGuard(u, frames, w) && ClientReady(w)
    ensures ClientGuard(u, frames, ClientStep(u, w)) && ClientAt(ClientStep(u, w).client) > ClientAt(w.client)
  {
    hide AuthPayload, ValidName, VerifiedIdentity, Unread;
    if w.toClient != [] {
      NextFrame(w.toClient, frames);
    }
  }

  lemma {:induction false} ServerGuarded(u: Setup, frames: seq<Frame>, w: World)
    requires ServerGuard(u, frames, w)
    ensures ServerGuard(u, frames, ServerAlone(u, w))
    decreases 7 - ServerAt(w.server)
  {
    hide ServerGuard, ServerStep, ServerReady;
    if ServerReady(w) {
      ServerGuardStep(u, frames, w);
      ServerGuarded(u, frames, ServerStep(u, w));
    }
  }

  lemma {:induction false} ClientGuarded(u: Setup, frames: seq<Frame>, w: World)
    requires ClientGuard(u, frames, w)
    ensures ClientGuard(u, frames, ClientAlone(u, w))
    decreases 7 - ClientAt(w.client)
  {
    hide ClientGuard, ClientStep, ClientReady;
    if ClientReady(w) {
      ClientGuardStep(u, frames, w);
      ClientGuarded(u, frames, ClientStep(u, w));
    }
  }

  /**
    Whatever frames arrive, a handshake returns a remote identity only when its id is derived from its key and
    one of those frames is a signature under that key over this side's own nonce, the peer's role and both identities.
   */
  lemma NoAdmissionWithoutProof(u: Setup, frames: seq<Frame>)
    ensures var s := ServerAlone(u, START.(toServer := frames)).server;
            s.Done? ==> VerifiedIdentity(u.cr, s.remote)
                        && Proves(u.cr, frames, s.remote.key,
                                  AuthPayload(CLIENT_ROLE, u.serverNonce, s.remote, u.server.self))
    ensures var c := ClientAlone(u, START.(toClient := frames)).client;
            c.Done? ==> VerifiedIdentity(u.cr, c.remote)
                        && Proves(u.cr, frames, c.remote.key,
                                  AuthPayload(SERVER_ROLE, u.clientNonce, c.remote, u.client.self))
  {
    hide AuthPayload, ValidName, VerifiedIdentity, ServerAlone, ClientAlone, Proves;
    ServerGuarded(u, frames, START.(toServer := frames));
    ClientGuarded(u, frames, START.(toClient := frames));
  }

  // ---------- exactly what is admitted ----------

  function Ascii(s: string): Bytes
    requires forall i | 0 <= i < |s| :: s[i] as int < 0x80
  {
    seq(|s|, i requires 0 <= i < |s| => s[i] as int)
  }

  /** The signed bytes, spelt out. */
  lemma PayloadLayout(nonce: Bytes, signer: Identity, verifier: Identity)
    ensures var rest := nonce + signer.id + signer.key + verifier.id + verifier.key;
            && AuthPayload(CLIENT_ROLE, nonce, signer, verifier) == Ascii("vocal-calculator-auth-v5client") + rest
            && AuthPayload(SERVER_ROLE, nonce, signer, verifier) == Ascii("vocal-calculator-auth-v5server") + rest
  {
    assert AUTH_DOMAIN + CLIENT_ROLE == Ascii("vocal-calculator-auth-v5client");
    assert AUTH_DOMAIN + SERVER_ROLE == Ascii("vocal-calculator-auth-v5server");
    FiveMore(AUTH_DOMAIN + CLIENT_ROLE, nonce, signer.id, signer.key, verifier.id, verifier.key);
    FiveMore(AUTH_DOMAIN + SERVER_ROLE, nonce, signer.id, signer.key, verifier.id, verifier.key);
  }

  lemma FiveMore(h: Bytes, a: Bytes, b: Bytes, c: Bytes, d: Bytes, e: Bytes)
    ensures h + a + b + c + d + e == h + (a + b + c + d + e)
  {
    assert h + (a + b + c + d + e) == h + (a + b + c + d) + e;
    assert h + (a + b + c + d) == h + (a + b + c) + d;
    assert h + (a + b + c) == h + (a + b) + c;
    assert h + (a + b) == h + a + b;
  }

  /** The identity a peer must claim: a valid name, a well-formed key that is not all zeros, and the id of that key. */
  ghost predicate GoodIdentity(cr: Crypto, who: Identity) {
    && ValidName(who.name) && who.key != seq(32, _ => 0) && cr.wellFormedKey(who.key) && who.id == cr.deriveId(who.key)
  }

  lemma GoodIsAcceptable(cr: Crypto, who: Identity, version: nat, app: string)
    ensures AcceptableHello(cr, who, version, app) <==>
            GoodIdentity(cr, who) && version == 5 && app == "vocal_calculator"
  {
    hide ValidName;
  }

  /** A valid name has something to see, at most 64 bytes, and no control characters. */
  lemma ValidNameIs(name: string)
    ensures ValidName(name) <==>
            && (exists i | 0 <= i < |name| :: !IsSpace(name[i]))
            && Router.ByteCount(name) <= 64 && Router.ControlFree(name)
  {
    Router.Utf8LenIsByteCount(name);
    assert Router.NoControl(name) <==> Router.ControlFree(name);
  }

  lemma ServerFinishes(u: Setup, w: World, x: Identity)
    requires w.server.AwaitChallenge?
    ensures var f, end := w.toServer, ServerAlone(u, w);
            && (end.server == Server.Done(x) <==> x == w.server.remote && f != [] && f[0].AuthChallenge?)
            && (x == w.server.remote && f != [] && f[0].AuthChallenge? ==>
                  var payload := AuthPayload(SERVER_ROLE, f[0].nonce, u.server.self, x);
                  end.toClient == w.toClient + [AuthProof(u.cr.sign(u.server.signing, payload))])
  {
    hide AuthPayload;
    if ServerReady(w) {
      var v := ServerStep(u, w);
      assert !ServerReady(v);
      assert ServerAlone(u, v) == v;
    }
  }

  /** What the server asks of the frames after the tag. */
  ghost predicate ProofAndChallenge(u: Setup, f: seq<Frame>, x: Identity) {
    && |f| >= 2 && f[0].AuthProof? && f[1].AuthChallenge?
    && u.cr.verify(x.key, AuthPayload(CLIENT_ROLE, u.serverNonce, x, u.server.self), f[0].signature)
  }

  lemma ServerVerifies(u: Setup, w: World, x: Identity)
    requires w.server.AwaitProof?
    ensures ServerAlone(u, w).server == Server.Done(x) <==> x == w.server.remote && ProofAndChallenge(u, w.toServer, x)
  {
    hide AuthPayload, ValidName;
    if ServerReady(w) {
      var v := ServerStep(u, w);
      if v.server.AwaitChallenge? {
        ServerFinishes(u, v, x);
      } else {
        assert ServerAlone(u, v) == v;
      }
    }
  }

  lemma ServerAnswers(u: Setup, w: World, x: Identity)
    requires w.server.SendAck?
    ensures ServerAlone(u, w).server == Server.Done(x) <==> x == w.server.remote && ProofAndChallenge(u, w.toServer, x)
  {
    hide AuthPayload, ProofAndChallenge;
    var v := ServerStep(u, w);
    var z := ServerStep(u, v);
    assert ServerAlone(u, w) == ServerAlone(u, v) == ServerAlone(u, z);
    ServerVerifies(u, z, x);
  }

  lemma ServerChecksTag(u: Setup, w: World, x: Identity)
    requires w.server.AwaitTag?
    ensures var f, tag := w.toServer, u.cr.mac(w.server.raw);
            ServerAlone(u, w).server == Server.Done(x) <==>
              x == w.server.remote && f != [] && |tag| == 32 && f[0] == Raw(tag) && ProofAndChallenge(u, f[1..], x)
  {
    hide AuthPayload, ProofAndChallenge;
    if ServerReady(w) {
      var v := ServerStep(u, w);
      if v.server.SendAck? {
        ServerAnswers(u, v, x);
      } else {
        assert ServerAlone(u, v) == v;
      }
    }
  }

  /**
    A server admits exactly this: the peer's Hello with this version and application and a good identity, the tag of
    that very Hello, a signature under the claimed key over the server's own nonce, the client role and both
    identities, and a challenge in return.
   */
  lemma ServerAdmitsIff(u: Setup, frames: seq<Frame>, x: Identity)
    ensures ServerAlone(u, START.(toServer := frames)).server == Server.Done(x) <==>
            && ValidName(u.server.self.name) && GoodIdentity(u.cr, x)
            && |frames| >= 2 && frames[0] == Hello(x, 5, "vocal_calculator")
            && |u.cr.mac(u.cr.encode(frames[0]))| == 32 && frames[1] == Raw(u.cr.mac(u.cr.encode(frames[0])))
            && ProofAndChallenge(u, frames[2..], x)
  {
    hide AuthPayload, ProofAndChallenge, ValidName, AcceptableHello, GoodIdentity;
    var w := START.(toServer := frames);
    if ServerReady(w) {
      var f := frames[0];
      if f.Hello? {
        GoodIsAcceptable(u.cr, f.who, f.version, f.app);
      }
      var v := ServerStep(u, w);
      assert |frames| >= 2 ==> frames[1..][1..] == frames[2..];
      if v.server.AwaitTag? {
        ServerChecksTag(u, v, x);
        assert frames[1..] != [] ==> frames[1..][0] == frames[1];
      } else {
        assert ServerAlone(u, v) == v;
      }
    }
  }

  lemma ClientFinishes(u: Setup, w: World, x: Identity)
    requires w.client.AwaitProof?
    ensures var f := w.toClient;
            ClientAlone(u, w).client == Client.Done(x) <==>
              && x == w.client.remote && f != [] && f[0].AuthProof?
              && u.cr.verify(x.key, AuthPayload(SERVER_ROLE, u.clientNonce, x, u.client.self), f[0].signature)
  {
    hide AuthPayload;
    if ClientReady(w) {
      var v := ClientStep(u, w);
      assert ClientAlone(u, v) == v;
    }
  }

  /** What the client asks of the frames after the acknowledgement. */
  ghost predicate ChallengeAndProof(u: Setup, f: seq<Frame>, x: Identity) {
    && |f| >= 2 && f[0].AuthChallenge? && f[1].AuthProof?
    && u.cr.verify(x.key, AuthPayload(SERVER_ROLE, u.clientNonce, x, u.client.self), f[1].signature)
  }

  lemma ClientAnswers(u: Setup, w: World, x: Identity)
    requires w.client.AwaitChallenge?
    ensures ClientAlone(u, w).client == Client.Done(x) <==> x == w.client.remote && ChallengeAndProof(u, w.toClient, x)
  {
    hide AuthPayload, ValidName;
    if ClientReady(w) {
      var v := ClientStep(u, w);
      if v.client.SendChallenge? {
        var z := ClientStep(u, v);
        assert ClientAlone(u, w) == ClientAlone(u, v) == ClientAlone(u, z);
        ClientFinishes(u, z, x);
      } else {
        assert ClientAlone(u, v) == v;
      }
    }
  }

  lemma ClientHears(u: Setup, w: World, x: Identity)
    requires w.client.AwaitAck?
    ensures var f := w.toClient;
            ClientAlone(u, w).client == Client.Done(x) <==>
              && GoodIdentity(u.cr, x) && f != [] && f[0] == HelloAck(x, 5, "vocal_calculator")
              && ChallengeAndProof(u, f[1..], x)
  {
    hide AuthPayload, ChallengeAndProof, ValidName, AcceptableHello, GoodIdentity;
    if ClientReady(w) {
      var f := w.toClient[0];
      if f.HelloAck? {
        GoodIsAcceptable(u.cr, f.who, f.version, f.app);
      }
      var v := ClientStep(u, w);
      if v.client.AwaitChallenge? {
        ClientAnswers(u, v, x);
      } else {
        assert ClientAlone(u, v) == v;
      }
    }
  }

  /** And a client exactly this: an acknowledgement of the same kind, a challenge, and the server's proof. */
  lemma ClientAdmitsIff(u: Setup, frames: seq<Frame>, x: Identity)
    ensures ClientAlone(u, START.(toClient := frames)).client == Client.Done(x) <==>
            && ValidName(u.client.self.name) && GoodIdentity(u.cr, x)
            && frames != [] && frames[0] == HelloAck(x, 5, "vocal_calculator") && ChallengeAndProof(u, frames[1..], x)
  {
    hide AuthPayload, ChallengeAndProof, ValidName, GoodIdentity;
    var w := START.(toClient := frames);
    var v := ClientStep(u, w);
    if v.client.SendTag? {
      var z := ClientStep(u, v);
      assert ClientAlone(u, w) == ClientAlone(u, v) == ClientAlone(u, z);
      ClientHears(u, z, x);
    } else {
      assert ClientAlone(u, v) == v;
    }
  }

  /**
    The one refusal that is answered: a Hello of another version, from a named peer of this application, gets an
    acknowledgement of version zero, on which a client gives up. Any other first frame is refused in silence.
   */
  lemma RefusedHello(u: Setup, frames: seq<Frame>)
    requires frames != [] && ValidName(u.server.self.name)
    requires var f := frames[0];
             f.Hello? ==> f.version != 5 || f.app != "vocal_calculator" || !GoodIdentity(u.cr, f.who)
    ensures var f, end := frames[0], ServerAlone(u, START.(toServer := frames));
            var told := f.Hello? && f.version != 5 && f.app == "vocal_calculator" && ValidName(f.who.name);
            var ack := HelloAck(u.server.self, 0, "vocal_calculator");
            && end.server.Failed?
            && end.toClient == (if told then [ack] else [])
            && ClientAlone(u, START.(client := AwaitAck, toClient := [ack])).client.Failed?
  {
    hide ValidName, VerifiedIdentity;
    var w, ack := START.(toServer := frames), HelloAck(u.server.self, 0, "vocal_calculator");
    if frames[0].Hello? {
      GoodIsAcceptable(u.cr, frames[0].who, frames[0].version, frames[0].app);
    }
    assert !ServerReady(ServerStep(u, w));
    var c := START.(client := AwaitAck, toClient := [ack]);
    GoodIsAcceptable(u.cr, u.server.self, 0, "vocal_calculator");
    assert ClientStep(u, c).client.Failed? && ClientAlone(u, c) == ClientAlone(u, ClientStep(u, c)) == ClientStep(u, c);
  }
}
