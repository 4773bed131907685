/**
 The CrowdSec LAPI as the reconciler sees it: alerts that hold bans, with the behaviour of
 internal/lapi/mock/server.go. Create never deduplicates and hands out fresh ids; expire
 sets the end of a ban to the present; alerts stay.
 */
module Remote {
  import opened Database

  /** A ban as the server keeps it. */
  datatype Ban = Ban(id: int, origin: string, kind: string, scope: string, value: Text, scenario: string,
      until: Seconds)

  datatype Alert = Alert(machineId: string, scenario: string, scenarioHash: string, createdAt: Seconds, bans: seq<Ban>)

  /**
   `mine` is the record of which alerts this program's create calls made; `expired` of which bans
   were expired by id.
   */
  datatype Server = Server(
    alerts: map<int, Alert>, nextAlert: int, nextBan: int, mine: set<int>, expired: set<int>)

  /** The end of a decision as a response carries it: a time, a remaining length, or neither. */
  datatype Expiry = Until(at: Seconds) | Remaining(length: Seconds) | Unreadable

  datatype WireDecision = WireDecision(
    id: int, origin: string, kind: string, scope: string, value: Text, scenario: string, expiry: Expiry)

  datatype WireAlert = WireAlert(
    id: int, machineId: string, scenario: string, scenarioHash: string, decisions: seq<WireDecision>)

  datatype DecisionInput = DecisionInput(scope: string, value: Text)

  const HASH_PREFIX := "crowdshield:"

  function TokenHash(t: Token): string { HASH_PREFIX + t }

  /** A hash only this program writes under its own machine id. */
  predicate IsTokenHash(h: string) {
    |h| >= |HASH_PREFIX| && h[..|HASH_PREFIX|] == HASH_PREFIX
  }

  lemma TokenHashInjective(s: Token, t: Token)
    requires TokenHash(s) == TokenHash(t)
    ensures s == t
  {
    assert TokenHash(s)[|HASH_PREFIX|..] == s;
    assert TokenHash(t)[|HASH_PREFIX|..] == t;
  }

  lemma TokenHashIsOne(t: Token)
    ensures IsTokenHash(TokenHash(t))
  {
  }

  predicate Foreign(machineId: string, a: Alert) {
    !(a.machineId == machineId && IsTokenHash(a.scenarioHash))
  }

  predicate IsLiveBan(b: Ban, clock: Seconds) { b.until > clock }

  predicate HasLiveBan(a: Alert, clock: Seconds) {
    exists b :: b in a.bans && IsLiveBan(b, clock)
  }

  /** Ban ids identify a ban across the whole server. */
  ghost predicate BanIdsUnique(alerts: map<int, Alert>) {
    forall a, b, i, j :: HasBan(alerts, a, i) && HasBan(alerts, b, j) && SameId(alerts, a, i, b, j) ==> a == b && i == j
  }

  predicate HasBan(alerts: map<int, Alert>, a: int, i: int) {
    a in alerts && 0 <= i < |alerts[a].bans|
  }

  predicate SameId(alerts: map<int, Alert>, a: int, i: int, b: int, j: int)
    requires HasBan(alerts, a, i) && HasBan(alerts, b, j)
  {
    alerts[a].bans[i].id == alerts[b].bans[j].id
  }

  /** An alert of this program: its token was drawn here and its bans end within the longest duration. */
  ghost predicate MineOk(machineId: string, tokens: set<Token>, clock: Seconds, a: Alert) {
    a.machineId == machineId && (exists t :: t in tokens && a.scenarioHash == TokenHash(t)) &&
    a.createdAt <= clock &&
    forall b :: b in a.bans ==> b.until <= a.createdAt + MAX_DURATION || b.until <= clock
  }

  ghost predicate ServerOk(machineId: string, tokens: set<Token>, clock: Seconds, s: Server) {
    s.mine <= s.alerts.Keys && BanIdsUnique(s.alerts) && 0 < s.nextAlert && 0 < s.nextBan &&
    (forall a :: a in s.alerts ==> 0 < a < s.nextAlert) &&
    (forall a, b :: a in s.alerts && b in s.alerts[a].bans ==> 0 < b.id < s.nextBan) &&
    (forall a :: a in s.alerts && a !in s.mine ==> Foreign(machineId, s.alerts[a])) &&
    (forall a :: a in s.mine ==> MineOk(machineId, tokens, clock, s.alerts[a])) &&
    (forall id :: id in s.expired ==> id < s.nextBan) &&
    (forall a, b :: a in s.alerts && b in s.alerts[a].bans && b.id in s.expired ==> b.until <= clock)
  }

  /**
   Time passes and others act: they may add, change or remove their own alerts, but they
   neither touch this program's alerts nor write its hashes under its machine id.
   */
  ghost predicate Interferes(machineId: string, tokens: set<Token>, s: Server, clock: Seconds, s': Server,
                             clock': Seconds) {
    clock <= clock' && s'.mine == s.mine && s'.expired == s.expired &&
    s.nextAlert <= s'.nextAlert && s.nextBan <= s'.nextBan &&
    ServerOk(machineId, tokens, clock', s') &&
    forall a :: a in s.mine && a in s.alerts ==> a in s'.alerts && s'.alerts[a] == s.alerts[a]
  }

  function MakeBans(first: int, inputs: seq<DecisionInput>, scenario: string, until: Seconds): (r: seq<Ban>)
    ensures |r| == |inputs|
    ensures forall i :: 0 <= i < |r| ==>
              r[i] == Ban(first + i, ORIGIN, "ban", inputs[i].scope, inputs[i].value, scenario, until)
  {
    seq(|inputs|, i requires 0 <= i < |inputs| =>
      Ban(first + i, ORIGIN, "ban", inputs[i].scope, inputs[i].value, scenario, until))
  }

  /** `POST /alerts`. */
  function Created(machineId: string, s: Server, clock: Seconds, scenario: string, token: Token,
                   duration: Seconds, inputs: seq<DecisionInput>): Server
  {
    Server(
      s.alerts[s.nextAlert :=
        Alert(machineId, scenario, TokenHash(token), clock, MakeBans(s.nextBan, inputs, scenario, clock + duration))],
      s.nextAlert + 1, s.nextBan + |inputs|, s.mine + {s.nextAlert}, s.expired)
  }

  function EndBan(b: Ban, id: int, clock: Seconds): Ban {
    if b.id == id then b.(until := clock) else b
  }

  function EndIn(a: Alert, id: int, clock: Seconds): (r: Alert)
    ensures |r.bans| == |a.bans| && r == a.(bans := r.bans)
    ensures forall i :: 0 <= i < |a.bans| ==> r.bans[i] == EndBan(a.bans[i], id, clock)
  {
    a.(bans := seq(|a.bans|, i requires 0 <= i < |a.bans| => EndBan(a.bans[i], id, clock)))
  }

  predicate Knows(s: Server, id: int) {
    exists a :: a in s.alerts && exists b :: b in s.alerts[a].bans && b.id == id
  }

  /** `DELETE /decisions/{id}` on a known id. */
  function Ended(s: Server, clock: Seconds, id: int): Server {
    s.(alerts := map a | a in s.alerts :: EndIn(s.alerts[a], id, clock), expired := s.expired + {id})
  }

  function WireOf(b: Ban): WireDecision {
    WireDecision(b.id, b.origin, b.kind, b.scope, b.value, b.scenario, Until(b.until))
  }

  /** `GET /alerts/{id}`. */
  function View(id: int, a: Alert): (r: WireAlert)
    ensures |r.decisions| == |a.bans|
    ensures forall i :: 0 <= i < |a.bans| ==> r.decisions[i] == WireOf(a.bans[i])
    ensures r == WireAlert(id, a.machineId, a.scenario, a.scenarioHash, r.decisions)
  {
    WireAlert(id, a.machineId, a.scenario, a.scenarioHash,
        seq(|a.bans|, i requires 0 <= i < |a.bans| => WireOf(a.bans[i])))
  }

  // ----- The server stays well formed -----

  lemma CreateKeepsUnique(machineId: string, tokens: set<Token>, s: Server, clock: Seconds,
                          scenario: string, token: Token, duration: Seconds, inputs: seq<DecisionInput>)
    requires ServerOk(machineId, tokens, clock, s)
    ensures BanIdsUnique(Created(machineId, s, clock, scenario, token, duration, inputs).alerts)
  {
    hide MineOk, Foreign;
    var s' := Created(machineId, s, clock, scenario, token, duration, inputs);
    forall a, b, i, j | HasBan(s'.alerts, a, i) && HasBan(s'.alerts, b, j) && SameId(s'.alerts, a, i, b, j)
      ensures a == b && i == j
    {
      assert a != s.nextAlert ==> HasBan(s.alerts, a, i) && s.alerts[a].bans[i] in s.alerts[a].bans;
      assert b != s.nextAlert ==> HasBan(s.alerts, b, j) && s.alerts[b].bans[j] in s.alerts[b].bans;
      assert a != s.nextAlert && b != s.nextAlert ==> SameId(s.alerts, a, i, b, j);
    }
  }

  lemma CreateKeepsServer(machineId: string, tokens: set<Token>, s: Server, clock: Seconds,
                          scenario: string, token: Token, duration: Seconds, inputs: seq<DecisionInput>)
    requires ServerOk(machineId, tokens, clock, s) && token in tokens && duration <= MAX_DURATION
    ensures ServerOk(machineId, tokens, clock, Created(machineId, s, clock, scenario, token, duration, inputs))
  {
    hide Foreign, BanIdsUnique;
    CreateKeepsUnique(machineId, tokens, s, clock, scenario, token, duration, inputs);
    var s' := Created(machineId, s, clock, scenario, token, duration, inputs);
    assert MineOk(machineId, tokens, clock, s'.alerts[s.nextAlert]);
    assert forall a :: a in s.alerts ==> s'.alerts[a] == s.alerts[a];
  }

  lemma EndKeepsUnique(s: Server, clock: Seconds, id: int)
    requires BanIdsUnique(s.alerts)
    ensures BanIdsUnique(Ended(s, clock, id).alerts)
  {
    var s' := Ended(s, clock, id);
    forall a, b, i, j | HasBan(s'.alerts, a, i) && HasBan(s'.alerts, b, j) && SameId(s'.alerts, a, i, b, j)
      ensures a == b && i == j
    {
      assert HasBan(s.alerts, a, i) && HasBan(s.alerts, b, j) && SameId(s.alerts, a, i, b, j);
    }
  }

  lemma EndedBan(s: Server, clock: Seconds, id: int, a: int, b: Ban) returns (was: Ban)
    requires a in s.alerts && b in Ended(s, clock, id).alerts[a].bans
    ensures was in s.alerts[a].bans && b == EndBan(was, id, clock)
  {
    var i :| 0 <= i < |s.alerts[a].bans| && Ended(s, clock, id).alerts[a].bans[i] == b;
    was := s.alerts[a].bans[i];
  }

  lemma EndKeepsServer(machineId: string, tokens: set<Token>, s: Server, clock: Seconds, id: int)
    requires ServerOk(machineId, tokens, clock, s) && Knows(s, id)
    ensures ServerOk(machineId, tokens, clock, Ended(s, clock, id))
  {
    hide BanIdsUnique;
    EndKeepsUnique(s, clock, id);
    var s' := Ended(s, clock, id);
    forall a, b | a in s'.alerts && b in s'.alerts[a].bans
      ensures 0 < b.id < s'.nextBan && (b.id in s'.expired ==> b.until <= clock)
      ensures a in s'.mine ==> b.until <= s'.alerts[a].createdAt + MAX_DURATION || b.until <= clock
    {
      var was := EndedBan(s, clock, id, a, b);
    }
  }
}
