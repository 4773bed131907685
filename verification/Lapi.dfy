/**
 internal/lapi/client.go: the checks made before a request is sent, and the calls. A call may
 fail before or after it takes effect. Against an honest server the replies are those of
 `Remote`; otherwise both the replies and the server's state are arbitrary.
 */
module Lapi {
  import opened Collections
  import opened Prefixes
  import opened Safety
  import opened Special
  import opened Planner
  import opened Database
  import opened Remote
  import opened Protocol

  const MAX_BATCH: nat := 500
  const MAX_SEARCH_RESULTS: nat := 100

  datatype CreateRequest = CreateRequest(feedName: string, token: Token, duration: Seconds,
      decisions: seq<DecisionInput>)

  datatype CreateReply = Made(alertId: int) | CreateFailed

  datatype GetReply = Got(alert: WireAlert) | GetNotFound | GetFailed

  datatype ExpireReply = Gone | ExpireNotFound | ExpireFailed

  datatype FindReply = Found(alert: WireAlert) | Absent | FindFailed

  /** `NormalizeAddress` on a parsed address: IPv4-mapped addresses are unmapped. */
  function NormalizeAddr(a: Addr): Addr {
    if a.family == V6 && ShiftRight(a.value, 32) == 0xffff then Addr(V4, a.value % 0x1_0000_0000) else a
  }

  function HostPrefix(a: Addr): Prefix { Prefix(a.family, a.value, BitLen(a.family)) }

  function CanonicalDecision(input: DecisionInput): Option<DecisionInput> {
    if input.scope == "Ip" && input.value.AddrText? && ValidAddr(input.value.addr) then
      var address := NormalizeAddr(input.value.addr);
      if IsSafePrefix(HostPrefix(address)) then Some(DecisionInput("Ip", AddrText(address))) else None
    else if input.scope == "Range" && input.value.CidrText? then
      match Normalize(input.value.prefix)
      case Some(p) => if ValidateKind(p, KindRange) &&
          IsSafePrefix(p) then Some(DecisionInput("Range", CidrText(p))) else None
      case None => None
    else None
  }

  predicate RequestFits(request: CreateRequest) {
    ValidFeedName(request.feedName) && |request.feedName| <= 64 && ValidToken(request.token) &&
    MINUTE <= request.duration <= MAX_DURATION && 1 <= |request.decisions| <= MAX_BATCH
  }

  /** The canonical decisions of a request, if every one has a canonical form and no two coincide. */
  ghost predicate WireFits(request: CreateRequest, wire: seq<DecisionInput>) {
    RequestFits(request) && |wire| == |request.decisions| &&
    (forall i :: 0 <= i < |wire| ==> CanonicalDecision(request.decisions[i]) == Some(wire[i])) &&
    forall i, j :: 0 <= i < j < |wire| ==> wire[i] != wire[j]
  }

  /** A decision with no canonical form, or one that repeats an earlier one, rules out every wire form. */
  lemma NoWire(request: CreateRequest, wire: seq<DecisionInput>)
    requires |wire| < |request.decisions|
    requires forall k :: 0 <= k < |wire| ==> CanonicalDecision(request.decisions[k]) == Some(wire[k])
    requires CanonicalDecision(request.decisions[|wire|]) == None ||
             CanonicalDecision(request.decisions[|wire|]).value in wire
    ensures forall other :: !WireFits(request, other)
  {
    hide CanonicalDecision, WireFits;
    var n := |wire|;
    var k :| 0 <= k <= n && (CanonicalDecision(request.decisions[n]).Some? ==>
        k < n && Some(wire[k]) == CanonicalDecision(request.decisions[n]));
    forall other | WireFits(request, other)
      ensures false
    {
      WireAt(request, other, k, n);
    }
  }

  lemma WireAt(request: CreateRequest, other: seq<DecisionInput>, k: nat, n: nat)
    requires WireFits(request, other) && k <= n < |request.decisions|
    ensures CanonicalDecision(request.decisions[n]).Some?
    ensures CanonicalDecision(request.decisions[k]) == CanonicalDecision(request.decisions[n]) ==> k == n
  {
    hide CanonicalDecision, RequestFits;
    assert CanonicalDecision(request.decisions[n]) == Some(other[n]) &&
           CanonicalDecision(request.decisions[k]) == Some(other[k]);
  }

  lemma RequestBounds(request: CreateRequest)
    requires RequestFits(request)
    ensures 1 <= |request.feedName| <= 64 && |request.token| == 32 && 60 <= request.duration <= 7 * 24 * 3600
    ensures 1 <= |request.decisions| <= 500
    ensures forall c :: c in request.token ==> '0' <= c <= '9' || 'a' <= c <= 'f'
    ensures forall c :: c in request.feedName ==> '0' <= c <= '9' || 'a' <= c <= 'z' || c == '-'
    ensures request.feedName[0] != '-' && request.feedName[|request.feedName| - 1] != '-'
  {
  }

  /** A decision in normal form that bans no special-purpose address. */
  ghost predicate BansOnly(wire: DecisionInput) {
    (wire.scope == "Ip" && wire.value.AddrText? && ValidAddr(wire.value.addr) && !IsSpecial(wire.value.addr)) ||
    (wire.scope == "Range" && wire.value.CidrText? && IsValid(wire.value.prefix) &&
     Masked(wire.value.prefix) == wire.value.prefix &&
     forall a :: Contains(wire.value.prefix, a) ==> !IsSpecial(a))
  }

  /** The wire value bans what the input says; an IPv4-mapped input says the IPv4 addresses it stands for. */
  ghost predicate Stands(input: Text, wire: Text) {
    match (input, wire)
    case (AddrText(a), AddrText(b)) =>
      if a.family == V6 && MAPPED_FIRST <= a.value <= MAPPED_LAST then b == Addr(V4, a.value - MAPPED_FIRST) else b == a
    case (CidrText(p), CidrText(q)) =>
      p.Prefix? &&
      (if p.family == V6 && MAPPED_FIRST <= p.value <= MAPPED_LAST
       then q.Prefix? && q.family == V4 && forall v: nat :: v < 0x1_0000_0000 ==>
              (Contains(q, Addr(V4, v)) <==> Contains(p, Addr(V6, MAPPED_FIRST + v)))
       else Addresses(q) == Addresses(p))
    case _ => false
  }

  /** A decision is sent in normal form, for the same addresses, or not at all. */
  lemma CanonicalMeans(input: DecisionInput)
    ensures CanonicalDecision(input).Some? ==>
              BansOnly(CanonicalDecision(input).value) && Stands(input.value, CanonicalDecision(input).value.value)
  {
    hide IsSafePrefix, IsSpecial, Normalize, ShiftRight, Masked, ValidateKind;
    match input.value
    case AddrText(a) =>
      MappedMeans(a.value);
      var b := NormalizeAddr(a);
      SafeIffNoSpecial(HostPrefix(b));
      if IsSafePrefix(HostPrefix(b)) { assert Contains(HostPrefix(b), b); }
    case CidrText(p) =>
      if Normalize(p).Some? {
        NormalizeRefuses(p);
        NormalizeKeepsAddresses(p);
        SafeIffNoSpecial(Normalize(p).value);
      }
    case OtherText(_) =>
  }

  /** `buildWireAlert`: None is its contract error. */
  method BuildWireAlert(request: CreateRequest) returns (r: Option<seq<DecisionInput>>)
    ensures r.Some? ==> WireFits(request, r.value)
    ensures r == None ==> forall wire :: !WireFits(request, wire)
    ensures r.Some? ==>
              1 <= |request.feedName| <= 64 && |request.token| == 32 && 60 <= request.duration <= 7 * 24 * 3600 &&
              (forall c :: c in request.token ==> '0' <= c <= '9' || 'a' <= c <= 'f') &&
              (forall c :: c in request.feedName ==> '0' <= c <= '9' || 'a' <= c <= 'z' || c == '-') &&
              request.feedName[0] != '-' && request.feedName[|request.feedName| - 1] != '-' &&
              1 <= |request.decisions| <= 500 && |r.value| == |request.decisions| &&
              forall i :: 0 <= i < |r.value| ==>
                BansOnly(r.value[i]) && Stands(request.decisions[i].value, r.value[i].value)
  {
    hide CanonicalDecision, RequestFits, BansOnly, Stands;
    if RequestFits(request) { RequestBounds(request); }
    if !RequestFits(request) {
      return None;
    }
    var wire: seq<DecisionInput> := [];
    for i := 0 to |request.decisions|
      invariant |wire| == i
      invariant forall k :: 0 <= k < i ==> CanonicalDecision(request.decisions[k]) == Some(wire[k])
      invariant forall j, k :: 0 <= j < k < i ==> wire[j] != wire[k]
    {
      var canonical := CanonicalDecision(request.decisions[i]);
      if canonical == None || canonical.value in wire {
        NoWire(request, wire);
        return None;
      }
      wire := wire + [canonical.value];
    }
    forall i | 0 <= i < |wire| ensures BansOnly(wire[i]) && Stands(request.decisions[i].value, wire[i].value) {
      CanonicalMeans(request.decisions[i]);
    }
    return Some(wire);
  }

  // ----- The producer meets this consumer -----

  /** What the reconciler sends for an object. */
  function InputFor(p: Prefix, scope: Scope): DecisionInput {
    DecisionInput(ScopeText(scope), ObjectValue(p, scope))
  }

  lemma StoredIsCanonical(p: Prefix, scope: Scope)
    requires IsSafePrefix(p) && IsValid(p) && (scope == ScopeIP ==> IsHost(p))
    ensures CanonicalDecision(InputFor(p, scope)) == Some(InputFor(p, scope))
  {
    SafeReadsBack(p);
    if scope == ScopeIP {
      HostReadsBack(p);
    } else {
      RangeReadsBack(p);
    }
  }

  lemma HostReadsBack(p: Prefix)
    requires IsSafePrefix(p) && IsHost(p) && !Is4In6(p)
    ensures CanonicalDecision(InputFor(p, ScopeIP)) == Some(InputFor(p, ScopeIP))
  {
    hide IsSafePrefix, ValidateKind, Normalize;
    assert HostPrefix(Base(p)) == p;
    assert NormalizeAddr(Base(p)) == Base(p);
    assert ValidAddr(Base(p));
  }

  lemma RangeReadsBack(p: Prefix)
    requires IsSafePrefix(p) && Normalize(p) == Some(p)
    ensures CanonicalDecision(InputFor(p, ScopeRange)) == Some(InputFor(p, ScopeRange))
  {
    hide IsSafePrefix, Normalize;
    SafeIsValid(p);
  }

  lemma InputsDiffer(p: Prefix, q: Prefix, s: Scope, t: Scope)
    requires p != q && (s == ScopeIP ==> IsHost(p)) && (t == ScopeIP ==> IsHost(q))
    ensures InputFor(p, s) != InputFor(q, t)
  {
    hide IsValid;
    assert "Ip" != "Range" by { assert |"Ip"| != |"Range"|; }
  }

  /** A batch of distinct stored objects passes every check of the wire builder, unchanged. */
  lemma BatchPassesWire(request: CreateRequest, targets: seq<Prefix>, scopes: seq<Scope>)
    requires RequestFits(request) && |targets| == |scopes| == |request.decisions|
    requires forall i :: 0 <= i < |targets| ==>
               IsSafePrefix(targets[i]) && IsValid(targets[i]) && (scopes[i] == ScopeIP ==> IsHost(targets[i])) &&
               request.decisions[i] == InputFor(targets[i], scopes[i])
    requires forall i, j :: 0 <= i < j < |targets| ==> targets[i] != targets[j]
    ensures WireFits(request, request.decisions)
  {
    hide CanonicalDecision, InputFor, IsSafePrefix, IsValid, RequestFits, IsHost;
    forall i | 0 <= i < |targets|
      ensures CanonicalDecision(request.decisions[i]) == Some(request.decisions[i])
    {
      StoredIsCanonical(targets[i], scopes[i]);
    }
    forall i, j | 0 <= i < j < |targets|
      ensures request.decisions[i] != request.decisions[j]
    {
      InputsDiffer(targets[i], targets[j], scopes[i], scopes[j]);
    }
  }

  // ----- The calls -----

  /** The alerts of a scenario young enough to be returned by a search. */
  ghost predicate InWindow(s: Server, clock: Seconds, scenario: string, a: int) {
    a in s.alerts && s.alerts[a].scenario == scenario && s.alerts[a].createdAt > clock - MAX_DURATION
  }

  ghost function Window(s: Server, clock: Seconds, scenario: string): set<int> {
    set a | a in s.alerts && InWindow(s, clock, scenario, a)
  }

  lemma {:induction false} IdCount(page: seq<WireAlert>)
    ensures |set x | x in page :: x.id| <= |page|
  {
    if page != [] {
      var n := |page| - 1;
      IdCount(page[..n]);
      assert page == page[..n] + [page[n]];
      assert (set x | x in page :: x.id) == (set x | x in page[..n] :: x.id) + {page[n].id};
    }
  }

  /** A page that holds every alert of the window is at least as long as the window is large. */
  lemma WindowFits(s: Server, clock: Seconds, scenario: string, page: seq<WireAlert>)
    requires forall a :: InWindow(s, clock, scenario, a) ==> View(a, s.alerts[a]) in page
    ensures |Window(s, clock, scenario)| <= |page|
  {
    var ids := set x | x in page :: x.id;
    forall a | a in Window(s, clock, scenario)
      ensures a in ids
    {
      assert View(a, s.alerts[a]).id == a;
    }
    IdCount(page);
    SubsetSize(Window(s, clock, scenario), ids);
  }

  class Client {
    const machineId: string
    const honest: bool
    var server: Server
    var clock: Seconds
    var writes: seq<Write>

    /** The alert last read, until a request acts on it. */
    var shown: Option<WireAlert>

    constructor (machineId: string, honest: bool, server: Server, clock: Seconds)
      ensures this.machineId == machineId && this.honest == honest
      ensures this.server == server && this.clock == clock && this.writes == [] && this.shown == None
    {
      this.machineId, this.honest, this.server, this.clock := machineId, honest, server, clock;
      this.writes, this.shown := [], None;
    }

    /** Time passes and others act, before a call reaches the server. */
    method Interfere(ghost tokens: set<Token>)
      requires honest ==> ServerOk(machineId, tokens, clock, server)
      modifies this`server, this`clock
      ensures old(clock) <= clock
      ensures honest ==> Interferes(machineId, tokens, old(server), old(clock), server, clock)
    {
      var pause: int := *;
      if pause < 0 { pause := 0; }
      if honest {
        LaterServerOk(machineId, tokens, clock, clock + pause, server);
      } else {
        server := *;
      }
      clock := clock + pause;
    }

    method CreateAlert(request: CreateRequest) returns (r: CreateReply, ghost wire: seq<DecisionInput>)
      modifies this`server, this`writes
      ensures r.Made? ==> WireFits(request, wire)
      ensures (exists w :: WireFits(request, w)) ==> WireFits(request, wire)
      ensures WireFits(request, wire) ==> writes == old(writes) + [CreateWrite(request.token)]
      ensures !WireFits(request, wire) ==> writes == old(writes) && server == old(server)
      ensures honest && server != old(server) ==>
                server == Created(machineId, old(server), clock, Scenario(request.feedName), request.token,
                    request.duration, wire)
      ensures honest && r.Made? ==>
                r.alertId == old(server.nextAlert) &&
                server == Created(machineId, old(server), clock, Scenario(request.feedName), request.token,
                    request.duration, wire)
    {
      hide WireFits;
      var built := BuildWireAlert(request);
      if built == None {
        wire := [];
        return CreateFailed, wire;
      }
      wire := built.value;
      writes := writes + [CreateWrite(request.token)];
      if !honest {
        server := *;
        var id: int := *;
        r := *;
        return r, wire;
      }
      var reaches: bool, replies: bool := *, *;
      if !reaches {
        return CreateFailed, wire;
      }
      var id := server.nextAlert;
      server := Created(machineId, server, clock, Scenario(request.feedName), request.token, request.duration,
          built.value);
      if replies { return Made(id), wire; } else { return CreateFailed, wire; }
    }

    method GetAlert(alertId: int) returns (r: GetReply)
      modifies this`shown
      ensures r.Got? ==> r.alert.id == alertId && alertId > 0
      ensures shown == if r.Got? then Some(r.alert) else None
      ensures honest && r.Got? ==> alertId in server.alerts && r.alert == View(alertId, server.alerts[alertId])
      ensures honest && r.GetNotFound? ==> alertId !in server.alerts
    {
      r := GetFailed;
      var replies: bool := *;
      if alertId > 0 && replies {
        if !honest {
          r := *;
          if r.Got? && r.alert.id != alertId { r := GetFailed; }
        } else if alertId in server.alerts {
          r := Got(View(alertId, server.alerts[alertId]));
        } else {
          r := GetNotFound;
        }
      }
      shown := if r.Got? then Some(r.alert) else None;
    }

    method ExpireDecision(id: int) returns (r: ExpireReply)
      modifies this`server, this`writes, this`shown
      ensures id <= 0 ==> r == ExpireFailed && writes == old(writes) && server == old(server) && shown == old(shown)
      ensures id > 0 ==> writes == old(writes) + [ExpireWrite(id)] && shown == None
      ensures honest && server != old(server) ==> Knows(old(server), id) && server == Ended(old(server), clock, id)
      ensures honest && r == Gone ==> Knows(old(server), id) && server == Ended(old(server), clock, id)
      ensures honest && r == ExpireNotFound ==> !Knows(old(server), id)
    {
      if id <= 0 {
        return ExpireFailed;
      }
      writes, shown := writes + [ExpireWrite(id)], None;
      if !honest {
        server := *;
        r := *;
        return r;
      }
      var reaches: bool, replies: bool := *, *;
      if !reaches {
        return ExpireFailed;
      }
      if !Knows(server, id) {
        if replies { return ExpireNotFound; } else { return ExpireFailed; }
      }
      server := Ended(server, clock, id);
      if replies { return Gone; } else { return ExpireFailed; }
    }

    /** One page of a search: never more than one result over what the caller accepts. */
    method SearchAlerts(scenario: string) returns (r: Option<seq<WireAlert>>)
      ensures honest && r.Some? ==>
                (forall x :: x in r.value ==> x.id in server.alerts && x == View(x.id, server.alerts[x.id])) &&
                (|r.value| <= MAX_SEARCH_RESULTS ==>
                   forall a :: InWindow(server, clock, scenario, a) ==> View(a, server.alerts[a]) in r.value)
    {
      var replies: bool := *;
      if !replies {
        return None;
      }
      if !honest {
        var any: seq<WireAlert> := *;
        return Some(any);
      }
      var list: seq<WireAlert> := [];
      var left := server.alerts.Keys;
      while left != {} && |list| <= MAX_SEARCH_RESULTS
        invariant left <= server.alerts.Keys
        invariant forall x :: x in list ==> x.id in server.alerts && x == View(x.id, server.alerts[x.id])
        invariant forall a :: InWindow(server, clock, scenario, a) && a !in left ==> View(a, server.alerts[a]) in list
      {
        var a := Pick(left);
        left := left - {a};
        if server.alerts[a].scenario == scenario && server.alerts[a].createdAt > clock - MAX_DURATION {
          list := list + [View(a, server.alerts[a])];
        }
      }
      return Some(list);
    }

    /** A bounded search for the token; more than one match, or more results than accepted, is an error. */
    method FindOperation(feedName: string, token: Token) returns (r: FindReply)
      ensures r.Found? ==> r.alert.scenario == Scenario(feedName) && r.alert.scenarioHash == TokenHash(token)
      ensures honest && r.Found? ==>
              r.alert.id in server.alerts && r.alert == View(r.alert.id, server.alerts[r.alert.id])
      ensures honest && r == Absent ==>
                forall a :: InWindow(server, clock, Scenario(feedName), a) ==>
                    server.alerts[a].scenarioHash != TokenHash(token)
      ensures honest && r.Found? ==>
                forall a :: a in Window(server, clock, Scenario(feedName)) ==>
                  server.alerts[a].scenarioHash == TokenHash(token) ==> a == r.alert.id
      ensures honest && !r.FindFailed? ==> |Window(server, clock, Scenario(feedName))| <= 100
    {
      if !ValidFeedName(feedName) || !ValidToken(token) {
        return FindFailed;
      }
      var page := SearchAlerts(Scenario(feedName));
      if page == None || |page.value| > MAX_SEARCH_RESULTS {
        return FindFailed;
      }
      var alerts := page.value;
      var found: Option<WireAlert> := None;
      for i := 0 to |alerts|
        invariant found.Some? ==> found.value in alerts
        invariant found.Some? ==>
                  found.value.scenario == Scenario(feedName) && found.value.scenarioHash == TokenHash(token)
        invariant found == None ==> forall k :: 0 <= k < i ==>
          !(alerts[k].scenario == Scenario(feedName) && alerts[k].scenarioHash == TokenHash(token))
        invariant found.Some? ==> forall k :: 0 <= k < i ==>
          alerts[k].scenario == Scenario(feedName) && alerts[k].scenarioHash == TokenHash(token) ==>
              alerts[k] == found.value
      {
        if alerts[i].scenario == Scenario(feedName) && alerts[i].scenarioHash == TokenHash(token) {
          if found.Some? {
            return FindFailed;
          }
          found := Some(alerts[i]);
        }
      }
      forall a | honest && InWindow(server, clock, Scenario(feedName),
          a) && server.alerts[a].scenarioHash == TokenHash(token)
        ensures found == Some(View(a, server.alerts[a]))
      {
        var k :| 0 <= k < |alerts| && alerts[k] == View(a, server.alerts[a]);
      }
      if honest { WindowFits(server, clock, Scenario(feedName), alerts); }
      if found == None {
        return Absent;
      }
      return Found(found.value);
    }
  }

  lemma LaterServerOk(machineId: string, tokens: set<Token>, clock: Seconds, later: Seconds, s: Server)
    requires ServerOk(machineId, tokens, clock, s) && clock <= later
    ensures ServerOk(machineId, tokens, later, s)
  {
    hide BanIdsUnique, Foreign;
    forall a | a in s.mine
      ensures MineOk(machineId, tokens, later, s.alerts[a])
    {
      assert MineOk(machineId, tokens, clock, s.alerts[a]);
    }
  }
}
