/** The bookkeeping of the coordination server (library/src/server.rs):
    groups of connected clients, the key-generation and signing sessions of a
    group with their party sign-ups, the pruning that follows a disconnect,
    and the choice of the connections a notification is sent to. */
module Server {
  import opened Wrappers

  // ------------------------------------------------------------------ scalars

  /** Rust's `u16`: party counts, thresholds and party numbers. */
  newtype uint16 = x: int | 0 <= x < 0x1_0000

  const UINT16_MAX: uint16 := 0xFFFF

  /** A connection identifier (`usize`). The server's counter starts at 1, so
      no connection is ever numbered 0. */
  type ConnId = nat

  /** An opaque UUID; the caller supplies fresh ones. */
  datatype Uuid = Uuid(bits: nat)

  // --------------------------------------------------------------- parameters

  datatype Parameters = Parameters(parties: uint16, threshold: uint16)

  /** `Parameters::default`: three parties, threshold one, so the
      `threshold + 1` parties needed to sign can all take part. */
  function DefaultParameters(): (p: Parameters)
    ensures p.parties == 3 && p.threshold == 1
    ensures p.threshold < p.parties
  {
    Parameters(3, 1)
  }

  datatype SessionKind = Keygen | Sign

  /** The variants of `ServerError` that the session bookkeeping raises. */
  datatype ServerError =
    | ZeroPartyNumber
    | PartyNumberOutOfRange
    | PartyNumberAlreadyExists(session: Uuid)

  // ----------------------------------------------------------------- sign-ups

  /** One entry of `party_signups`: a party number and the connection that holds it. */
  type PartySignup = (uint16, ConnId)

  predicate HasPartyNumber(signups: seq<PartySignup>, partyNumber: uint16) {
    exists i | 0 <= i < |signups| :: signups[i].0 == partyNumber
  }

  /** `signup` adds one to the last party number; that must not overflow `u16`. */
  predicate CanSignup(signups: seq<PartySignup>) {
    |signups| == 0 || signups[|signups| - 1].0 < UINT16_MAX
  }

  /** The number `signup` issues: 1 for an empty list, otherwise one more than
      the number of the LAST entry (which need not be the largest). */
  function NextPartyNumber(signups: seq<PartySignup>): (num: uint16)
    requires CanSignup(signups)
    ensures num >= 1
  {
    if |signups| == 0 then 1 else signups[|signups| - 1].0 + 1
  }

  /** The outcome of `load`'s three checks. */
  function LoadCheck(signups: seq<PartySignup>, session: Uuid, parameters: Parameters,
                     partyNumber: uint16): (r: Result<(), ServerError>)
    ensures r == Failure(ZeroPartyNumber) <==> partyNumber == 0
    ensures r == Failure(PartyNumberOutOfRange) <==>
              partyNumber != 0 && partyNumber > parameters.parties
    ensures r.Failure? && r.error.PartyNumberAlreadyExists? <==>
              0 < partyNumber <= parameters.parties && HasPartyNumber(signups, partyNumber)
    ensures r.Failure? && r.error.PartyNumberAlreadyExists? ==> r.error.session == session
    ensures r.Success? <==>
              0 < partyNumber <= parameters.parties && !HasPartyNumber(signups, partyNumber)
  {
    if partyNumber == 0 then Failure(ZeroPartyNumber)
    else if partyNumber > parameters.parties then Failure(PartyNumberOutOfRange)
    else if HasPartyNumber(signups, partyNumber) then Failure(PartyNumberAlreadyExists(session))
    else Success(())
  }

  /** The sign-up list after `load`: extended when the checks pass, untouched otherwise. */
  function LoadedSignups(signups: seq<PartySignup>, session: Uuid, parameters: Parameters,
                         conn: ConnId, partyNumber: uint16): seq<PartySignup>
  {
    if LoadCheck(signups, session, parameters, partyNumber).Success?
    then signups + [(partyNumber, conn)]
    else signups
  }

  /** A well-formed sign-up list for `parties` parties: every number lies in
      1..parties and no number appears twice. */
  predicate Registry(signups: seq<PartySignup>, parties: uint16) {
    && (forall i | 0 <= i < |signups| :: 1 <= signups[i].0 <= parties)
    && (forall i, j | 0 <= i < j < |signups| :: signups[i].0 != signups[j].0)
  }

  /** Party numbers strictly increase along the list. */
  predicate Ascending(signups: seq<PartySignup>) {
    forall i, j | 0 <= i < j < |signups| :: signups[i].0 < signups[j].0
  }

  /** A session of a group: its party sign-ups grow in place. */
  class Session {
    const uuid: Uuid
    const kind: SessionKind
    var partySignups: seq<PartySignup>
    /** Party numbers that marked the session finished; nothing modelled updates it. */
    var finished: set<uint16>

    /** `Session::from(kind)`, with `uuid` the fresh identifier. */
    constructor (uuid: Uuid, kind: SessionKind)
      ensures this.uuid == uuid && this.kind == kind
      ensures partySignups == [] && finished == {}
    {
      this.uuid := uuid;
      this.kind := kind;
      partySignups := [];
      finished := {};
    }

    /** `Session::default()`: a key-generation session. */
    constructor Default(uuid: Uuid)
      ensures this.uuid == uuid && kind == Keygen
      ensures partySignups == [] && finished == {}
    {
      this.uuid := uuid;
      kind := Keygen;
      partySignups := [];
      finished := {};
    }

    /** `signup`: issue the next party number to `conn` and record it last. */
    method Signup(conn: ConnId) returns (num: uint16)
      requires CanSignup(partySignups)
      modifies this`partySignups
      ensures num == NextPartyNumber(old(partySignups))
      ensures partySignups == old(partySignups) + [(num, conn)]
    {
      if |partySignups| == 0 {
        num := 1;
      } else {
        var (last, _) := partySignups[|partySignups| - 1];
        num := last + 1;
      }
      partySignups := partySignups + [(num, conn)];
    }

    /** `load`: re-admit a persisted party number for `conn`. */
    method Load(parameters: Parameters, conn: ConnId, partyNumber: uint16)
      returns (r: Result<(), ServerError>)
      modifies this`partySignups
      ensures r == LoadCheck(old(partySignups), uuid, parameters, partyNumber)
      ensures partySignups == LoadedSignups(old(partySignups), uuid, parameters, conn, partyNumber)
    {
      if partyNumber == 0 {
        return Failure(ZeroPartyNumber);
      }
      if partyNumber > parameters.parties {
        return Failure(PartyNumberOutOfRange);
      }
      if HasPartyNumber(partySignups, partyNumber) {
        return Failure(PartyNumberAlreadyExists(uuid));
      }
      partySignups := partySignups + [(partyNumber, conn)];
      r := Success(());
    }
  }

  /** On a well-formed list, `load` keeps the list well-formed, and it
      succeeds exactly when appending the requested number keeps it so. */
  lemma LoadKeepsRegistry(signups: seq<PartySignup>, session: Uuid, parameters: Parameters,
                          conn: ConnId, partyNumber: uint16)
    requires Registry(signups, parameters.parties)
    ensures Registry(LoadedSignups(signups, session, parameters, conn, partyNumber), parameters.parties)
    ensures LoadCheck(signups, session, parameters, partyNumber).Success? <==>
              Registry(signups + [(partyNumber, conn)], parameters.parties)
  {
    var extended := signups + [(partyNumber, conn)];
    var n := |signups|;
    if Registry(extended, parameters.parties) {
      assert 1 <= extended[n].0 <= parameters.parties;
      forall i | 0 <= i < n ensures signups[i].0 != partyNumber {
        assert extended[i].0 != extended[n].0;
      }
    }
    if LoadCheck(signups, session, parameters, partyNumber).Success? {
      forall i, j | 0 <= i < j < |extended|
        ensures extended[i].0 != extended[j].0
      {
        if j == n {
          assert extended[i].0 == signups[i].0;
        }
      }
    }
  }

  /** On a list whose numbers increase, `signup` issues an unused number and
      the numbers keep increasing. */
  lemma SignupKeepsAscending(signups: seq<PartySignup>, conn: ConnId)
    requires Ascending(signups) && CanSignup(signups)
    ensures !HasPartyNumber(signups, NextPartyNumber(signups))
    ensures Ascending(signups + [(NextPartyNumber(signups), conn)])
  {
  }

  /** `signup` relies on the last entry, not the largest: after two loads in
      decreasing order, the second `signup` re-issues a number already taken. */
  lemma SignupAfterLoadsCanRepeat()
    ensures
      var params := DefaultParameters();
      var loaded := LoadedSignups(LoadedSignups([], Uuid(0), params, 10, 3), Uuid(0), params, 11, 1);
      && loaded == [(3, 10), (1, 11)]
      && Registry(loaded, params.parties)
      && NextPartyNumber(loaded) == 2
      && var once := loaded + [(2, 12)];
         NextPartyNumber(once) == 3 && HasPartyNumber(once, 3)
  {
    var params := DefaultParameters();
    var first := LoadedSignups([], Uuid(0), params, 10, 3);
    assert first == [(3, 10)];
    assert !HasPartyNumber(first, 1);
    var loaded := LoadedSignups(first, Uuid(0), params, 11, 1);
    assert loaded == [(3, 10), (1, 11)];
    var once := loaded + [(2, 12)];
    assert once[0].0 == 3;
  }

  // ------------------------------------------------------------------- groups

  /** A group of connected clients and its sessions. */
  datatype Group = Group(uuid: Uuid, params: Parameters, name: string,
                         clients: seq<ConnId>, sessions: map<Uuid, Session>)

  /** `Group::new`: `conn` is the only client and there are no sessions yet. */
  function NewGroup(uuid: Uuid, conn: ConnId, params: Parameters, name: string): (g: Group)
    ensures g.clients == [conn] && g.sessions == map[]
    ensures g.uuid == uuid && g.params == params && g.name == name
  {
    Group(uuid, params, name, [conn], map[])
  }

  /** `clients.iter().position(..)`: the index of the first occurrence of `x`. */
  function Position(s: seq<ConnId>, x: ConnId): (r: Option<nat>)
    ensures r.Some? ==> r.value < |s| && s[r.value] == x && x !in s[..r.value]
    ensures r.None? <==> x !in s
  {
    if |s| == 0 then None
    else if s[0] == x then Some(0)
    else match Position(s[1..], x)
      case None => None
      case Some(i) => Some(i + 1)
  }

  /** `position` followed by `Vec::remove`: the first occurrence of `x` is dropped. */
  function RemoveFirst(s: seq<ConnId>, x: ConnId): (r: seq<ConnId>)
    ensures x !in s ==> r == s
    ensures x in s ==> |r| == |s| - 1
  {
    match Position(s, x)
    case None => s
    case Some(i) => s[..i] + s[i + 1..]
  }

  /** Removing the first occurrence takes out exactly one copy of `x` when
      there is one, keeps every other element and the order of the rest. */
  lemma RemoveFirstDropsOne(s: seq<ConnId>, x: ConnId)
    ensures multiset(RemoveFirst(s, x)) == multiset(s) - multiset{x}
    ensures |RemoveFirst(s, x)| == if x in s then |s| - 1 else |s|
    ensures x !in s ==> RemoveFirst(s, x) == s
    ensures x in s ==> exists i | 0 <= i < |s| ::
              s[i] == x && x !in s[..i] && RemoveFirst(s, x) == s[..i] + s[i + 1..]
  {
    match Position(s, x)
    case None =>
      assert multiset(s)[x] == 0;
    case Some(i) =>
      assert s == s[..i] + [s[i]] + s[i + 1..];
      assert multiset(s) == multiset(s[..i]) + multiset{x} + multiset(s[i + 1..]);
  }

  /** A group after its client `conn` left. */
  function Detached(g: Group, conn: ConnId): Group {
    g.(clients := RemoveFirst(g.clients, conn))
  }

  /** The groups after `client_disconnected(conn)`: `conn` leaves every group
      once, and the groups left without clients are dropped. */
  function PrunedGroups(groups: map<Uuid, Group>, conn: ConnId): (r: map<Uuid, Group>)
    ensures r.Keys <= groups.Keys
    ensures forall k | k in r :: r[k].clients != []
  {
    map k | k in groups && Detached(groups[k], conn).clients != [] :: Detached(groups[k], conn)
  }

  /** What a disconnect does to one group: it survives exactly when it had a
      client other than (one copy of) `conn`; a survivor has lost one copy of
      `conn` and kept its sessions, parameters and name; a group that never
      had `conn` as a client is unchanged. */
  lemma DisconnectOneGroup(groups: map<Uuid, Group>, conn: ConnId, k: Uuid)
    requires k in groups
    ensures k in PrunedGroups(groups, conn) <==>
              |groups[k].clients| > (if conn in groups[k].clients then 1 else 0)
    ensures k in PrunedGroups(groups, conn) ==>
              var g := PrunedGroups(groups, conn)[k];
              && multiset(g.clients) == multiset(groups[k].clients) - multiset{conn}
              && g.sessions == groups[k].sessions
              && g.uuid == groups[k].uuid && g.params == groups[k].params
              && g.name == groups[k].name
    ensures conn !in groups[k].clients && groups[k].clients != [] ==>
              k in PrunedGroups(groups, conn) && PrunedGroups(groups, conn)[k] == groups[k]
  {
    RemoveFirstDropsOne(groups[k].clients, conn);
  }

  /** A group made by `Group::new(conn, ..)` lives until `conn` disconnects. */
  lemma NewGroupLifetime(groups: map<Uuid, Group>, id: Uuid, conn: ConnId, other: ConnId,
                         params: Parameters, name: string)
    requires other != conn
    ensures id !in PrunedGroups(groups[id := NewGroup(id, conn, params, name)], conn)
    ensures var g := NewGroup(id, conn, params, name);
            PrunedGroups(groups[id := g], other)[id] == g
  {
  }

  /** The server's shared state: the connected clients (the message sender each
      maps to is opaque, so only the set of identifiers is kept) and the groups. */
  class State {
    var clients: set<ConnId>
    var groups: map<Uuid, Group>

    /** The state `Server::start` creates: no clients, no groups. */
    constructor ()
      ensures clients == {} && groups == map[]
    {
      clients := {};
      groups := map[];
    }

    /** `client_disconnected`: forget `conn`, remove it from every group it
        belongs to, then drop the groups left empty. Sessions and their sign-ups
        are not touched. */
    method ClientDisconnected(conn: ConnId)
      modifies this`clients, this`groups
      ensures clients == old(clients) - {conn}
      ensures groups == PrunedGroups(old(groups), conn)
    {
      clients := clients - {conn};
      var emptyGroups := DetachEverywhere(conn);
      ghost var detached := groups;
      RemoveGroups(emptyGroups);
      PruneInTwoPasses(old(groups), conn, detached, set k | k in emptyGroups);
    }

    /** The first pass of `client_disconnected`: remove the first occurrence of
        `conn` from each group's clients and list the groups left empty. */
    method DetachEverywhere(conn: ConnId) returns (emptyGroups: seq<Uuid>)
      modifies this`groups
      ensures groups.Keys == old(groups).Keys
      ensures forall k | k in groups :: groups[k] == Detached(old(groups)[k], conn)
      ensures forall k :: k in emptyGroups <==> k in groups && groups[k].clients == []
    {
      var original := groups;
      var updated := groups;
      emptyGroups := [];
      var pending := updated.Keys;
      while pending != {}
        invariant pending <= original.Keys && updated.Keys == original.Keys
        invariant forall k | k in pending :: updated[k] == original[k]
        invariant forall k | k in original && k !in pending :: updated[k] == Detached(original[k], conn)
        invariant forall k :: k in emptyGroups <==>
                    k in original && k !in pending && Detached(original[k], conn).clients == []
        decreases pending
      {
        var key :| key in pending;
        var group := updated[key];
        var index := Position(group.clients, conn);
        if index.Some? {
          group := group.(clients := group.clients[..index.value] + group.clients[index.value + 1..]);
        }
        assert group == Detached(original[key], conn);
        updated := updated[key := group];
        if group.clients == [] {
          emptyGroups := emptyGroups + [key];
        }
        pending := pending - {key};
      }
      groups := updated;
    }

    /** The second pass of `client_disconnected`: delete the listed groups. */
    method RemoveGroups(keys: seq<Uuid>)
      modifies this`groups
      ensures groups == old(groups) - set k | k in keys
    {
      ghost var removed: set<Uuid> := {};
      var i := 0;
      while i < |keys|
        invariant 0 <= i <= |keys|
        invariant removed == set k | k in keys[..i]
        invariant groups == old(groups) - removed
      {
        assert keys[..i + 1] == keys[..i] + [keys[i]];
        groups := groups - {keys[i]};
        removed := removed + {keys[i]};
        i := i + 1;
      }
      assert keys[..i] == keys;
    }
  }

  /** Detaching `conn` from every group, then deleting the groups left empty,
      yields `PrunedGroups`. */
  lemma PruneInTwoPasses(groups: map<Uuid, Group>, conn: ConnId, detached: map<Uuid, Group>,
                         empty: set<Uuid>)
    requires detached.Keys == groups.Keys
    requires forall k | k in detached :: detached[k] == Detached(groups[k], conn)
    requires forall k :: k in empty <==> k in detached && detached[k].clients == []
    ensures detached - empty == PrunedGroups(groups, conn)
  {
  }

  // ------------------------------------------------------------ notifications

  /** A JSON-RPC response; its content does not affect who receives it. */
  datatype Response = Response(body: string)

  /** `Notification`, sent after a request has been answered. */
  datatype Notification =
    | Noop
    | GroupBroadcast(groupId: Uuid, filter: Option<seq<ConnId>>, response: Response)
    | SessionBroadcast(groupId: Uuid, sessionId: Uuid, filter: Option<seq<ConnId>>,
                       response: Response)
    | Relay(messages: seq<(ConnId, Response)>)

  /** `clients` without the identifiers listed in `f`, in their original order. */
  function Without(clients: seq<ConnId>, f: seq<ConnId>): (r: seq<ConnId>)
    ensures forall c :: c in r <==> c in clients && c !in f
    ensures |r| <= |clients|
  {
    if |clients| == 0 then []
    else (if clients[0] in f then [] else [clients[0]]) + Without(clients[1..], f)
  }

  /** `filter_clients`: no filter keeps the list; a filter removes every
      identifier it lists and nothing else. */
  function FilterClients(clients: seq<ConnId>, filter: Option<seq<ConnId>>): (r: seq<ConnId>)
    ensures filter.None? ==> r == clients
    ensures filter.Some? ==> forall c :: c in r <==> c in clients && c !in filter.value
  {
    match filter
    case None => clients
    case Some(f) => Without(clients, f)
  }

  /** Filtering commutes with concatenation, so the kept identifiers stay in
      their original order. */
  lemma {:induction false} WithoutAppend(a: seq<ConnId>, b: seq<ConnId>, f: seq<ConnId>)
    ensures Without(a + b, f) == Without(a, f) + Without(b, f)
  {
    if a == [] {
      assert a + b == b;
    } else {
      assert (a + b)[0] == a[0];
      assert (a + b)[1..] == a[1..] + b;
      WithoutAppend(a[1..], b, f);
    }
  }

  /** An identifier not in the filter keeps every one of its occurrences; one
      in the filter keeps none. */
  lemma {:induction false} WithoutCount(clients: seq<ConnId>, f: seq<ConnId>, c: ConnId)
    ensures multiset(Without(clients, f))[c] == if c in f then 0 else multiset(clients)[c]
  {
    if clients != [] {
      WithoutCount(clients[1..], f, c);
      assert clients == [clients[0]] + clients[1..];
    }
  }

  /** Filtering twice with the same filter is filtering once. */
  lemma {:induction false} FilterClientsIdempotent(clients: seq<ConnId>, filter: Option<seq<ConnId>>)
    ensures FilterClients(FilterClients(clients, filter), filter) == FilterClients(clients, filter)
  {
    if filter.Some? {
      WithoutIdempotent(clients, filter.value);
    }
  }

  lemma {:induction false} WithoutIdempotent(clients: seq<ConnId>, f: seq<ConnId>)
    ensures Without(Without(clients, f), f) == Without(clients, f)
  {
    if clients != [] {
      var head := if clients[0] in f then [] else [clients[0]];
      WithoutAppend(head, Without(clients[1..], f), f);
      WithoutIdempotent(clients[1..], f);
      if clients[0] !in f {
        assert Without(head, f) == head by {
          assert head[1..] == [];
        }
      }
    }
  }

  /** The connection identifiers of a sign-up list, in sign-up order. */
  function SignupConns(signups: seq<PartySignup>): (r: seq<ConnId>)
    ensures |r| == |signups| && forall i | 0 <= i < |r| :: r[i] == signups[i].1
  {
    seq(|signups|, i requires 0 <= i < |signups| => signups[i].1)
  }

  /** The session a `SessionBroadcast` is addressed to, when it exists. */
  function TargetSession(groups: map<Uuid, Group>, n: Notification): set<object> {
    if n.SessionBroadcast? && n.groupId in groups && n.sessionId in groups[n.groupId].sessions
    then {groups[n.groupId].sessions[n.sessionId]}
    else {}
  }

  /** Whom a group or session broadcast addresses before filtering: the group's
      clients, or the session's signed-up connections in sign-up order; when
      the group or the session does not exist, the placeholder connection 0. */
  function Audience(groups: map<Uuid, Group>, n: Notification): (a: seq<ConnId>)
    requires n.GroupBroadcast? || n.SessionBroadcast?
    reads TargetSession(groups, n)
    ensures n.GroupBroadcast? && n.groupId in groups ==> a == groups[n.groupId].clients
    ensures n.SessionBroadcast? && n.groupId in groups && n.sessionId in groups[n.groupId].sessions ==>
              var signups := groups[n.groupId].sessions[n.sessionId].partySignups;
              |a| == |signups| && forall i | 0 <= i < |a| :: a[i] == signups[i].1
    ensures n.groupId !in groups ==> a == [0]
    ensures n.SessionBroadcast? && n.groupId in groups && n.sessionId !in groups[n.groupId].sessions ==>
              a == [0]
  {
    if n.groupId !in groups then [0]
    else if n.GroupBroadcast? then groups[n.groupId].clients
    else if n.sessionId in groups[n.groupId].sessions
    then SignupConns(groups[n.groupId].sessions[n.sessionId].partySignups)
    else [0]
  }

  /** The connections `rpc_notify` sends a notification to, in sending order:
      a broadcast reaches its audience minus the filter, a relay the listed
      connections, a no-op nobody. */
  function Recipients(groups: map<Uuid, Group>, n: Notification): (r: seq<ConnId>)
    reads TargetSession(groups, n)
    ensures n.Noop? ==> r == []
    ensures n.Relay? ==> |r| == |n.messages| && forall i | 0 <= i < |r| :: r[i] == n.messages[i].0
    ensures n.GroupBroadcast? || n.SessionBroadcast? ==>
              forall c :: c in r <==> c in Audience(groups, n) && (n.filter.None? || c !in n.filter.value)
    ensures (n.GroupBroadcast? || n.SessionBroadcast?) && n.filter.None? ==> r == Audience(groups, n)
  {
    match n
    case Noop => []
    case Relay(messages) => seq(|messages|, i requires 0 <= i < |messages| => messages[i].0)
    case GroupBroadcast(_, filter, _) => FilterClients(Audience(groups, n), filter)
    case SessionBroadcast(_, _, filter, _) => FilterClients(Audience(groups, n), filter)
  }

  /** `rpc_response` sends only to identifiers that still have a sender in
      `clients`; the others are skipped with a warning. */
  function Delivered(clients: set<ConnId>, recipients: seq<ConnId>): (d: seq<ConnId>)
    ensures forall c :: c in d <==> c in recipients && c in clients
  {
    if |recipients| == 0 then []
    else (if recipients[0] in clients then [recipients[0]] else []) + Delivered(clients, recipients[1..])
  }

  /** A broadcast to a missing group or session goes only to the placeholder
      connection 0, which no client ever holds, so it reaches nobody. */
  lemma UnknownTargetReachesNobody(clients: set<ConnId>, groups: map<Uuid, Group>, n: Notification)
    requires 0 !in clients
    requires n.GroupBroadcast? || n.SessionBroadcast?
    requires n.groupId !in groups || (n.SessionBroadcast? && n.sessionId !in groups[n.groupId].sessions)
    ensures Recipients(groups, n) == if n.filter.Some? && 0 in n.filter.value then [] else [0]
    ensures Delivered(clients, Recipients(groups, n)) == []
  {
  }
}
