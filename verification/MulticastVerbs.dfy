/** `multicast subscribe | unsubscribe | publish | unpublish`: four loops that write role
    updates computed from one snapshot of the user, tolerating individual failures. */
module MulticastVerbs {
  import opened Basics
  import opened Onchain
  import opened Ledger

  datatype Verb = Subscribe | Unsubscribe | Publish | Unpublish {
    predicate Adds() {
      this == Subscribe || this == Publish
    }

    predicate OnSubscribers() {
      this == Subscribe || this == Unsubscribe
    }

    /** The role list this verb changes. */
    function Target(user: User): seq<Pubkey> {
      if OnSubscribers() then user.subscribers else user.publishers
    }

    /** The role list this verb must carry over. */
    function Carried(user: User): seq<Pubkey> {
      if OnSubscribers() then user.publishers else user.subscribers
    }

    /** The snapshot says a call is needed for this group. */
    predicate Needs(user: User, group: Pubkey) {
      (group in Target(user)) != Adds()
    }
  }

  /** A requested group: its code and its address. */
  datatype Request = Request(code: Code, group: Pubkey)

  // --- resolving codes and loading the user ---

  /** The first listed group with this code. */
  function FindGroup(listing: seq<(Pubkey, Code)>, code: Code): (pk: Option<Pubkey>)
    ensures pk.None? <==> forall g <- listing :: g.1 != code
    ensures pk.Some? ==> exists i :: 0 <= i < |listing| && listing[i] == (pk.value, code)
                                     && forall j :: 0 <= j < i ==> listing[j].1 != code
  {
    if listing == [] then None
    else if listing[0].1 == code then Some(listing[0].0)
    else FindGroup(listing[1..], code)
  }

  /** All codes resolved in order, or the first unknown one. */
  datatype Resolution = Resolved(requests: seq<Request>) | Unknown(code: Code)

  ghost predicate IsResolutionOf(listing: seq<(Pubkey, Code)>, codes: seq<Code>, requests: seq<Request>) {
    && |requests| == |codes|
    && forall i :: 0 <= i < |codes| ==>
         requests[i].code == codes[i] && Some(requests[i].group) == FindGroup(listing, codes[i])
  }

  method ResolveGroups(listing: seq<(Pubkey, Code)>, codes: seq<Code>) returns (r: Resolution)
    ensures r.Resolved? <==> forall c <- codes :: FindGroup(listing, c).Some?
    ensures r.Resolved? ==> IsResolutionOf(listing, codes, r.requests)
    ensures r.Unknown? ==> exists i :: 0 <= i < |codes| && codes[i] == r.code && (forall g <- listing :: g.1 != r.code)
                                       && forall j :: 0 <= j < i ==> FindGroup(listing, codes[j]).Some?
  {
    var requests: seq<Request> := [];
    for i := 0 to |codes|
      invariant |requests| == i
      invariant forall j :: 0 <= j < i ==>
                  requests[j].code == codes[j] && Some(requests[j].group) == FindGroup(listing, codes[j])
    {
      var pk := FindGroup(listing, codes[i]);
      if pk.None? {
        assert codes[i] in codes;
        return Unknown(codes[i]);
      }
      requests := requests + [Request(codes[i], pk.value)];
    }
    return Resolved(requests);
  }

  /** The first user, in iteration order, that is the client's Multicast user. */
  function FindMulticastUser(users: map<Pubkey, User>, order: seq<Pubkey>, clientIp: Ip): (pk: Option<Pubkey>)
    ensures pk.Some? ==> pk.value in order && pk.value in users &&
                         users[pk.value].clientIp == clientIp && users[pk.value].userType == Multicast
    ensures pk.Some? ==> exists i :: 0 <= i < |order| && order[i] == pk.value && forall j :: 0 <= j < i ==>
              order[j] in users ==> users[order[j]].clientIp != clientIp || users[order[j]].userType != Multicast
    ensures pk.None? ==> forall k <- order ::
              k in users ==> users[k].clientIp != clientIp || users[k].userType != Multicast
  {
    if order == [] then None
    else if order[0] in users && users[order[0]].clientIp == clientIp && users[order[0]].userType == Multicast
    then Some(order[0])
    else FindMulticastUser(users, order[1..], clientIp)
  }

  // --- the writes a verb issues ---

  function WriteFor(verb: Verb, snapshot: User, pk: Pubkey, group: Pubkey, ok: bool): RoleWrite {
    if verb.OnSubscribers() then RoleWrite(pk, group, group in snapshot.publishers, verb.Adds(), ok)
    else RoleWrite(pk, group, verb.Adds(), group in snapshot.subscribers, ok)
  }

  /** The calls for the first `k` requests: one per request that the snapshot says is needed,
      the i-th accepted unless the ledger rejects its write number `n + i`. */
  function IssuedFor(verb: Verb, snapshot: User, pk: Pubkey, requests: seq<Request>, k: nat, rejects: nat -> bool,
                     n: nat): seq<RoleWrite>
    requires k <= |requests|
  {
    if k == 0 then []
    else
      var before := IssuedFor(verb, snapshot, pk, requests, k - 1, rejects, n);
      var group := requests[k - 1].group;
      if verb.Needs(snapshot, group) then before + [WriteFor(verb, snapshot, pk, group, !rejects(n + |before|))]
      else before
  }

  function Issued(verb: Verb, snapshot: User, pk: Pubkey, requests: seq<Request>, rejects: nat -> bool,
                  n: nat): seq<RoleWrite> {
    IssuedFor(verb, snapshot, pk, requests, |requests|, rejects, n)
  }

  /** The codes of the first `k` requests whose call was rejected, in order. */
  function FailuresFor(verb: Verb, snapshot: User, pk: Pubkey, requests: seq<Request>, k: nat, rejects: nat -> bool,
                       n: nat): seq<Code>
    requires k <= |requests|
  {
    if k == 0 then []
    else
      var before := FailuresFor(verb, snapshot, pk, requests, k - 1, rejects, n);
      var Request(code, group) := requests[k - 1];
      if verb.Needs(snapshot, group) && rejects(n + |IssuedFor(verb, snapshot, pk, requests, k - 1, rejects, n)|)
      then before + [code] else before
  }

  function Failures(verb: Verb, snapshot: User, pk: Pubkey, requests: seq<Request>, rejects: nat -> bool,
                    n: nat): seq<Code> {
    FailuresFor(verb, snapshot, pk, requests, |requests|, rejects, n)
  }

  lemma {:induction false} IssuedShape(verb: Verb, snapshot: User, pk: Pubkey, requests: seq<Request>, k: nat,
                                       rejects: nat -> bool, n: nat)
    requires k <= |requests|
    ensures forall w <- IssuedFor(verb, snapshot, pk, requests, k, rejects, n) ::
              w.user == pk && verb.Needs(snapshot, w.group) && w == WriteFor(verb, snapshot, pk, w.group, w.ok)
  {
    if k > 0 {
      IssuedShape(verb, snapshot, pk, requests, k - 1, rejects, n);
    }
  }

  function Rejected(writes: seq<RoleWrite>): seq<RoleWrite> {
    Filter((w: RoleWrite) => !w.ok, writes)
  }

  lemma RejectedNext(writes: seq<RoleWrite>, w: RoleWrite)
    ensures Rejected(writes + [w]) == if w.ok then Rejected(writes) else Rejected(writes) + [w]
  {
    FilterAppend((w: RoleWrite) => !w.ok, writes, [w]);
    assert [w][1..] == [];
  }

  /** The i-th failure is the code of the request, number `at[i]` of the first `k`, whose group the
      i-th rejected write was for. */
  ghost predicate Matched(failures: seq<Code>, rejected: seq<RoleWrite>, requests: seq<Request>, k: nat, at: seq<nat>)
    requires k <= |requests|
  {
    && |at| == |failures| == |rejected|
    && (forall i, j :: 0 <= i < j < |at| ==> at[i] < at[j])
    && forall i :: 0 <= i < |at| ==>
         at[i] < k && failures[i] == requests[at[i]].code && rejected[i].group == requests[at[i]].group
  }

  lemma MatchedMore(failures: seq<Code>, rejected: seq<RoleWrite>, requests: seq<Request>, k: nat, at: seq<nat>,
                    w: RoleWrite)
    requires k < |requests| && Matched(failures, rejected, requests, k, at) && w.group == requests[k].group
    ensures Matched(failures, rejected, requests, k + 1, at)
    ensures Matched(failures + [requests[k].code], rejected + [w], requests, k + 1, at + [k])
  {
  }

  /** One request more adds a failure exactly if it adds a rejected write, which is for its group. */
  lemma OneRequestMore(verb: Verb, snapshot: User, pk: Pubkey, requests: seq<Request>, k: nat, rejects: nat -> bool,
                       n: nat) returns (w: RoleWrite)
    requires k < |requests|
    ensures
      var failures, failures' := FailuresFor(verb, snapshot, pk, requests, k, rejects, n),
                                 FailuresFor(verb, snapshot, pk, requests, k + 1, rejects, n);
      var rejected, rejected' := Rejected(IssuedFor(verb, snapshot, pk, requests, k, rejects, n)),
                                 Rejected(IssuedFor(verb, snapshot, pk, requests, k + 1, rejects, n));
      && w.group == requests[k].group
      && (|| (failures' == failures && rejected' == rejected)
          || (failures' == failures + [requests[k].code] && rejected' == rejected + [w]))
  {
    var issued := IssuedFor(verb, snapshot, pk, requests, k, rejects, n);
    w := WriteFor(verb, snapshot, pk, requests[k].group, !rejects(n + |issued|));
    RejectedNext(issued, w);
  }

  /** The failures are the rejected writes, one for one and in order. */
  lemma {:induction false} FailuresAreRejections(verb: Verb, snapshot: User, pk: Pubkey, requests: seq<Request>,
                                                 k: nat, rejects: nat -> bool, n: nat)
    returns (at: seq<nat>)
    requires k <= |requests|
    ensures Matched(FailuresFor(verb, snapshot, pk, requests, k, rejects, n),
                    Rejected(IssuedFor(verb, snapshot, pk, requests, k, rejects, n)), requests, k, at)
  {
    if k == 0 {
      return [];
    }
    at := FailuresAreRejections(verb, snapshot, pk, requests, k - 1, rejects, n);
    var failures := FailuresFor(verb, snapshot, pk, requests, k - 1, rejects, n);
    var rejected := Rejected(IssuedFor(verb, snapshot, pk, requests, k - 1, rejects, n));
    var w := OneRequestMore(verb, snapshot, pk, requests, k - 1, rejects, n);
    MatchedMore(failures, rejected, requests, k - 1, at, w);
    if |FailuresFor(verb, snapshot, pk, requests, k, rejects, n)| > |failures| {
      at := at + [k - 1];
    }
  }

  // --- warnings ---

  function CountKept(list: seq<Pubkey>, removed: seq<Pubkey>): nat {
    |Filter(NotIn(removed), list)|
  }

  predicate WouldEmptyPublishers(user: User, remove: seq<Pubkey>) {
    user.publishers != [] && CountKept(user.publishers, remove) == 0
  }

  predicate WouldEmptyAllRoles(user: User, removePubs: seq<Pubkey>, removeSubs: seq<Pubkey>) {
    && !(removePubs == [] && removeSubs == [])
    && CountKept(user.publishers, removePubs) == 0
    && CountKept(user.subscribers, removeSubs) == 0
  }

  function Groups(requests: seq<Request>): seq<Pubkey> {
    if requests == [] then [] else [requests[0].group] + Groups(requests[1..])
  }

  function EffectiveRemovals(verb: Verb, snapshot: User, requests: seq<Request>): seq<Pubkey> {
    Filter(IsIn(verb.Target(snapshot)), Groups(requests))
  }

  predicate IdleWarning(verb: Verb, snapshot: User, requests: seq<Request>) {
    var removals := EffectiveRemovals(verb, snapshot, requests);
    match verb
    case Unsubscribe => WouldEmptyAllRoles(snapshot, [], removals)
    case Unpublish => WouldEmptyAllRoles(snapshot, removals, [])
    case _ => false
  }

  predicate LastPublisherWarning(verb: Verb, snapshot: User, requests: seq<Request>) {
    verb == Unpublish && WouldEmptyPublishers(snapshot, EffectiveRemovals(verb, snapshot, requests))
  }

  // --- the verbs ---

  datatype Outcome =
    | NoMulticastUser
    | UnknownGroup(code: Code)
    | Done(failures: seq<Code>, idleWarning: bool, lastPublisherWarning: bool)

  /** One request: skip it if the snapshot says it is already so; otherwise send the verb's own
      flag with the other role as the snapshot has it. */
  method WriteRole(verb: Verb, ledger: Ledger, userPk: Pubkey, user: User, request: Request) returns (failed: seq<Code>)
    requires userPk in ledger.users
    modifies ledger`users, ledger`writes
    ensures userPk in ledger.users
    ensures !verb.Needs(user, request.group) ==>
              failed == [] && ledger.users == old(ledger.users) && ledger.writes == old(ledger.writes)
    ensures verb.Needs(user, request.group) ==>
              var w := WriteFor(verb, user, userPk, request.group, !ledger.rejects(|old(ledger.writes)|));
              && failed == (if w.ok then [] else [request.code])
              && ledger.writes == old(ledger.writes) + [w]
              && ledger.users == ApplyWrite(ledger.semantics, old(ledger.users), w)
  {
    var Request(code, group) := request;
    if (group in verb.Target(user)) == verb.Adds() {
      return [];
    }
    var carry := group in verb.Carried(user);
    var publisher := if verb.OnSubscribers() then carry else verb.Adds();
    var subscriber := if verb.OnSubscribers() then verb.Adds() else carry;
    var ok := ledger.UpdateMulticastGroupRoles(userPk, group, publisher, subscriber);
    return if ok then [] else [code];
  }

  /** What has been written after the first `i` requests. */
  ghost predicate Written(verb: Verb, pk: Pubkey, user: User, requests: seq<Request>, i: nat, semantics: Semantics,
                          rejects: nat -> bool,
                          writes: seq<RoleWrite>, users: map<Pubkey, User>,
                          writes': seq<RoleWrite>, users': map<Pubkey, User>, failures: seq<Code>)
    requires i <= |requests|
  {
    var issued := IssuedFor(verb, user, pk, requests, i, rejects, |writes|);
    && writes' == writes + issued
    && users' == ApplyWrites(semantics, users, issued)
    && failures == FailuresFor(verb, user, pk, requests, i, rejects, |writes|)
  }

  lemma WrittenSkip(verb: Verb, pk: Pubkey, user: User, requests: seq<Request>, i: nat,
                    semantics: Semantics, rejects: nat -> bool,
                    writes: seq<RoleWrite>, users: map<Pubkey, User>,
                    writes': seq<RoleWrite>, users': map<Pubkey, User>, failures: seq<Code>)
    requires i < |requests| && !verb.Needs(user, requests[i].group)
    requires Written(verb, pk, user, requests, i, semantics, rejects, writes, users, writes', users', failures)
    ensures Written(verb, pk, user, requests, i + 1, semantics, rejects, writes, users, writes', users', failures)
  {
  }

  lemma WrittenMore(verb: Verb, pk: Pubkey, user: User, requests: seq<Request>, i: nat,
                    semantics: Semantics, rejects: nat -> bool,
                    writes: seq<RoleWrite>, users: map<Pubkey, User>,
                    writes': seq<RoleWrite>, users': map<Pubkey, User>, failures: seq<Code>,
                    w: RoleWrite)
    requires i < |requests| && verb.Needs(user, requests[i].group)
    requires Written(verb, pk, user, requests, i, semantics, rejects, writes, users, writes', users', failures)
    requires w == WriteFor(verb, user, pk, requests[i].group, !rejects(|writes'|))
    ensures Written(verb, pk, user, requests, i + 1, semantics, rejects, writes, users, writes' + [w],
                    ApplyWrite(semantics, users', w), if w.ok then failures else failures + [requests[i].code])
  {
    var issued := IssuedFor(verb, user, pk, requests, i, rejects, |writes|);
    IssuedMore(verb, user, pk, requests, i, rejects, |writes|, w);
    ApplyAppend(semantics, users, issued, w);
    assert (writes + issued) + [w] == writes + (issued + [w]);
  }

  lemma IssuedMore(verb: Verb, user: User, pk: Pubkey, requests: seq<Request>, i: nat, rejects: nat -> bool, n: nat,
                   w: RoleWrite)
    requires i < |requests| && verb.Needs(user, requests[i].group)
    requires w == WriteFor(verb, user, pk, requests[i].group,
                           !rejects(n + |IssuedFor(verb, user, pk, requests, i, rejects, n)|))
    ensures IssuedFor(verb, user, pk, requests, i + 1, rejects, n)
            == IssuedFor(verb, user, pk, requests, i, rejects, n) + [w]
    ensures
      var failures := FailuresFor(verb, user, pk, requests, i, rejects, n);
      FailuresFor(verb, user, pk, requests, i + 1, rejects, n)
      == if w.ok then failures else failures + [requests[i].code]
  {
  }

  /** The loop of a verb over the requests, collecting the codes of the calls that failed. */
  method WriteRoles(verb: Verb, ledger: Ledger, userPk: Pubkey, user: User,
                    requests: seq<Request>) returns (failures: seq<Code>)
    requires userPk in ledger.users
    modifies ledger`users, ledger`writes
    ensures Written(verb, userPk, user, requests, |requests|, ledger.semantics, ledger.rejects,
                    old(ledger.writes), old(ledger.users), ledger.writes, ledger.users, failures)
  {
    failures := [];
    for i := 0 to |requests|
      invariant userPk in ledger.users
      invariant Written(verb, userPk, user, requests, i, ledger.semantics, ledger.rejects,
                        old(ledger.writes), old(ledger.users), ledger.writes, ledger.users, failures)
    {
      if verb.Needs(user, requests[i].group) {
        WrittenMore(verb, userPk, user, requests, i, ledger.semantics, ledger.rejects,
                    old(ledger.writes), old(ledger.users), ledger.writes, ledger.users, failures,
                    WriteFor(verb, user, userPk, requests[i].group, !ledger.rejects(|ledger.writes|)));
      } else {
        WrittenSkip(verb, userPk, user, requests, i, ledger.semantics, ledger.rejects,
                    old(ledger.writes), old(ledger.users), ledger.writes, ledger.users, failures);
      }
      var failed := WriteRole(verb, ledger, userPk, user, requests[i]);
      failures := failures + failed;
    }
  }

  method Execute(verb: Verb, ledger: Ledger, order: seq<Pubkey>, clientIp: Ip, listing: seq<(Pubkey, Code)>,
                 codes: seq<Code>)
    returns (outcome: Outcome, ghost pk: Pubkey, ghost requests: seq<Request>)
    requires Elements(order) == ledger.users.Keys
    modifies ledger`users, ledger`writes
    ensures !outcome.Done? ==> ledger.users == old(ledger.users) && ledger.writes == old(ledger.writes)
    ensures outcome.NoMulticastUser? <==>
            forall k <- old(ledger.users) ::
              old(ledger.users)[k].clientIp != clientIp || old(ledger.users)[k].userType != Multicast
    ensures outcome.UnknownGroup? ==> outcome.code in codes && forall g <- listing :: g.1 != outcome.code
    ensures outcome.Done? ==>
              && Some(pk) == FindMulticastUser(old(ledger.users), order, clientIp)
              && IsResolutionOf(listing, codes, requests)
              && var snapshot := old(ledger.users)[pk];
                 var issued := Issued(verb, snapshot, pk, requests, ledger.rejects, |old(ledger.writes)|);
                 && ledger.writes == old(ledger.writes) + issued
                 && ledger.users == old(ledger.users)[pk := Replay(ledger.semantics, snapshot, issued)]
                 && outcome.failures == Failures(verb, snapshot, pk, requests, ledger.rejects, |old(ledger.writes)|)
                 && outcome.idleWarning == IdleWarning(verb, snapshot, requests)
                 && outcome.lastPublisherWarning == LastPublisherWarning(verb, snapshot, requests)
  {
    pk, requests := System, [];
    assert forall k <- ledger.users :: k in Elements(order);
    var found := FindMulticastUser(ledger.users, order, clientIp);
    if found.None? {
      return NoMulticastUser, pk, requests;
    }
    var userPk := found.value;
    var user := ledger.users[userPk];
    pk := userPk;
    var resolution := ResolveGroups(listing, codes);
    if resolution.Unknown? {
      return UnknownGroup(resolution.code), pk, requests;
    }
    requests := resolution.requests;
    var idle := IdleWarning(verb, user, resolution.requests);
    var lastPublisher := LastPublisherWarning(verb, user, resolution.requests);
    var failures := WriteRoles(verb, ledger, userPk, user, resolution.requests);
    IssuedShape(verb, user, userPk, requests, |requests|, ledger.rejects, |old(ledger.writes)|);
    ApplyToOne(ledger.semantics, old(ledger.users), userPk,
               Issued(verb, user, userPk, requests, ledger.rejects, |old(ledger.writes)|));
    return Done(failures, idle, lastPublisher), pk, requests;
  }

  // --- what the writes amount to ---

  /** The groups of the accepted writes, in order. */
  function Accepted(writes: seq<RoleWrite>): seq<Pubkey> {
    if writes == [] then []
    else
      var before := Accepted(writes[..|writes| - 1]);
      var last := writes[|writes| - 1];
      if last.ok then before + [last.group] else before
  }

  /** The role list a verb leaves behind: additions in order of first success, removals of
      every group that succeeded. */
  function Changed(verb: Verb, list: seq<Pubkey>, accepted: seq<Pubkey>): seq<Pubkey> {
    if verb.Adds() then list + Distinct(accepted) else Filter(NotIn(accepted), list)
  }

  function WithLists(verb: Verb, user: User, target: seq<Pubkey>): User {
    if verb.OnSubscribers() then user.(subscribers := target) else user.(publishers := target)
  }

  lemma WithoutAbsent(list: seq<Pubkey>, group: Pubkey)
    requires group !in list
    ensures Without(list, group) == list
  {
    FilterAll(IsNot(group), list);
  }

  /** Under assign semantics, whatever the request list and whichever calls fail, a verb changes
      its own role list by exactly the groups whose call was accepted, and nothing else of the
      account: the flags carried over from the stale snapshot are always right. */
  lemma VerbEffect(verb: Verb, snapshot: User, pk: Pubkey, requests: seq<Request>,
                   rejects: nat -> bool, n: nat)
    ensures
      var issued := Issued(verb, snapshot, pk, requests, rejects, n);
      Replay(Assign, snapshot, issued) ==
      WithLists(verb, snapshot, Changed(verb, verb.Target(snapshot), Accepted(issued)))
  {
    IssuedShape(verb, snapshot, pk, requests, |requests|, rejects, n);
    CallsEffect(verb, snapshot, pk, Issued(verb, snapshot, pk, requests, rejects, n));
  }

  /** Verb by verb, on the account's own lists: subscribing and unsubscribing leave the publishers alone
      and add or remove the accepted groups among the subscribers; publishing and unpublishing the other
      way round. Additions come in order of their first success. */
  lemma VerbByVerb(snapshot: User, pk: Pubkey, requests: seq<Request>, rejects: nat -> bool, n: nat)
    ensures
      var issued := Issued(Subscribe, snapshot, pk, requests, rejects, n);
      Replay(Assign, snapshot, issued)
      == snapshot.(subscribers := snapshot.subscribers + Distinct(Accepted(issued)))
    ensures
      var issued := Issued(Unsubscribe, snapshot, pk, requests, rejects, n);
      Replay(Assign, snapshot, issued)
      == snapshot.(subscribers := Filter(NotIn(Accepted(issued)), snapshot.subscribers))
    ensures
      var issued := Issued(Publish, snapshot, pk, requests, rejects, n);
      Replay(Assign, snapshot, issued) == snapshot.(publishers := snapshot.publishers + Distinct(Accepted(issued)))
    ensures
      var issued := Issued(Unpublish, snapshot, pk, requests, rejects, n);
      Replay(Assign, snapshot, issued)
      == snapshot.(publishers := Filter(NotIn(Accepted(issued)), snapshot.publishers))
  {
    VerbEffect(Subscribe, snapshot, pk, requests, rejects, n);
    VerbEffect(Unsubscribe, snapshot, pk, requests, rejects, n);
    VerbEffect(Publish, snapshot, pk, requests, rejects, n);
    VerbEffect(Unpublish, snapshot, pk, requests, rejects, n);
  }

  /** The list says a call is needed, and the flags it has to carry: its own role as the verb wants it,
      the other as the snapshot has it. */
  ghost predicate CallsFor(verb: Verb, snapshot: User, w: RoleWrite) {
    match verb
    case Subscribe =>
      w.group !in snapshot.subscribers && w.subscriber && w.publisher == (w.group in snapshot.publishers)
    case Unsubscribe =>
      w.group in snapshot.subscribers && !w.subscriber && w.publisher == (w.group in snapshot.publishers)
    case Publish =>
      w.group !in snapshot.publishers && w.publisher && w.subscriber == (w.group in snapshot.subscribers)
    case Unpublish =>
      w.group in snapshot.publishers && !w.publisher && w.subscriber == (w.group in snapshot.subscribers)
  }

  ghost predicate IsNeeded(verb: Verb, snapshot: User, group: Pubkey) {
    match verb
    case Subscribe => group !in snapshot.subscribers
    case Unsubscribe => group in snapshot.subscribers
    case Publish => group !in snapshot.publishers
    case Unpublish => group in snapshot.publishers
  }

  /** `issued` holds one call for each of the first `k` requests that needs one, in order, with the
      flags of the verb; the i-th is accepted unless the ledger rejects its write number `n + i`. `at`
      are the requests with a call. */
  ghost predicate CallsMatch(verb: Verb, snapshot: User, pk: Pubkey, requests: seq<Request>, k: nat,
                             rejects: nat -> bool, n: nat, issued: seq<RoleWrite>, at: seq<nat>)
    requires k <= |requests|
  {
    && |at| == |issued| && (forall i, j :: 0 <= i < j < |at| ==> at[i] < at[j])
    && (forall j :: 0 <= j < k ==> (j in at <==> IsNeeded(verb, snapshot, requests[j].group)))
    && forall i :: 0 <= i < |at| ==>
         && at[i] < k && issued[i].user == pk && issued[i].group == requests[at[i]].group
         && CallsFor(verb, snapshot, issued[i]) && issued[i].ok == !rejects(n + i)
  }

  lemma MatchSkips(verb: Verb, snapshot: User, pk: Pubkey, requests: seq<Request>, k: nat, rejects: nat -> bool,
                   n: nat, issued: seq<RoleWrite>, at: seq<nat>)
    requires 0 < k <= |requests| && CallsMatch(verb, snapshot, pk, requests, k - 1, rejects, n, issued, at)
    requires !IsNeeded(verb, snapshot, requests[k - 1].group)
    ensures CallsMatch(verb, snapshot, pk, requests, k, rejects, n, issued, at)
  {
    assert k - 1 !in at;
  }

  lemma MatchCalls(verb: Verb, snapshot: User, pk: Pubkey, requests: seq<Request>, k: nat, rejects: nat -> bool,
                   n: nat, issued: seq<RoleWrite>, at: seq<nat>, w: RoleWrite)
    requires 0 < k <= |requests| && CallsMatch(verb, snapshot, pk, requests, k - 1, rejects, n, issued, at)
    requires w.group == requests[k - 1].group && w.user == pk && w.ok == !rejects(n + |issued|)
    requires IsNeeded(verb, snapshot, w.group) && CallsFor(verb, snapshot, w)
    ensures CallsMatch(verb, snapshot, pk, requests, k, rejects, n, issued + [w], at + [k - 1])
  {
    var issued', at' := issued + [w], at + [k - 1];
    forall j | 0 <= j < k ensures j in at' <==> IsNeeded(verb, snapshot, requests[j].group) {
      assert j < k - 1 ==> (j in at' <==> j in at);
    }
    forall i | 0 <= i < |at'|
      ensures at'[i] < k && issued'[i].user == pk && issued'[i].group == requests[at'[i]].group
      ensures CallsFor(verb, snapshot, issued'[i]) && issued'[i].ok == !rejects(n + i)
    {
      if i < |at| {
        assert issued'[i] == issued[i] && at'[i] == at[i];
      }
    }
  }

  lemma MatchOneMore(verb: Verb, snapshot: User, pk: Pubkey, requests: seq<Request>, k: nat, rejects: nat -> bool,
                     n: nat, issued: seq<RoleWrite>, at: seq<nat>, w: RoleWrite, issued': seq<RoleWrite>)
    returns (at': seq<nat>)
    requires 0 < k <= |requests| && CallsMatch(verb, snapshot, pk, requests, k - 1, rejects, n, issued, at)
    requires w.group == requests[k - 1].group && w.user == pk && w.ok == !rejects(n + |issued|)
    requires if IsNeeded(verb, snapshot, w.group) then CallsFor(verb, snapshot, w) && issued' == issued + [w]
             else issued' == issued
    ensures CallsMatch(verb, snapshot, pk, requests, k, rejects, n, issued', at')
  {
    if IsNeeded(verb, snapshot, w.group) {
      MatchCalls(verb, snapshot, pk, requests, k, rejects, n, issued, at, w);
      return at + [k - 1];
    } else {
      MatchSkips(verb, snapshot, pk, requests, k, rejects, n, issued, at);
      return at;
    }
  }

  lemma CallFits(verb: Verb, snapshot: User, pk: Pubkey, group: Pubkey, ok: bool)
    ensures verb.Needs(snapshot, group) <==> IsNeeded(verb, snapshot, group)
    ensures verb.Needs(snapshot, group) ==> CallsFor(verb, snapshot, WriteFor(verb, snapshot, pk, group, ok))
  {
  }

  /** One request more adds a call exactly if it needs one. */
  lemma OneCallMore(verb: Verb, snapshot: User, pk: Pubkey, requests: seq<Request>, k: nat, rejects: nat -> bool,
                    n: nat) returns (w: RoleWrite)
    requires k < |requests|
    ensures
      var issued := IssuedFor(verb, snapshot, pk, requests, k, rejects, n);
      && w.group == requests[k].group && w.user == pk && w.ok == !rejects(n + |issued|)
      && (if IsNeeded(verb, snapshot, w.group)
          then CallsFor(verb, snapshot, w)
               && IssuedFor(verb, snapshot, pk, requests, k + 1, rejects, n) == issued + [w]
          else IssuedFor(verb, snapshot, pk, requests, k + 1, rejects, n) == issued)
  {
    var issued := IssuedFor(verb, snapshot, pk, requests, k, rejects, n);
    w := WriteFor(verb, snapshot, pk, requests[k].group, !rejects(n + |issued|));
    CallFits(verb, snapshot, pk, requests[k].group, w.ok);
  }

  /** The calls of a verb are those. */
  lemma {:induction false} CallsAre(verb: Verb, snapshot: User, pk: Pubkey, requests: seq<Request>, k: nat,
                                    rejects: nat -> bool, n: nat) returns (at: seq<nat>)
    requires k <= |requests|
    ensures CallsMatch(verb, snapshot, pk, requests, k, rejects, n,
                       IssuedFor(verb, snapshot, pk, requests, k, rejects, n), at)
  {
    if k == 0 {
      return [];
    }
    var before := CallsAre(verb, snapshot, pk, requests, k - 1, rejects, n);
    var w := OneCallMore(verb, snapshot, pk, requests, k - 1, rejects, n);
    at := MatchOneMore(verb, snapshot, pk, requests, k, rejects, n,
                       IssuedFor(verb, snapshot, pk, requests, k - 1, rejects, n), before, w,
                       IssuedFor(verb, snapshot, pk, requests, k, rejects, n));
  }

  lemma {:induction false} CallsEffect(verb: Verb, snapshot: User, pk: Pubkey, calls: seq<RoleWrite>)
    requires forall w <- calls :: verb.Needs(snapshot, w.group) && w == WriteFor(verb, snapshot, pk, w.group, w.ok)
    ensures Replay(Assign, snapshot, calls) ==
            WithLists(verb, snapshot, Changed(verb, verb.Target(snapshot), Accepted(calls)))
  {
    if calls == [] {
      FilterAll(NotIn<Pubkey>([]), verb.Target(snapshot));
      assert verb.Target(snapshot) + Distinct<Pubkey>([]) == verb.Target(snapshot);
    } else {
      var last := calls[|calls| - 1];
      assert last in calls;
      CallsEffect(verb, snapshot, pk, calls[..|calls| - 1]);
      OneMoreWrite(verb, snapshot, Accepted(calls[..|calls| - 1]), last);
    }
  }

  lemma OneMoreWrite(verb: Verb, snapshot: User, accepted: seq<Pubkey>, w: RoleWrite)
    requires verb.Needs(snapshot, w.group)
    requires w == WriteFor(verb, snapshot, w.user, w.group, w.ok)
    ensures Assign(WithLists(verb, snapshot, Changed(verb, verb.Target(snapshot), accepted)), w.group, w.publisher,
                   w.subscriber)
         == WithLists(verb, snapshot, Changed(verb, verb.Target(snapshot), accepted + [w.group]))
  {
    OneMoreGroup(verb, snapshot, accepted, w.group);
  }

  lemma AcceptedAppend(writes: seq<RoleWrite>, w: RoleWrite)
    ensures Accepted(writes + [w]) == if w.ok then Accepted(writes) + [w.group] else Accepted(writes)
  {
    assert (writes + [w])[..|writes + [w]| - 1] == writes;
  }

  lemma OneMoreGroup(verb: Verb, snapshot: User, accepted: seq<Pubkey>, group: Pubkey)
    requires verb.Needs(snapshot, group)
    ensures
      var target := verb.Target(snapshot);
      && AssignRole(Changed(verb, target, accepted), group, verb.Adds()) == Changed(verb, target, accepted + [group])
      && AssignRole(verb.Carried(snapshot), group, group in verb.Carried(snapshot)) == verb.Carried(snapshot)
  {
    var target := verb.Target(snapshot);
    if group !in verb.Carried(snapshot) {
      WithoutAbsent(verb.Carried(snapshot), group);
    }
    DistinctMembers(accepted);
    assert (accepted + [group])[..|accepted + [group]| - 1] == accepted;
    if verb.Adds() {
      assert target + (Distinct(accepted) + [group]) == target + Distinct(accepted) + [group];
    } else {
      FilterTwice(NotIn(accepted), IsNot(group), target);
      FilterSame(Both(NotIn(accepted), IsNot(group)), NotIn(accepted + [group]), target);
    }
  }

  // --- what the warnings announce ---

  ghost predicate Requested(requests: seq<Request>, k: nat, g: Pubkey)
    requires k <= |requests|
  {
    exists i :: 0 <= i < k && requests[i].group == g
  }

  lemma RequestedNext(requests: seq<Request>, k: nat)
    requires 0 < k <= |requests|
    ensures forall g :: Requested(requests, k, g) <==> Requested(requests, k - 1, g) || g == requests[k - 1].group
  {
    forall g ensures Requested(requests, k, g) <==> Requested(requests, k - 1, g) || g == requests[k - 1].group {
      if i :| 0 <= i < k && requests[i].group == g {
        assert i < k - 1 ==> Requested(requests, k - 1, g);
      }
    }
  }

  lemma AcceptedWhenAllOk(writes: seq<RoleWrite>)
    requires forall w <- writes :: w.ok
    ensures Accepted(writes) == [] <==> writes == []
  {
    if writes != [] {
      assert writes[|writes| - 1] in writes;
    }
  }

  lemma IssuedNext(verb: Verb, snapshot: User, pk: Pubkey, requests: seq<Request>, k: nat, rejects: nat -> bool,
                   n: nat) returns (w: RoleWrite)
    requires k < |requests|
    ensures w.group == requests[k].group
    ensures
      var before := IssuedFor(verb, snapshot, pk, requests, k, rejects, n);
      IssuedFor(verb, snapshot, pk, requests, k + 1, rejects, n)
      == if verb.Needs(snapshot, w.group) then before + [w] else before
  {
    var before := IssuedFor(verb, snapshot, pk, requests, k, rejects, n);
    w := WriteFor(verb, snapshot, pk, requests[k].group, !rejects(n + |before|));
  }

  /** The accepted groups among the calls for the first `k` requests are the needed ones. */
  ghost predicate AcceptedAre(verb: Verb, snapshot: User, requests: seq<Request>, k: nat, issued: seq<RoleWrite>)
    requires k <= |requests|
  {
    forall g :: g in Accepted(issued) <==> verb.Needs(snapshot, g) && Requested(requests, k, g)
  }

  lemma AcceptedMore(verb: Verb, snapshot: User, requests: seq<Request>, k: nat, before: seq<RoleWrite>, w: RoleWrite,
                     issued: seq<RoleWrite>)
    requires 0 < k <= |requests| && AcceptedAre(verb, snapshot, requests, k - 1, before)
    requires w.group == requests[k - 1].group
    requires if verb.Needs(snapshot, w.group) then w.ok && issued == before + [w] else issued == before
    ensures AcceptedAre(verb, snapshot, requests, k, issued)
  {
    RequestedNext(requests, k);
    if verb.Needs(snapshot, w.group) {
      AcceptedAppend(before, w);
    }
  }

  /** When every call goes through, the accepted groups are the needed ones. */
  lemma {:induction false} AllAccepted(verb: Verb, snapshot: User, pk: Pubkey, requests: seq<Request>, k: nat,
                                       rejects: nat -> bool, n: nat)
    requires k <= |requests|
    requires forall w <- IssuedFor(verb, snapshot, pk, requests, k, rejects, n) :: w.ok
    ensures AcceptedAre(verb, snapshot, requests, k, IssuedFor(verb, snapshot, pk, requests, k, rejects, n))
  {
    if k > 0 {
      var before := IssuedFor(verb, snapshot, pk, requests, k - 1, rejects, n);
      var issued := IssuedFor(verb, snapshot, pk, requests, k, rejects, n);
      var w := IssuedNext(verb, snapshot, pk, requests, k - 1, rejects, n);
      assert forall x <- before :: x in issued;
      assert verb.Needs(snapshot, w.group) ==> issued[|issued| - 1] == w && w in issued;
      AllAccepted(verb, snapshot, pk, requests, k - 1, rejects, n);
      AcceptedMore(verb, snapshot, requests, k, before, w, issued);
    }
  }

  lemma {:induction false} GroupsMembers(requests: seq<Request>)
    ensures forall g :: g in Groups(requests) <==> Requested(requests, |requests|, g)
  {
    if requests != [] {
      var rest := requests[1..];
      GroupsMembers(rest);
      forall g ensures Requested(requests, |requests|, g) <==> Requested(rest, |rest|, g) || g == requests[0].group {
        if i :| 0 <= i < |requests| && requests[i].group == g {
          assert i > 0 ==> rest[i - 1].group == g;
        }
        if i :| 0 <= i < |rest| && rest[i].group == g {
          assert requests[i + 1].group == g;
        }
      }
    }
  }

  /** If every call succeeds, the idle-tunnel warning is printed exactly when the verb issued a
      removal and left the account without roles, and the last-publisher warning exactly when
      the publisher list went from non-empty to empty. */
  lemma WarningsAreExact(verb: Verb, snapshot: User, pk: Pubkey, requests: seq<Request>,
                         rejects: nat -> bool, n: nat)
    requires forall w <- Issued(verb, snapshot, pk, requests, rejects, n) :: w.ok
    ensures
      var issued := Issued(verb, snapshot, pk, requests, rejects, n);
      var after := Replay(Assign, snapshot, issued);
      && (IdleWarning(verb, snapshot, requests) <==>
          (verb == Unsubscribe || verb == Unpublish)
          && issued != [] && after.publishers == [] && after.subscribers == [])
      && (LastPublisherWarning(verb, snapshot, requests) <==>
          verb == Unpublish && snapshot.publishers != [] && after.publishers == [])
  {
    if !verb.Adds() {
      var issued := Issued(verb, snapshot, pk, requests, rejects, n);
      var target := verb.Target(snapshot);
      var removals := EffectiveRemovals(verb, snapshot, requests);
      VerbEffect(verb, snapshot, pk, requests, rejects, n);
      AllAccepted(verb, snapshot, pk, requests, |requests|, rejects, n);
      AcceptedWhenAllOk(issued);
      GroupsMembers(requests);
      FilterMembers(IsIn(target), Groups(requests));
      FilterSame(NotIn(removals), NotIn(Accepted(issued)), target);
      FilterAll(NotIn<Pubkey>([]), verb.Carried(snapshot));
      assert removals == [] <==> issued == [] by {
        assert removals != [] ==> removals[0] in removals;
        assert Accepted(issued) != [] ==> Accepted(issued)[0] in Accepted(issued);
      }
    }
  }
}
