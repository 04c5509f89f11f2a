/** `connect Multicast`: bring a client's Multicast user to the requested publisher and
    subscriber groups, creating the account first when there is none. */
module ConnectMulticast {
  import opened Basics
  import opened Onchain
  import opened Ledger
  import MulticastVerbs

  /** One role update to send. */
  datatype Intent = Intent(group: Pubkey, publisher: bool, subscriber: bool)

  function Sent(pk: Pubkey, intent: Intent, ok: bool): RoleWrite {
    RoleWrite(pk, intent.group, intent.publisher, intent.subscriber, ok)
  }

  /** The accepted writes for `plan`. */
  function AllSent(pk: Pubkey, plan: seq<Intent>): seq<RoleWrite> {
    seq(|plan|, k requires 0 <= k < |plan| => Sent(pk, plan[k], true))
  }

  // --- the two plans ---

  function AsPublisher(group: Pubkey): Intent {
    Intent(group, true, false)
  }

  function AsSubscriber(group: Pubkey): Intent {
    Intent(group, false, true)
  }

  function AsRequested(pubs: seq<Pubkey>, subs: seq<Pubkey>): Pubkey -> Intent {
    group => Intent(group, group in pubs, group in subs)
  }

  function Intents(f: Pubkey -> Intent, groups: seq<Pubkey>): seq<Intent> {
    seq(|groups|, k requires 0 <= k < |groups| => f(groups[k]))
  }

  /** What is sent for a role: the requested groups the account does not list, one by one. */
  function MissingPlan(f: Pubkey -> Intent, held: seq<Pubkey>, requested: seq<Pubkey>): seq<Intent> {
    MissingAmong(f, held, requested, |requested|)
  }

  /** The same for the first `k` requests. */
  function MissingAmong(f: Pubkey -> Intent, held: seq<Pubkey>, requested: seq<Pubkey>, k: nat): seq<Intent>
    requires k <= |requested|
  {
    if k == 0 then []
    else
      var before := MissingAmong(f, held, requested, k - 1);
      if requested[k - 1] in held then before else before + [f(requested[k - 1])]
  }

  /** For an existing Multicast user: first the missing publisher roles, then the missing
      subscriber roles, each as a write of that one role. */
  function ExistingPlan(user: User, pubs: seq<Pubkey>, subs: seq<Pubkey>): seq<Intent> {
    MissingPlan(AsPublisher, user.publishers, pubs) + MissingPlan(AsSubscriber, user.subscribers, subs)
  }

  /** For a new user: every requested group once, with both of its roles. */
  function FreshPlan(pubs: seq<Pubkey>, subs: seq<Pubkey>): seq<Intent> {
    Intents(AsRequested(pubs, subs), Distinct(pubs + subs))
  }

  // --- sending ---

  /** How far a plan got: every intent in `plan[..sent]` accepted, and the next one rejected
      unless the plan is complete. */
  ghost predicate Progress(pk: Pubkey, plan: seq<Intent>, sent: nat, ok: bool, semantics: Semantics,
                           rejects: nat -> bool,
                           writes: seq<RoleWrite>, users: map<Pubkey, User>,
                           writes': seq<RoleWrite>, users': map<Pubkey, User>)
  {
    && sent <= |plan|
    && (forall j :: |writes| <= j < |writes| + sent ==> !rejects(j))
    && (ok ==> sent == |plan|)
    && (!ok ==> sent < |plan| && rejects(|writes| + sent))
    && writes' == writes + AllSent(pk, plan[..sent]) + (if ok then [] else [Sent(pk, plan[sent], false)])
    && users' == ApplyWrites(semantics, users, AllSent(pk, plan[..sent]))
  }

  lemma ProgressMore(pk: Pubkey, plan: seq<Intent>, intent: Intent, semantics: Semantics,
                     rejects: nat -> bool,
                     writes: seq<RoleWrite>, users: map<Pubkey, User>,
                     writes': seq<RoleWrite>, users': map<Pubkey, User>)
    requires Progress(pk, plan, |plan|, true, semantics, rejects, writes, users, writes', users')
    ensures !rejects(|writes'|) ==>
              Progress(pk, plan + [intent], |plan| + 1, true, semantics, rejects, writes, users,
                       writes' + [Sent(pk, intent, true)],
                       ApplyWrite(semantics, users', Sent(pk, intent, true)))
    ensures rejects(|writes'|) ==>
              Progress(pk, plan + [intent], |plan|, false, semantics, rejects, writes, users,
                       writes' + [Sent(pk, intent, false)], users')
  {
    assert plan[..|plan|] == plan;
    assert (plan + [intent])[..|plan|] == plan;
    assert (plan + [intent])[..|plan| + 1] == plan + [intent];
    var sent := AllSent(pk, plan);
    assert AllSent(pk, plan + [intent]) == sent + [Sent(pk, intent, true)];
    ApplyAppend(semantics, users, sent, Sent(pk, intent, true));
    assert writes + sent + [] == writes + sent;
    assert writes + sent + [Sent(pk, intent, true)] == writes + (sent + [Sent(pk, intent, true)]);
  }

  lemma ProgressStopped(pk: Pubkey, plan: seq<Intent>, sent: nat, more: seq<Intent>,
                        semantics: Semantics, rejects: nat -> bool,
                        writes: seq<RoleWrite>, users: map<Pubkey, User>,
                        writes': seq<RoleWrite>, users': map<Pubkey, User>)
    requires Progress(pk, plan, sent, false, semantics, rejects, writes, users, writes', users')
    ensures Progress(pk, plan + more, sent, false, semantics, rejects, writes, users, writes', users')
  {
    assert (plan + more)[..sent] == plan[..sent];
  }

  /** Send the missing roles of one kind to an existing account, stopping at the first
      failure. */
  method AddMissing(ledger: Ledger, pk: Pubkey, f: Pubkey -> Intent, held: seq<Pubkey>, requested: seq<Pubkey>)
    returns (ok: bool, ghost sent: nat)
    requires pk in ledger.users
    modifies ledger`users, ledger`writes
    ensures Progress(pk, MissingPlan(f, held, requested), sent, ok, ledger.semantics, ledger.rejects,
                     old(ledger.writes), old(ledger.users), ledger.writes, ledger.users)
    ensures pk in ledger.users
  {
    sent := 0;
    ghost var plan := [];
    for i := 0 to |requested|
      invariant pk in ledger.users
      invariant plan == MissingAmong(f, held, requested, i)
      invariant sent == |plan|
      invariant Progress(pk, plan, sent, true, ledger.semantics, ledger.rejects,
                         old(ledger.writes), old(ledger.users), ledger.writes, ledger.users)
    {
      var group := requested[i];
      if group !in held {
        var intent := f(group);
        ProgressMore(pk, plan, intent, ledger.semantics, ledger.rejects,
                     old(ledger.writes), old(ledger.users), ledger.writes, ledger.users);
        var accepted := ledger.UpdateMulticastGroupRoles(pk, intent.group, intent.publisher, intent.subscriber);
        if !accepted {
          ghost var rest := MissingRest(f, held, requested, i + 1);
          ProgressStopped(pk, plan + [intent], sent, rest, ledger.semantics, ledger.rejects,
                          old(ledger.writes), old(ledger.users), ledger.writes, ledger.users);
          return false, sent;
        }
        plan, sent := plan + [intent], sent + 1;
      }
    }
    return true, sent;
  }

  lemma {:induction false} MissingRest(f: Pubkey -> Intent, held: seq<Pubkey>, requested: seq<Pubkey>,
                                       i: nat) returns (rest: seq<Intent>)
    requires i <= |requested|
    ensures MissingPlan(f, held, requested) == MissingAmong(f, held, requested, i) + rest
    decreases |requested| - i
  {
    if i == |requested| {
      rest := [];
    } else {
      rest := MissingRest(f, held, requested, i + 1);
      if requested[i] !in held {
        var before := MissingAmong(f, held, requested, i);
        assert (before + [f(requested[i])]) + rest == before + ([f(requested[i])] + rest);
        rest := [f(requested[i])] + rest;
      }
    }
  }

  /** Send a whole plan, stopping at the first failure. */
  method SendPlan(ledger: Ledger, pk: Pubkey, plan: seq<Intent>) returns (ok: bool, ghost sent: nat)
    requires pk in ledger.users
    modifies ledger`users, ledger`writes
    ensures Progress(pk, plan, sent, ok, ledger.semantics, ledger.rejects,
                     old(ledger.writes), old(ledger.users), ledger.writes, ledger.users)
  {
    for i := 0 to |plan|
      invariant pk in ledger.users
      invariant Progress(pk, plan[..i], i, true, ledger.semantics, ledger.rejects,
                         old(ledger.writes), old(ledger.users), ledger.writes, ledger.users)
    {
      assert plan[..i + 1] == plan[..i] + [plan[i]];
      ProgressMore(pk, plan[..i], plan[i], ledger.semantics, ledger.rejects,
                   old(ledger.writes), old(ledger.users), ledger.writes, ledger.users);
      var accepted := ledger.UpdateMulticastGroupRoles(pk, plan[i].group, plan[i].publisher, plan[i].subscriber);
      if !accepted {
        assert plan == plan[..i + 1] + plan[i + 1..];
        ProgressStopped(pk, plan[..i + 1], i, plan[i + 1..], ledger.semantics, ledger.rejects,
                        old(ledger.writes), old(ledger.users), ledger.writes, ledger.users);
        return false, i;
      }
    }
    assert plan[..|plan|] == plan;
    return true, |plan|;
  }

  /** Collect the requested groups, publishers first, leaving out repeats. */
  method CollectGroups(pubs: seq<Pubkey>, subs: seq<Pubkey>) returns (all: seq<Pubkey>)
    ensures all == Distinct(pubs + subs)
  {
    all := [];
    var chained := pubs + subs;
    for i := 0 to |chained|
      invariant all == Distinct(chained[..i])
    {
      assert chained[..i + 1][..|chained[..i + 1]| - 1] == chained[..i];
      if chained[i] !in all {
        all := all + [chained[i]];
      }
    }
    assert chained[..|chained|] == chained;
  }

  /** One plan sent in full, then another. */
  lemma ProgressJoin(pk: Pubkey, first: seq<Intent>, second: seq<Intent>, sent: nat, ok: bool,
                     semantics: Semantics, rejects: nat -> bool,
                     w0: seq<RoleWrite>, u0: map<Pubkey, User>, w1: seq<RoleWrite>,
                     u1: map<Pubkey, User>,
                     w2: seq<RoleWrite>, u2: map<Pubkey, User>)
    requires Progress(pk, first, |first|, true, semantics, rejects, w0, u0, w1, u1)
    requires Progress(pk, second, sent, ok, semantics, rejects, w1, u1, w2, u2)
    ensures Progress(pk, first + second, |first| + sent, ok, semantics, rejects, w0, u0, w2, u2)
  {
    var a, b := AllSent(pk, first), AllSent(pk, second[..sent]);
    var tail := if ok then [] else [Sent(pk, second[sent], false)];
    assert first[..|first|] == first;
    assert (first + second)[..|first| + sent] == first + second[..sent];
    assert AllSent(pk, first + second[..sent]) == a + b;
    ApplyConcat(semantics, u0, a, b);
    assert w0 + a + [] == w0 + a;
    assert (w0 + a) + b + tail == w0 + (a + b) + tail;
  }

  /** Where device selection put the new user. */
  datatype Placement = Placement(device: Pubkey, endpoint: Ip, hasCapacity: bool)

  datatype ConnectOutcome = Connected | RoleFailed | NoDevice | NoCapacity | NoGroupRequested | CreateFailed

  /** A new Multicast account before its first role. */
  function NewUser(owner: Pubkey, clientIp: Ip, placement: Placement, tunnelId: U16): User {
    User(owner, Multicast, placement.device, clientIp, tunnelId, placement.endpoint, [], [])
  }

  /** Create the account with the first group's roles, then send the remaining groups. */
  method CreateWithGroups(ledger: Ledger, user: User, pubs: seq<Pubkey>,
                          subs: seq<Pubkey>) returns (outcome: ConnectOutcome, ghost sent: nat)
    requires user.userType == Multicast && user.publishers == [] && user.subscribers == []
    modifies ledger`users, ledger`writes
    ensures outcome in {Connected, RoleFailed, NoGroupRequested, CreateFailed}
    ensures outcome.NoGroupRequested? <==> pubs == [] && subs == []
    ensures outcome.NoGroupRequested? ==> ledger.users == old(ledger.users) && ledger.writes == old(ledger.writes)
    ensures outcome.CreateFailed? ==>
              && ledger.users == old(ledger.users)
              && (UserPda(user.clientIp, Multicast) in old(ledger.users) || ledger.rejects(|old(ledger.writes)|))
    ensures outcome in {Connected, RoleFailed} ==>
              && UserPda(user.clientIp, Multicast) !in old(ledger.users)
              && Progress(UserPda(user.clientIp, Multicast), FreshPlan(pubs, subs), sent, outcome.Connected?,
                          ledger.semantics, ledger.rejects, old(ledger.writes),
                          old(ledger.users)[UserPda(user.clientIp, Multicast) := user], ledger.writes, ledger.users)
  {
    sent := 0;
    var pk := UserPda(user.clientIp, Multicast);
    var all := CollectGroups(pubs, subs);
    NothingRequested(pubs, subs);
    if all == [] {
      return NoGroupRequested, sent;
    }
    var plan := Intents(AsRequested(pubs, subs), all);
    var created := ledger.CreateSubscribeUser(user, all[0], all[0] in pubs, all[0] in subs);
    if !created {
      return CreateFailed, sent;
    }
    ghost var users, writes', users' := old(ledger.users)[pk := user], ledger.writes, ledger.users;
    CreatedProgress(ledger.semantics, ledger.rejects, old(ledger.writes), old(ledger.users), pk, user, plan[0]);
    var ok;
    ok, sent := SendPlan(ledger, pk, plan[1..]);
    ProgressJoin(pk, [plan[0]], plan[1..], sent, ok, ledger.semantics, ledger.rejects,
                 old(ledger.writes), users, writes', users', ledger.writes, ledger.users);
    assert plan == [plan[0]] + plan[1..];
    sent := sent + 1;
    return if ok then Connected else RoleFailed, sent;
  }

  lemma NothingRequested(pubs: seq<Pubkey>, subs: seq<Pubkey>)
    ensures Distinct(pubs + subs) == [] <==> pubs == [] && subs == []
  {
    DistinctMembers(pubs + subs);
    assert pubs != [] ==> pubs[0] in pubs + subs;
    assert subs != [] ==> subs[0] in pubs + subs;
  }

  lemma CreatedProgress(semantics: Semantics, rejects: nat -> bool, writes: seq<RoleWrite>,
                        users: map<Pubkey, User>,
                        pk: Pubkey, user: User, intent: Intent)
    requires !rejects(|writes|)
    ensures Progress(pk, [intent], 1, true, semantics, rejects, writes, users[pk := user],
                     writes + [Sent(pk, intent, true)],
                     users[pk := semantics(user, intent.group, intent.publisher, intent.subscriber)])
  {
    ProgressStart(pk, semantics, rejects, writes, users[pk := user]);
    ProgressMore(pk, [], intent, semantics, rejects, writes, users[pk := user], writes, users[pk := user]);
    assert [] + [intent] == [intent];
  }

  lemma ProgressStart(pk: Pubkey, semantics: Semantics, rejects: nat -> bool,
                      writes: seq<RoleWrite>, users: map<Pubkey, User>)
    ensures Progress(pk, [], 0, true, semantics, rejects, writes, users, writes, users)
  {
    assert writes + AllSent(pk, []) + [] == writes;
  }

  /** Send an existing account its missing roles: the publisher ones, then the subscriber ones. */
  method AddToExisting(ledger: Ledger, pk: Pubkey, pubs: seq<Pubkey>, subs: seq<Pubkey>)
    returns (ok: bool, ghost sent: nat)
    requires pk in ledger.users
    modifies ledger`users, ledger`writes
    ensures Progress(pk, ExistingPlan(old(ledger.users[pk]), pubs, subs), sent, ok, ledger.semantics, ledger.rejects,
                     old(ledger.writes), old(ledger.users), ledger.writes, ledger.users)
  {
    var user := ledger.users[pk];
    ok, sent := AddMissing(ledger, pk, AsPublisher, user.publishers, pubs);
    ghost var plan := MissingPlan(AsPublisher, user.publishers, pubs);
    ghost var plan' := MissingPlan(AsSubscriber, user.subscribers, subs);
    if !ok {
      ProgressStopped(pk, plan, sent, plan', ledger.semantics, ledger.rejects,
                      old(ledger.writes), old(ledger.users), ledger.writes, ledger.users);
      return false, sent;
    }
    ghost var writes', users', sent' := ledger.writes, ledger.users, sent;
    ok, sent := AddMissing(ledger, pk, AsSubscriber, user.subscribers, subs);
    ProgressJoin(pk, plan, plan', sent, ok, ledger.semantics, ledger.rejects,
                 old(ledger.writes), old(ledger.users), writes', users', ledger.writes, ledger.users);
    sent := sent' + sent;
  }

  /** Connect a client to the requested groups. `placement` is what device selection returned,
      `order` the iteration order of the user map. */
  method FindOrCreateUserAndSubscribe(ledger: Ledger, order: seq<Pubkey>, clientIp: Ip, owner: Pubkey,
                                      placement: Option<Placement>,
                                      tunnelId: U16, pubs: seq<Pubkey>, subs: seq<Pubkey>)
    returns (outcome: ConnectOutcome, ghost sent: nat)
    requires Elements(order) == ledger.users.Keys
    modifies ledger`users, ledger`writes
    ensures
      var found := MulticastVerbs.FindMulticastUser(old(ledger.users), order, clientIp);
      if found.Some? then
        var user := old(ledger.users)[found.value];
        && outcome in {Connected, RoleFailed}
        && Progress(found.value, ExistingPlan(user, pubs, subs), sent, outcome.Connected?, ledger.semantics,
                    ledger.rejects,
                    old(ledger.writes), old(ledger.users), ledger.writes, ledger.users)
      else
        && (outcome.NoDevice? <==> placement.None?)
        && (outcome.NoCapacity? <==> placement.Some? && !placement.value.hasCapacity)
        && (outcome.NoGroupRequested? <==> placement.Some? && placement.value.hasCapacity && pubs == [] && subs == [])
        && (outcome !in {Connected, RoleFailed} ==> ledger.users == old(ledger.users))
        && (outcome in {Connected, RoleFailed} ==>
              var pk := UserPda(clientIp, Multicast);
              var user := User(owner, Multicast, placement.value.device, clientIp, tunnelId, placement.value.endpoint,
                               [], []);
              && pk !in old(ledger.users)
              && Progress(pk, FreshPlan(pubs, subs), sent, outcome.Connected?, ledger.semantics, ledger.rejects,
                          old(ledger.writes), old(ledger.users)[pk := user], ledger.writes, ledger.users))
  {
    sent := 0;
    var found := MulticastVerbs.FindMulticastUser(ledger.users, order, clientIp);
    if found.Some? {
      var ok;
      ok, sent := AddToExisting(ledger, found.value, pubs, subs);
      return if ok then Connected else RoleFailed, sent;
    }
    if placement.None? {
      return NoDevice, sent;
    }
    if !placement.value.hasCapacity {
      return NoCapacity, sent;
    }
    outcome, sent := CreateWithGroups(ledger, NewUser(owner, clientIp, placement.value, tunnelId), pubs, subs);
  }
}
