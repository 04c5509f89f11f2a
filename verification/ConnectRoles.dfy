/** What a successful `connect Multicast` does to the account's roles. */
module ConnectRoles {
  import opened Basics
  import opened Onchain
  import opened Ledger
  import opened ConnectMulticast

  /** The account after every intent of `plan` was accepted. */
  function RunPlan(semantics: Semantics, user: User, plan: seq<Intent>): User {
    if plan == [] then user
    else
      var before, last := RunPlan(semantics, user, plan[..|plan| - 1]), plan[|plan| - 1];
      semantics(before, last.group, last.publisher, last.subscriber)
  }

  lemma {:induction false} ReplayIsRun(semantics: Semantics, user: User, pk: Pubkey, plan: seq<Intent>)
    ensures Replay(semantics, user, AllSent(pk, plan)) == RunPlan(semantics, user, plan)
  {
    if plan != [] {
      var init, last := plan[..|plan| - 1], plan[|plan| - 1];
      ReplayIsRun(semantics, user, pk, init);
      assert AllSent(pk, plan) == AllSent(pk, init) + [Sent(pk, last, true)];
      ReplayAppend(semantics, user, AllSent(pk, init), Sent(pk, last, true));
    }
  }

  /** A plan that went through changes the one account by running the plan on it; a plan that
      stopped early, by the part that was sent. */
  lemma ProgressIsRun(pk: Pubkey, plan: seq<Intent>, sent: nat, ok: bool, semantics: Semantics,
                      rejects: nat -> bool,
                      writes: seq<RoleWrite>, users: map<Pubkey, User>,
                      writes': seq<RoleWrite>, users': map<Pubkey, User>)
    requires pk in users
    requires Progress(pk, plan, sent, ok, semantics, rejects, writes, users, writes', users')
    ensures users' == users[pk := RunPlan(semantics, users[pk], plan[..sent])]
    ensures ok ==> users' == users[pk := RunPlan(semantics, users[pk], plan)]
  {
    ApplyToOne(semantics, users, pk, AllSent(pk, plan[..sent]));
    ReplayIsRun(semantics, users[pk], pk, plan[..sent]);
    assert plan[..|plan|] == plan;
  }

  // --- one group at a time ---

  /** The last intent of `plan` about `group`. */
  function LastIntent(plan: seq<Intent>, group: Pubkey): Option<Intent> {
    if plan == [] then None
    else if plan[|plan| - 1].group == group then Some(plan[|plan| - 1])
    else LastIntent(plan[..|plan| - 1], group)
  }

  lemma WithoutMembers(list: seq<Pubkey>, group: Pubkey)
    ensures forall g :: g in Without(list, group) <==> g in list && g != group
  {
    FilterMembers(IsNot(group), list);
  }

  /** Under assign semantics the last write about a group decides both of its roles. */
  lemma {:induction false} AssignDecidedByLast(user: User, plan: seq<Intent>, group: Pubkey)
    ensures
      var after, last := RunPlan(Assign, user, plan), LastIntent(plan, group);
      && (group in after.publishers <==> if last.Some? then last.value.publisher else group in user.publishers)
      && (group in after.subscribers <==> if last.Some? then last.value.subscriber else group in user.subscribers)
  {
    if plan != [] {
      var init, last := plan[..|plan| - 1], plan[|plan| - 1];
      AssignDecidedByLast(user, init, group);
      var before := RunPlan(Assign, user, init);
      WithoutMembers(before.publishers, last.group);
      WithoutMembers(before.subscribers, last.group);
    }
  }

  /** Under additive semantics roles accumulate. */
  lemma {:induction false} AdditiveAccumulates(user: User, plan: seq<Intent>, group: Pubkey)
    ensures
      var after := RunPlan(Additive, user, plan);
      && (group in after.publishers
          <==> group in user.publishers || exists i <- plan :: i.group == group && i.publisher)
      && (group in after.subscribers
          <==> group in user.subscribers || exists i <- plan :: i.group == group && i.subscriber)
  {
    if plan != [] {
      var init, last := plan[..|plan| - 1], plan[|plan| - 1];
      AdditiveAccumulates(user, init, group);
      assert plan == init + [last];
      assert last in plan;
    }
  }

  lemma {:induction false} LastIntentConcat(a: seq<Intent>, b: seq<Intent>, group: Pubkey)
    ensures LastIntent(a + b, group)
            == if LastIntent(b, group).Some? then LastIntent(b, group) else LastIntent(a, group)
  {
    if b == [] {
      assert a + b == a;
    } else {
      LastIntentConcat(a, b[..|b| - 1], group);
      assert (a + b)[..|a + b| - 1] == a + b[..|b| - 1];
    }
  }

  /** A plan of missing roles mentions exactly the requested groups that are not held. */
  lemma {:induction false} MissingMentions(f: Pubkey -> Intent, held: seq<Pubkey>, requested: seq<Pubkey>, k: nat,
                                           group: Pubkey)
    requires k <= |requested|
    requires forall g :: f(g).group == g
    ensures LastIntent(MissingAmong(f, held, requested, k), group) ==
            if group in requested[..k] && group !in held then Some(f(group)) else None
    ensures forall i <- MissingAmong(f, held, requested, k) ::
              i.group in requested && i.group !in held && i == f(i.group)
  {
    if k > 0 {
      MissingMentions(f, held, requested, k - 1, group);
      assert requested[..k] == requested[..k - 1] + [requested[k - 1]];
      if requested[k - 1] !in held {
        var before := MissingAmong(f, held, requested, k - 1);
        assert (before + [f(requested[k - 1])])[..|before + [f(requested[k - 1])]| - 1] == before;
      }
    }
  }

  lemma ExistingMentions(user: User, pubs: seq<Pubkey>, subs: seq<Pubkey>, group: Pubkey)
    ensures LastIntent(ExistingPlan(user, pubs, subs), group) ==
            if group in subs && group !in user.subscribers then Some(AsSubscriber(group))
            else if group in pubs && group !in user.publishers then Some(AsPublisher(group))
            else None
  {
    LastIntentConcat(MissingPlan(AsPublisher, user.publishers, pubs),
                     MissingPlan(AsSubscriber, user.subscribers, subs), group);
    MissingMentions(AsPublisher, user.publishers, pubs, |pubs|, group);
    MissingMentions(AsSubscriber, user.subscribers, subs, |subs|, group);
    assert pubs[..|pubs|] == pubs && subs[..|subs|] == subs;
  }

  // --- an existing user ---

  lemma {:induction false} MissingIs(f: Pubkey -> Intent, held: seq<Pubkey>, requested: seq<Pubkey>, k: nat)
    requires k <= |requested|
    ensures MissingAmong(f, held, requested, k) == Intents(f, Filter(NotIn(held), requested[..k]))
  {
    if k > 0 {
      MissingIs(f, held, requested, k - 1);
      assert requested[..k] == requested[..k - 1] + [requested[k - 1]];
      FilterSnoc(NotIn(held), requested[..k - 1], requested[k - 1]);
    }
  }

  /** What is sent to an existing account, in order: every requested publisher group it does not publish
      to, as publisher only, then every requested subscriber group it does not subscribe to, as
      subscriber only. */
  lemma ExistingPlanIs(user: User, pubs: seq<Pubkey>, subs: seq<Pubkey>)
    ensures
      var plan := ExistingPlan(user, pubs, subs);
      var newPubs, newSubs := Filter(NotIn(user.publishers), pubs), Filter(NotIn(user.subscribers), subs);
      && |plan| == |newPubs| + |newSubs|
      && (forall i :: 0 <= i < |newPubs| ==> plan[i] == Intent(newPubs[i], true, false))
      && (forall i :: 0 <= i < |newSubs| ==> plan[|newPubs| + i] == Intent(newSubs[i], false, true))
  {
    var f, g: Pubkey -> Intent := AsPublisher, AsSubscriber;
    MissingIs(f, user.publishers, pubs, |pubs|);
    MissingIs(g, user.subscribers, subs, |subs|);
    assert pubs[..|pubs|] == pubs && subs[..|subs|] == subs;
    var newPubs, newSubs := Filter(NotIn(user.publishers), pubs), Filter(NotIn(user.subscribers), subs);
    assert ExistingPlan(user, pubs, subs) == Intents(f, newPubs) + Intents(g, newSubs);
    forall i | 0 <= i < |newPubs| ensures Intents(f, newPubs)[i] == Intent(newPubs[i], true, false) {
      assert f(newPubs[i]) == AsPublisher(newPubs[i]);
    }
    forall i | 0 <= i < |newSubs| ensures Intents(g, newSubs)[i] == Intent(newSubs[i], false, true) {
      assert g(newSubs[i]) == AsSubscriber(newSubs[i]);
    }
  }

  /** The account after a connect of an existing user went through. */
  function Reconnected(semantics: Semantics, user: User, pubs: seq<Pubkey>, subs: seq<Pubkey>): User {
    RunPlan(semantics, user, ExistingPlan(user, pubs, subs))
  }

  /** Under assign semantics a group that gains one role loses the other, and the subscriber
      writes come last. */
  lemma ReconnectedRoles(user: User, pubs: seq<Pubkey>, subs: seq<Pubkey>, group: Pubkey)
    ensures
      var after := Reconnected(Assign, user, pubs, subs);
      var gainsPub := group in pubs && group !in user.publishers;
      var gainsSub := group in subs && group !in user.subscribers;
      && (group in after.publishers <==> (group in user.publishers || group in pubs) && !gainsSub)
      && (group in after.subscribers <==> gainsSub || (group in user.subscribers && !gainsPub))
  {
    ExistingMentions(user, pubs, subs, group);
    AssignDecidedByLast(user, ExistingPlan(user, pubs, subs), group);
  }

  /** No group that gains one role also holds, or is asked for, the other. */
  ghost predicate ConflictFree(user: User, pubs: seq<Pubkey>, subs: seq<Pubkey>) {
    && (forall g :: g in pubs && g !in user.publishers ==> g !in user.subscribers && g !in subs)
    && (forall g :: g in subs && g !in user.subscribers ==> g !in user.publishers && g !in pubs)
  }

  ghost predicate HasUnion(after: User, user: User, pubs: seq<Pubkey>, subs: seq<Pubkey>) {
    && Elements(after.publishers) == Elements(user.publishers) + Elements(pubs)
    && Elements(after.subscribers) == Elements(user.subscribers) + Elements(subs)
  }

  /** Connecting an existing user adds the requested roles to the ones it has exactly when the
      request is conflict-free. */
  lemma UnionIffConflictFree(user: User, pubs: seq<Pubkey>, subs: seq<Pubkey>)
    ensures HasUnion(Reconnected(Assign, user, pubs, subs), user, pubs, subs) <==> ConflictFree(user, pubs, subs)
  {
    var after := Reconnected(Assign, user, pubs, subs);
    forall g ensures
        var gainsPub := g in pubs && g !in user.publishers;
        var gainsSub := g in subs && g !in user.subscribers;
        && (g in Elements(after.publishers) <==> (g in user.publishers || g in pubs) && !gainsSub)
        && (g in Elements(after.subscribers) <==> gainsSub || (g in user.subscribers && !gainsPub))
    {
      ReconnectedRoles(user, pubs, subs, g);
    }
    if HasUnion(after, user, pubs, subs) {
      forall g | g in pubs && g !in user.publishers ensures g !in user.subscribers && g !in subs {
        assert g in Elements(user.publishers) + Elements(pubs);
        assert g in Elements(user.subscribers) + Elements(subs) ==> g in Elements(after.subscribers);
      }
      forall g | g in subs && g !in user.subscribers ensures g !in user.publishers && g !in pubs {
        assert g in Elements(user.publishers) + Elements(pubs) ==> g in Elements(after.publishers);
      }
    }
  }

  /** A ledger that only adds roles always ends with the union. */
  lemma AdditiveUnion(user: User, pubs: seq<Pubkey>, subs: seq<Pubkey>)
    ensures HasUnion(Reconnected(Additive, user, pubs, subs), user, pubs, subs)
  {
    var after := Reconnected(Additive, user, pubs, subs);
    var first, second := MissingPlan(AsPublisher, user.publishers, pubs),
                         MissingPlan(AsSubscriber, user.subscribers, subs);
    forall g ensures g in after.publishers <==> g in user.publishers || g in pubs
             ensures g in after.subscribers <==> g in user.subscribers || g in subs
    {
      AdditiveAccumulates(user, first + second, g);
      MissingMentions(AsPublisher, user.publishers, pubs, |pubs|, g);
      MissingMentions(AsSubscriber, user.subscribers, subs, |subs|, g);
      assert pubs[..|pubs|] == pubs && subs[..|subs|] == subs;
      LastIntentIsMentioned(first, g);
      LastIntentIsMentioned(second, g);
    }
  }

  lemma {:induction false} LastIntentIsMentioned(plan: seq<Intent>, group: Pubkey)
    ensures LastIntent(plan, group).Some? ==>
              LastIntent(plan, group).value in plan && LastIntent(plan, group).value.group == group
  {
    if plan != [] {
      LastIntentIsMentioned(plan[..|plan| - 1], group);
    }
  }

  function ReconnectedTimes(user: User, pubs: seq<Pubkey>, subs: seq<Pubkey>, n: nat): User {
    if n == 0 then user else Reconnected(Assign, ReconnectedTimes(user, pubs, subs, n - 1), pubs, subs)
  }

  /** A group asked for in both roles, and not already held in both, never gets there: every
      successful reconnect leaves it with exactly one role, and the next one swaps it. */
  lemma {:induction false} BothRolesNeverReached(user: User, pubs: seq<Pubkey>, subs: seq<Pubkey>, group: Pubkey,
                                                 n: nat)
    requires group in pubs && group in subs
    requires !(group in user.publishers && group in user.subscribers)
    ensures
      var after := ReconnectedTimes(user, pubs, subs, n);
      && !(group in after.publishers && group in after.subscribers)
      && (n > 0 ==> (group in after.publishers <==> group !in after.subscribers))
      && (n > 0 ==> (group in after.publishers <==> group in ReconnectedTimes(user, pubs, subs, n - 1).subscribers))
  {
    if n > 0 {
      BothRolesNeverReached(user, pubs, subs, group, n - 1);
      ReconnectedRoles(ReconnectedTimes(user, pubs, subs, n - 1), pubs, subs, group);
    }
  }

  /** The smallest loss: an existing user without roles, asked for both on one group, ends as a
      subscriber only. */
  lemma ConflictLosesPublisher(user: User, group: Pubkey)
    requires user.publishers == [] && user.subscribers == []
    ensures
      var after := Reconnected(Assign, user, [group], [group]);
      group !in after.publishers && group in after.subscribers
  {
    ReconnectedRoles(user, [group], [group], group);
  }

  // --- a new user ---

  /** A new account asks for every requested group exactly once. */
  lemma FreshMentions(pubs: seq<Pubkey>, subs: seq<Pubkey>, group: Pubkey)
    ensures
      var plan := FreshPlan(pubs, subs);
      && (forall i, j :: 0 <= i < j < |plan| ==> plan[i].group != plan[j].group)
      && (forall k :: 0 <= k < |plan| ==>
            plan[k] == Intent(plan[k].group, plan[k].group in pubs, plan[k].group in subs))
      && (LastIntent(plan, group)
          == if group in pubs || group in subs then Some(AsRequested(pubs, subs)(group)) else None)
  {
    var all := Distinct(pubs + subs);
    DistinctMembers(pubs + subs);
    var plan := FreshPlan(pubs, subs);
    MappedMentions(AsRequested(pubs, subs), all, group);
    assert forall k :: 0 <= k < |plan| ==> plan[k].group == all[k];
  }

  lemma {:induction false} MappedMentions(f: Pubkey -> Intent, groups: seq<Pubkey>, group: Pubkey)
    requires forall g :: f(g).group == g
    ensures LastIntent(Intents(f, groups), group) == if group in groups then Some(f(group)) else None
  {
    if groups != [] {
      var init, last := groups[..|groups| - 1], groups[|groups| - 1];
      MappedMentions(f, init, group);
      assert groups == init + [last];
      assert Intents(f, groups)[..|groups| - 1] == Intents(f, init);
    }
  }

  ghost predicate HasExactly(after: User, pubs: seq<Pubkey>, subs: seq<Pubkey>) {
    && Elements(after.publishers) == Elements(pubs)
    && Elements(after.subscribers) == Elements(subs)
  }

  /** A fresh connect ends with exactly the requested roles, whichever way the ledger treats a
      false flag. */
  lemma FreshRolesExact(user: User, pubs: seq<Pubkey>, subs: seq<Pubkey>)
    requires user.publishers == [] && user.subscribers == []
    ensures HasExactly(RunPlan(Assign, user, FreshPlan(pubs, subs)), pubs, subs)
    ensures HasExactly(RunPlan(Additive, user, FreshPlan(pubs, subs)), pubs, subs)
  {
    var plan := FreshPlan(pubs, subs);
    var byAssign, byAdding := RunPlan(Assign, user, plan), RunPlan(Additive, user, plan);
    forall g ensures g in byAssign.publishers <==> g in pubs
             ensures g in byAssign.subscribers <==> g in subs
    {
      FreshMentions(pubs, subs, g);
      AssignDecidedByLast(user, plan, g);
    }
    forall g ensures g in byAdding.publishers <==> g in pubs
             ensures g in byAdding.subscribers <==> g in subs
    {
      FreshMentions(pubs, subs, g);
      AdditiveAccumulates(user, plan, g);
      LastIntentIsMentioned(plan, g);
    }
  }

  /** An account that already has exactly the requested roles is left alone: the identical
      second connect writes nothing. */
  lemma {:induction false} NothingMissing(f: Pubkey -> Intent, held: seq<Pubkey>, requested: seq<Pubkey>, k: nat)
    requires k <= |requested|
    requires forall g <- requested :: g in held
    ensures MissingAmong(f, held, requested, k) == []
  {
    if k > 0 {
      NothingMissing(f, held, requested, k - 1);
      assert requested[k - 1] in requested;
    }
  }

  lemma SecondConnectIsSilent(user: User, pubs: seq<Pubkey>, subs: seq<Pubkey>)
    requires user.publishers == [] && user.subscribers == []
    ensures ExistingPlan(RunPlan(Assign, user, FreshPlan(pubs, subs)), pubs, subs) == []
    ensures ExistingPlan(RunPlan(Additive, user, FreshPlan(pubs, subs)), pubs, subs) == []
  {
    FreshRolesExact(user, pubs, subs);
    SilentWhenExact(RunPlan(Assign, user, FreshPlan(pubs, subs)), pubs, subs);
    SilentWhenExact(RunPlan(Additive, user, FreshPlan(pubs, subs)), pubs, subs);
  }

  lemma SilentWhenExact(user: User, pubs: seq<Pubkey>, subs: seq<Pubkey>)
    requires HasExactly(user, pubs, subs)
    ensures ExistingPlan(user, pubs, subs) == []
  {
    forall g | g in pubs ensures g in user.publishers {
      assert g in Elements(pubs);
    }
    forall g | g in subs ensures g in user.subscribers {
      assert g in Elements(subs);
    }
    NothingMissing(AsPublisher, user.publishers, pubs, |pubs|);
    NothingMissing(AsSubscriber, user.subscribers, subs, |subs|);
  }

  // --- two connects in a row ---

  lemma {:induction false} RunPlanKeepsIdentity(semantics: Semantics, user: User, plan: seq<Intent>)
    requires semantics == Assign || semantics == Additive
    ensures RunPlan(semantics, user, plan).userType == user.userType
    ensures RunPlan(semantics, user, plan).clientIp == user.clientIp
  {
    if plan != [] {
      RunPlanKeepsIdentity(semantics, user, plan[..|plan| - 1]);
    }
  }

  /** The account a fresh connect leaves behind: exactly the requested roles, and nothing missing. */
  lemma FreshAccount(semantics: Semantics, user: User, pubs: seq<Pubkey>, subs: seq<Pubkey>)
    requires semantics == Assign || semantics == Additive
    requires user.publishers == [] && user.subscribers == []
    ensures
      var after := RunPlan(semantics, user, FreshPlan(pubs, subs));
      && after.userType == user.userType && after.clientIp == user.clientIp
      && HasExactly(after, pubs, subs) && ExistingPlan(after, pubs, subs) == []
  {
    RunPlanKeepsIdentity(semantics, user, FreshPlan(pubs, subs));
    FreshRolesExact(user, pubs, subs);
    SecondConnectIsSilent(user, pubs, subs);
  }

  /** No user of the client is a multicast user. */
  ghost predicate HasNoMulticastUser(users: map<Pubkey, User>, clientIp: Ip) {
    forall k :: k in users ==> users[k].clientIp != clientIp || users[k].userType != Multicast
  }

  lemma TheNewUserIsFound(users: map<Pubkey, User>, pk: Pubkey, user: User, order: seq<Pubkey>,
                          clientIp: Ip)
    requires HasNoMulticastUser(users, clientIp) && user.clientIp == clientIp && user.userType == Multicast
    requires Elements(order) == users[pk := user].Keys
    ensures MulticastVerbs.FindMulticastUser(users[pk := user], order, clientIp) == Some(pk)
  {
    assert pk in Elements(order);
  }

  /** A plan with nothing in it writes nothing. */
  lemma EmptyPlanIsSilent(pk: Pubkey, sent: nat, ok: bool, semantics: Semantics, rejects: nat -> bool,
                          writes: seq<RoleWrite>, users: map<Pubkey, User>,
                          writes': seq<RoleWrite>, users': map<Pubkey, User>)
    requires Progress(pk, [], sent, ok, semantics, rejects, writes, users, writes', users')
    ensures ok && writes' == writes && users' == users
  {
    assert writes + AllSent(pk, []) + [] == writes;
  }

  lemma FullPlanIsSent(pk: Pubkey, plan: seq<Intent>, sent: nat, semantics: Semantics,
                       rejects: nat -> bool, writes: seq<RoleWrite>, users: map<Pubkey, User>,
                       writes': seq<RoleWrite>, users': map<Pubkey, User>)
    requires Progress(pk, plan, sent, true, semantics, rejects, writes, users, writes', users')
    ensures writes' == writes + AllSent(pk, plan)
  {
    assert plan[..|plan|] == plan;
  }

  /** After a fresh connect the new account is the client's multicast user, has exactly the requested
      roles, and a second connect finds nothing missing. */
  lemma AfterFreshConnect(pk: Pubkey, user: User, pubs: seq<Pubkey>, subs: seq<Pubkey>, sent: nat,
                          semantics: Semantics, rejects: nat -> bool,
                          writes: seq<RoleWrite>, users: map<Pubkey, User>,
                          writes': seq<RoleWrite>, users': map<Pubkey, User>, order: seq<Pubkey>)
    requires semantics == Assign || semantics == Additive
    requires user.userType == Multicast && user.publishers == [] && user.subscribers == []
    requires HasNoMulticastUser(users, user.clientIp) && Elements(order) == users'.Keys
    requires Progress(pk, FreshPlan(pubs, subs), sent, true, semantics, rejects, writes, users[pk := user], writes',
                      users')
    ensures pk in users' && users' == users[pk := users'[pk]] && HasExactly(users'[pk], pubs, subs)
    ensures writes' == writes + AllSent(pk, FreshPlan(pubs, subs))
    ensures MulticastVerbs.FindMulticastUser(users', order, user.clientIp) == Some(pk)
    ensures ExistingPlan(users'[pk], pubs, subs) == []
  {
    var after := RunPlan(semantics, user, FreshPlan(pubs, subs));
    FreshAccount(semantics, user, pubs, subs);
    ProgressIsRun(pk, FreshPlan(pubs, subs), sent, true, semantics, rejects, writes, users[pk := user], writes',
                  users');
    FullPlanIsSent(pk, FreshPlan(pubs, subs), sent, semantics, rejects, writes, users[pk := user], writes', users');
    assert users[pk := user][pk := after] == users[pk := after];
    TheNewUserIsFound(users, pk, after, order, user.clientIp);
  }

  /** The same multicast connect twice, for a client without a multicast user. `iteration` is the
      order in which a map with the given keys is iterated. If the first one succeeds, the account has
      exactly the requested roles, and the second one succeeds without a write. */
  method ConnectTwice(ledger: Ledger, iteration: set<Pubkey> -> seq<Pubkey>, clientIp: Ip, owner: Pubkey,
                      placement: Option<Placement>, tunnelId: U16, pubs: seq<Pubkey>, subs: seq<Pubkey>)
    returns (first: ConnectOutcome, second: ConnectOutcome)
    requires ledger.semantics == Assign || ledger.semantics == Additive
    requires forall keys :: Elements(iteration(keys)) == keys
    requires HasNoMulticastUser(ledger.users, clientIp)
    modifies ledger`users, ledger`writes
    ensures first.Connected? ==>
              var pk := UserPda(clientIp, Multicast);
              && second.Connected?
              && pk in ledger.users && ledger.users == old(ledger.users)[pk := ledger.users[pk]]
              && HasExactly(ledger.users[pk], pubs, subs)
              && ledger.writes == old(ledger.writes) + AllSent(pk, FreshPlan(pubs, subs))
  {
    ghost var users, writes := ledger.users, ledger.writes;
    ghost var sent;
    first, sent := FindOrCreateUserAndSubscribe(ledger, iteration(ledger.users.Keys), clientIp, owner, placement,
                                                tunnelId, pubs, subs);
    if !first.Connected? {
      return first, first;
    }
    ghost var pk, user := UserPda(clientIp, Multicast), NewUser(owner, clientIp, placement.value, tunnelId);
    ghost var users', writes' := ledger.users, ledger.writes;
    AfterFreshConnect(pk, user, pubs, subs, sent, ledger.semantics, ledger.rejects, writes, users, writes', users',
                      iteration(users'.Keys));
    second, sent := FindOrCreateUserAndSubscribe(ledger, iteration(ledger.users.Keys), clientIp, owner, placement,
                                                 tunnelId, pubs, subs);
    EmptyPlanIsSilent(pk, sent, second.Connected?, ledger.semantics, ledger.rejects, writes', users', ledger.writes,
                      ledger.users);
  }
}
