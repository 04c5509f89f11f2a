/** The ledger as the daemon CLI sees it: a map of user accounts behind calls that can fail. */
module Ledger {
  import opened Basics
  import opened Onchain

  /** What a role update does to an account: (account, group, publisher, subscriber). */
  type Semantics = (User, Pubkey, bool, bool) -> User

  function Without(list: seq<Pubkey>, group: Pubkey): seq<Pubkey> {
    Filter(IsNot(group), list)
  }

  function AssignRole(list: seq<Pubkey>, group: Pubkey, on: bool): seq<Pubkey> {
    if !on then Without(list, group) else if group in list then list else list + [group]
  }

  /** The onchain program: each role is made to match its flag. */
  function Assign(user: User, group: Pubkey, publisher: bool, subscriber: bool): User {
    user.(publishers := AssignRole(user.publishers, group, publisher),
          subscribers := AssignRole(user.subscribers, group, subscriber))
  }

  function AddRole(list: seq<Pubkey>, group: Pubkey, on: bool): seq<Pubkey> {
    if on then list + [group] else list
  }

  /** A ledger that only ever adds roles: a false flag changes nothing. */
  function Additive(user: User, group: Pubkey, publisher: bool, subscriber: bool): User {
    user.(publishers := AddRole(user.publishers, group, publisher),
          subscribers := AddRole(user.subscribers, group, subscriber))
  }

  /** A role update sent to the ledger, and whether it was accepted. */
  datatype RoleWrite = RoleWrite(user: Pubkey, group: Pubkey, publisher: bool, subscriber: bool, ok: bool)

  /** The account after the accepted writes among `writes`, in order. */
  function Replay(semantics: Semantics, user: User, writes: seq<RoleWrite>): User {
    if writes == [] then user
    else
      var before := Replay(semantics, user, writes[..|writes| - 1]);
      var last := writes[|writes| - 1];
      if last.ok then semantics(before, last.group, last.publisher, last.subscriber) else before
  }

  lemma ReplayAppend(semantics: Semantics, user: User, writes: seq<RoleWrite>, w: RoleWrite)
    ensures Replay(semantics, user, writes + [w]) ==
            var before := Replay(semantics, user, writes);
            if w.ok then semantics(before, w.group, w.publisher, w.subscriber) else before
  {
    assert (writes + [w])[..|writes + [w]| - 1] == writes;
  }

  /** The effect of one write on all accounts. */
  function ApplyWrite(semantics: Semantics, users: map<Pubkey, User>, w: RoleWrite): map<Pubkey, User> {
    if w.ok && w.user in users
    then users[w.user := semantics(users[w.user], w.group, w.publisher, w.subscriber)]
    else users
  }

  function ApplyWrites(semantics: Semantics, users: map<Pubkey, User>, writes: seq<RoleWrite>): map<Pubkey, User> {
    if writes == [] then users
    else ApplyWrite(semantics, ApplyWrites(semantics, users, writes[..|writes| - 1]), writes[|writes| - 1])
  }

  lemma ApplyAppend(semantics: Semantics, users: map<Pubkey, User>, writes: seq<RoleWrite>,
                    w: RoleWrite)
    ensures ApplyWrites(semantics, users, writes + [w])
            == ApplyWrite(semantics, ApplyWrites(semantics, users, writes), w)
  {
    assert (writes + [w])[..|writes + [w]| - 1] == writes;
  }

  lemma {:induction false} ApplyConcat(semantics: Semantics, users: map<Pubkey, User>, a: seq<RoleWrite>,
                                       b: seq<RoleWrite>)
    ensures ApplyWrites(semantics, users, a + b) == ApplyWrites(semantics, ApplyWrites(semantics, users, a), b)
  {
    if b == [] {
      assert a + b == a;
    } else {
      ApplyConcat(semantics, users, a, b[..|b| - 1]);
      ApplyAppend(semantics, users, a + b[..|b| - 1], b[|b| - 1]);
      assert a + b == (a + b[..|b| - 1]) + [b[|b| - 1]];
    }
  }

  /** Writes that all target one account leave every other account alone. */
  lemma {:induction false} ApplyToOne(semantics: Semantics, users: map<Pubkey, User>, pk: Pubkey,
                                      writes: seq<RoleWrite>)
    requires pk in users
    requires forall w <- writes :: w.user == pk
    ensures ApplyWrites(semantics, users, writes) == users[pk := Replay(semantics, users[pk], writes)]
  {
    if writes == [] {
      assert users == users[pk := users[pk]];
    } else {
      ApplyToOne(semantics, users, pk, writes[..|writes| - 1]);
      assert writes[|writes| - 1] in writes;
    }
  }

  /** How one delete request plays out: whether the call reports success, and after how many
      further reads of the ledger, by anyone, the account is gone, if ever. */
  datatype DeletePlan = DeletePlan(reportsOk: bool, effect: Option<nat>)

  /** The accounts whose deletion shows in reads before number `t`; `due` says from which read on. */
  function Arrived(due: map<Pubkey, nat>, t: nat): set<Pubkey> {
    set pk | pk in due && due[pk] < t
  }

  /** What arrived earlier has arrived later, if nothing was rescheduled. */
  lemma StillArrived(users: map<Pubkey, User>, due: map<Pubkey, nat>, t: nat, due': map<Pubkey, nat>, t': nat)
    requires t <= t' && forall pk :: pk in due ==> pk in due' && due'[pk] == due[pk]
    ensures users - Arrived(due, t) - Arrived(due', t') == users - Arrived(due', t')
  {
    assert Arrived(due, t) <= Arrived(due', t');
  }

  datatype Read = Present | NotFound | OtherError

  class Ledger {
    const semantics: Semantics
    /** Whether the n-th role write is rejected. */
    const rejects: nat -> bool
    /** How the n-th delete request plays out. */
    const plans: nat -> DeletePlan
    /** Whether the n-th read fails for a reason unrelated to the account. */
    const readFails: nat -> bool

    var users: map<Pubkey, User>
    var writes: seq<RoleWrite>
    var deletes: nat
    /** The clock: every read advances it. */
    var clock: nat
    /** Deletions submitted so far that take effect: the read from which on the account is gone. */
    var due: map<Pubkey, nat>

    constructor (semantics: Semantics, rejects: nat -> bool, plans: nat -> DeletePlan, readFails: nat -> bool,
                 users: map<Pubkey, User>)
      ensures this.semantics == semantics && this.rejects == rejects
      ensures this.plans == plans && this.readFails == readFails
      ensures this.users == users && writes == [] && deletes == 0 && clock == 0 && due == map[]
    {
      this.semantics, this.rejects, this.plans, this.readFails := semantics, rejects, plans, readFails;
      this.users, writes, deletes, clock, due := users, [], 0, 0, map[];
    }

    method UpdateMulticastGroupRoles(userPk: Pubkey, group: Pubkey, publisher: bool,
                                     subscriber: bool) returns (ok: bool)
      modifies this`users, this`writes
      ensures ok == (userPk in old(users) && !rejects(|old(writes)|))
      ensures writes == old(writes) + [RoleWrite(userPk, group, publisher, subscriber, ok)]
      ensures users == ApplyWrite(semantics, old(users), RoleWrite(userPk, group, publisher, subscriber, ok))
    {
      ok := userPk in users && !rejects(|writes|);
      writes := writes + [RoleWrite(userPk, group, publisher, subscriber, ok)];
      if ok {
        users := users[userPk := semantics(users[userPk], group, publisher, subscriber)];
      }
    }

    /** Create the client's Multicast user with its first group's roles; the address follows
        from the client IP, so a second account for it cannot be created. */
    method CreateSubscribeUser(user: User, group: Pubkey, publisher: bool, subscriber: bool) returns (ok: bool)
      requires user.userType == Multicast && user.publishers == [] && user.subscribers == []
      modifies this`users, this`writes
      ensures ok == (UserPda(user.clientIp, Multicast) !in old(users) && !rejects(|old(writes)|))
      ensures writes == old(writes) + [RoleWrite(UserPda(user.clientIp, Multicast), group, publisher, subscriber, ok)]
      ensures users == if ok then old(users)[UserPda(user.clientIp, Multicast) :=
                                             semantics(user, group, publisher, subscriber)]
                       else old(users)
    {
      var pk := UserPda(user.clientIp, Multicast);
      ok := pk !in users && !rejects(|writes|);
      writes := writes + [RoleWrite(pk, group, publisher, subscriber, ok)];
      if ok {
        users := users[pk := semantics(user, group, publisher, subscriber)];
      }
    }

    /** Submit a deletion; its effect shows up in later reads, of this account or of others. */
    method DeleteUser(pk: Pubkey) returns (plan: DeletePlan)
      modifies this`deletes, this`due
      ensures plan == plans(old(deletes)) && deletes == old(deletes) + 1
      ensures due == if plan.effect.Some? then old(due)[pk := clock + plan.effect.value] else old(due)
    {
      plan := plans(deletes);
      deletes := deletes + 1;
      if plan.effect.Some? {
        due := due[pk := clock + plan.effect.value];
      }
    }

    /** Read an account, after the deletions that have taken effect by now. */
    method GetUser(pk: Pubkey) returns (read: Read)
      modifies this`users, this`clock
      ensures clock == old(clock) + 1 && users == old(users) - Arrived(due, clock)
      ensures read == if pk !in users then NotFound else if readFails(old(clock)) then OtherError else Present
    {
      users := users - Arrived(due, clock + 1);
      read := if pk !in users then NotFound else if readFails(clock) then OtherError else Present;
      clock := clock + 1;
    }
  }
}
