/** `disconnect`: delete the client's users one by one, waiting for each to disappear. */
module Disconnect {
  import opened Basics
  import opened Onchain
  import opened Ledger

  datatype DzMode = IbrlMode | MulticastMode

  /** The first read plus eight retries. */
  const READS := 9

  predicate MatchesMode(mode: Option<DzMode>, userType: UserType) {
    match mode
    case None => true
    case Some(IbrlMode) => userType == IBRL || userType == IBRLWithAllocatedIP
    case Some(MulticastMode) => userType == Multicast
  }

  /** The users this disconnect is responsible for. */
  predicate IsSelected(mode: Option<DzMode>, clientIp: Ip, payer: Pubkey, user: User) {
    user.clientIp == clientIp && MatchesMode(mode, user.userType) && user.owner == payer
  }

  // --- waiting for one account ---

  /** The account is gone by the `attempt`-th read of its wait. */
  predicate GoneBy(plan: DeletePlan, attempt: nat) {
    plan.effect.Some? && plan.effect.value <= attempt
  }

  /** A wait that starts at read `t` ends at this read: the account is gone, or the read failed. */
  predicate EndsAt(plan: DeletePlan, fails: nat -> bool, t: nat, attempt: nat) {
    GoneBy(plan, attempt) || fails(t + attempt)
  }

  /** Some read within the limit ends the wait. */
  predicate Closes(plan: DeletePlan, fails: nat -> bool, t: nat) {
    exists a :: 0 <= a < READS && EndsAt(plan, fails, t, a)
  }

  /** No read of the wait fails for an unrelated reason while the account still exists. */
  predicate ErrorFree(plan: DeletePlan, fails: nat -> bool, t: nat) {
    forall a :: 0 <= a < READS && fails(t + a) ==> GoneBy(plan, a)
  }

  /** The read after which a wait started at read `t` is over, if it is not over before read `r`. */
  function OverFrom(plan: DeletePlan, fails: nat -> bool, t: nat, r: nat): nat
    requires t <= r <= t + READS
    decreases t + READS - r
  {
    if r == t + READS then r
    else if EndsAt(plan, fails, t, r - t) then r + 1
    else OverFrom(plan, fails, t, r + 1)
  }

  /** The read after which a wait started at read `t` is over. */
  function Over(plan: DeletePlan, fails: nat -> bool, t: nat): nat {
    OverFrom(plan, fails, t, t)
  }

  lemma {:induction false} OverEnds(plan: DeletePlan, fails: nat -> bool, t: nat, r: nat)
    requires t <= r <= t + READS && forall b :: 0 <= b < r - t ==> !EndsAt(plan, fails, t, b)
    ensures
      var w := OverFrom(plan, fails, t, r) - t;
      && r - t <= w <= READS
      && (forall b :: 0 <= b < w - 1 ==> !EndsAt(plan, fails, t, b))
      && (if Closes(plan, fails, t) then w > 0 && EndsAt(plan, fails, t, w - 1) else w == READS)
    decreases t + READS - r
  {
    if r < t + READS && !EndsAt(plan, fails, t, r - t) {
      OverEnds(plan, fails, t, r + 1);
    }
  }

  /** When a wait ends in time, its account is gone exactly if the wait was free of errors. */
  lemma GoneAtEndIffErrorFree(plan: DeletePlan, fails: nat -> bool, t: nat)
    requires Closes(plan, fails, t)
    ensures ErrorFree(plan, fails, t) <==> Over(plan, fails, t) > t && GoneBy(plan, Over(plan, fails, t) - t - 1)
  {
    OverEnds(plan, fails, t, t);
    var last := Over(plan, fails, t) - t - 1;
    if GoneBy(plan, last) {
      forall a | 0 <= a < READS && fails(t + a) ensures GoneBy(plan, a) {
        assert EndsAt(plan, fails, t, a);
      }
    }
  }

  /** The first read that ends a wait decides its length, and whether the account is gone. */
  lemma WaitEndsHere(plan: DeletePlan, fails: nat -> bool, t: nat, attempt: nat)
    requires attempt < READS && EndsAt(plan, fails, t, attempt)
    requires forall b :: 0 <= b < attempt ==> !EndsAt(plan, fails, t, b)
    ensures Closes(plan, fails, t) && Over(plan, fails, t) == t + attempt + 1
    ensures ErrorFree(plan, fails, t) <==> GoneBy(plan, attempt)
  {
    OverEnds(plan, fails, t, t);
    GoneAtEndIffErrorFree(plan, fails, t);
  }

  lemma WaitTimesOut(plan: DeletePlan, fails: nat -> bool, t: nat)
    requires forall b :: 0 <= b < READS ==> !EndsAt(plan, fails, t, b)
    ensures !Closes(plan, fails, t) && Over(plan, fails, t) == t + READS
  {
    OverEnds(plan, fails, t, t);
  }

  /** Read the account until a read fails; time out after `READS` reads that find it. The deletions
      of other accounts that are under way take effect meanwhile. */
  method PollForUserClosed(ledger: Ledger, pk: Pubkey, plan: DeletePlan) returns (ok: bool)
    requires pk in ledger.users && ledger.users.Keys !! Arrived(ledger.due, ledger.clock)
    requires if plan.effect.Some? then pk in ledger.due && ledger.due[pk] == ledger.clock + plan.effect.value
             else pk !in ledger.due
    modifies ledger`users, ledger`clock
    ensures ok <==> exists a :: 0 <= a < 9 && EndsAt(plan, ledger.readFails, old(ledger.clock), a)
    ensures ledger.clock == Over(plan, ledger.readFails, old(ledger.clock))
    ensures ledger.users == old(ledger.users) - Arrived(ledger.due, ledger.clock)
    ensures ok ==> (pk !in ledger.users <==> ErrorFree(plan, ledger.readFails, old(ledger.clock)))
  {
    ghost var t, fails := ledger.clock, ledger.readFails;
    for attempt := 0 to READS
      invariant ledger.clock == t + attempt && pk in ledger.users
      invariant ledger.users == old(ledger.users) - Arrived(ledger.due, ledger.clock)
      invariant forall b :: 0 <= b < attempt ==> !EndsAt(plan, fails, t, b)
    {
      StillArrived(old(ledger.users), ledger.due, ledger.clock, ledger.due, ledger.clock + 1);
      var read := ledger.GetUser(pk);
      assert pk in ledger.users <==> !GoneBy(plan, attempt);
      if read != Present {
        WaitEndsHere(plan, fails, t, attempt);
        return true;
      }
    }
    WaitTimesOut(plan, fails, t);
    return false;
  }

  // --- the schedule of a run ---

  /** The environment of a run: how deletions play out and which reads fail, and how many deletions
      and reads there were before it. */
  datatype Schedule = Schedule(plans: nat -> DeletePlan, fails: nat -> bool, deletes: nat, clock: nat) {
    /** How the run's i-th deletion plays out. */
    function Plan(i: nat): DeletePlan {
      plans(deletes + i)
    }

    /** The read at which the i-th wait starts. */
    function Start(i: nat): nat {
      if i == 0 then clock else Over(Plan(i - 1), fails, Start(i - 1))
    }

    /** The environment as the i-th wait finds it. */
    function After(i: nat): Schedule {
      this.(deletes := deletes + i, clock := Start(i))
    }

    /** The i-th wait ends in time. */
    predicate Ends(i: nat) {
      Closes(Plan(i), fails, Start(i))
    }

    /** The i-th wait sees no unrelated error while its account exists. */
    predicate Clean(i: nat) {
      ErrorFree(Plan(i), fails, Start(i))
    }

    /** The i-th deletion shows before the end of the run's first `k` waits. */
    predicate Lands(i: nat, k: nat) {
      Plan(i).effect.Some? && Start(i) + Plan(i).effect.value < Start(k)
    }
  }

  lemma {:induction false} StartGrows(s: Schedule, i: nat, k: nat)
    requires i <= k
    ensures s.Start(i) <= s.Start(k)
    decreases k
  {
    if i < k {
      StartGrows(s, i, k - 1);
      OverEnds(s.Plan(k - 1), s.fails, s.Start(k - 1), s.Start(k - 1));
    }
  }

  /** A deletion that its own wait sees has landed by the end of every later wait. */
  lemma CleanLands(s: Schedule, i: nat, k: nat)
    requires i < k && s.Ends(i)
    ensures s.Clean(i) <==> s.Lands(i, i + 1)
    ensures s.Lands(i, i + 1) ==> s.Lands(i, k)
  {
    OverEnds(s.Plan(i), s.fails, s.Start(i), s.Start(i));
    GoneAtEndIffErrorFree(s.Plan(i), s.fails, s.Start(i));
    StartGrows(s, i + 1, k);
  }

  /** The deletion of `pk` is submitted next. */
  function DueWith(due: map<Pubkey, nat>, pk: Pubkey, now: Schedule): map<Pubkey, nat> {
    if now.Plan(0).effect.Some? then due[pk := now.clock + now.Plan(0).effect.value] else due
  }

  /** When each of the deletions takes effect. */
  function Due(s: Schedule, selected: seq<Pubkey>): map<Pubkey, nat> {
    if selected == [] then map[]
    else
      var i := |selected| - 1;
      DueWith(Due(s, selected[..i]), selected[i], s.After(i))
  }

  /** `due` schedules `pk` as the i-th deletion, or not at all if that has no effect. */
  ghost predicate DueAt(s: Schedule, due: map<Pubkey, nat>, pk: Pubkey, i: nat) {
    if s.Plan(i).effect.Some? then pk in due && due[pk] == s.Start(i) + s.Plan(i).effect.value else pk !in due
  }

  lemma {:induction false} DueMembers(s: Schedule, selected: seq<Pubkey>)
    requires NoDuplicates(selected)
    ensures forall pk :: pk in Due(s, selected) ==> pk in selected
    ensures forall i :: 0 <= i < |selected| ==> DueAt(s, Due(s, selected), selected[i], i)
  {
    if selected != [] {
      var n := |selected| - 1;
      var init := selected[..n];
      DueMembers(s, init);
      assert selected == init + [selected[n]] && selected[n] !in init;
      forall i | 0 <= i < |selected| ensures DueAt(s, Due(s, selected), selected[i], i) {
        if i < n {
          assert init[i] == selected[i] && DueAt(s, Due(s, init), init[i], i);
        }
      }
    }
  }

  /** The first `k` selected users whose deletion has shown by the end of the k-th wait. */
  ghost function Landed(s: Schedule, selected: seq<Pubkey>, k: nat): set<Pubkey>
    requires k <= |selected|
  {
    set i | 0 <= i < k && s.Lands(i, k) :: selected[i]
  }

  lemma ArrivedIsLanded(s: Schedule, selected: seq<Pubkey>, k: nat)
    requires NoDuplicates(selected) && k <= |selected|
    ensures Arrived(Due(s, selected[..k]), s.Start(k)) == Landed(s, selected, k)
  {
    var due := Due(s, selected[..k]);
    DueMembers(s, selected[..k]);
    forall pk | pk in Arrived(due, s.Start(k)) ensures pk in Landed(s, selected, k) {
      assert pk in selected[..k];
      var i :| 0 <= i < k && selected[..k][i] == pk;
      assert DueAt(s, due, selected[..k][i], i);
      assert s.Lands(i, k) && selected[i] == pk;
    }
    forall pk | pk in Landed(s, selected, k) ensures pk in Arrived(due, s.Start(k)) {
      var i :| 0 <= i < k && s.Lands(i, k) && selected[i] == pk;
      assert DueAt(s, due, selected[..k][i], i);
    }
  }

  // --- the loop over the client's users ---

  /** The selected users in iteration order. */
  function Selected(users: map<Pubkey, User>, order: seq<Pubkey>, k: nat, mode: Option<DzMode>, clientIp: Ip,
                    payer: Pubkey): seq<Pubkey>
    requires k <= |order|
  {
    if k == 0 then []
    else
      var before := Selected(users, order, k - 1, mode, clientIp, payer);
      var pk := order[k - 1];
      if pk in users && IsSelected(mode, clientIp, payer, users[pk]) then before + [pk] else before
  }

  lemma {:induction false} SelectedMembers(users: map<Pubkey, User>, order: seq<Pubkey>, k: nat, mode: Option<DzMode>,
                                           clientIp: Ip, payer: Pubkey)
    requires k <= |order|
    ensures forall pk :: pk in Selected(users, order, k, mode, clientIp, payer) <==>
                         pk in order[..k] && pk in users && IsSelected(mode, clientIp, payer, users[pk])
  {
    if k > 0 {
      SelectedMembers(users, order, k - 1, mode, clientIp, payer);
      assert order[..k] == order[..k - 1] + [order[k - 1]];
    }
  }

  lemma {:induction false} SelectedDistinct(users: map<Pubkey, User>, order: seq<Pubkey>, k: nat, mode: Option<DzMode>,
                                            clientIp: Ip, payer: Pubkey)
    requires k <= |order| && NoDuplicates(order)
    ensures NoDuplicates(Selected(users, order, k, mode, clientIp, payer))
  {
    if k > 0 {
      SelectedDistinct(users, order, k - 1, mode, clientIp, payer);
      SelectedMembers(users, order, k - 1, mode, clientIp, payer);
      assert order[k - 1] !in order[..k - 1];
    }
  }

  lemma {:induction false} SelectedPrefix(users: map<Pubkey, User>, order: seq<Pubkey>, j: nat, k: nat,
                                          mode: Option<DzMode>, clientIp: Ip, payer: Pubkey)
    requires j <= k <= |order|
    ensures Selected(users, order, j, mode, clientIp, payer) <= Selected(users, order, k, mode, clientIp, payer)
    decreases k - j
  {
    if j < k {
      SelectedPrefix(users, order, j, k - 1, mode, clientIp, payer);
    }
  }

  /** The state after the first `i` users in iteration order were dealt with. */
  ghost predicate Processed(users: map<Pubkey, User>, order: seq<Pubkey>, i: nat, mode: Option<DzMode>, clientIp: Ip,
                            payer: Pubkey, s: Schedule, now: Schedule, due: map<Pubkey, nat>,
                            users': map<Pubkey, User>)
    requires i <= |order|
  {
    var selected := Selected(users, order, i, mode, clientIp, payer);
    && now == s.After(|selected|)
    && due == Due(s, selected)
    && (forall j :: 0 <= j < |selected| ==> s.Ends(j))
    && users' == users - Arrived(due, now.clock)
  }

  /** The next user is still there, and no deletion of it is under way. */
  lemma NextIsUntouched(users: map<Pubkey, User>, order: seq<Pubkey>, i: nat, mode: Option<DzMode>, clientIp: Ip,
                        payer: Pubkey, s: Schedule, now: Schedule, due: map<Pubkey, nat>,
                        users': map<Pubkey, User>)
    requires i < |order| && NoDuplicates(order) && order[i] in users
    requires Processed(users, order, i, mode, clientIp, payer, s, now, due, users')
    ensures order[i] in users' && order[i] !in due && users'.Keys !! Arrived(due, now.clock)
  {
    var selected := Selected(users, order, i, mode, clientIp, payer);
    SelectedMembers(users, order, i, mode, clientIp, payer);
    SelectedDistinct(users, order, i, mode, clientIp, payer);
    DueMembers(s, selected);
    assert order[i] !in order[..i];
  }

  lemma DueNext(s: Schedule, selected: seq<Pubkey>, pk: Pubkey)
    ensures Due(s, selected + [pk]) == DueWith(Due(s, selected), pk, s.After(|selected|))
  {
    assert (selected + [pk])[..|selected|] == selected;
  }

  /** One more deletion is submitted at `now`, and waited for. */
  lemma ProcessedOne(users: map<Pubkey, User>, order: seq<Pubkey>, i: nat, mode: Option<DzMode>, clientIp: Ip,
                     payer: Pubkey, s: Schedule, now: Schedule, due: map<Pubkey, nat>, users': map<Pubkey, User>)
    requires i < |order| && order[i] in users && IsSelected(mode, clientIp, payer, users[order[i]])
    requires Processed(users, order, i, mode, clientIp, payer, s, now, due, users') && order[i] !in due
    ensures
      var selected := Selected(users, order, i, mode, clientIp, payer);
      var next, k := selected + [order[i]], |selected|;
      var due' := DueWith(due, order[i], now);
      && next == Selected(users, order, i + 1, mode, clientIp, payer)
      && now.Plan(0) == s.Plan(k) && now.clock == s.Start(k) && Due(s, next) == due'
      && s.Start(k + 1) == Over(now.Plan(0), s.fails, now.clock)
      && users' - Arrived(due', s.Start(k + 1)) == users - Arrived(due', s.Start(k + 1))
  {
    var selected := Selected(users, order, i, mode, clientIp, payer);
    var next, k := selected + [order[i]], |selected|;
    DueNext(s, selected, order[i]);
    StartGrows(s, k, k + 1);
    StillArrived(users, due, now.clock, Due(s, next), s.Start(k + 1));
  }

  /** How a disconnect ended: every wait ended in time, or the users before the one that timed
      out have been dealt with. Gone are those whose deletion showed before the last read. */
  ghost predicate Ended(users: map<Pubkey, User>, order: seq<Pubkey>, mode: Option<DzMode>, clientIp: Ip, payer: Pubkey,
                        s: Schedule, ok: bool, closed: nat, users': map<Pubkey, User>)
  {
    var selected := Selected(users, order, |order|, mode, clientIp, payer);
    && closed <= |selected|
    && (ok <==> closed == |selected|)
    && (forall i :: 0 <= i < closed ==> s.Ends(i))
    && (!ok ==> !s.Ends(closed))
    && users' == users - Landed(s, selected, if ok then closed else closed + 1)
  }

  /** After the last user, or a wait that timed out, what arrived is what landed. */
  lemma EndsAfter(users: map<Pubkey, User>, order: seq<Pubkey>, i: nat, mode: Option<DzMode>, clientIp: Ip,
                  payer: Pubkey, s: Schedule)
    requires i <= |order| && NoDuplicates(order)
    ensures
      var all := Selected(users, order, |order|, mode, clientIp, payer);
      var selected := Selected(users, order, i, mode, clientIp, payer);
      && |selected| <= |all|
      && Arrived(Due(s, selected), s.Start(|selected|)) == Landed(s, all, |selected|)
  {
    var all := Selected(users, order, |order|, mode, clientIp, payer);
    var selected := Selected(users, order, i, mode, clientIp, payer);
    SelectedPrefix(users, order, i, |order|, mode, clientIp, payer);
    SelectedDistinct(users, order, |order|, mode, clientIp, payer);
    ArrivedIsLanded(s, all, |selected|);
    assert all[..|selected|] == selected;
  }

  lemma Begun(users: map<Pubkey, User>, order: seq<Pubkey>, mode: Option<DzMode>, clientIp: Ip, payer: Pubkey,
              s: Schedule)
    ensures Processed(users, order, 0, mode, clientIp, payer, s, s, map[], users)
  {
  }

  lemma Skipped(users: map<Pubkey, User>, order: seq<Pubkey>, i: nat, mode: Option<DzMode>, clientIp: Ip,
                payer: Pubkey, s: Schedule, now: Schedule, due: map<Pubkey, nat>, users': map<Pubkey, User>)
    requires i < |order| && order[i] in users && !IsSelected(mode, clientIp, payer, users[order[i]])
    requires Processed(users, order, i, mode, clientIp, payer, s, now, due, users')
    ensures Processed(users, order, i + 1, mode, clientIp, payer, s, now, due, users')
  {
  }

  /** A deletion was submitted at `now` and waited for, which left `due'` and `users''`. */
  lemma Waited(users: map<Pubkey, User>, order: seq<Pubkey>, i: nat, mode: Option<DzMode>, clientIp: Ip,
               payer: Pubkey, s: Schedule, now: Schedule, due: map<Pubkey, nat>, users': map<Pubkey, User>,
               next: Schedule, due': map<Pubkey, nat>, users'': map<Pubkey, User>)
    requires i < |order| && NoDuplicates(order)
    requires order[i] in users && IsSelected(mode, clientIp, payer, users[order[i]])
    requires Processed(users, order, i, mode, clientIp, payer, s, now, due, users')
    requires next == now.(deletes := now.deletes + 1, clock := Over(now.Plan(0), now.fails, now.clock))
    requires due' == DueWith(due, order[i], now)
    requires users'' == users' - Arrived(due', next.clock)
    ensures if Closes(now.Plan(0), now.fails, now.clock)
            then Processed(users, order, i + 1, mode, clientIp, payer, s, next, due', users'')
            else Ended(users, order, mode, clientIp, payer, s, false, now.deletes - s.deletes, users'')
  {
    NextIsUntouched(users, order, i, mode, clientIp, payer, s, now, due, users');
    ProcessedOne(users, order, i, mode, clientIp, payer, s, now, due, users');
    EndsAfter(users, order, i + 1, mode, clientIp, payer, s);
  }

  lemma Finished(users: map<Pubkey, User>, order: seq<Pubkey>, mode: Option<DzMode>, clientIp: Ip, payer: Pubkey,
                 s: Schedule, now: Schedule, due: map<Pubkey, nat>, users': map<Pubkey, User>)
    requires NoDuplicates(order)
    requires Processed(users, order, |order|, mode, clientIp, payer, s, now, due, users')
    ensures Ended(users, order, mode, clientIp, payer, s, true, now.deletes - s.deletes, users')
  {
    EndsAfter(users, order, |order|, mode, clientIp, payer, s);
  }

  ghost function ScheduleOf(ledger: Ledger): Schedule
    reads ledger
  {
    Schedule(ledger.plans, ledger.readFails, ledger.deletes, ledger.clock)
  }

  /** Submit the deletion of one user, whatever the call reports, and wait. */
  method DeleteOne(ledger: Ledger, pk: Pubkey) returns (gone: bool)
    requires pk in ledger.users && pk !in ledger.due && ledger.users.Keys !! Arrived(ledger.due, ledger.clock)
    modifies ledger`users, ledger`deletes, ledger`clock, ledger`due
    ensures
      var now := old(ScheduleOf(ledger));
      && gone == Closes(now.Plan(0), now.fails, now.clock)
      && ScheduleOf(ledger)
         == now.(deletes := now.deletes + 1, clock := Over(now.Plan(0), now.fails, now.clock))
      && ledger.due == DueWith(old(ledger.due), pk, now)
      && ledger.users == old(ledger.users) - Arrived(ledger.due, ledger.clock)
  {
    var plan := ledger.DeleteUser(pk);
    assert Arrived(ledger.due, ledger.clock) == Arrived(old(ledger.due), ledger.clock);
    gone := PollForUserClosed(ledger, pk, plan);
  }

  /** One turn of the loop: skip the user, or delete it and wait. */
  method DeleteIfSelected(ledger: Ledger, users: map<Pubkey, User>, order: seq<Pubkey>, i: nat, mode: Option<DzMode>,
                          clientIp: Ip, payer: Pubkey, ghost s: Schedule) returns (gone: bool)
    requires i < |order| && NoDuplicates(order) && order[i] in users
    requires Processed(users, order, i, mode, clientIp, payer, s, ScheduleOf(ledger), ledger.due, ledger.users)
    modifies ledger`users, ledger`deletes, ledger`clock, ledger`due
    ensures if gone
            then Processed(users, order, i + 1, mode, clientIp, payer, s, ScheduleOf(ledger), ledger.due, ledger.users)
            else old(ledger.deletes) >= s.deletes
                 && Ended(users, order, mode, clientIp, payer, s, false, old(ledger.deletes) - s.deletes, ledger.users)
  {
    var pk, user := order[i], users[order[i]];
    ghost var now, due, users' := ScheduleOf(ledger), ledger.due, ledger.users;
    if user.clientIp == clientIp && MatchesMode(mode, user.userType) && user.owner == payer {
      NextIsUntouched(users, order, i, mode, clientIp, payer, s, now, due, users');
      gone := DeleteOne(ledger, pk);
      Waited(users, order, i, mode, clientIp, payer, s, now, due, users', ScheduleOf(ledger), ledger.due, ledger.users);
    } else {
      Skipped(users, order, i, mode, clientIp, payer, s, now, due, users');
      return true;
    }
  }

  /** Delete every selected user in turn, giving up at the first that does not disappear. No other
      deletion is under way at the start. */
  method DeleteUsers(ledger: Ledger, order: seq<Pubkey>, mode: Option<DzMode>, clientIp: Ip, payer: Pubkey)
    returns (ok: bool, ghost closed: nat)
    requires Elements(order) == ledger.users.Keys && NoDuplicates(order) && ledger.due == map[]
    modifies ledger`users, ledger`deletes, ledger`clock, ledger`due
    ensures Ended(old(ledger.users), order, mode, clientIp, payer, old(ScheduleOf(ledger)), ok, closed, ledger.users)
  {
    var users := ledger.users;
    ghost var s := ScheduleOf(ledger);
    Begun(users, order, mode, clientIp, payer, s);
    for i := 0 to |order|
      invariant Processed(users, order, i, mode, clientIp, payer, s, ScheduleOf(ledger), ledger.due, ledger.users)
    {
      assert order[i] in Elements(order);
      ghost var deletes := ledger.deletes;
      var gone := DeleteIfSelected(ledger, users, order, i, mode, clientIp, payer, s);
      if !gone {
        return false, deletes - s.deletes;
      }
    }
    Finished(users, order, mode, clientIp, payer, s, ScheduleOf(ledger), ledger.due, ledger.users);
    return true, ledger.deletes - s.deletes;
  }

  // --- what success means ---

  /** The user is the client's and the payer's, and of a type the mode is about. */
  ghost predicate IsTheirs(mode: Option<DzMode>, clientIp: Ip, payer: Pubkey, user: User) {
    && user.clientIp == clientIp && user.owner == payer
    && (mode == Some(IbrlMode) ==> user.userType == IBRL || user.userType == IBRLWithAllocatedIP)
    && (mode == Some(MulticastMode) ==> user.userType == Multicast)
  }

  lemma SelectedAre(users: map<Pubkey, User>, order: seq<Pubkey>, mode: Option<DzMode>, clientIp: Ip, payer: Pubkey)
    requires Elements(order) == users.Keys
    ensures forall pk :: pk in Selected(users, order, |order|, mode, clientIp, payer) <==>
                         pk in users && IsTheirs(mode, clientIp, payer, users[pk])
  {
    SelectedMembers(users, order, |order|, mode, clientIp, payer);
    assert order[..|order|] == order;
    forall pk | pk in users ensures pk in order {
      assert pk in Elements(order);
    }
  }

  /** Reads fail only because the account is gone. */
  ghost predicate Truthful(s: Schedule) {
    forall t :: !s.fails(t)
  }

  /** If reads fail exactly when the account is absent, then a disconnect that reports success,
      whatever the individual delete calls reported, removed the client's users of the chosen
      mode that the payer owns, and no other account. */
  lemma SuccessMeansGone(users: map<Pubkey, User>, users': map<Pubkey, User>, order: seq<Pubkey>,
                         mode: Option<DzMode>, clientIp: Ip, payer: Pubkey, s: Schedule, closed: nat)
    requires Elements(order) == users.Keys && NoDuplicates(order) && Truthful(s)
    requires Ended(users, order, mode, clientIp, payer, s, true, closed, users')
    ensures forall pk :: pk in users' <==> pk in users && !IsTheirs(mode, clientIp, payer, users[pk])
    ensures forall pk :: pk in users' ==> users'[pk] == users[pk]
  {
    var selected := Selected(users, order, |order|, mode, clientIp, payer);
    SelectedAre(users, order, mode, clientIp, payer);
    forall i | 0 <= i < |selected| ensures selected[i] in Landed(s, selected, |selected|) {
      CleanLands(s, i, |selected|);
    }
  }

  lemma LandedIff(s: Schedule, selected: seq<Pubkey>, k: nat, i: nat)
    requires NoDuplicates(selected) && i < k <= |selected|
    ensures selected[i] in Landed(s, selected, k) <==> s.Lands(i, k)
  {
  }

  lemma AllOf(users: map<Pubkey, User>, users': map<Pubkey, User>, mode: Option<DzMode>, clientIp: Ip, payer: Pubkey,
              selected: seq<Pubkey>)
    requires forall pk :: pk in selected <==> pk in users && IsTheirs(mode, clientIp, payer, users[pk])
    ensures (forall pk :: pk in users && IsTheirs(mode, clientIp, payer, users[pk]) ==> pk !in users')
            <==> forall i :: 0 <= i < |selected| ==> selected[i] !in users'
  {
    if forall pk :: pk in users && IsTheirs(mode, clientIp, payer, users[pk]) ==> pk !in users' {
      forall i | 0 <= i < |selected| ensures selected[i] !in users' {
        assert selected[i] in selected;
      }
    }
  }

  /** A disconnect that reports success removed every user it was responsible for if and only if each
      deletion whose wait was cut short by an unrelated read error showed before the last read of
      the run. So it did if no wait was cut short; and the user waited for last is gone if and only
      if its own wait was not. */
  lemma GoneIffLanded(users: map<Pubkey, User>, users': map<Pubkey, User>, order: seq<Pubkey>,
                      mode: Option<DzMode>, clientIp: Ip, payer: Pubkey, s: Schedule, closed: nat)
    requires Elements(order) == users.Keys && NoDuplicates(order)
    requires Ended(users, order, mode, clientIp, payer, s, true, closed, users')
    ensures
      var selected := Selected(users, order, |order|, mode, clientIp, payer);
      var allGone := forall pk :: pk in users && IsTheirs(mode, clientIp, payer, users[pk]) ==> pk !in users';
      && closed == |selected|
      && (allGone <==> forall i :: 0 <= i < closed && !s.Clean(i) ==> s.Lands(i, closed))
      && ((forall i :: 0 <= i < closed ==> s.Clean(i)) ==> allGone)
      && (closed > 0 ==> (selected[closed - 1] !in users' <==> s.Clean(closed - 1)))
  {
    var selected := Selected(users, order, |order|, mode, clientIp, payer);
    SelectedAre(users, order, mode, clientIp, payer);
    SelectedDistinct(users, order, |order|, mode, clientIp, payer);
    forall i | 0 <= i < closed
      ensures selected[i] !in users' <==> s.Lands(i, closed)
      ensures s.Clean(i) ==> s.Lands(i, closed)
      ensures i == closed - 1 ==> (s.Clean(i) <==> s.Lands(i, closed))
    {
      assert selected[i] in selected;
      LandedIff(s, selected, closed, i);
      CleanLands(s, i, closed);
    }
    AllOf(users, users', mode, clientIp, payer, selected);
  }

  /** The poll treats any failed read as a deletion: with one unrelated read error, the wait ends in
      time although the account never goes away. */
  lemma ReadErrorCountsAsClosed(reportsOk: bool)
    ensures
      var s := Schedule(_ => DeletePlan(reportsOk, None), t => t == 0, 0, 0);
      s.Ends(0) && !s.Clean(0) && !s.Lands(0, 1)
  {
    var s := Schedule(_ => DeletePlan(reportsOk, None), t => t == 0, 0, 0);
    assert s.fails(s.Start(0) + 0) && !GoneBy(s.Plan(0), 0);
    assert EndsAt(s.Plan(0), s.fails, s.Start(0), 0);
  }

  /** A wait cut short need not leave its account behind: the first read fails, the first deletion
      shows two reads later, and by then the second wait, of four reads, is not over. */
  lemma LateDeletionLands(reportsOk: bool)
    ensures
      var s := Schedule(i => DeletePlan(reportsOk, Some(if i == 0 then 2 else 3)), t => t == 0, 0, 0);
      s.Ends(0) && s.Ends(1) && !s.Clean(0) && s.Lands(0, 2) && s.Lands(1, 2)
  {
    var s := Schedule(i => DeletePlan(reportsOk, Some(if i == 0 then 2 else 3)), t => t == 0, 0, 0);
    assert s.fails(s.Start(0) + 0) && !GoneBy(s.Plan(0), 0);
    assert EndsAt(s.Plan(0), s.fails, s.Start(0), 0);
    assert s.Start(1) == 1;
    OverEnds(s.Plan(1), s.fails, 1, 1);
    assert EndsAt(s.Plan(1), s.fails, 1, 3);
    assert !s.fails(1) && !s.fails(2) && !s.fails(3);
    assert Over(s.Plan(1), s.fails, 1) == 5;
  }
}
