/** Values and sequence helpers shared by every part of the model. */
module Basics {

  datatype Option<+T> = None | Some(value: T) {
    function UnwrapOr(default: T): T {
      if Some? then value else default
    }
  }

  /** An IPv4 address; zero is the unspecified address. */
  type Ip = x: int | 0 <= x < 0x1_0000_0000

  const UNSPECIFIED: Ip := 0

  /** The human-readable code of an account. */
  datatype Code = Code(text: string)

  datatype UserType = IBRL | IBRLWithAllocatedIP | EdgeFiltering | Multicast

  datatype ResourceType =
    | DeviceTunnelBlock
    | UserTunnelBlock
    | MulticastPublisherBlock
    | LinkIds
    | SegmentRoutingIds
    | TunnelIds(device: Pubkey, slot: nat)
    | DzPrefixBlock(device: Pubkey, index: nat)

  /** An account address. Program-derived addresses of the one serviceability program are
      injective constructors; `System` is the system program, whose bytes are all zero. */
  datatype Pubkey =
    | System
    | Key(id: nat)
    | GlobalStatePda
    | GlobalConfigPda
    | DevicePda(index: nat)
    | UserPda(clientIp: Ip, userType: UserType)
    | AccessPassPda(passIp: Ip, passOwner: Pubkey)
    | PermissionPda(payer: Pubkey)
    | TopologyPda(name: string)
    | ResourcePda(resource: ResourceType)

  /** The all-zero public key, which is also the system program's address. */
  const DEFAULT_PUBKEY: Pubkey := System

  function Elements<T>(s: seq<T>): set<T> {
    set x | x in s
  }

  ghost predicate NoDuplicates<T>(s: seq<T>) {
    forall i, j :: 0 <= i < j < |s| ==> s[i] != s[j]
  }

  function Filter<T>(p: T -> bool, s: seq<T>): seq<T> {
    if s == [] then []
    else if p(s[0]) then [s[0]] + Filter(p, s[1..])
    else Filter(p, s[1..])
  }

  function IsIn<T(==)>(s: seq<T>): T -> bool {
    x => x in s
  }

  function NotIn<T(==)>(s: seq<T>): T -> bool {
    x => x !in s
  }

  function IsNot<T(==)>(y: T): T -> bool {
    x => x != y
  }

  function Both<T>(p: T -> bool, q: T -> bool): T -> bool {
    x => p(x) && q(x)
  }

  lemma {:induction false} FilterMembers<T>(p: T -> bool, s: seq<T>)
    ensures forall x :: x in Filter(p, s) <==> x in s && p(x)
    ensures |Filter(p, s)| <= |s|
  {
    if s != [] {
      FilterMembers(p, s[1..]);
      assert s == [s[0]] + s[1..];
    }
  }

  lemma {:induction false} FilterAppend<T>(p: T -> bool, s: seq<T>, t: seq<T>)
    ensures Filter(p, s + t) == Filter(p, s) + Filter(p, t)
  {
    if s == [] {
      assert s + t == t;
    } else {
      FilterAppend(p, s[1..], t);
      assert (s + t)[1..] == s[1..] + t;
    }
  }

  lemma FilterSnoc<T>(p: T -> bool, s: seq<T>, x: T)
    ensures Filter(p, s + [x]) == Filter(p, s) + if p(x) then [x] else []
  {
    FilterAppend(p, s, [x]);
    assert [x][1..] == [];
  }

  lemma {:induction false} FilterSame<T>(p: T -> bool, q: T -> bool, s: seq<T>)
    requires forall x :: x in s ==> p(x) == q(x)
    ensures Filter(p, s) == Filter(q, s)
  {
    if s != [] {
      FilterSame(p, q, s[1..]);
    }
  }

  lemma {:induction false} FilterTwice<T>(p: T -> bool, q: T -> bool, s: seq<T>)
    ensures Filter(q, Filter(p, s)) == Filter(Both(p, q), s)
  {
    if s != [] {
      FilterTwice(p, q, s[1..]);
    }
  }

  lemma {:induction false} FilterAll<T>(p: T -> bool, s: seq<T>)
    requires forall x :: x in s ==> p(x)
    ensures Filter(p, s) == s
  {
    if s != [] {
      FilterAll(p, s[1..]);
    }
  }

  /** `s` with every repeat of an earlier element left out. */
  function Distinct<T(==)>(s: seq<T>): seq<T> {
    if s == [] then []
    else
      var before := Distinct(s[..|s| - 1]);
      if s[|s| - 1] in before then before else before + [s[|s| - 1]]
  }

  lemma {:induction false} DistinctMembers<T>(s: seq<T>)
    ensures NoDuplicates(Distinct(s))
    ensures forall x :: x in Distinct(s) <==> x in s
  {
    if s != [] {
      var init := s[..|s| - 1];
      DistinctMembers(init);
      assert s == init + [s[|s| - 1]];
    }
  }
}
