/** Account lists: what every instruction builder appends, and the steps every processor reads
    them back with. */
module AccountLists {
  import opened Basics

  datatype Meta = Meta(key: Pubkey, signer: bool, writable: bool)

  function Writable(key: Pubkey): Meta {
    Meta(key, false, true)
  }

  function Readonly(key: Pubkey): Meta {
    Meta(key, false, false)
  }

  function Writables(keys: seq<Pubkey>): seq<Meta> {
    seq(|keys|, i requires 0 <= i < |keys| => Writable(keys[i]))
  }

  function Readonlys(keys: seq<Pubkey>): seq<Meta> {
    seq(|keys|, i requires 0 <= i < |keys| => Readonly(keys[i]))
  }

  function Keys(accounts: seq<Meta>): seq<Pubkey> {
    seq(|accounts|, i requires 0 <= i < |accounts| => accounts[i].key)
  }

  datatype Instruction<+Args> = Instruction(args: Args, accounts: seq<Meta>)

  /** The largest count that fits the one-byte count fields. */
  const U8_MAX := 255

  type U8 = x: int | 0 <= x <= U8_MAX

  lemma Regroup(a: seq<Meta>, b: seq<Meta>, c: seq<Meta>)
    ensures a + b + c == a + (b + c)
  {
  }

  // --- building ---

  /** `payer` and the system program, which close every account list. */
  function Trailing(payer: Pubkey): seq<Meta> {
    [Meta(payer, true, true), Writable(System)]
  }

  /** Append the shared trailing accounts. */
  method Build<Args>(args: Args, accounts: seq<Meta>, payer: Pubkey) returns (ix: Instruction<Args>)
    ensures ix == Instruction(args, accounts + Trailing(payer))
    ensures ix.accounts == accounts + [Meta(payer, true, true), Meta(System, false, true)]
  {
    var all := accounts;
    all := all + [Meta(payer, true, true)];
    all := all + [Writable(System)];
    assert all == accounts + Trailing(payer);
    ix := Instruction(args, all);
  }

  /** Whether the payer's permission account is appended to a built list: today it is not, once
      permissions are rolled out it is, as the very last account. */
  datatype Mode = Deferred | Activated

  function Permission(payer: Pubkey, mode: Mode): Option<Meta> {
    if mode == Activated then Some(Readonly(PermissionPda(payer))) else None
  }

  function WithMode(accounts: seq<Meta>, payer: Pubkey, mode: Mode): seq<Meta> {
    if mode == Activated then accounts + [Readonly(PermissionPda(payer))] else accounts
  }

  /** What follows an instruction's own accounts. */
  function TrailingIn(payer: Pubkey, mode: Mode): seq<Meta> {
    WithMode(Trailing(payer), payer, mode)
  }

  lemma TrailingSplits(own: seq<Meta>, payer: Pubkey, mode: Mode)
    ensures WithMode(own + Trailing(payer), payer, mode) == own + TrailingIn(payer, mode)
  {
    if mode == Activated {
      var p := [Readonly(PermissionPda(payer))];
      assert own + Trailing(payer) + p == own + (Trailing(payer) + p);
    }
  }

  // --- a device's resource accounts ---

  function PrefixBlocks(device: Pubkey, n: nat): seq<Pubkey> {
    seq(n, i requires 0 <= i < n => ResourcePda(DzPrefixBlock(device, i)))
  }

  /** The resource accounts of a device with `n` prefixes. */
  function DeviceResources(device: Pubkey, n: nat): seq<Pubkey> {
    [ResourcePda(TunnelIds(device, 0))] + PrefixBlocks(device, n)
  }

  /** Append one block account per prefix. */
  method PushPrefixBlocks(accounts: seq<Meta>, device: Pubkey, n: nat) returns (all: seq<Meta>)
    ensures all == accounts + Writables(PrefixBlocks(device, n))
  {
    all := accounts;
    for i := 0 to n
      invariant all == accounts + Writables(PrefixBlocks(device, i))
    {
      all := all + [Writable(ResourcePda(DzPrefixBlock(device, i)))];
    }
  }

  /** Append the first `count` resource accounts, which an index selects. */
  method PushResources(accounts: seq<Meta>, device: Pubkey, count: nat) returns (all: seq<Meta>)
    ensures all == accounts + if count == 0 then [] else Writables(DeviceResources(device, count - 1))
  {
    all := accounts;
    for i := 0 to count
      invariant all == accounts + if i == 0 then [] else Writables(DeviceResources(device, i - 1))
    {
      var resource := if i == 0 then TunnelIds(device, 0) else DzPrefixBlock(device, i - 1);
      all := all + [Writable(ResourcePda(resource))];
    }
  }

  /** Append one writable account per key. */
  method PushAccounts(accounts: seq<Meta>, keys: seq<Pubkey>) returns (all: seq<Meta>)
    ensures all == accounts + Writables(keys)
  {
    all := accounts;
    for i := 0 to |keys|
      invariant all == accounts + Writables(keys)[..i]
    {
      all := all + [Writable(keys[i])];
    }
  }

  // --- reading ---

  datatype Error = InvalidArgument | NotEnoughAccountKeys | Panicked

  datatype Parse<+T> = Ok(value: T) | Err(error: Error) {
    predicate IsFailure() {
      Err?
    }

    function PropagateFailure<U>(): Parse<U>
      requires IsFailure()
    {
      Err(error)
    }

    function Extract(): T
      requires !IsFailure()
    {
      value
    }
  }

  datatype Taken = Taken(taken: seq<Meta>, rest: seq<Meta>)

  /** Read the next `n` accounts. */
  function Take(accounts: seq<Meta>, n: nat): (r: Parse<Taken>)
    ensures r.Ok? <==> n <= |accounts|
    ensures r.Ok? ==> |r.value.taken| == n && accounts == r.value.taken + r.value.rest
  {
    if n <= |accounts| then Ok(Taken(accounts[..n], accounts[n..])) else Err(NotEnoughAccountKeys)
  }

  lemma TakeAppended(a: seq<Meta>, b: seq<Meta>)
    ensures Take(a + b, |a|) == Ok(Taken(a, b))
  {
    assert (a + b)[..|a|] == a && (a + b)[|a|..] == b;
  }

  datatype Tail = Tail(payer: Meta, system: Meta, permission: Option<Meta>)

  /** The tail every builder means. */
  function TailOf(payer: Pubkey, mode: Mode): Tail {
    Tail(Meta(payer, true, true), Writable(System), Permission(payer, mode))
  }

  /** Read the tail by position: payer, system, and whatever comes next as the permission. */
  function ReadTail(rest: seq<Meta>): Parse<Tail> {
    var t :- Take(rest, 2);
    Ok(Tail(t.taken[0], t.taken[1], if t.rest == [] then None else Some(t.rest[0])))
  }

  datatype Split = Split(leading: seq<Meta>, tail: Tail)

  /** Peel the tail off the end: the last account is the permission if it is the one derived from
      the account three from the end. */
  function SplitTrailingPermission(rest: seq<Meta>): Parse<Split> {
    var n := |rest|;
    if n < 2 then Err(InvalidArgument)
    else if n >= 3 && rest[n - 1].key == PermissionPda(rest[n - 3].key) then
      Ok(Split(rest[..n - 3], Tail(rest[n - 3], rest[n - 2], Some(rest[n - 1]))))
    else
      Ok(Split(rest[..n - 2], Tail(rest[n - 2], rest[n - 1], None)))
  }

  lemma ReadsTail(payer: Pubkey, mode: Mode)
    ensures ReadTail(TrailingIn(payer, mode)) == Ok(TailOf(payer, mode))
  {
    var t := TrailingIn(payer, mode);
    assert t[2..] == if mode == Activated then [Readonly(PermissionPda(payer))] else [];
  }

  /** Peeling by address match finds the leading accounts whatever they are. */
  lemma SplitsTail(leading: seq<Meta>, payer: Pubkey, mode: Mode)
    ensures SplitTrailingPermission(leading + TrailingIn(payer, mode)) == Ok(Split(leading, TailOf(payer, mode)))
    ensures TailOf(payer, mode)
            == Tail(Meta(payer, true, true), Meta(System, false, true),
                    if mode == Activated then Some(Meta(PermissionPda(payer), false, false)) else None)
  {
    var rest := leading + TrailingIn(payer, mode);
    assert rest[..|leading|] == leading;
  }

  /** An instruction's own accounts in three stretches: the first can be read off. */
  lemma TakesHead(head: seq<Meta>, mid: seq<Meta>, own: seq<Meta>, payer: Pubkey, mode: Mode)
    ensures
      var accounts := WithMode(head + (mid + own) + Trailing(payer), payer, mode);
      && Take(accounts, |head|) == Ok(Taken(head, mid + (own + TrailingIn(payer, mode))))
      && |accounts| == |head| + |mid| + |own| + |TrailingIn(payer, mode)|
  {
    var t := TrailingIn(payer, mode);
    TrailingSplits(head + (mid + own), payer, mode);
    assert head + (mid + own) + t == head + (mid + (own + t));
    TakeAppended(head, mid + (own + t));
  }
}
