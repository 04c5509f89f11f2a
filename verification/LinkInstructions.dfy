/** The link instructions with variable-length account lists: builders, processors, and the
    proofs that the second undoes the first. */
module LinkInstructions {
  import opened Basics
  import opened Onchain
  import opened AccountLists

  datatype UpdateArgs = UpdateArgs(
    tunnelId: Option<U16>, tunnelNet: Option<Network>, useOnchainAllocation: bool, linkTopologies: Option<seq<Pubkey>>)
  {
    /** The update moves the link's tunnel. */
    predicate NeedsResources() {
      tunnelId.Some? || tunnelNet.Some?
    }
  }

  datatype DeleteArgs = DeleteArgs(useOnchainDeallocation: bool)

  /** Who updates the link: its own contributor, or the contributor of its far side. */
  datatype Authority = LinkContributor(contributor: Pubkey) | SideZContributor(contributor: Pubkey)

  const MAX_LINK_TOPOLOGIES := 8

  // --- layouts ---

  function Preamble(link: Pubkey, authority: Authority, sideZ: Pubkey): seq<Meta> {
    [Writable(link), Writable(authority.contributor)]
    + (if authority.SideZContributor? then [Writable(sideZ)] else [])
    + [Writable(GlobalStatePda)]
  }

  function SideAccounts(args: UpdateArgs, sideA: Pubkey, sideZ: Pubkey): seq<Meta> {
    if args.tunnelNet.Some? then [Writable(sideA), Writable(sideZ)] else []
  }

  function TunnelAccounts(args: UpdateArgs): seq<Meta> {
    if args.NeedsResources() then [Writable(ResourcePda(DeviceTunnelBlock)), Writable(ResourcePda(LinkIds))] else []
  }

  function TopologyAccounts(args: UpdateArgs, union: seq<Pubkey>): seq<Meta> {
    if args.linkTopologies.Some? then Writables(union) else []
  }

  function UpdateLinkList(payer: Pubkey, link: Pubkey, authority: Authority, sideA: Pubkey, sideZ: Pubkey,
                          union: seq<Pubkey>, args: UpdateArgs): seq<Meta> {
    Preamble(link, authority, sideZ)
    + (SideAccounts(args, sideA, sideZ) + (TunnelAccounts(args) + TopologyAccounts(args, union))) + Trailing(payer)
  }

  function DeleteHead(link: Pubkey, contributor: Pubkey, sideA: Pubkey, sideZ: Pubkey, owner: Pubkey): seq<Meta> {
    [Writable(link), Writable(contributor), Writable(GlobalStatePda), Writable(sideA), Writable(sideZ),
     Writable(ResourcePda(DeviceTunnelBlock)), Writable(ResourcePda(LinkIds)), Writable(owner)]
  }

  function DeleteLinkList(payer: Pubkey, link: Pubkey, contributor: Pubkey, sideA: Pubkey, sideZ: Pubkey,
                          owner: Pubkey, topologies: seq<Pubkey>): seq<Meta> {
    DeleteHead(link, contributor, sideA, sideZ, owner) + Writables(topologies) + Trailing(payer)
  }

  // --- builders ---

  method UpdateLink(payer: Pubkey, link: Pubkey, authority: Authority, sideA: Pubkey, sideZ: Pubkey,
                    union: seq<Pubkey>, args: UpdateArgs)
    returns (ix: Instruction<UpdateArgs>)
    ensures ix.args == args.(useOnchainAllocation := args.tunnelId.Some? || args.tunnelNet.Some?)
    ensures ix.accounts == UpdateLinkList(payer, link, authority, sideA, sideZ, union, ix.args)
  {
    var accounts;
    match authority {
      case SideZContributor(contributor) =>
        accounts := [Writable(link), Writable(contributor), Writable(sideZ), Writable(GlobalStatePda)];
      case LinkContributor(contributor) =>
        accounts := [Writable(link), Writable(contributor), Writable(GlobalStatePda)];
    }
    assert accounts == Preamble(link, authority, sideZ);
    var built := args.(useOnchainAllocation := args.tunnelId.Some? || args.tunnelNet.Some?);
    var own := UpdateSections(sideA, sideZ, union, built);
    ix := Build(built, accounts + own, payer);
  }

  /** The conditional sections after the preamble. */
  method UpdateSections(sideA: Pubkey, sideZ: Pubkey, union: seq<Pubkey>, args: UpdateArgs) returns (own: seq<Meta>)
    ensures own == SideAccounts(args, sideA, sideZ) + (TunnelAccounts(args) + TopologyAccounts(args, union))
  {
    own := [];
    if args.tunnelNet.Some? {
      own := own + [Writable(sideA), Writable(sideZ)];
    }
    assert own == SideAccounts(args, sideA, sideZ);
    if args.tunnelId.Some? || args.tunnelNet.Some? {
      own := own + [Writable(ResourcePda(DeviceTunnelBlock)), Writable(ResourcePda(LinkIds))];
    }
    assert own == SideAccounts(args, sideA, sideZ) + TunnelAccounts(args);
    if args.linkTopologies.Some? {
      own := PushAccounts(own, union);
    }
    Regroup(SideAccounts(args, sideA, sideZ), TunnelAccounts(args), TopologyAccounts(args, union));
  }

  method DeleteLink(payer: Pubkey, link: Pubkey, contributor: Pubkey, sideA: Pubkey, sideZ: Pubkey, owner: Pubkey,
                    topologies: seq<Pubkey>, args: DeleteArgs)
    returns (ix: Instruction<DeleteArgs>)
    ensures ix.args == args.(useOnchainDeallocation := true)
    ensures ix.accounts == DeleteLinkList(payer, link, contributor, sideA, sideZ, owner, topologies)
  {
    var accounts := DeleteHead(link, contributor, sideA, sideZ, owner);
    accounts := PushAccounts(accounts, topologies);
    ix := Build(args.(useOnchainDeallocation := true), accounts, payer);
  }

  // --- processors ---

  datatype UpdateRoles = UpdateRoles(
    link: Meta, contributor: Meta, sideZ: Option<Meta>, globalstate: Meta, devices: Option<(Meta, Meta)>,
    tunnelResources: Option<(Meta, Meta)>,
    topologies: seq<Meta>, tail: Tail)

  datatype PreambleAnd = PreambleAnd(link: Meta, contributor: Meta, sideZ: Option<Meta>, globalstate: Meta,
                                     rest: seq<Meta>)

  /** The far side is present exactly if the third account is not the globalstate. */
  function ReadPreamble(accounts: seq<Meta>): Parse<PreambleAnd> {
    var h :- Take(accounts, 2);
    var m :- Take(h.rest, 1);
    if m.taken[0].key == GlobalStatePda then Ok(PreambleAnd(h.taken[0], h.taken[1], None, m.taken[0], m.rest))
    else
      var g :- Take(m.rest, 1);
      Ok(PreambleAnd(h.taken[0], h.taken[1], Some(m.taken[0]), g.taken[0], g.rest))
  }

  datatype PairAnd = PairAnd(pair: Option<(Meta, Meta)>, rest: seq<Meta>)

  function ReadPair(rest: seq<Meta>, present: bool): Parse<PairAnd> {
    if !present then Ok(PairAnd(None, rest))
    else
      var t :- Take(rest, 2);
      Ok(PairAnd(Some((t.taken[0], t.taken[1])), t.rest))
  }

  function ProcessUpdateLink(args: UpdateArgs, accounts: seq<Meta>): Parse<UpdateRoles> {
    var p :- ReadPreamble(accounts);
    FinishUpdateLink(args, p)
  }

  function FinishUpdateLink(args: UpdateArgs, p: PreambleAnd): (r: Parse<UpdateRoles>)
    ensures r.Ok? ==> r.value.sideZ == p.sideZ
  {
    var d :- ReadPair(p.rest, args.tunnelNet.Some?);
    if args.NeedsResources() && !args.useOnchainAllocation then Err(InvalidArgument)
    else
      var r :- ReadPair(d.rest, args.NeedsResources());
      if args.linkTopologies.Some? && |args.linkTopologies.value| > MAX_LINK_TOPOLOGIES then Err(InvalidArgument)
      else
        var s :- SplitTrailingPermission(r.rest);
        Ok(UpdateRoles(p.link, p.contributor, p.sideZ, p.globalstate, d.pair, r.pair, s.leading, s.tail))
  }

  datatype DeleteRoles = DeleteRoles(
    link: Meta, contributor: Meta, globalstate: Meta, sideA: Meta, sideZ: Meta, deviceTunnelBlock: Meta, linkIds: Meta,
    owner: Meta,
    topologies: seq<Meta>, tail: Tail)

  function ProcessDeleteLink(args: DeleteArgs, accounts: seq<Meta>): Parse<DeleteRoles> {
    if !args.useOnchainDeallocation then Err(InvalidArgument)
    else
      var h :- Take(accounts, 8);
      var s :- SplitTrailingPermission(h.rest);
      Ok(DeleteRoles(h.taken[0], h.taken[1], h.taken[2], h.taken[3], h.taken[4], h.taken[5], h.taken[6], h.taken[7],
                     s.leading, s.tail))
  }

  // --- the processors undo the builders ---

  /** How the preamble is read. */
  function PreambleOf(link: Pubkey, authority: Authority, sideZ: Pubkey, rest: seq<Meta>): PreambleAnd {
    PreambleAnd(Writable(link), Writable(authority.contributor),
                if authority.SideZContributor? then Some(Writable(sideZ)) else None, Writable(GlobalStatePda), rest)
  }

  /** Everything after the preamble. */
  function UpdateLinkRest(payer: Pubkey, sideA: Pubkey, sideZ: Pubkey, union: seq<Pubkey>, args: UpdateArgs,
                          mode: Mode): seq<Meta> {
    SideAccounts(args, sideA, sideZ)
    + (TunnelAccounts(args) + (TopologyAccounts(args, union) + TrailingIn(payer, mode)))
  }

  lemma ReadsPreamble(link: Pubkey, authority: Authority, sideZ: Pubkey, rest: seq<Meta>)
    ensures
      var parsed := ReadPreamble(Preamble(link, authority, sideZ) + rest);
      if authority.SideZContributor? && sideZ == GlobalStatePda
      then parsed.Ok? && parsed.value.sideZ.None?
      else parsed == Ok(PreambleOf(link, authority, sideZ, rest))
  {
    var h, g := [Writable(link), Writable(authority.contributor)], [Writable(GlobalStatePda)];
    if authority.SideZContributor? {
      var z := [Writable(sideZ)];
      assert Preamble(link, authority, sideZ) + rest == h + (z + (g + rest));
      TakeAppended(h, z + (g + rest));
      TakeAppended(z, g + rest);
      TakeAppended(g, rest);
    } else {
      assert Preamble(link, authority, sideZ) + rest == h + (g + rest);
      TakeAppended(h, g + rest);
      TakeAppended(g, rest);
    }
  }

  lemma ReadsPair(a: Meta, b: Meta, rest: seq<Meta>)
    ensures ReadPair([a, b] + rest, true) == Ok(PairAnd(Some((a, b)), rest))
  {
    TakeAppended([a, b], rest);
  }

  /** Which of its accounts an update of a link means by what. */
  function UpdateRolesOf(
    payer: Pubkey, link: Pubkey, authority: Authority, sideA: Pubkey, sideZ: Pubkey, union: seq<Pubkey>,
    args: UpdateArgs, mode: Mode): UpdateRoles
  {
    UpdateRoles(
      Writable(link), Writable(authority.contributor),
      if authority.SideZContributor? then Some(Writable(sideZ)) else None, Writable(GlobalStatePda),
      if args.tunnelNet.Some? then Some((Writable(sideA), Writable(sideZ))) else None,
      if args.tunnelId.Some? || args.tunnelNet.Some?
      then Some((Writable(ResourcePda(DeviceTunnelBlock)), Writable(ResourcePda(LinkIds))))
      else None,
      if args.linkTopologies.Some? then Writables(union) else [], TailOf(payer, mode))
  }

  lemma FinishesUpdateLink(
    payer: Pubkey, link: Pubkey, authority: Authority, sideA: Pubkey, sideZ: Pubkey, union: seq<Pubkey>,
    args: UpdateArgs, mode: Mode)
    requires args.useOnchainAllocation == args.NeedsResources()
    ensures FinishUpdateLink(args,
                             PreambleOf(link, authority, sideZ,
                                        UpdateLinkRest(payer, sideA, sideZ, union, args, mode))) ==
            if args.linkTopologies.Some? && |args.linkTopologies.value| > MAX_LINK_TOPOLOGIES then Err(InvalidArgument)
            else Ok(UpdateRolesOf(payer, link, authority, sideA, sideZ, union, args, mode))
  {
    var rest := TopologyAccounts(args, union) + TrailingIn(payer, mode);
    if args.tunnelNet.Some? {
      ReadsPair(Writable(sideA), Writable(sideZ), TunnelAccounts(args) + rest);
    } else {
      assert [] + (TunnelAccounts(args) + rest) == TunnelAccounts(args) + rest;
    }
    if args.NeedsResources() {
      ReadsPair(Writable(ResourcePda(DeviceTunnelBlock)), Writable(ResourcePda(LinkIds)), rest);
    } else {
      assert [] + rest == rest;
    }
    SplitsTail(TopologyAccounts(args, union), payer, mode);
  }

  lemma SplitsInFour(a: seq<Meta>, b: seq<Meta>, c: seq<Meta>, d: seq<Meta>, payer: Pubkey,
                     mode: Mode)
    ensures WithMode(a + (b + (c + d)) + Trailing(payer), payer, mode) == a + (b + (c + (d + TrailingIn(payer, mode))))
  {
    var t := TrailingIn(payer, mode);
    TrailingSplits(a + (b + (c + d)), payer, mode);
    Regroup(a, b + (c + d), t);
    Regroup(b, c + d, t);
    Regroup(c, d, t);
  }

  lemma UpdateLinkListSplits(
    payer: Pubkey, link: Pubkey, authority: Authority, sideA: Pubkey, sideZ: Pubkey, union: seq<Pubkey>,
    args: UpdateArgs, mode: Mode)
    ensures WithMode(UpdateLinkList(payer, link, authority, sideA, sideZ, union, args), payer, mode)
            == Preamble(link, authority, sideZ) + UpdateLinkRest(payer, sideA, sideZ, union, args, mode)
  {
    SplitsInFour(Preamble(link, authority, sideZ), SideAccounts(args, sideA, sideZ), TunnelAccounts(args),
                 TopologyAccounts(args, union), payer, mode);
  }

  lemma UpdateLinkReads(
    payer: Pubkey, link: Pubkey, authority: Authority, sideA: Pubkey, sideZ: Pubkey, union: seq<Pubkey>,
    args: UpdateArgs, mode: Mode)
    ensures
      var parsed := ProcessUpdateLink(args,
                                      WithMode(UpdateLinkList(payer, link, authority, sideA, sideZ, union, args),
                                               payer, mode));
      if authority.SideZContributor? && sideZ == GlobalStatePda then parsed.Ok? ==> parsed.value.sideZ.None?
      else parsed == FinishUpdateLink(args,
                                      PreambleOf(link, authority, sideZ,
                                                 UpdateLinkRest(payer, sideA, sideZ, union, args, mode)))
  {
    UpdateLinkListSplits(payer, link, authority, sideA, sideZ, union, args, mode);
    ReadsPreamble(link, authority, sideZ, UpdateLinkRest(payer, sideA, sideZ, union, args, mode));
  }

  /** Whatever is updated and whoever updates it, the accounts are read back exactly when at most
      eight topologies are asked for and the far side is not the globalstate account itself. The
      builder sets the flag that says whether tunnel resources are sent. */
  lemma UpdateLinkRoundTrip(
    payer: Pubkey, link: Pubkey, authority: Authority, sideA: Pubkey, sideZ: Pubkey, union: seq<Pubkey>,
    args: UpdateArgs, mode: Mode)
    requires args.useOnchainAllocation == args.NeedsResources()
    ensures
      ProcessUpdateLink(args, WithMode(UpdateLinkList(payer, link, authority, sideA, sideZ, union, args), payer, mode))
      == Ok(UpdateRolesOf(payer, link, authority, sideA, sideZ, union, args, mode))
      <==>
      && (args.linkTopologies.Some? ==> |args.linkTopologies.value| <= 8)
      && !(authority.SideZContributor? && sideZ == GlobalStatePda)
  {
    UpdateLinkReads(payer, link, authority, sideA, sideZ, union, args, mode);
    FinishesUpdateLink(payer, link, authority, sideA, sideZ, union, args, mode);
  }

  lemma DeleteLinkRoundTrip(
    payer: Pubkey, link: Pubkey, contributor: Pubkey, sideA: Pubkey, sideZ: Pubkey, owner: Pubkey,
    topologies: seq<Pubkey>, args: DeleteArgs, mode: Mode)
    ensures ProcessDeleteLink(args.(useOnchainDeallocation := true),
                              WithMode(DeleteLinkList(payer, link, contributor, sideA, sideZ, owner, topologies),
                                       payer, mode))
            == Ok(DeleteRoles(Writable(link), Writable(contributor), Writable(GlobalStatePda), Writable(sideA),
                              Writable(sideZ),
                              Writable(ResourcePda(DeviceTunnelBlock)), Writable(ResourcePda(LinkIds)), Writable(owner),
                              Writables(topologies), TailOf(payer, mode)))
  {
    var head, own, t := DeleteHead(link, contributor, sideA, sideZ, owner), Writables(topologies),
                        TrailingIn(payer, mode);
    TrailingSplits(head + own, payer, mode);
    Regroup(head, own, t);
    TakeAppended(head, own + t);
    SplitsTail(own, payer, mode);
  }
}
