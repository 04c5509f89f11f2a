# DoubleZero decision logic, modelled and proved in Dafny

A model of the decision logic of the DoubleZero command line, sentinel, instruction builders and
onchain user program, with proofs of what that logic guarantees. `dafny verify dfyconfig.toml`
checks the whole project.

| file | what it models |
|---|---|
| `Basics`, `StableSort`, `Onchain` | values, sequences, the stable sort behind every ranking, account state |
| `Latency`, `LatencySpec`, `DeviceSelection` | how `connect` ranks devices by latency, keeps the current one within a 5 ms band, and picks a free tunnel endpoint |
| `Ledger`, `MulticastVerbs`, `ConnectMulticast`, `ConnectRoles`, `Disconnect` | the ledger behind calls that can fail, the four multicast verbs, `connect Multicast`, `disconnect` |
| `DzLedger`, `Candidates`, `NearestDevice`, `TunnelEndpoints` | the sentinel: latency map, who needs a publisher, where it goes, through which endpoint |
| `AccountLists`, `UserInstructions`, `DeviceInstructions`, `LinkInstructions`, `Layouts`, `ProcessorChecks`, `Agreement` | the account lists instruction builders lay out, and the onchain processors that read them |
| `Accounting`, `AccountingSpec` | the onchain user instructions as a state machine, and the counters and limits they keep |
| `Addresses`, `PrefixAddresses` | the address pools over whole runs: publisher addresses, and addresses of device prefixes |

Conventions: a failing call is a value (`Option`, `Parse`, an outcome datatype). The network, the
clock and the ledger's verdicts are parameters: `answer(i)` is the daemon's i-th answer,
`rejects(n)` whether the n-th role write fails, `plans(n)` how the n-th deletion plays out,
`readFails(n)` whether the n-th read fails, `order` the iteration order of a hash map.
Program-derived addresses are injective constructors; the default public key is the system program's
address, as in the source. Fixed-width integers wrap where the source's do in release builds; debug
assertions are not modelled.

The main results are also stated on the fields of records, devices, users and accounts alone, without
the functions the operations are built from: `LatencySpec`, `Layouts` and `AccountingSpec` do only
this, the other modules have such a statement beside each operation.

## What was found

Where a property one would expect does not hold, the code is modelled as it is, a concrete input is
given, and the exact condition under which it does hold is proved.

- Connecting an existing multicast user sends one role per write, while the program *assigns* both
  roles on each write. The result is the union of old and requested roles if and only if no group
  that gains one role also holds or is asked for the other (`UnionIffConflictFree`); a group asked
  for in both roles never gets both, however often one reconnects (`BothRolesNeverReached`).
- Waiting for a deletion treats every read error as "gone", although a comment says otherwise. When
  a wait ends, its account is gone if and only if no read of it failed for another reason first
  (`PollForUserClosed`, `ReadErrorCountsAsClosed`). A disconnect that reports success has removed
  what it should if and only if every deletion whose wait was cut short that way showed before the
  run's last read, which a later user's wait may give it time for (`GoneIffLanded`,
  `LateDeletionLands`).
- The 64-bit distance test of device selection is right about two latencies unless they are 2^63
  apart, or within 5,000,000 of 2^64 apart (`ToleranceTestExact`). The selection is the declarative
  one if and only if the test is right about the fastest acceptable record
  (`BestOfIsHysteresisChoiceIff`): a record of -1 ns is passed over
  (`NegativeLatencyIsPassedOver`). A second selection repeats the first if and only if the selected
  record is its device's fastest and no acceptable record passes the test against it from below
  (`SelectionIsFixpointIff`): with records of -1 ns and 10 ms it does not
  (`FixpointFailsBelowZero`). Non-negative latencies meet both conditions.
- `connect` filters out devices without capacity before it collects the endpoints in use. Whatever
  the second measurement shows, the endpoint chosen is unused by the client, if and only if the
  device does not offer the public IP of a filtered-out device that carries one of the client's
  legacy users, or that IP is excluded for another reason (`AlwaysFreshIff`, `HiddenUserIsMissed`).
- The 16-bit sum of users and reserved seats can wrap and make a full device look free
  (`CapacityIsFreeSlots`, `WrappedSeatsLookFree`), and then one more publisher is placed on it
  (`WrongTestOverfills`). No run of creates, role changes, bans, deletes
  and limit changes reaches such a device (`ReachableDevicesConsistent`). The publisher counter
  alone can wrap as well, on a device without publisher limit that counts more publishers than
  users (`PublisherCountExactIff`, `PublisherCountWraps`).
- A group counter saturates at 2^32 - 1. Group counters are exact in every state of a run if and only
  if no instruction adds a role whose counter stands there (`RunCountsGroupsIff`); on up to 65537
  devices no run of any length does (`FewDevicesNeverSaturate`).
- A device's limits can be set below its counts. That, and nothing else, takes a device out of its
  limits (`LimitsKeptIff`); a create never exceeds the limits in force (`CreateWithinLimits`).
- Asking for candidates `k` at a time reproduces the unlimited ranking if and only if candidates
  sharing an IP never straddle two blocks of `k` (`RoundsEqualRankingIff`); an IBRL user and one
  with an allocated IP at one client IP, asked for one at a time, are served once
  (`SharedIpIsServedOnce`).
- An address from a device prefix is leaked in two ways: its user stops publishing to its last
  group, or is banned or deleted by an instruction that names too few prefix blocks. Runs without
  these, and only those, conserve prefix addresses (`RunConservesPrefixesIff`); `UnpublishLeaks` and
  `ShortDeleteLeaks` are runs from a ledger without users. No user instruction gives a leaked
  address back (`LeakStays`); a resource administrator's deallocation, which is not modelled, can.
- An atomic device delete with no resource owners reads back as the legacy layout
  (`DeleteDeviceRoundTrip`). A permission account after a `CreateUser` without tenant would make the
  payer be read as the tenant (`CreateUserRoundTrip`); this is hypothetical, as the builder's
  `common::build` never appends a permission.
- A pair of devices without latency data is infinitely far apart; the comment that promises a
  fallback to geographic distance is not what the code does.

## Model

| member | source | states |
|---|---|---|
| Latency.GetDeviceTunnelEndpoints | crates/doublezero-daemon-cli/src/latency.rs:26-37 | the endpoints are the public IP and the IPs of exactly the flagged, non-default interfaces |
| Latency.SelectTunnelEndpoint | crates/doublezero-daemon-cli/src/latency.rs:60-89 | filtering, sorting and scanning in place return the fastest usable record's IP, else the free public IP, else the unspecified address |
| Latency.RetrieveLatencies | crates/doublezero-daemon-cli/src/latency.rs:91-158 | polling ends within the time limit; the result is the ranking of the first answer that is ready, failed or late, or the error that says which of these it was and why the ranking is empty |
| Latency.EndpointIsLexicographicMin | crates/doublezero-daemon-cli/src/latency.rs:66-80 | two stable sorts with different keys pick the least usable record by (min, avg, reachable first, daemon order) of the daemon's answer |
| Latency.PickDevice | crates/doublezero-daemon-cli/src/latency.rs:217-251 | the loop with its mutable best and early returns is the recursive walk over the ranked list, bad and unknown keys included |
| Latency.BestLatency | crates/doublezero-daemon-cli/src/latency.rs:187-252 | the selection is a function of the answer polling settles on, each failure with its own error |
| Latency.AbsDiffExact | crates/doublezero-daemon-cli/src/latency.rs:241-247 | 64-bit subtraction and `abs` are exact if and only if the distance fits, in particular for all non-negative latencies |
| Latency.ToleranceTestExact | crates/doublezero-daemon-cli/src/latency.rs:241-247 | the tolerance test is right about two latencies if and only if they are not 2^63 apart nor within the tolerance of 2^64 apart |
| Latency.NegativeLatencyIsPassedOver | crates/doublezero-daemon-cli/src/latency.rs:217-251 | an only, acceptable record of -1 ns is not selected |
| Latency.WalkIsFirstPass | crates/doublezero-daemon-cli/src/latency.rs:217-251 | from any starting record and latency, the walk ends on the first record that is acceptable and further away than the tolerance in machine arithmetic, unless it meets its starting record first |
| Latency.BestOfIsLoopChoice | crates/doublezero-daemon-cli/src/latency.rs:187-252 | for all 64-bit latencies, rank, filter and walk select the fastest record that passes the machine test and lies below the current device's best, else the current device's fastest record; the lookups in the loop never fail |
| Latency.BestOfIsHysteresisChoiceIff | crates/doublezero-daemon-cli/src/latency.rs:187-252 | the selection is the declarative choice (the current device's fastest record unless the fastest eligible one beats it by more than 5 ms, and the fastest eligible one without a current device) if and only if the machine test is right about the fastest acceptable record; for non-negative latencies it always is |
| Latency.WinnerIsFastestOfItsDevice | crates/doublezero-daemon-cli/src/latency.rs:187-252 | the fastest acceptable record is the fastest of its own device's records |
| Latency.SelectionIsFixpointIff | crates/doublezero-daemon-cli/src/latency.rs:217-251 | selecting again with the previous result as current device returns the same record if and only if it is its device's fastest and no acceptable record passes the test against it from below; so whenever the first test was right, in particular for non-negative latencies |
| Latency.FixpointFailsBelowZero | crates/doublezero-daemon-cli/src/latency.rs:217-251 | of records of -1 ns and 10 ms the second is selected, and the first once the second is the current device |
| LatencySpec.ContendersAre | crates/doublezero-daemon-cli/src/latency.rs:38-44 | a record contends exactly if it is in the answer, reachable, of a listed activated device, and some IP that is not excluded is the device's public one or that of a flagged interface with a network other than the default |
| LatencySpec.SelectionIsBest | crates/doublezero-daemon-cli/src/latency.rs:187-252 | on fields: a selected record contends, no eligible device beats it by more than 5 ms, another device than the current one is eligible, the fastest eligible and more than 5 ms faster than the current one, and the current one's record is its fastest; each error is returned exactly for its cause |
| LatencySpec.SettledIs | crates/doublezero-daemon-cli/src/latency.rs:91-158 | polling settles on the first answer that is an error, ready, or 60 seconds late |
| LatencySpec.RankingIs | crates/doublezero-daemon-cli/src/latency.rs:91-158 | a retrieved ranking holds exactly the records of listed activated devices, reachable ones first, then by least and average latency, ties in the order of the answer |
| LatencySpec.EndpointIs | crates/doublezero-daemon-cli/src/latency.rs:60-89 | on fields: the endpoint is that of the first record by latency, average, reachability and place in the answer among the device's that are not excluded, else the public IP unless that is excluded |
| LatencySpec.WalkFailsAt | crates/doublezero-daemon-cli/src/latency.rs:217-251 | the loop fails at the first record with a bad key or of an unknown device, each with its own error, if it has met nothing to select |
| DeviceSelection.ExcludeIps | crates/doublezero-daemon-cli/src/connect.rs:1017-1037 | an IP is excluded exactly when it is the resolved endpoint of one of the client's users that has a tunnel, legacy users going through their device's public IP |
| DeviceSelection.FindOrCreateDevice | crates/doublezero-daemon-cli/src/connect.rs:413-484 | the device is the requested or the selected one, an explicitly requested one is eligible, and the endpoint is the best one of the second measurement; each error is returned only for its cause |
| DeviceSelection.EndpointIsFree | crates/doublezero-daemon-cli/src/latency.rs:60-89 | the endpoint is never an excluded one, and it is specified exactly when the best usable record is, or without one when the public IP is specified and free |
| DeviceSelection.SelectedDeviceHasRoom | crates/doublezero-daemon-cli/src/latency.rs:199-212 | automatic selection ends on a known, eligible device with an endpoint the client does not use |
| DeviceSelection.AutoEndpointIsFresh | crates/doublezero-daemon-cli/src/connect.rs:448-468 | if the second measurement covers the selected device's endpoints with specified addresses, the endpoint returned is specified and none of the client's users on a listed device uses it; over all devices, none uses it if and only if it is not the public IP of a filtered-out device with a legacy user of the client |
| DeviceSelection.AlwaysFreshIff | crates/doublezero-daemon-cli/src/connect.rs:448-468 | for a selected device, the endpoint is unused by the client over all devices for every second measurement that shows the device's endpoints, if and only if the device offers no public IP of a filtered-out device with a legacy user of the client that is not excluded anyway: a condition known before the measurement |
| DeviceSelection.HiddenUserIsMissed | crates/doublezero-daemon-cli/src/connect.rs:636-643 | a legacy user on a device that the filter drops, and one device left at the same public IP: automatic selection returns the endpoint the client already uses |
| StableSort.SortOrders | crates/doublezero-daemon-cli/src/latency.rs:151-155 | sorting orders the records and keeps them all |
| StableSort.SortCommutesWithFilter | crates/sentinel/src/multicast_create.rs:106-111 | a stable sort commutes with every filter |
| StableSort.SortsCompose | crates/doublezero-daemon-cli/src/latency.rs:66-80 | two stable sorts in a row are one sort by the later key with ties broken by the earlier one |
| StableSort.StableSortUnique | crates/sentinel/src/multicast_create.rs:106-111 | a list is the stable sort of another if and only if it is ordered and keeps every class of ties in its original order |
| Ledger.Ledger.UpdateMulticastGroupRoles | smartcontract/programs/doublezero-serviceability/src/processors/multicastgroup/subscribe.rs:66-138 | an accepted role write applies the ledger's semantics to that one account, a rejected one changes nothing, and both are recorded |
| Ledger.Ledger.CreateSubscribeUser | smartcontract/programs/doublezero-serviceability/src/processors/user/create_subscribe.rs:124-145 | a client's multicast account can be created once, and starts with its first group's roles |
| MulticastVerbs.ResolveGroups | crates/doublezero-daemon-cli/src/multicast.rs:64-78 | all codes resolve, in order, exactly when each is listed; otherwise an unlisted one is reported |
| MulticastVerbs.FindMulticastUser | crates/doublezero-daemon-cli/src/multicast.rs:81-95 | a multicast user of the client is found if and only if there is one |
| MulticastVerbs.WriteRoles | crates/doublezero-daemon-cli/src/multicast.rs:173-195 | the loop issues exactly the calls the snapshot says are needed, in order, whatever fails, and collects exactly the codes of the failed ones |
| MulticastVerbs.CallsAre | crates/doublezero-daemon-cli/src/multicast.rs:173-195 | verb by verb: one call for each request whose group the user's own list says needs one, in order, with the verb's flag for that role and the other role as the user has it |
| MulticastVerbs.FailuresAreRejections | crates/doublezero-daemon-cli/src/multicast.rs:173-195 | the failure list has one entry per rejected write, in the same order, each the code of the request whose group that write was for |
| MulticastVerbs.Execute | crates/doublezero-daemon-cli/src/multicast.rs:202-255 | an unknown group or missing user changes nothing; otherwise the one account is changed by the issued calls, with the failures and warnings reported |
| MulticastVerbs.VerbEffect | crates/doublezero-daemon-cli/src/multicast.rs:228-250 | for each verb, any request list and any pattern of failures, the role list of the verb changes by exactly the accepted groups and nothing else changes, although every call carries flags of a stale snapshot |
| MulticastVerbs.VerbByVerb | crates/doublezero-daemon-cli/src/multicast.rs:202-255 | subscribe and unsubscribe add and remove exactly the accepted groups among the subscribers and leave the publishers alone; publish and unpublish the other way round |
| MulticastVerbs.WarningsAreExact | crates/doublezero-daemon-cli/src/multicast.rs:118-149 | when all calls succeed, the idle warning is printed exactly when a removal was issued and no role is left, and the last-publisher warning exactly when publishers became empty |
| ConnectMulticast.AddMissing | crates/doublezero-daemon-cli/src/connect.rs:747-820 | the missing roles are sent one by one up to the first rejection, and the state is that of the accepted ones |
| ConnectMulticast.CollectGroups | crates/doublezero-daemon-cli/src/connect.rs:661-667 | the groups of publish and subscribe are collected once each, publishers first |
| ConnectMulticast.CreateWithGroups | crates/doublezero-daemon-cli/src/connect.rs:822-890 | a new account gets its first group on creation and then every other group, up to the first rejection; with no group nothing is written |
| ConnectMulticast.FindOrCreateUserAndSubscribe | crates/doublezero-daemon-cli/src/connect.rs:619-896 | an existing multicast user is sent its missing roles, otherwise one is created, with every error outcome told apart |
| ConnectRoles.ProgressIsRun | crates/doublezero-daemon-cli/src/connect.rs:747-820 | a plan changes its one account by running the part that was sent, and no other account |
| ConnectRoles.AssignDecidedByLast | smartcontract/programs/doublezero-serviceability/src/processors/multicastgroup/subscribe.rs:93-132 | under assign semantics the last write about a group decides both of its roles |
| ConnectRoles.AdditiveAccumulates | crates/doublezero-daemon-cli/src/connect.rs:1596-1601 | under the additive semantics of the test ledger a role is held exactly if it was held or was written |
| ConnectRoles.ExistingPlanIs | crates/doublezero-daemon-cli/src/connect.rs:747-820 | what is sent to an existing account, write by write: the requested groups it does not publish to, as publisher only, then those it does not subscribe to, as subscriber only |
| ConnectRoles.ReconnectedRoles | crates/doublezero-daemon-cli/src/connect.rs:747-820 | the closed form of a reconnect: a group that gains one role loses the other, subscriber writes last |
| ConnectRoles.UnionIffConflictFree | crates/doublezero-daemon-cli/src/connect.rs:747-820 | the final roles are old plus requested if and only if no group that gains one role also holds or is asked for the other |
| ConnectRoles.AdditiveUnion | crates/doublezero-daemon-cli/src/connect.rs:747-820 | additive semantics always give the union |
| ConnectRoles.BothRolesNeverReached | crates/doublezero-daemon-cli/src/connect.rs:747-820 | over any number of reconnects a group asked for in both roles has exactly one, and each reconnect swaps it |
| ConnectRoles.ConflictLosesPublisher | crates/doublezero-daemon-cli/src/connect.rs:747-820 | a user without roles asked for both on one group ends as a subscriber only |
| ConnectRoles.FreshMentions | crates/doublezero-daemon-cli/src/connect.rs:822-890 | a fresh connect writes each group of publish and subscribe exactly once, with both of its flags |
| ConnectRoles.FreshRolesExact | crates/doublezero-daemon-cli/src/connect.rs:822-890 | a fresh connect ends with exactly the requested role sets under either semantics |
| ConnectRoles.SecondConnectIsSilent | crates/doublezero-daemon-cli/src/connect.rs:747-820 | an identical second connect plans no write |
| ConnectRoles.ConnectTwice | crates/doublezero-daemon-cli/src/connect.rs:619-896 | two successive calls for a client without multicast user: if the first succeeds, the account has exactly the requested roles, and the second succeeds and writes nothing |
| Disconnect.PollForUserClosed | crates/doublezero-daemon-cli/src/disconnect.rs:238-274 | the wait succeeds exactly if one of nine reads fails for any reason, stops at the first that does, and then the account is gone exactly if no read failed for another reason while it existed; other deletions under way take effect meanwhile |
| Disconnect.DeleteUsers | crates/doublezero-daemon-cli/src/disconnect.rs:119-187 | the client's users of the mode and owner are deleted in order up to the first wait that times out; gone are exactly those whose deletion showed before the run's last read, and no other account is touched |
| Disconnect.SuccessMeansGone | crates/doublezero-daemon-cli/src/disconnect.rs:119-187 | if reads fail only for absent accounts, success means exactly the client's users owned by the payer are gone, in IBRL mode those of both IBRL types, in multicast mode the multicast ones, else all; the others are unchanged, whatever the delete calls reported |
| Disconnect.GoneIffLanded | crates/doublezero-daemon-cli/src/disconnect.rs:119-187 | after a success all selected users are gone if and only if every deletion whose wait was cut short by an unrelated read error showed before the run's last read; so they are if no wait was, and the user waited for last is gone if and only if its own wait was not |
| Disconnect.ReadErrorCountsAsClosed | crates/doublezero-daemon-cli/src/disconnect.rs:250-262 | one unrelated read error ends the wait with success although the account stays |
| Disconnect.LateDeletionLands | crates/doublezero-daemon-cli/src/disconnect.rs:250-262 | of two users the first one's wait is cut short by a read error, and both are gone when the run ends |
| DzLedger.FetchDeviceLatencyMap | crates/sentinel/src/dz_ledger_reader.rs:356-388 | the folded map holds, for every device pair, the least non-zero sample of all accounts, and a pair is in it exactly when it has one |
| DzLedger.AccountOrderIrrelevant | crates/sentinel/src/dz_ledger_reader.rs:356-388 | the map does not depend on the order of the accounts |
| Candidates.FindCandidates | crates/sentinel/src/multicast_create.rs:38-119 | the loop, in-place sort and truncation return the whole ranking without a limit, and with one its first elements, as many as the limit allows |
| Candidates.RankingHolds | crates/sentinel/src/multicast_create.rs:45-105 | the ranking holds exactly the IBRL users of validators within the stake bounds whose software contains one of the patterns, at one of the IPs, at whose IP no multicast user publishes to the group; by descending stake, ties in user order |
| Candidates.RankingPerStake | crates/sentinel/src/multicast_create.rs:45-111 | stake by stake, the ranking lists those users in their order, each with its owner, IP, device, validator and device label |
| Candidates.RankingAfter | crates/sentinel/src/multicast_create.rs:51-56 | creating publishers for some candidates takes exactly their IPs out of the ranking and keeps the order of the rest |
| Candidates.RoundsAreGreedy | crates/sentinel/src/multicast_create.rs:113-118 | repeated limited calls with publishers created in between serve the first ranking greedily, and end |
| Candidates.RoundsEqualRankingIff | crates/sentinel/src/multicast_create.rs:113-118 | every ranked IP is served, and the rounds concatenate to the unlimited ranking if and only if candidates sharing an IP fall into one block |
| Candidates.SharedIpIsServedOnce | crates/sentinel/src/multicast_create.rs:45-118 | an IBRL user and one with an allocated IP at one client IP are both ranked, and rounds of one serve only the first |
| Candidates.DistinctIpsRounds | crates/sentinel/src/multicast_create.rs:38-119 | with distinct IBRL client IPs, rounds of any size at least one give the one ranking |
| NearestDevice.CapacityIsFreeSlots | crates/sentinel/src/nearest_device.rs:8-21 | the capacity test agrees with the number of free slots if and only if the 16-bit sum does not wrap below the limit, or the publisher limit refuses anyway |
| NearestDevice.WrappedSeatsLookFree | crates/sentinel/src/nearest_device.rs:12-14 | a device with 65535 users and one reserved seat is full and passes the test |
| NearestDevice.NearestIsBest | crates/sentinel/src/nearest_device.rs:41-61 | a device is found exactly if the home is known and some device has room; it is the home if that has room, else the first in iteration order of the nearest with room |
| NearestDevice.NearestIsFirst | crates/sentinel/src/nearest_device.rs:41-61 | every device with room before the chosen one in iteration order is strictly farther |
| NearestDevice.NearestByDistance | crates/sentinel/src/nearest_device.rs:80-97 | without telemetry, the chosen device is no farther from a full home by distance than any other with room |
| NearestDevice.ProximityIsLeastMeasured | crates/sentinel/src/nearest_device.rs:80-97 | the latency score is symmetric and is the least sample in either direction, infinite exactly without one |
| NearestDevice.NearestWasMeasuredClosest | crates/sentinel/src/nearest_device.rs:41-97 | from telemetry to placement: no device with room was ever measured closer to a full home than the chosen one |
| NearestDevice.CreatePublishers | client/doublezero/src/cli/sentinel.rs:712-828 | every request is placed on the device nearest at the time, or skipped; if the capacity test is right about every device at the start, exactly as many are placed as the smaller of the served requests and all free slots, no device is overfilled, and each counter moves by the number placed there, the publisher counter modulo 2^16 |
| NearestDevice.WrongTestOverfills | crates/sentinel/src/nearest_device.rs:41-61 | a device the capacity test is wrong about is full, and a request from it is placed on it |
| NearestDevice.PublisherCountExactIff | client/doublezero/src/cli/sentinel.rs:712-828 | the publisher counter is exact if and only if the sum fits 16 bits, which a publisher limit or a counter not above the user counter ensures |
| NearestDevice.PublisherCountWraps | crates/sentinel/src/nearest_device.rs:8-21 | a device with 65535 publishers, no users and no publisher limit passes the test, and one more publisher takes its counter to zero |
| TunnelEndpoints.InUseMembers | crates/sentinel/src/tunnel_endpoint.rs:59-82 | the list holds exactly the addresses a tunnel of the client runs through: its own endpoint, or for a legacy user the public IP of its device |
| TunnelEndpoints.SelectsFirstFree | crates/sentinel/src/tunnel_endpoint.rs:34-50 | selection returns the first offered endpoint not excluded, and the unspecified address exactly if there is none |
| TunnelEndpoints.SelectsByPreference | crates/sentinel/src/tunnel_endpoint.rs:34-50 | the first user tunnel endpoint that is not excluded, else the public IP unless that is excluded |
| TunnelEndpoints.SelectForUserIsFree | crates/sentinel/src/tunnel_endpoint.rs:87-102 | the endpoint is one the device offers and the client does not use, or unspecified exactly if there is none |
| TunnelEndpoints.SelectedIsUnused | crates/sentinel/src/tunnel_endpoint.rs:87-102 | on fields: an endpoint given is one of the device's and no tunnel of the client runs through it, legacy users included; none is given only if each of the device's is in use |
| TunnelEndpoints.LegacyEndpointIsNotGiven | crates/sentinel/src/tunnel_endpoint.rs:71-79 | the public IP a legacy user of the client goes through is never given to it again, on any device |
| TunnelEndpoints.FreeForIs | crates/sentinel/src/tunnel_endpoint.rs:59-102 | the free endpoints are the device's specified ones no tunnel of the client runs through |
| TunnelEndpoints.RunKeepsDistinct | crates/sentinel/src/tunnel_endpoint.rs:59-102 | over every run of creates and deletes, across clients and devices, no two tunnels of one client come to run through the same address, those of legacy users through their device's public IP included |
| TunnelEndpoints.RepeatedUsesUpFree | crates/sentinel/src/tunnel_endpoint.rs:34-102 | repeated creates on one device get pairwise distinct free endpoints, succeed exactly as often as there are free ones, and are refused afterwards |
| AccountLists.Build | crates/doublezero-serviceability-instruction/src/common.rs:31-49 | payer and system are appended to every list |
| AccountLists.SplitsTail | smartcontract/programs/doublezero-serviceability/src/authorize.rs:407-446 | peeling the tail finds the leading accounts, payer, system and permission, whatever the leading accounts are and whether or not a permission is appended |
| UserInstructions.CreateSubscribeUser | crates/doublezero-serviceability-instruction/src/user.rs:47-113 | the list is the documented one and the count in the arguments is the number of prefix blocks in it |
| UserInstructions.CreateUser | crates/doublezero-serviceability-instruction/src/user.rs:136-189 | the documented list; the tenant is sent only if it is not the default key |
| UserInstructions.UpdateUser | crates/doublezero-serviceability-instruction/src/user.rs:209-270 | the documented list, the tenant pair only on a tenant change, and both counts written back |
| UserInstructions.DeleteUser | crates/doublezero-serviceability-instruction/src/user.rs:293-354 | the documented list with both counts written back |
| UserInstructions.RequestBanUser | crates/doublezero-serviceability-instruction/src/user.rs:368-418 | the documented list with both counts written back |
| UserInstructions.CreateSubscribeUserRoundTrip | smartcontract/programs/doublezero-serviceability/src/processors/user/create_subscribe.rs:60-104 | for every count and optional feed, before and after permissions, the processor gives every built account its role; a count of zero is refused |
| UserInstructions.CreateUserRoundTrip | smartcontract/programs/doublezero-serviceability/src/processors/user/create.rs:51-93 | today's list is read back exactly; with a permission appended it is if and only if a tenant was sent, and otherwise the payer is read as the tenant |
| UserInstructions.UpdateUserRoundTrip | smartcontract/programs/doublezero-serviceability/src/processors/user/update.rs:65-123 | read back for every count, before and after permissions; on a tenant change the old tenant is read as the old and the new as the new one |
| UserInstructions.DeleteUserRoundTrip | smartcontract/programs/doublezero-serviceability/src/processors/user/delete.rs:51-99 | read back if and only if a tenant was sent exactly when the user account records one |
| UserInstructions.RequestBanUserRoundTrip | smartcontract/programs/doublezero-serviceability/src/processors/user/requestban.rs:45-81 | read back for every count but zero, which is refused |
| DeviceInstructions.CreateDevice | crates/doublezero-serviceability-instruction/src/device.rs:53-107 | the documented list with its resource count, or a panic exactly when the count does not fit a byte |
| DeviceInstructions.DeleteDevice | crates/doublezero-serviceability-instruction/src/device.rs:160-224 | both layouts, with the count of the owners, or a panic exactly when that does not fit |
| DeviceInstructions.UpdateDevice | crates/doublezero-serviceability-instruction/src/device.rs:248-291 | the documented list covering the larger of old and new prefix counts, with its resource count |
| DeviceInstructions.CreateDeviceInterface | crates/doublezero-serviceability-instruction/src/device.rs:335-381 | topologies are listed and counted only for a Vpnv4 loopback, and onchain allocation is forced |
| DeviceInstructions.UpdateDeviceInterface | crates/doublezero-serviceability-instruction/src/device.rs:443-484 | the segment account and topologies appear exactly when they are updated, with flag and count to match |
| DeviceInstructions.CreateDeviceRoundTrip | smartcontract/programs/doublezero-serviceability/src/processors/device/create.rs:62-86 | read back for every number of prefixes, before and after permissions |
| DeviceInstructions.DeleteDeviceRoundTrip | smartcontract/programs/doublezero-serviceability/src/processors/device/delete.rs:34-75 | read back if and only if the delete is legacy or names an owner; with none, location and exchange are read as payer and system |
| DeviceInstructions.UpdateDeviceRoundTrip | smartcontract/programs/doublezero-serviceability/src/processors/device/update.rs:130-225 | read back if and only if the prefixes are left alone, or at least one is covered and the builder's old count covers as much as the onchain one; otherwise the processor panics |
| DeviceInstructions.CreateDeviceInterfaceRoundTrip | smartcontract/programs/doublezero-serviceability/src/processors/device/interface/create.rs:85-112 | read back for every set of topologies and loopback type |
| DeviceInstructions.UpdateDeviceInterfaceRoundTrip | smartcontract/programs/doublezero-serviceability/src/processors/device/interface/update.rs:91-133 | read back whether topologies are left alone, cleared or set |
| LinkInstructions.UpdateLink | crates/doublezero-serviceability-instruction/src/link.rs:151-203 | the preamble of the authority and every conditional section, and the flag that says tunnel resources are sent |
| LinkInstructions.DeleteLink | crates/doublezero-serviceability-instruction/src/link.rs:221-260 | the documented list with all topologies, and onchain deallocation forced |
| LinkInstructions.UpdateLinkRoundTrip | smartcontract/programs/doublezero-serviceability/src/processors/link/update.rs:102-168 | for every combination of sections and authority, read back if and only if at most eight topologies are asked for and the far side is not the globalstate account |
| LinkInstructions.DeleteLinkRoundTrip | smartcontract/programs/doublezero-serviceability/src/processors/link/delete.rs:51-82 | read back for every set of topologies, before and after permissions |
| Layouts.CreateSubscribeUserLayout | crates/doublezero-serviceability-instruction/src/user.rs:20-46 | the list of the builder is the documented one, account by account and flag by flag |
| Layouts.CreateUserLayout | crates/doublezero-serviceability-instruction/src/user.rs:115-135 | the documented list, account by account and flag by flag |
| Layouts.UpdateUserLayout | crates/doublezero-serviceability-instruction/src/user.rs:191-208 | the documented list, account by account and flag by flag, the old tenant before the new |
| Layouts.DeleteUserLayout | crates/doublezero-serviceability-instruction/src/user.rs:272-292 | the documented list, account by account and flag by flag |
| Layouts.RequestBanUserLayout | crates/doublezero-serviceability-instruction/src/user.rs:356-367 | the documented list, account by account and flag by flag |
| Layouts.CreateDeviceLayout | crates/doublezero-serviceability-instruction/src/device.rs:26-52 | the documented list, account by account and flag by flag |
| Layouts.DeleteDeviceLayout | crates/doublezero-serviceability-instruction/src/device.rs:126-159 | the documented list, account by account and flag by flag, in both layouts |
| Layouts.UpdateDeviceLayout | crates/doublezero-serviceability-instruction/src/device.rs:226-247 | the documented list, account by account and flag by flag, covering the larger prefix count |
| Layouts.CreateDeviceInterfaceLayout | crates/doublezero-serviceability-instruction/src/device.rs:320-334 | the documented list, account by account and flag by flag |
| Layouts.UpdateDeviceInterfaceLayout | crates/doublezero-serviceability-instruction/src/device.rs:426-442 | the documented list, account by account and flag by flag |
| Layouts.UpdateLinkLayout | crates/doublezero-serviceability-instruction/src/link.rs:130-150 | the documented list, account by account and flag by flag, with both preambles and every conditional section |
| Layouts.DeleteLinkLayout | crates/doublezero-serviceability-instruction/src/link.rs:205-219 | the documented list, account by account and flag by flag |
| ProcessorChecks.BanWithoutPublisherBlock | smartcontract/programs/doublezero-serviceability/src/processors/user/requestban.rs:67-81 | a ban that declares no publisher block is read without one |
| ProcessorChecks.DeleteWithoutPublisherBlock | smartcontract/programs/doublezero-serviceability/src/processors/user/delete.rs:74-99 | a deletion that declares no publisher block is read without one |
| ProcessorChecks.UpdateWithoutPublisherBlock | smartcontract/programs/doublezero-serviceability/src/processors/user/update.rs:87-123 | an update that declares no publisher block is read without one |
| ProcessorChecks.UpdateUserTakesAPair | smartcontract/programs/doublezero-serviceability/src/processors/user/update.rs:108-123 | an update takes no accounts or two in the place of the tenants, and refuses any other number |
| ProcessorChecks.FirstExtraIsFeed | smartcontract/programs/doublezero-serviceability/src/processors/user/create_subscribe.rs:60-104 | the first account in the place of the feed is taken for the feed |
| ProcessorChecks.CreateDeviceNeedsCount | smartcontract/programs/doublezero-serviceability/src/processors/device/create.rs:171-184 | a device is not created with a resource count other than one more than its prefixes |
| ProcessorChecks.LocationsAreOptional | smartcontract/programs/doublezero-serviceability/src/processors/device/update.rs:135-192 | an update that sends no locations is read without them |
| ProcessorChecks.UpdateDeviceNeedsLength | smartcontract/programs/doublezero-serviceability/src/processors/device/update.rs:147-170 | an update with any other number of accounts than one with or without locations is refused |
| ProcessorChecks.ForeignResourcePanics | smartcontract/programs/doublezero-serviceability/src/processors/device/update.rs:195-225 | a resource account that is not the device's own at its place makes the update panic |
| ProcessorChecks.AllocationIsOnchain | smartcontract/programs/doublezero-serviceability/src/processors/link/update.rs:143-160 | interfaces and links are refused without onchain allocation, and links with more than eight topologies |
| Agreement.SentinelCreateUser | crates/sentinel/src/dz_ledger_writer.rs:90-145 | the sentinel's own encoding of the create instruction |
| Agreement.SentinelAgreesIff | crates/sentinel/src/dz_ledger_writer.rs:95-129 | its accounts are those of the shared builder without feed, in the same order, if and only if the prefix count is not zero |
| Agreement.SentinelIsRead | crates/sentinel/src/dz_ledger_writer.rs:95-129 | the processor gives its accounts the same roles; only the system account's flag differs |
| Agreement.ResourcesAgree | crates/doublezero-serviceability-instruction/src/device.rs:78-99 | for every number n of prefixes, before and after permissions, creating a device and closing it with n + 1 owners are read as naming one sequence of resource accounts |
| Agreement.UserResourcesAreDevices | crates/doublezero-serviceability-instruction/src/user.rs:136-418 | the resource accounts a user instruction with count n names are those of a device with n prefixes |
| Agreement.UserResourcesAgree | crates/doublezero-serviceability-instruction/src/user.rs:47-418 | with any feed and tenants, before and after permissions, the five user instructions with one count are read as naming the same resources |
| Agreement.ResourcesDistinct | crates/doublezero-serviceability-instruction/src/device.rs:198-206 | a device's resource accounts are pairwise distinct and shared with no other device |
| Agreement.UpdateCoversBoth | crates/doublezero-serviceability-instruction/src/device.rs:268-283 | an update is read as naming all resources the device had and all it will have, and is accepted exactly if there is a prefix before or after |
| Accounting.GroupsKeptIff | smartcontract/programs/doublezero-serviceability/src/processors/multicastgroup/subscribe.rs:93-132 | a create, role change, ban, delete or limit change keeps each group's counters equal to the numbers of users listing it, if and only if it does not add a role whose counter is at its maximum |
| Accounting.DevicesKept | smartcontract/programs/doublezero-serviceability/src/processors/user/create_core.rs:269-355 | every create, role change, ban, delete and limit change keeps each device's counters equal to the numbers of its users by kind, and the users and reserved seats of a device with users below 2^16 |
| Accounting.CreateWithinLimits | smartcontract/programs/doublezero-serviceability/src/processors/user/create_core.rs:269-314 | after a create its device is within the user limit and the limit of the user's kind then in force |
| Accounting.LimitsKeptIff | smartcontract/programs/doublezero-serviceability/src/processors/device/update.rs:362-373 | a device within its limits stays there if and only if the instruction does not set its limits below its counts |
| AccountingSpec.CreateIs | smartcontract/programs/doublezero-serviceability/src/processors/user/create_core.rs:269-355 | when a user is created, condition by condition on device, limits, group and address, and the account it gets |
| AccountingSpec.SetRolesIs | smartcontract/programs/doublezero-serviceability/src/processors/multicastgroup/subscribe.rs:93-347 | when roles are changed, and which roles and address the account has then |
| AccountingSpec.ReleaseIs | smartcontract/programs/doublezero-serviceability/src/processors/user/requestban.rs:112-137 | when a user is banned or deleted, and what is left |
| AccountingSpec.ReleasedIs | smartcontract/programs/doublezero-serviceability/src/processors/user/resource_onchain_helpers.rs:222-241 | where its address goes: to the publisher block if that is named and has it, else to the named prefix block of the device that holds it, else nowhere |
| AccountingSpec.SetLimitsIs | smartcontract/programs/doublezero-serviceability/src/processors/device/update.rs:362-373 | the limits given replace the old ones and nothing else changes |
| Addresses.AddressesKept | smartcontract/programs/doublezero-serviceability/src/processors/multicastgroup/subscribe.rs:311-347 | every create, role change, ban, delete and limit change keeps publisher addresses held by exactly one user each, held only while publishing, and by every publishing multicast user |
| Addresses.RunIsRight | smartcontract/programs/doublezero-serviceability/src/processors/user/delete.rs:201-260 | device counters and publisher addresses are right in every state any run of creates, role changes, bans, deletes and limit changes reaches |
| AccountingSpec.RunCountsUsers | smartcontract/programs/doublezero-serviceability/src/processors/user/create_core.rs:333-355 | over every run a device counts its users, those that are not multicast, the multicast ones created as publishers, and the other multicast ones |
| Addresses.RunCountsGroupsIff | smartcontract/programs/doublezero-serviceability/src/processors/multicastgroup/subscribe.rs:93-132 | group counters are right in every state of a run if and only if no instruction of it adds a role whose counter is at its maximum |
| Addresses.FewDevicesNeverSaturate | smartcontract/programs/doublezero-serviceability/src/processors/user/create_core.rs:269-355 | on up to 65537 devices no run of any length saturates a group counter, as device counters bound the users |
| Addresses.RunIsSound | smartcontract/programs/doublezero-serviceability/src/processors/user/delete.rs:201-260 | on up to 65537 devices group counters, device counters and publisher addresses are all right in every state any run of such instructions reaches |
| Addresses.ReachableDevicesConsistent | smartcontract/programs/doublezero-serviceability/src/processors/user/create_core.rs:269-355 | every device the sentinel can read in such a state has seat counters that fit and no more publishers than users, and its capacity test is exact |
| PrefixAddresses.RunConservesPrefixesIff | smartcontract/programs/doublezero-serviceability/src/processors/user/resource_onchain_helpers.rs:222-241 | a run conserves prefix addresses if and only if no instruction in it makes a user with one stop publishing to its last group, or bans or deletes such a user without naming the address's block; otherwise one is leaked at the end of the run |
| PrefixAddresses.LeakStays | smartcontract/programs/doublezero-serviceability/src/processors/user/resource_onchain_helpers.rs:222-241 | no create, role change, ban, delete or limit change hands out or gives back a leaked prefix address |
| PrefixAddresses.ShortDeleteLeaks | smartcontract/programs/doublezero-serviceability/src/processors/user/delete.rs:51-85 | the run from a ledger without users that gives a user an address of the second prefix block and deletes it naming only the first |
| PrefixAddresses.UnpublishLeaks | smartcontract/programs/doublezero-serviceability/src/processors/multicastgroup/subscribe.rs:327-347 | the run from a ledger without users that gives a user a prefix address, publishes and unpublishes: the address stays taken and nobody holds it |

## Left out

- HTTP, sockets, RPC, retry timing, spinners, logging, tables and JSON: input, output and display.
- Great-circle distance: a parameter of the ranking, since floating-point trigonometry is not the point; stakes are reals and never NaN.
- Lower-casing of client names: a parameter.
- Tenant and access-pass resolution, daemon enabling and status polling, and the wait for a new account to become visible in `connect`: external reads with single-branch checks.
- The CYOA type of a user: it changes no modelled decision. The two ways a fresh multicast connect is reached (with and without an IBRL user) differ only in it and are one branch here.
- Per-type device capacity in `connect`: a flag of the placement.
- Instruction packing, several program ids and address derivation: addresses are constructors of one program.
- Builders with fixed account lists (locations, exchanges, contributors, tenants, feeds, permissions and the like) and chunking of topology accounts: they would only add easy members.
- Account validation, authorization and status checks in the processors beyond reading the account list: an `Accounting.Event` is an instruction that passed them.
- Fields of instruction arguments that no account list depends on.
- In `Accounting`, `Addresses` and `PrefixAddresses`: manual user updates, overwriting of device counters by a privileged caller (device/update.rs:284-300) and of group counters (multicastgroup/update.rs:153-158), and a resource administrator's allocating and deallocating, which all set what the invariants are about; payers on the QA allowlist, who bypass device limits; access-pass and tenant counters, tunnel networks and tunnel ids.
- The sets of devices and groups, and the prefixes of a device, are fixed over a run; prefix blocks are disjoint from each other and from the publisher block, and clients come from outside all of them. Which free address an allocation returns is a parameter.
- Ledger.Ledger.UpdateMulticastGroupRoles: allowlist, status and authorization refusals are one parameter, `rejects`, since the callers modelled treat every refusal alike.
- Ledger.Ledger.CreateSubscribeUser: limits, allocation and access checks are the same parameter; `Accounting.Try` models the limits and the allocation.
- ConnectMulticast.FindOrCreateUserAndSubscribe: device selection is a parameter, modelled on its own in `DeviceSelection`; activation polling is left out.
- Accounting.GroupsKeptIff: does not cover the instructions that overwrite counters, for which it does not hold.
- Accounting.DevicesKept: does not cover the instructions that overwrite counters, for which it does not hold.
- Accounting.CreateWithinLimits: does not cover payers on the QA allowlist, whose creates skip the limits.
- Accounting.LimitsKeptIff: does not cover payers on the QA allowlist nor the instructions that overwrite counters.
- Addresses.AddressesKept: does not cover manual user updates, which can set any address.
- Addresses.RunIsSound: on up to 65537 devices; beyond that `Addresses.RunIsRight` holds, and `Addresses.RunCountsGroupsIff` says exactly when the group counters are right.
- NearestDevice.CreatePublishers: whether a creation goes through is a parameter.
- Disconnect.DeleteUsers: time is counted in reads, a deletion that shows after the run's last read counts as not landed, and no other deletion is under way at the start.
- Candidates.RoundsEqualRankingIff: publishers are created for exactly the candidates a round returned.
