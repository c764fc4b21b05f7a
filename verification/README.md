# ttgo: verified models of the stateful cores

ttgo is a TrustTunnel endpoint with a desktop client. This project models, in Dafny, the parts of it whose
correctness depends on state and interleaving, and proves what those parts promise.

Two forms are used side by side. Code that updates fields or buffers is a class or a method, proved against a
function on values. Where many goroutines share the state, every lock section, atomic operation, store query or
channel close is one step of a transition system, and results are proved for every state of every run.

| files | part of the program |
|---|---|
| `Sums.dfy`, `Tracker.dfy` | connection tracker: entries, per-user lists, revocation marks, totals, statistics |
| `Admission.dfy`, `Decisions.dfy`, `CapWitness.dfy` | many CONNECT handlers and administrative kicks against one tracker |
| `Ledger.dfy`, `Traffic.dfy`, `StoreLoss.dfy`, `Amounts.dfy`, `LiveTotals.dfy`, `Uncharged.dfy` | byte accounting: counters, flusher, resets and store, one atomic operation at a time |
| `FlushRuns.dfy`, `CallRuns.dfy`, `LookupRuns.dfy` | the step models against the sequential methods: one undisturbed run does what the method's contract says |
| `Credentials.dfy`, `Rendezvous.dfy`, `Meetings.dfy` | Basic credentials and the P2P rendezvous broker |
| `Routes.dfy`, `RouteManager.dfy` | longest-prefix lookup and the split-default route manager of macOS |
| `AuthCache.dfy`, `AuthRuns.dfy`, `AuthChecks.dfy` | the authentication cache, sequentially and under concurrent lookups |
| `ConfigText.dfy`, `ConfigLines.dfy`, `ConfigPatch.dfy`, `ConfigMeaning.dfy`, `ConfigEdit.dfy`, `ConfigFields.dfy` | the line patcher of `vpn.toml` |
| `UdpSession.dfy`, `UdpFraming.dfy`, `Buffers.dfy` | UDP session sockets and stream framing |
| `Rules.dfy` | the rules engine over client address and TLS client random |
| `Peek.dfy` | the listener that peeks at the ClientHello |

Some promises hold only under a condition. Each of these has a lemma that shows how it fails and a theorem with
the exact condition:

- Device limit: the documentation (`README.md:284`) promises at most N TLS connections per user. The code counts
  registrations, one per stream, and checks before it registers. With W handlers inside that window the bound is
  N - 1 + W and is reached, so the documented cap needs W = 1. A handler that skips the count because another
  user's stream keeps its connection known adds a device beyond any limit; with one user per connection none does.
- Traffic store: at rest it is exact if and only if everything is flushed, every write for the user succeeded and
  found its row, and no reset or deletion found bytes. A comment in `flushOnce` first says that the next tick
  retries a failed write; the code does not.
- Live counters against totals: placing an entry can lead to uncharged bytes if and only if its user has no totals
  yet and some stream on the connection can still count there, or another user's registration on it is pending.
  With one user per connection this never happens.
- Revocation: a connection is revoked if and only if some kick marked it and no handler has left it since. The mark
  goes with the first handler to leave, while others may go on.
- Configuration patch: everything from the first section on survives if and only if the separator is not appended in
  place over the section header.
- Cache invalidation: it governs all later lookups if and only if no lookup under way holds an older read that could
  still answer.
- Route restore: it holds for a successful installation. A bypass batch leaves a route that `Restore` keeps if and
  only if nothing is installed, an earlier gateway is remembered, and the batch has an address neither recorded nor
  routed.

## Model

| member | source | states |
|---|---|---|
| `Tracker.RemoveFirstCounts` | internal/server/conntrack.go:99-117 | unregistering takes exactly one copy of the connection out of the user's list, whatever the list |
| `Tracker.ConnTracker.Register` | internal/server/conntrack.go:76-96 | the entry is replaced, the connection appended once more to the list, marks kept; totals created only if missing; no connection, no change |
| `Tracker.ConnTracker.Unregister` | internal/server/conntrack.go:99-117 | entry and revocation mark go, one copy leaves the list, an emptied list goes; the in-place removal loop equals `RemoveFirst`; totals kept |
| `Tracker.ConnTracker.KickUser` | internal/server/conntrack.go:194-203 | exactly the connections in the user's list become revoked with the reason, nothing else changes |
| `Tracker.ConnTracker.KickSession` | internal/server/conntrack.go:207-224 | the first listed connection with that address, and no other, becomes revoked; the result says whether there is one |
| `Tracker.FirstIs` | internal/server/conntrack.go:207-216 | the connection a session kick picks is the first listed one with that address |
| `Tracker.ConnTracker.TunnelOpened` | internal/server/conntrack.go:131-145 | one more open and one more counted tunnel on the entry and, if they exist, in the totals of its owner; an unknown connection changes nothing |
| `Tracker.ConnTracker.AddBytes` | internal/server/conntrack.go:157-180 | the amounts reach the entry and, if they exist, the totals of its owner, and nobody else; an unknown connection changes nothing |
| `Tracker.ConnTracker.UserStats` | internal/server/conntrack.go:260-298 | for whatever each of its two lock sections saw: one record per user known to entries or totals, live counts being true sums over the user's entries, lifetime values taken from totals, and active connections adding up to the number of entries |
| `Tracker.CountedAggregates` | internal/server/conntrack.go:260-283 | visiting one more entry keeps every user's record equal to the sums over the visited entries |
| `Tracker.ActivePartition` | internal/server/conntrack.go:260-298 | records with distinct users that each count their own entries add up to all entries |
| `Tracker.ConnTracker.ResetUserTraffic` | internal/server/conntrack.go:367-385 | the user's totals, watermark and live byte counters become zero; everything else, tunnel counts included, is kept |
| `Tracker.ConnTracker.TakeDeltas` | internal/server/conntrack.go:340-354 | each user with unflushed bytes is listed once with exactly that many, and every watermark catches up |
| `Tracker.ConnTracker.FlushOnce` | internal/server/conntrack.go:339-363 | every watermark catches up; each stored row grows by its user's delta, or by nothing if the write failed, which a reliable store rules out |
| `FlushRuns.FlushOnceSteps` | internal/server/conntrack.go:339-363 | every outcome that contract allows is reached by an undisturbed run of the flusher's atomic steps in `Ledger` |
| `CallRuns.RegisterSteps` | internal/server/conntrack.go:76-96 | an undisturbed run of the two lock sections in `Traffic` does what `Register` does to entries and totals |
| `CallRuns.UnregisterStep` | internal/server/conntrack.go:99-117 | the step of a stream's handler in `Traffic` does what `Unregister` does to the entries |
| `CallRuns.AddBytesSteps` | internal/server/conntrack.go:157-180 | an undisturbed run of the separate atomic additions does what `AddBytes` does when a copier calls it, and what `TunnelOpened` does to the tunnel counts, zero amounts, missing entry and missing totals included |
| `CallRuns.StreamCountsAll` | internal/proxy/handler.go:212-228 | a stream that opens its tunnel and copies both ways undisturbed counts one tunnel and each direction under that direction, on its entry and in the totals of its owner |
| `CallRuns.CountsOnce` | internal/proxy/handler.go:212-228 | in every run a stream counts its tunnel once and each direction once |
| `CallRuns.ResetSteps` | internal/server/conntrack.go:367-385 | an undisturbed run of the three stores and the sweep does what `ResetUserTraffic` does |
| `Tracker.TrafficStore.AddTraffic` | internal/auth/store/sqlite.go:75-82 | a successful write adds to an existing row; for a missing row it succeeds without effect |
| `Admission.IndexAgreement` | internal/server/conntrack.go:76-117 | in every state of every run each list is, as a multiset, the user's outstanding registrations; no list is empty; every entry and every revoked connection is listed |
| `Admission.NothingLeftBehind` | internal/server/conntrack.go:99-117 | when no handler is registered, all three maps are empty |
| `Admission.ListedIffServing` | internal/server/conntrack.go:76-117 | a connection is in a user's list exactly when some handler serves that user on it |
| `Admission.DeviceCap` | internal/proxy/handler.go:103-123 | with a fixed limit N, and no handler skipping the count on a connection that is not the user's, at most N - 1 + W distinct connections are ever admitted, W bounding the handlers between the check and the registration |
| `Admission.DocumentedCap` | internal/proxy/handler.go:103-123 | with W = 1 the cap is N, as documented |
| `Admission.SlipAdds` | internal/proxy/handler.go:105-107 | a handler that skips the count on a connection known for another user adds a device, whatever the limit |
| `Admission.OneUserNeverSlips` | internal/proxy/handler.go:105-107 | with one user per connection no handler does |
| `CapWitness.CapIsTight` | internal/proxy/handler.go:103-123 | for every N and W there is a run, without such a handler, that reaches N - 1 + W, so the cap is exceeded for every W above 1 |
| `CapWitness.SharedBreaksCap` | internal/proxy/handler.go:105-107 | for every N there is a run on a shared connection that reaches N + 1 devices with never more than one handler in the window |
| `Admission.CountIsDevicesIff` | internal/server/conntrack.go:388-393 | the count used for the limit is at least the number of connections, and equal exactly when no connection carries two streams of the user |
| `Admission.KickReachesEveryStream` | internal/server/conntrack.go:194-203 | after a kick the connection of every serving handler of the user is revoked |
| `Admission.StaysRevoked` | internal/server/conntrack.go:115 | a revoked connection stays revoked until some handler on it exits |
| `Admission.RefusedForever` | internal/proxy/handler.go:71-78 | a refused handler is never registered afterwards |
| `Admission.RevocationWindow` | internal/server/conntrack.go:183-203 | from a kick until the first exit on one of the user's connections it is revoked, and every CONNECT checked in that window is refused for good |
| `Admission.RevokedIff` | internal/server/conntrack.go:183-224 | in every run a connection is revoked if and only if some kick marked it and no handler has left it since |
| `Decisions.RevocationDecides` | internal/proxy/handler.go:71-78 | a CONNECT is refused as revoked if and only if some kick marked its own connection and no handler has left it since; every other CONNECT goes on |
| `Decisions.ReasonIff` | internal/server/conntrack.go:183-224 | the reason a refused CONNECT is given is that of the last kick that marked its connection |
| `Decisions.SessionKickReaches` | internal/server/conntrack.go:207-224 | a session kick revokes the connection the user entered from that address; where several listed ones have it, one of them |
| `Decisions.EntryIff` | internal/server/conntrack.go:76-117 | a connection has a live entry for a user and an address if and only if the last handler to enter or leave it entered for that user from there |
| `Decisions.KnownDecides` | internal/proxy/handler.go:105-107 | the count is skipped if and only if there is no limit or the last handler to enter or leave the connection entered |
| `Decisions.CountIsStreams` | internal/server/conntrack.go:388-393 | in every run what the limit is compared with is the number of streams of the user being served |
| `Decisions.CountDecides` | internal/proxy/handler.go:107-116 | a CONNECT is refused for its devices if and only if at least as many streams of the user as the limit are being served |
| `Decisions.StageTells` | internal/proxy/handler.go:71-123 | in every run a handler stays on the connection it arrived on; only one whose credentials were accepted, for that user and limit, is counted, passed or served; a rejected one stays refused; one is done if and only if it has left |
| `Admission.RevocationLapses` | internal/server/conntrack.go:115 | with two streams of any users on a revoked connection, the exit of one clears the mark while the other goes on |
| `Ledger.DoMarks` | internal/server/conntrack.go:339-385 | every atomic step keeps the watermark at or below the counted bytes, outside a reset in progress |
| `Ledger.DoConserved` | internal/server/conntrack.go:339-385 | every atomic step of counting, flushing, resetting and storing conserves the bytes of every user |
| `Traffic.StepOfBooks` | internal/server/conntrack.go:157-180 | every step of the whole system is no step or one legal step of the books |
| `Traffic.TrafficConservation` | internal/server/conntrack.go:339-385 | in every interleaving, initial plus charged bytes equal unflushed plus being cleared plus in flight plus stored plus lost plus wiped |
| `Amounts.GivenIsAccounted` | internal/server/conntrack.go:157-180 | in every run, the amounts given to `AddBytes` for a user equal what was charged plus what running calls hold plus what went uncharged |
| `Amounts.BytesConserved` | internal/server/conntrack.go:157-180 | so every byte given for a user, together with what the store began with, is in exactly one place |
| `Traffic.NoDoubleCharge` | internal/server/conntrack.go:339-363 | the store never holds more than it began with plus what was charged, and the watermark never passes the counters |
| `Traffic.StoreIsExactAtRest` | internal/server/conntrack.go:339-385 | at rest the store is exact if and only if nothing is unflushed, lost or wiped |
| `StoreLoss.LostIff` | internal/server/conntrack.go:356-362 | in every run bytes are lost if and only if some write for the user failed or found no row, and wiped if and only if some reset or deletion found bytes |
| `StoreLoss.StoreIsExactIff` | cmd/endpoint/main.go:99-106 | at rest the store is exact if and only if everything is flushed and no event of the run lost or wiped bytes of the user |
| `StoreLoss.LosingRun` | internal/server/conntrack.go:356-362 | for every n a run in which a failed write, or one for a missing row, leaves the store n short with everything flushed |
| `LiveTotals.RunBound` | internal/server/conntrack.go:131-180 | in every run, counters not awaiting a sweep add up to at most the totals plus what running calls owe plus what was counted without totals |
| `LiveTotals.LiveBelowTotals` | internal/server/conntrack.go:131-180 | unless a reset of the user is under way, live bytes (tunnels: always) are within totals plus owed plus uncharged |
| `Uncharged.AllCharged` | internal/server/conntrack.go:76-96 | a run without a risky placement charges everything; risky is one for a user without totals on a connection where a stream can still count, or another user's registration is pending |
| `Uncharged.PlacementLeaksIff` | internal/proxy/handler.go:212-228 | a placement can lead to uncharged bytes, without any further placement, if and only if it is risky; only streams that are registered, or whose copiers still run, can count, each direction once |
| `Uncharged.RiskyLeaks` | internal/proxy/handler.go:212-228 | after any risky placement, by any users on any connection and whoever holds the mutex, some stream can go on to leave n bytes uncharged, for every n |
| `Uncharged.OneUserNeverRisky` | internal/server/conntrack.go:76-96 | with one user per connection no placement is risky |
| `Uncharged.LiveBelowTotalsAtRest` | internal/server/conntrack.go:157-180 | without risky placements and with no call running for the user, live sums are within the totals alone |
| `Credentials.SplitBasic` | internal/auth/auth.go:100-104 | splitting at the first colon fails exactly without a colon and yields a user name without one (section 2 of RFC 7617) |
| `Credentials.SplitJoin` | internal/auth/auth.go:100-104 | splitting undoes joining for every user name without a colon |
| `Credentials.JoinInjective` | internal/proxy/p2p.go:47 | the room key determines user and room when user names have no colon |
| `Rendezvous.P2PBroker.Join` | internal/proxy/p2p.go:49-60 | takes the waiter under the key and removes it, or becomes the waiter |
| `Rendezvous.P2PBroker.Withdraw` | internal/proxy/p2p.go:76-90 | removes the entry under the key only if it is the caller's own |
| `Rendezvous.BrokerSafety` | internal/proxy/p2p.go:49-96 | in every run each waiting entry belongs to a handler still waiting that nobody has taken, every such handler can be found, and pairings are mutual; that streams do meet is `Meetings.EnterDecides` |
| `Rendezvous.ClosedAtMostOnce` | internal/proxy/p2p.go:123 | no `done` channel is closed twice, so closing never panics |
| `Rendezvous.TakenAtMostOnce` | internal/proxy/p2p.go:94-96 | no waiter is taken twice, at any two moments of a run, and nobody is both waiter and taker |
| `Rendezvous.PairedSameUserAndRoom` | internal/proxy/p2p.go:47-50 | paired streams have the same user and the same room, in every run |
| `Meetings.EnterDecides` | internal/proxy/p2p.go:40-96 | in every run a stream that enters a room is paired with the stream of the same user waiting there; if none waits it becomes the waiting one; without a room it is gone and nothing else changes |
| `Meetings.OneWaits` | internal/proxy/p2p.go:49-60 | at most one stream of a user waits in a room |
| `Meetings.ArrivedAs` | internal/proxy/p2p.go:40-47 | a stream keeps the user name it authenticated with and the room it asked for |
| `Meetings.PairedCredentials` | internal/proxy/p2p.go:40-50 | paired streams authenticated with the same user name and asked for the same room |
| `Meetings.MeetingEnds` | internal/proxy/p2p.go:111-123 | when a relay ends its waiter is told, and both handlers return |
| `Meetings.DoneMeansOver` | internal/proxy/p2p.go:71-75 | a waiter sees its channel closed only after the stream that took it has hung up |
| `Rendezvous.WithdrawOwnOnly` | internal/proxy/p2p.go:75-91 | a timed-out or cancelled waiter removes its own entry and leaves all later waiters alone |
| `Rendezvous.RelayCanOutliveWaiter` | internal/proxy/p2p.go:71-91 | the timer stays armed after pairing: the waiter's handler can return while its relay goes on |
| `Routes.CoversIffAt` | internal/client/route_darwin.go:151-160 | a prefix covers an address exactly when masking the address gives the prefix |
| `Routes.LookupIsLongest` | internal/client/route_darwin.go:151-160 | the modelled lookup is longest-prefix match (section 5.2.4.3 of RFC 1812), in both directions |
| `Routes.SplitDefault` | internal/client/route_darwin.go:61-162 | where every IPv4 address goes after installation: old gateway, original longer route, or TUN |
| `Routes.HostBypassed` | internal/client/route_darwin.go:75-78 | a recorded host goes to the old gateway |
| `Routes.NetBypassed` | internal/client/route_darwin.go:105-119 | a recorded network goes to the old gateway wherever no longer original route covers the address |
| `Routes.DefaultTunneled` | internal/client/route_darwin.go:151-160 | every other address that fell to the default route goes to the TUN |
| `RouteManagement.RouteManager.Install` | internal/client/route_darwin.go:61-162 | on success from a fresh manager the table is the old one plus recorded routes only, the old default led to the recorded gateway, and the DNS of the service is redirected; where adding works every exclusion and both public resolvers are in the table, and it succeeds if and only if the interface was named and configured, there was a default gateway, neither the endpoint nor a half was routed, and no exclusion is a half; where reading works the DNS servers are recorded |
| `RouteManagement.RouteManager.BypassExclusions` | internal/client/route_darwin.go:105-149 | keeps every route present, keeps the books for duplicates and overlaps, and where adding works leaves every exclusion routed |
| `RouteManagement.RouteManager.BypassPublicDNS` | internal/client/route_darwin.go:94-103 | adds the resolver routes that are absent and records exactly those; where adding works both 1.1.1.1 and 8.8.8.8 are routed |
| `RouteManagement.RouteManager.OverrideDNS` | internal/client/route_darwin.go:80-92 | records the service's servers, sets them to the TUN peer 10.99.0.1 alone where writing works, and touches no other service |
| `RouteManagement.RouteManager.AddHalves` | internal/client/route_darwin.go:151-160 | on success both halves are owned and lead to the TUN; present routes are kept |
| `RouteManagement.RouteManager.AddDynamicHostBypassBatch` | internal/client/route_darwin.go:363-395 | adds at most, and where adding works exactly, the IPv4 addresses neither recorded nor routed; keeps an installed configuration installed with every address of the batch routed; without a gateway nothing changes |
| `RouteManagement.RouteManager.Restore` | internal/client/route_darwin.go:164-216 | without errors, or where deleting works, an installed configuration gives back the old table; likewise the old DNS if it was read and writing works; where both work there are no errors |
| `RouteManagement.RouteManager.RoundTrip` | internal/client/route_darwin.go:61-216 | install, any batches, restore, for any exclusions with duplicates and overlaps: the table is as before given no errors or working deletes, and DNS as before given that the original was read correctly, whatever other commands failed |
| `RouteManagement.RouteManager.ActiveLookup` | internal/client/route_darwin.go:61-162 | while installed, the manager's real table routes every address as the split default promises |
| `RouteManagement.RouteManager.ActiveHosts` | internal/client/route_darwin.go:75-103 | while installed, the endpoint and all recorded hosts go to the old gateway |
| `RouteManagement.RouteManager.ActiveAdded` | internal/client/route_darwin.go:94-103 | while installed, every host route that was not there before, the resolvers' included, leads to the old gateway |
| `RouteManagement.RouteManager.ActiveNets` | internal/client/route_darwin.go:105-119 | while installed, recorded networks go to the old gateway unless a longer original route covers the address |
| `RouteManagement.RouteManager.ActiveExcluded` | internal/client/route_darwin.go:105-149 | where adding works, every address under an exclusion goes to the old gateway unless an original route at least as long covers it |
| `RouteManagement.RouteManager.ActiveTunneled` | internal/client/route_darwin.go:151-160 | while installed, every other address that fell to the default route goes to the TUN |
| `RouteManagement.RouteManager.BatchThenRestore` | internal/client/route_darwin.go:164-395 | where adding and deleting work, a batch and a restore leave something other than the intended table if and only if nothing is installed, a gateway is remembered, and the batch has an address neither recorded nor routed |
| `RouteManagement.RouteManager.LateBatchStays` | internal/client/route_darwin.go:363-395 | after a complete round trip, one more batch and restore change the table if and only if the batch has an address not routed originally |
| `AuthCache.Authenticator.LookupEntry` | internal/auth/auth.go:128-177 | fresh hit, negative entry, store error with and without an old entry, and refill, each with the exact new cache |
| `AuthCache.Authenticator.Invalidate` | internal/auth/auth.go:179-185 | exactly that user's entry goes |
| `AuthCache.Authenticator.InvalidateAll` | internal/auth/auth.go:187-192 | no entry is left |
| `AuthCache.Authenticator.Evict` | internal/auth/auth.go:194-207 | exactly the entries past their expiry go |
| `AuthCache.EvictionShowsIff` | internal/auth/auth.go:194-207 | a lookup made at or after an eviction answers otherwise than without it if and only if its password query fails and it would have answered from an expired entry |
| `LookupRuns.LookupSteps` | internal/auth/auth.go:128-177 | an undisturbed run of a lookup's steps answers and leaves the cache as `LookupEntry` does, whichever queries fail and however long they take |
| `LookupRuns.CacheSteps` | internal/auth/auth.go:179-207 | the steps of the run model do to the cache what `Invalidate`, `InvalidateAll` and `Evict` do |
| `AuthRuns.RunHonest` | internal/auth/auth.go:128-177 | in every run each cache entry and each answer in progress is what the store held at recorded moments, in order |
| `AuthRuns.StalenessBound` | internal/auth/auth.go:128-177 | while no query for the user fails, every answer is a store record, password, device limit and lifecycle, each part no older than the TTL plus the duration of the lookup that filled the entry, or read during the lookup itself |
| `AuthRuns.ChangesGovern` | internal/auth/auth.go:128-177 | while no query for the user fails, no part of an answer given later than the TTL plus one lookup's duration after a change was read before that change |
| `AuthRuns.GovernedAnswer` | internal/auth/auth.go:154-171 | so a changed password, device limit, disabled flag or whole row that stands since is the answer's |
| `AuthRuns.NeverInvented` | internal/auth/auth.go:137-144 | even with store errors, an accepted password is one the store held at some moment of the run |
| `AuthRuns.InvalidationHolds` | internal/auth/auth.go:179-192 | after an invalidation of the user or of all users that leaves the user clear, every later answer, stale ones included, comes from a later store read |
| `AuthRuns.InvalidationHoldsIff` | internal/auth/auth.go:179-192 | an invalidation governs all later lookups, in every continuation, if and only if no lookup under way holds an older read that could still answer |
| `AuthRuns.InFlightAnswers` | internal/auth/auth.go:145-176 | otherwise there is a continuation in which a lookup begun after the invalidation answers from a read before it |
| `AuthRuns.CacheTransparent` | internal/auth/auth.go:106-177 | while the user's row is unchanged and queries succeed, from the start or from an invalidation on, every verdict is the uncached one at that instant |
| `AuthRuns.TransparentAfterTtl` | internal/auth/auth.go:106-177 | the same without a fresh start, once the row has stood and queries have succeeded for the TTL plus one lookup's duration |
| `AuthChecks.BegunWith` | internal/auth/auth.go:100-106 | a check is about the user name before the first colon and the password after it, throughout |
| `AuthChecks.CheckIsUncached` | internal/auth/auth.go:86-126 | a check of a user name and a password begun after a fresh start, with the row unchanged and queries answered, ends with the verdict the store gives for them at that instant |
| `AuthChecks.AcceptedWasHeld` | internal/auth/auth.go:106-113 | credentials that pass are a user name and a non-empty password that the store held for it at some moment of the run |
| `AuthChecks.GoneIsDenied` | internal/auth/store/sqlite.go:57-73 | a user whose row is gone when the lifecycle is read is denied, although the password was read before |
| `AuthChecks.GoneHasNoLimit` | internal/auth/store/sqlite.go:95-105 | a user whose row is gone when the device limit is read, if let in at all, has no limit |
| `ConfigText.LineReadsBack` | internal/admin/configwriter.go:92-104 | a written line reads back as its key and is neither blank, section nor several lines |
| `ConfigLines.SpacesAre` | internal/admin/configwriter.go:84-101 | the white space of Latin-1 counts as white space, and no visible ASCII character does |
| `ConfigLines.TrimIs` | internal/admin/configwriter.go:82-101 | trimming takes off exactly the white space at both ends |
| `ConfigLines.BlankIff` | internal/admin/configwriter.go:122 | a line is blank if and only if it is all white space |
| `ConfigLines.SectionIff` | internal/admin/configwriter.go:82-88 | a line is a section header if and only if its first character that is not white space is a bracket |
| `ConfigLines.KeyFound` | internal/admin/configwriter.go:92-101 | a line with a key, an equals sign and anything after it, with any white space around the key, assigns that key |
| `ConfigLines.KeyParts` | internal/admin/configwriter.go:92-101 | a line that assigns a key is white space, that key, white space, an equals sign and the rest |
| `ConfigLines.TightKey` | internal/admin/configwriter.go:92-101 | a key written without spaces around the equals sign is found too |
| `ConfigText.SplitJoin` | internal/admin/configwriter.go:78 | splitting undoes joining for single lines |
| `ConfigText.JoinSplit` | internal/admin/configwriter.go:135-139 | joining undoes splitting for every file |
| `ConfigPatch.Append` | internal/admin/configwriter.go:119-124 | `append` on a prefix of a backing array writes in place while there is room, and into a fresh array otherwise |
| `ConfigPatch.FindSection` | internal/admin/configwriter.go:82-88 | finds the first section line, or the end |
| `ConfigPatch.ReplaceKeys` | internal/admin/configwriter.go:90-109 | rewrites in place exactly the top-level lines of patched keys, and marks exactly the patches whose key is assigned |
| `ConfigPatch.CollectExtras` | internal/admin/configwriter.go:111-117 | collects the lines of the patches not applied, in order |
| `ConfigPatch.Splice` | internal/admin/configwriter.go:118-133 | inserts before the first section with separators, the separator going through the shared array |
| `ConfigPatch.PatchLines` | internal/admin/configwriter.go:78-133 | the in-place edit computes `Actual`, about which the following are proved |
| `ConfigMeaning.SectionsKeptIff` | internal/admin/configwriter.go:118-133 | everything from the first section on survives if and only if no key has to be inserted below a non-blank line and above a section |
| `ConfigMeaning.HeaderLost` | internal/admin/configwriter.go:122-124 | the failing family: the header becomes a blank line |
| `ConfigMeaning.HeaderLostExample` | internal/admin/configwriter.go:122-124 | a concrete file that loses its header |
| `ConfigMeaning.PatchedKeysSet` | internal/admin/configwriter.go:90-117 | outside that family every patched key is assigned at top level, by the new line only |
| `ConfigMeaning.LinesKept` | internal/admin/configwriter.go:90-133 | outside that family every original top-level line, blank ones and comments included, keeps its place unless it assigns a patched key; only blank lines and missing keys are inserted; sections are unchanged |
| `ConfigMeaning.PatchIdempotent` | internal/admin/configwriter.go:78-133 | outside that family patching twice equals patching once, and stays outside it |
| `ConfigMeaning.PatchFileIdempotent` | internal/admin/configwriter.go:78-139 | the same for file contents |
| `ConfigEdit.EditsAreGood` | internal/admin/configwriter.go:44-72 | every edit from the UI yields patches with distinct well-formed keys and one-line values, so the theorems above apply; which field sets which key is `ConfigFields.FieldsSet` |
| `ConfigFields.DecimalReads` | internal/admin/configwriter.go:44-72 | a written integer reads back, negative ones included |
| `ConfigFields.FieldsSet` | internal/admin/configwriter.go:44-72 | each of the eight fields of an edit patches its own key, with its own value, exactly when it has one |
| `ConfigFields.OnlyFields` | internal/admin/configwriter.go:44-72 | no other key is patched |
| `ConfigFields.EditTakesEffect` | internal/admin/configwriter.go:44-133 | outside the family that loses its header, the edited file has the value of every edited field under that field's key, and the keys of the other fields are as they were |
| `UdpSession.SocketAccounting` | internal/udp/mux.go:106-174 | in every run the open sockets are exactly those in the map, one per key |
| `UdpSession.ReapExact` | internal/udp/mux.go:156-174 | a tick keeps exactly the keys idle no longer than the timeout and closes exactly the sockets of the others |
| `UdpSession.TouchKeeps` | internal/udp/mux.go:95-97 | a socket used at some time stays open under its key while no tick finds it idle longer than the timeout since then and nobody removes or closes it |
| `UdpSession.DialKeeps` | internal/udp/mux.go:106-145 | the same from the moment it is dialled |
| `UdpSession.IdleReaped` | internal/udp/mux.go:156-174 | a socket not used again is closed by every tick later than the timeout after its last use |
| `UdpSession.ClosedOnlyFor` | internal/udp/mux.go:62-174 | a step closes the socket under a key if and only if it closes the session, removes that key, or finds it idle too long |
| `UdpSession.ClosedForever` | internal/udp/mux.go:62-70 | after closing, no socket is open and none is ever opened |
| `UdpSession.Session.GetOrDial` | internal/udp/mux.go:106-145 | returns the socket under the key, dialling only if absent; refuses when closed; a failed dial changes nothing |
| `UdpSession.Session.Remove` | internal/udp/mux.go:147-154 | closes and forgets that key's socket |
| `UdpSession.Session.Reap` | internal/udp/mux.go:156-174 | the loop over the map equals dropping the set of idle keys |
| `UdpSession.Session.Close` | internal/udp/mux.go:62-70 | closes every socket and the session |
| `UdpFraming.FrameRoundTrip` | internal/udp/mux.go:176-202 | reading a well-formed frame gives it back, whatever follows, and consumes 4 + length bytes |
| `UdpFraming.FrameSound` | internal/udp/mux.go:176-202 | whatever is read is the encoding of the frame returned |
| `UdpFraming.AcceptedIff` | internal/udp/mux.go:176-202 | a frame is read if and only if the stream begins with the encoding of one |
| `UdpFraming.MalformedStays` | internal/udp/mux.go:176-202 | a frame refused as malformed is refused the same way whatever follows |
| `UdpFraming.CutShortEnds` | internal/udp/mux.go:176-202 | a stream that ends inside a frame can be continued so that it no longer does |
| `UdpFraming.CleanEndIff` | internal/udp/mux.go:79-86 | the stream ends cleanly if and only if nothing, or nothing after a non-zero length field, is left; the second case is the code's |
| `UdpFraming.Drain` | internal/udp/mux.go:79-86 | the read loop returns all frames up to the first error, and that error |
| `UdpFraming.StreamRoundTrip` | internal/udp/mux.go:176-202 | any list of well-formed frames is read back exactly, and then the stream ends cleanly |
| `UdpFraming.WriteIncoming` | internal/udp/mux.go:204-216 | the buffer filled by offsets is the concatenation of the fields; a missing address is zeros |
| `UdpFraming.IncomingRoundTrip` | internal/udp/mux.go:204-216 | the written bytes decode to the same fields, and the length field is right exactly when it fits 32 bits |
| `Rules.DecodeHex` | internal/rules/rules.go:155-184 | succeeds exactly on pairs of hexadecimal digits and keeps every digit in its place |
| `Rules.HexIs` | internal/rules/rules.go:155-184 | the texts that decode are exactly the pairs of the digits 0-9, a-f and A-F |
| `Rules.DigitValues` | internal/rules/rules.go:155-184 | the sixteen digits, in both cases, have their values |
| `Rules.RandomCompilesIff` | internal/rules/rules.go:155-184 | a pattern compiles if and only if it is a hexadecimal text, or two of the same length joined by a slash |
| `Rules.CompilesIff` | internal/rules/rules.go:135-153 | a rule compiles if and only if its network parses, its pattern compiles and its action is allow or deny, an empty network or pattern being fine |
| `Rules.FaultIs` | internal/rules/rules.go:135-184 | which fault is reported, for each way of not compiling |
| `Rules.Engine.Set` | internal/rules/rules.go:68-89 | fails if and only if some rule is not well formed, then names the first such rule and installs none; otherwise installs the compiled form of every rule and reports whether saving failed |
| `Rules.Engine.Allow` | internal/rules/rules.go:186-203 | the loop is first match else allow over the compiled rules |
| `Rules.RandomMeans` | internal/rules/rules.go:212-228 | a compiled pattern matches exactly when its hexadecimal digits, masked if a mask is given, are the first digits of the random |
| `Rules.CompiledMeans` | internal/rules/rules.go:135-228 | a compiled rule matches exactly when its texts do |
| `Rules.VerdictOverTexts` | internal/rules/rules.go:186-203 | the verdict is first match else allow over the rule texts |
| `Rules.Engine.VerdictAfterSet` | internal/rules/rules.go:68-203 | after `Set` the verdict is first match else allow over the texts given, or over the rules before if one of those texts is not well formed |
| `Rules.PlainIsFullMask` | internal/rules/rules.go:155-184 | a plain prefix behaves as the same prefix with an all-ones mask |
| `Rules.SwapAdjacent` | internal/rules/rules.go:186-203 | swapping adjacent rules that share an action or never both match changes no verdict |
| `Peek.HelloHasRandom` | internal/server/tlspeek.go:49-67 | the random of every ClientHello record is found (sections 5.1 and 4.1.2 of RFC 8446) |
| `Peek.RandomIsOfHello` | internal/server/tlspeek.go:49-67 | a random is found only in bytes that are a ClientHello record, and it is that record's |
| `Peek.Socket.ReadFull` | internal/server/listener.go:76-81 | reading until the buffer is full succeeds exactly when the stream is long enough, however it is cut into pieces, and loses nothing |
| `Peek.RandomConn.Read` | internal/server/listener.go:52-59 | the bytes returned followed by what is pending are what was pending before; it reports the end if and only if nothing is pending and there is room |
| `Peek.RandomListener.Accept` | internal/server/listener.go:70-89 | closes and skips exactly the connections that end too early, and hands on the first other one with its stream intact |
| `Peek.ReadsDeliver` | internal/server/listener.go:52-59 | enough reads with room return all of the stream |
| `Peek.PeekTransparent` | internal/server/listener.go:52-89 | for any read sizes the bytes returned are a prefix of the original stream and the rest is still to come; the random is that of the stream |

## Left out

- Integer widths: byte and tunnel counters are unbounded, so wrap-around of 64-bit counters is not modelled; the 32-bit length field of UDP frames is.
- `TunnelClosed`: the counter of open tunnels is carried but not bounded, because streams that share a connection can take it below zero.
- Handlers without a raw connection (HTTP/3) and the hijacked HTTP/1 path: they are not registered under the same key and are not in the admission runs.
- KickReachesEveryStream: marks only; the GOAWAY frame and the delayed close after a kick are not modelled.
- DeviceCap: assumes a limit that stays fixed during the run.
- Register: the method is one undisturbed call; `Admission` and `Traffic` interleave its lock sections, and `CallRuns` ties the two.
- AddBytes: the method is one undisturbed call; `Traffic` interleaves its atomic additions, and `CallRuns` ties the two.
- ResetUserTraffic: the method is one undisturbed call; `Traffic` interleaves its stores and its sweep, and `CallRuns` ties the two.
- RiskyLeaks: a registered stream that has not opened its tunnel may still open it; which requests ask for a tunnel is not modelled.
- TakeDeltas: nothing is counted between its two counter loads; `Ledger` has the loads as separate steps.
- FlushOnce: the method is one undisturbed call; `Traffic` interleaves its atomic operations with counting, resets and store changes, and `FlushRuns` ties the two.
- LookupEntry: the method is one undisturbed call; `AuthRuns` interleaves its steps with other lookups, changes and invalidations, and `LookupRuns` ties the two. Clock readings and store replies are inputs.
- A failing lifecycle or device query is treated as if the store did not offer it, as in the code; `CacheTransparent` therefore asks that queries succeed.
- Header parsing and base64 decoding of credentials, and constant-time comparison: the decoded text is an input.
- P2P: relay contents, liveness and session duration; the wait's timer may fire at any moment.
- Install: nothing is claimed for a failed installation, which leaves its partial work in place; other programs changing the table, the data race between `Install` and a batch, side routes of `ifconfig`, and IPv6 lookup are not modelled. Parsing and resolving exclusions are inputs.
- Windows routes: same design as macOS, so they would add no new property.
- EditsAreGood: takes the quoted listen address as given text without a line break, because the escaping of `%q` is the Go library's. File reading, writing and renaming are not modelled.
- GetOrDial: the dialled socket, its failure and the clock are inputs; datagram contents and the reading goroutine are not modelled.
- Rules: CIDR parsing and matching are inputs; loading and saving the rules file depends on Go and TOML escaping.
- `peekConn` in `internal/server/tlspeek.go`: nothing uses it; it reads as `randomConn` does.
- ICMP mux, client connect state machine, TUN and netstack pumps, certificates, TOML and SQL drivers, web and terminal user interfaces: foreign code or easy members.
