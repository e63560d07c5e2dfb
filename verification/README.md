# A verified model of the TURN server's soft state

The repository is a TURN server (RFC 8656) with the nonce cookie of section 9.2 of RFC 8489. This
project models its soft state and the request processor that drives it as one timed state machine,
proves what that machine keeps over every run, and proves the server's stateful objects, written
imperatively as in the source, against it. To verify: `dafny verify dfyconfig.toml`.

## How it is laid out

| file | what it models |
|---|---|
| `Common.dfy` | addresses, endpoints, five-tuples, clock units |
| `Timers.dfy` | expiring tables and the asynchronous waits the event loop holds for them |
| `Permissions.dfy`, `Channels.dfy` | the two tables inside an allocation, as specification and as classes |
| `Base64.dfy`, `Nonces.dfy` | the nonce codec: generation, validation, feature bit |
| `RelayPorts.dfy`, `Reservations.dfy` | 16-bit port arithmetic, the retry loop over sockets, tokens |
| `Stun.dfy` | decoded requests, replies, the 20-byte header of section 5 of RFC 8489 |
| `Server.dfy` | the state machine: what each request decides, what each event does |
| `ServerInvariant.dfy` | the inductive invariant and its preservation by every event |
| `Admission.dfy`, `Replies.dfy`, `Responses.dfy` | when requests succeed, what each is answered, what errors leave alone |
| `Sessions.dfy`, `PortAccounting.dfy`, `Relaying.dfy` | theorems over whole runs |
| `Orphans.dfy` | allocations that outlive their sessions, and the ports they keep |
| `Defaults.dfy` | concrete runs under the default configuration |
| `AllocationObjects.dfy`, `Processor.dfy` | allocations, their manager and the handlers as classes |
| `EventLoop.dfy` | a history of calls on these objects, as a run of the machine |

A wait is a record of timer, key, deadline and status (waiting, fired, aborted). Re-arming a timer or
destroying it aborts its waiting waits; a completion handler runs at any later moment, so it can be
stale. Handlers of permissions and channels return at once on an error code; the handler of an
allocation ignores it. A table is *drained* when no completion is queued and no deadline is due.

## Assumptions

- A request handler is one atomic step (the single reader awaits each packet,
  `server/core/Server.cpp:59-80`); timer completions and datagrams from peers come between packets.
  Inserting an allocation, starting its timer and storing its success message belong to one step.
- The event loop's queue is kept in parts, one for each table, as no handler touches two tables.
- The monotonic clock, the wall clock, random ports and tokens, the outcome of opening and binding a
  socket, and whether an error reply fits its buffer are parameters of a step.
- HMAC, key derivation, the integrity check and the attribute codec are arbitrary functions; where a
  nonce's length matters the HMAC has 32 bytes.
- For the whole machine the port range is nonempty, does not start at 0, and holds an even port.
  Without an even port the bounds given to the random distribution would be out of order, and port 0
  asks the system for a port of its own choice. `RelayPorts.dfy` has neither condition:
  `RelayPorts.GeneratedFitsIff` says for which ranges the generator keeps its promises.
- Loading an attribute succeeds when the attribute is present and well formed.

## Where the code and its documentation part

- `validateNonce` does not look at the first 13 characters (`Nonces.CookieIsIgnored`), though
  `test/Authenticator_test.cpp:71-78` expects tampering with one of them to be noticed.
- A freshly generated nonce is rejected whenever its HMAC starts with an ASCII digit, because the scan
  for the end of the timestamp runs on (`Nonces.RoundTripExact`); `test/Authenticator_test.cpp:58-62`
  expects acceptance always. Nonces live 3600 s; the configured `nonce_lifetime` is not used.
- Refresh with LIFETIME 0 does not delete (`Sessions.RefreshNeverDeletes`).
- Refresh rejects the families that are supported (`Admission.RefreshSucceedsIff`).
- Send indications look at no permission (`Relaying.SendIgnoresPermissions`): a client without any can
  send to any peer (`Defaults.SendNeedsNoPermission`). Datagrams from a peer are tried against the
  channels before the permissions.
- The default permission lifetime (300 s) is shorter than the default channel lifetime (600 s), so a
  channel can outlive its peer's permission (`Defaults.DefaultsLeaveAGap`).
- An expired allocation leaves the session map, but its coroutine keeps its socket: nothing calls
  `UdpAllocation::stop` (`server/allocation/UdpAllocation.cpp:33-36`). So expiry frees no port
  (`Orphans.PortFreedIff`, `Orphans.ExpiryFreesNothing`), the size of the range bounds how many
  allocations a server can ever make (`Orphans.CreationsFitThePool`), and an expired allocation can go
  on relaying to its client (`Defaults.ExpiredAllocationStillRelays`).
- The reservation manager is held by value, so the timer of a reservation never reaches
  `expireReservation` (`AllocationObjects.AllocationManager.EndReservationTimer`); the machine has
  that call as a step of its own (`PortAccounting.ReservationsWaitForever`).
- A lower port bound of 65535 wraps to port 0 for even ports (`RelayPorts.EvenDrawsInRangeIff`). With
  a lower bound of 0 the system can choose a port outside the range, an odd one where an even one is
  needed, and one that is not followed by the reserved one (`RelayPorts.GeneratedFitsIff`).
- An error reply to CreatePermission does not mean that nothing was installed
  (`Replies.ErrorsChangeNothing`).

## Model

| member | source | states |
|---|---|---|
| Timers.CompleteInv | server/channel/ChannelManager.cpp:93-99 | Running any queued completion, stale or not, leaves every remaining entry with a live wait at its current expiry. |
| Timers.DrainedEntriesAreLive | server/allocation/AllocationManager.cpp:49-60 | No expired entry survives draining. |
| Timers.CompleteKeepsLive | server/channel/PermissionManager.cpp:31-37 | No completion, whatever wait it belongs to and whatever its outcome, removes or changes an entry that is not due. |
| Timers.CompleteErasesIff | server/channel/ChannelManager.cpp:28-35 | A completion erases an entry if and only if it is queued for that key, the entry is due, and its handler does not return on an error code: owned timers do, shared ones do not. |
| Permissions.PermissionsRefineTimedSet | server/channel/PermissionManager.cpp:17-42 | Over every interleaving of adds, removals, ticks and completions, an address whose last add is younger than the lifetime is present; once drained, exactly those are. The reference has neither timers nor waits. |
| Permissions.NoWaitIsLeftBehind | server/channel/PermissionManager.cpp:17-29 | Over every run, a wait that can still fire is that of an address in the table, at its expiry: erasing and installing again abort earlier waits. |
| Permissions.PermissionManager.AddPermission | server/channel/PermissionManager.cpp:17-29 | Erasing and emplacing anew, with the old timer's wait aborted, is the specified installation. |
| Permissions.PermissionManager.OnTimer | server/channel/PermissionManager.cpp:23-37 | The handler, which returns on an error code and else re-checks the expiry, is the specified completion. |
| Permissions.PermissionManager.HasPermission | server/channel/PermissionManager.cpp:39-42 | Presence in the table, expired or not. |
| Channels.AddKeepsBijection | server/channel/ChannelManager.cpp:16-64 | A bind is accepted exactly when number and peer agree on every entry (both bound to each other or neither bound); then that pair is bound with the new expiry, others are untouched, and the table stays injective. |
| Channels.LookupsAreInverse | server/channel/ChannelManager.cpp:71-91 | getEndpoint and channelByAddress are mutual inverses, whatever order the scan takes. |
| Channels.ChannelsRefineTimedBijection | server/channel/ChannelManager.cpp:16-99 | Over every run a number whose last successful bind is younger than the lifetime is bound to that bind's peer; once drained, exactly those are. |
| Channels.NoWaitIsLeftBehind | server/channel/ChannelManager.cpp:26-35 | The same for bound numbers: re-arming aborts the earlier wait. |
| Channels.ChannelManager.AddChannel | server/channel/ChannelManager.cpp:16-64 | Re-arming, refusing and emplacing in place, with its scan over the values, is the specified bind. |
| Channels.ChannelManager.FindChannel | server/channel/ChannelManager.cpp:78-91 | The scan for the first entry of a peer finds its number, or finds that there is none. |
| Channels.ChannelManager.OnTimer | server/channel/ChannelManager.cpp:28-35 | The handler of a channel's wait is the specified completion. |
| Base64.BlockRoundTrip | server/auth/Authenticator.cpp:190-199 | The encoding fills exactly the ceil(n/3)*4 characters provided for it, and decodes to the data and one more byte per padding character. |
| Base64.RoundTrip | server/auth/Authenticator.cpp:190-225 | Decoding an encoding gives the bytes back, for every byte string. |
| Base64.AlphabetInOrder | server/auth/Authenticator.cpp:190-199 | The characters are those of Table 1 of RFC 4648, in its order. |
| Base64.KnownVectors | test/Authenticator_test.cpp:27-56 | The encoding gives the known vectors. |
| Base64.StrangersAreRejected | server/auth/Authenticator.cpp:201-225 | A character outside the alphabet, or a length that is no multiple of four, makes the whole string decode to nothing. |
| Nonces.AcceptedIffWellmade | server/auth/Authenticator.cpp:55-106 | A nonce is accepted exactly when after 13 characters it is base64 of at least ten digits followed by their HMAC, which starts with no digit, and the number fits 64 bits and is not in the past. |
| Nonces.ParseIsUnique | server/auth/Authenticator.cpp:70-81 | An accepted nonce splits into timestamp and HMAC in one way only. |
| Nonces.CookieIsIgnored | server/auth/Authenticator.cpp:55-63 | The verdict depends on nothing in the first 13 characters. |
| Nonces.RoundTripExact | server/auth/Authenticator.cpp:19-106 | A nonce generated for a nonzero time is accepted at a given moment if and only if that time has not passed, has at least ten digits, and the HMAC does not start with a digit. |
| Nonces.ChallengeNonceIsGoodForAnHour | server/auth/Authenticator.cpp:19-21 | The nonce of a challenge is good for 3600 s or, when its HMAC starts with a digit, never. |
| Nonces.GeneratedPrefix | server/auth/Authenticator.cpp:40-52 | Every generated nonce starts with "obMatJos2gAAA". |
| Nonces.FeatureBitReadsBack | server/auth/Authenticator.cpp:108-117 | The password-algorithms bit of every generated nonce reads back as set. |
| Nonces.FeatureBitIff | server/auth/Authenticator.cpp:108-117 | The bit of any nonce is set if and only if the cookie is followed by four base64 characters without padding in the last two, the first of value 32 or more. |
| Nonces.Authenticator.GenerateNonce | server/auth/Authenticator.cpp:19-53 | Copying digits and HMAC into one buffer yields the specified nonce. |
| Nonces.Authenticator.ValidateNonce | server/auth/Authenticator.cpp:55-106 | The scan for the end of the digits and the early exits give the specified verdict. |
| RelayPorts.EvenDrawsAreTheEvenPorts | server/allocation/RelayAddressGenerator.cpp:33-48 | Halving and doubling draws exactly the even ports of the range, without 16-bit wrap-around. |
| RelayPorts.EvenDrawsInRangeIff | server/allocation/RelayAddressGenerator.cpp:33-48 | For every range the distribution accepts, all even draws lie in it if and only if the lower bound is not 65535. |
| RelayPorts.AnyDrawsAreThePorts | server/allocation/RelayAddressGenerator.cpp:33-48 | Without EVEN-PORT the draws are exactly the ports of the range. |
| RelayPorts.GenerateFromFirst | server/allocation/RelayAddressGenerator.cpp:40-78 | The relay comes from the first of the 210 attempts that succeeds; there is none exactly when all of them fail. |
| RelayPorts.AttemptsDecide | server/allocation/RelayAddressGenerator.cpp:47-78 | If the first 210 attempts are refused by the system there is no relay; the first that is not refused, be it the 210th, gives the port it draws if that is suitable. |
| RelayPorts.PortsToBeHad | server/allocation/RelayAddressGenerator.cpp:18-79 | For some draws the generator returns a port if and only if it is in the range, free, even if asked for, and followed by a free port of the range if that is to be reserved. |
| RelayPorts.GeneratedFitsIff | server/allocation/RelayAddressGenerator.cpp:18-79 | For every range and policy the distribution accepts: every generated relay lies in the range, was free, is even when asked for, and comes with the free next port exactly when one is reserved, if and only if the lower bound is neither 0 (with two exceptions) nor, for even ports, 65535. |
| RelayPorts.RelayAddressGenerator.Attempt | server/allocation/RelayAddressGenerator.cpp:50-75 | One attempt binds all its sockets when every call succeeds; otherwise the first socket is rolled back and nothing stays bound. For port 0 the system chooses. |
| RelayPorts.RelayAddressGenerator.GenerateUdpRelay | server/allocation/RelayAddressGenerator.cpp:18-79 | The loop returns that relay, and the set of bound ports grows by its ports, or by none on failure. |
| RelayPorts.RelayAllocation.ReleaseSecondary | server/allocation/RelayAllocation.hpp:34-38 | Releasing hands the second socket over and forgets it. |
| Reservations.TokensAreConserved | server/allocation/ReservationManager.cpp:6-49 | Over every order of create, claim and expire, issues of a token equal its removals plus one while it is outstanding, and then it holds the port of its last issue. |
| Reservations.ClaimTwiceNeedsReissue | server/allocation/ReservationManager.cpp:6-18 | A token that is not outstanding stays so until it is issued again. |
| Reservations.ReservationManager.CreateReservation | server/allocation/ReservationManager.cpp:20-44 | The loop takes the first candidate that is not outstanding and adds exactly that reservation. |
| Reservations.ReservationManager.ClaimReservation | server/allocation/ReservationManager.cpp:6-18 | A claim yields the socket and removes exactly that token, or yields nothing and changes nothing. |
| Reservations.ReservationManager.OnTimer | server/allocation/ReservationManager.cpp:28-41 | The timer's callback expires its token if a shared pointer owns the manager, and otherwise nothing. |
| Stun.HeaderRoundTrip | server/allocation/Allocation.cpp:59-64 | Method, class and the transaction ID at bytes 8 to 20 read back from every encoded message. |
| Stun.HeaderLayout | server/core/StunTurnProcessor.cpp:841-875 | Around the type: length, magic cookie, transaction ID, and the attributes after 20 bytes. |
| Stun.KnownTypes | server/core/StunTurnProcessor.cpp:24-60 | The message types are the numbers of RFC 8489 and RFC 8656. |
| ServerInvariant.StepInv | server/core/Server.cpp:59-80 | Every event keeps the invariant: unique timers, a live wait for every entry, injective channels, a stored success of at least 20 bytes in every allocation, and one holder for every bound port. |
| ServerInvariant.RunInv | server/core/Server.cpp:59-80 | The invariant holds in every reachable state. |
| Admission.PlanIsExact | server/core/StunTurnProcessor.cpp:146-278 | The attribute checks of Allocate as conditions: what asks for a reserved port, what asks for a new one and under which policy, and which error each kind of refusal gets. |
| Admission.AllocateSucceedsIff | server/core/StunTurnProcessor.cpp:113-354 | Allocate creates an allocation if and only if it is authentic, the five-tuple has none, and it names an outstanding reservation or asks properly for a port that some attempt finds. |
| Admission.AllocateCanGetIff | server/allocation/AllocationManager.cpp:62-100 | A proper Allocate for a new port can get, for some draws, exactly the free ports of the range that its EVEN-PORT allows. |
| Admission.FullPoolOnlyServesReservations | server/allocation/RelayAddressGenerator.cpp:40-78 | With every port of the range bound, no new port is given out. |
| Admission.AllocateReplyDescribesState | server/core/StunTurnProcessor.cpp:186-353 | The reply to a creating Allocate describes the state it leaves: the client's address, the new allocation's port and armed lifetime, a token exactly when a pair was asked for, outstanding and standing for the next port; a claimed port is the reserved one. |
| Admission.RefreshSucceedsIff | server/core/StunTurnProcessor.cpp:356-420 | Refresh takes effect if and only if it is authentic, there is an allocation, and it does not ask for the family that the server relays; the effect is then the computed lifetime. |
| Admission.ChannelBindSucceedsIff | server/core/StunTurnProcessor.cpp:506-604 | ChannelBind takes effect if and only if it is authentic, there is an allocation, both attributes are there, the family is relayed, and number and peer are bound to each other or both unbound; the effect is then that pair. |
| Admission.CreatePermissionSucceedsIff | server/core/StunTurnProcessor.cpp:422-504 | CreatePermission takes effect as a whole if and only if it is authentic, there is an allocation, and it names peers, all of relayed families. |
| Replies.GrantedIff | server/core/StunTurnProcessor.cpp:690-812 | Authentication grants a key exactly under one integrity attribute, user name, realm and nonce, a fitting choice of algorithm (with the bit and either attribute: both there, the list exactly SHA-256 then MD5, one of them picked), a known user whose key under the picked algorithm (else MD5) it is, that algorithm's integrity attribute valid under it, and an accepted nonce. |
| Replies.RefusedIff | server/core/StunTurnProcessor.cpp:690-812 | Which refusal gets 400, 401 or 438, and which is signed, as conditions on the request. |
| Replies.EveryRequestIsAnswered | server/core/StunTurnProcessor.cpp:24-60 | In every reachable state a request gets exactly one reply, to its sender, with its own method and transaction ID, none only when an error cannot be built; a replayed success included, and getTransactionId never throws. What the reply is, `Responses` says. |
| Replies.ErrorsChangeNothing | server/core/StunTurnProcessor.cpp:113-504 | The requests that change the state without a success reply are exactly the authentic CreatePermissions on an allocation whose first peer has a relayed family and a later one has not; they install the addresses before that one and change nothing else. |
| Replies.PrefixStopsAtUnsupported | server/core/StunTurnProcessor.cpp:469-486 | What CreatePermission keeps is exactly the addresses before the first one of an unsupported family. |
| Replies.AddAllInstalls | server/core/StunTurnProcessor.cpp:469-486 | Each installed address gets the new expiry and every other one keeps its entry. |
| Replies.LifetimeRule | server/core/StunTurnProcessor.cpp:814-826 | The lifetime is the default, or for a positive request the larger of the default and the capped request; it is never below the default. |
| Replies.LifetimeSentIsArmed | server/core/StunTurnProcessor.cpp:291-302 | The LIFETIME in the reply to Allocate or Refresh is the one the timer is armed with, and obeys the rule. |
| Responses.UnprivilegedAnswers | server/core/StunTurnProcessor.cpp:24-111 | A Binding gets its own address back, unsigned; a method the server does not know 400; a request that does not authenticate the code of its verdict. A 401 or 438 carries a challenge: a nonce with cookie and bit that is good for 3600 s with the digit exception; no other code does. |
| Responses.AllocateAnswers | server/core/StunTurnProcessor.cpp:132-353 | An authenticated Allocate gets the stored success for the same transaction ID and else 437 if there is an allocation; 400, 442, 420 or 440 for its attributes; 508 without the reservation or a port; and else the success that announces port, lifetime, its own address and the token. |
| Responses.RefreshAnswers | server/core/StunTurnProcessor.cpp:371-419 | An authenticated Refresh gets 437 without an allocation, 440 for the relayed family, and else a signed success with the lifetime. |
| Responses.CreatePermissionAnswers | server/core/StunTurnProcessor.cpp:442-503 | An authenticated CreatePermission gets 437 (signed) without an allocation, 400 (unsigned) without peers or with one that is not relayed, and else a signed success; it permits exactly the addresses of its peers, by family and octets, up to the first that is not relayed. |
| Responses.ChannelBindAnswers | server/core/StunTurnProcessor.cpp:521-603 | An authenticated ChannelBind gets 437 (signed), 400 (unsigned) without number or peer, 440 (signed), 400 (signed) for a conflict, and else a signed success with that number bound to the peer's own family, octets and port. |
| Responses.SuccessIff | server/core/StunTurnProcessor.cpp:113-604 | In every reachable state the reply is a success if and only if the request is a Binding, takes its whole effect, or repeats the Allocate that made the allocation. |
| Sessions.ChangesNeedAuthentication | server/core/StunTurnProcessor.cpp:690-812 | A packet that changes anything is one of four requests, with a granted key. |
| Sessions.PacketsAreIsolated | server/core/StunTurnProcessor.cpp:10-87 | A packet from one five-tuple never alters another five-tuple's allocation, channels, permissions or expiry. |
| Sessions.StepOnSession | server/allocation/AllocationManager.cpp:49-60 | Only an Allocate or Refresh of that five-tuple arms a session; only a completion ends it, and only when it is due, even an aborted or stale one or one of an earlier allocation. |
| Sessions.SessionEndsIff | server/allocation/AllocationManager.cpp:49-60 | A session ends in a step if and only if the handler of some queued wait for its five-tuple runs, fired or aborted, and the session is due. |
| Sessions.SessionsRefineTimedMap | server/allocation/AllocationManager.cpp:49-60 | Over every run a five-tuple has its allocation until the lifetime of its last successful Allocate or Refresh has passed; once drained, exactly until then. |
| Sessions.RemainingLifeIsBounded | server/allocation/Allocation.cpp:14-17 | No session ever has more than the larger of the default and the maximum lifetime ahead of it. |
| Sessions.RefreshNeverDeletes | server/core/StunTurnProcessor.cpp:400-409 | No Refresh, LIFETIME 0 included, ends a session: it leaves it alone or gives it at least the default lifetime. |
| Sessions.InsertNeverOverwrites | server/allocation/AllocationManager.cpp:91-94 | An allocation is inserted only where the session map has no entry. |
| Sessions.AbsentStaysAbsent | server/allocation/AllocationManager.cpp:39-42 | Whatever completes between looking a five-tuple up and inserting it, an absent five-tuple stays absent. |
| Sessions.RetransmittedAllocateIsReplayed | server/core/StunTurnProcessor.cpp:132-139 | At any later point of a run at which the created allocation is still there, the same authenticated Allocate gets the very bytes of the first reply and changes nothing. |
| PortAccounting.HoldersFitThePool | server/allocation/RelayAddressGenerator.cpp:40-78 | In every reachable state the bound ports are in one-to-one correspondence with allocations (live or orphaned) and reservations, so these never outnumber the range. |
| PortAccounting.ReservationsFitThePairs | server/allocation/RelayAddressGenerator.cpp:33-45 | Reservations never outnumber the even/odd pairs of the range. |
| PortAccounting.DefaultPairCount | config/config.ini:41-44 | That number is 8192 for the default range. |
| PortAccounting.ServerRunsReservations | server/allocation/AllocationManager.cpp:74-78 | The server's reservations are those of a reservation manager run on the same history. |
| PortAccounting.EachIssueIsUsedOnce | server/allocation/ReservationManager.cpp:6-49 | Over every run of the server each issue of a token is used up at most once. |
| PortAccounting.ClaimSitsAboveIssuer | server/allocation/AllocationManager.cpp:19-47 | An allocation made from a token sits on the odd port one above that of the allocation which last issued it, and the token is gone. |
| PortAccounting.ReservationsWaitForever | server/allocation/ReservationManager.hpp:44-52 | Over every continuation an outstanding token stays outstanding, whatever time passes, if and only if nobody claims it and nothing calls expireReservation for it. |
| Orphans.PortFreedIff | server/allocation/UdpAllocation.cpp:15-36 | A bound port becomes free in a step if and only if the reader of the orphan that holds it ends, or expireReservation is called for the token that holds it. |
| Orphans.ExpiryFreesNothing | server/allocation/AllocationManager.cpp:49-60 | The handler that ends a session leaves allocations, reservations and bound ports equal. |
| Orphans.AllocationOutlivesSession | server/allocation/UdpAllocation.cpp:15-31 | Over every continuation an allocation stays, on its port, if and only if its own reader does not end. |
| Orphans.TimersDieWithAllocations | server/allocation/Allocation.cpp:14-17 | Over every run, a wait for an allocation that can still fire is on the timer of an allocation that is still there. |
| Orphans.EverySessionEndsAsAnOrphan | server/allocation/AllocationManager.cpp:56-58 | Every session can end, and then its allocation is an orphan on the same bound port which treats every datagram from a peer as before. |
| Orphans.DuePermissionEnds | server/channel/PermissionManager.cpp:31-37 | For every due permission the event loop holds a wait whose firing and handler remove it and no other. |
| Orphans.DueChannelEnds | server/channel/ChannelManager.cpp:93-99 | And so for every due channel. |
| Orphans.AllocationsAreConserved | server/allocation/AllocationManager.cpp:62-100 | Over every run the allocations ever created are those still there plus one for each reader of an orphan that has ended. |
| Orphans.CreationsFitThePool | server/allocation/RelayAddressGenerator.cpp:40-78 | So allocations ever created, expired ones included, never exceed the size of the range plus those endings. |
| Orphans.BoundOnlyGrows | server/allocation/RelayAddressGenerator.cpp:59-60 | Along every continuation in which nothing is freed the bound ports only grow. |
| Orphans.FullPoolStaysFull | server/allocation/RelayAddressGenerator.cpp:47-78 | A range that is used up stays so, and gives out no new port, until some port is freed, however many sessions expire. |
| Relaying.InstallersAreAuthenticated | server/core/StunTurnProcessor.cpp:422-604 | A permission or channel of an allocation is new, or has a new expiry, only through an authenticated request of the client to whom the allocation belongs. |
| Relaying.RelayedOnlyIfInstalled | server/allocation/UdpAllocation.cpp:48-93 | Over every history a peer's datagram reaches the client as ChannelData only if an earlier authenticated ChannelBind from that client, on that allocation, named that number and that very endpoint, and as a Data indication only if an earlier authenticated request from it named that address. |
| Relaying.RelayDecidedByHistory | server/allocation/UdpAllocation.cpp:48-93 | In a drained state the choice of ChannelData, Data indication or nothing is decided by the latest bind and the latest installation and their lifetimes. |
| Relaying.RelayIsExact | server/allocation/UdpAllocation.cpp:48-93 | In every reachable state a peer's datagram becomes ChannelData on the number bound to its sender if it encodes; without a number a Data indication if its address has a permission; and else nothing; to the client's own address and port. |
| Relaying.PermissionOpensTheWay | server/core/StunTurnProcessor.cpp:478-480 | From an authentic CreatePermission whose peers are all relayed, until the permission lifetime has passed and whatever else happens, every datagram from any of those addresses, by family and octets and from any port, reaches the client, as a Data indication if no channel is bound to its sender. |
| Relaying.ChannelOpensTheWay | server/core/StunTurnProcessor.cpp:572-576 | From an authentic, fair ChannelBind, until the channel lifetime has passed, data passes both ways between that number and that very peer. |
| Relaying.SentOnlyIfBound | server/core/StunTurnProcessor.cpp:606-642 | ChannelData from a client goes nowhere but to the endpoint that an earlier authenticated ChannelBind from that client named with that number. |
| Relaying.ChannelDataIsExact | server/core/StunTurnProcessor.cpp:606-642 | ChannelData goes to the peer bound to its number in the client's own allocation if there is one and it encodes, and else nowhere. |
| Relaying.SendIgnoresPermissions | server/core/StunTurnProcessor.cpp:644-688 | A Send indication is relayed, to its address, if and only if the five-tuple has an allocation, data and address are there, and the data encodes; replacing every permission table changes nothing that a client sends. |
| Relaying.ChannelIsTwoWay | server/allocation/UdpAllocation.cpp:130-136 | In every reachable state ChannelData on a number goes to an endpoint exactly when that endpoint's datagrams come back on that number. |
| Relaying.ChannelsHavePermissions | server/allocation/UdpAllocation.cpp:118-124 | When permissions live at least as long as channels, every unexpired channel's peer has an unexpired permission, in every reachable state. |
| Relaying.ShortPermissionsLeaveGaps | server/allocation/UdpAllocation.cpp:118-124 | When they live shorter, every successful bind is followed, one permission lifetime later, by a channel without. |
| Defaults.DefaultsLeaveAGap | server/config/Config.hpp:29-30 | Under the default lifetimes a run of one Allocate, one ChannelBind and 300 s ends with an unexpired channel whose peer has no unexpired permission. |
| Defaults.SendNeedsNoPermission | server/core/StunTurnProcessor.cpp:675-687 | Right after its Allocate, with an empty permission table, a client's Send indication is relayed to any peer. |
| Defaults.ExpiredAllocationStillRelays | server/allocation/UdpAllocation.cpp:18-24 | After an Allocate, a ChannelBind 300 s later, 300 s more and the allocation's handler, the five-tuple has no allocation, the port is still bound, and the peer's datagrams still reach the client. |
| AllocationObjects.UdpAllocation.AddChannel | server/allocation/UdpAllocation.cpp:118-124 | The channel and then its peer's permission, or neither. |
| AllocationObjects.UdpAllocation.ProcessPeerMessage | server/allocation/UdpAllocation.cpp:48-93 | The channel first, then the permission: the relay decision of the machine. |
| AllocationObjects.UdpAllocation.Refresh | server/allocation/Allocation.cpp:14-17 | Re-arming aborts the waits of this timer and starts one at the new expiry. |
| AllocationObjects.AllocationManager.GetFinds | server/allocation/AllocationManager.cpp:9-17 | A lookup in the session map is a lookup in the machine's state. |
| AllocationObjects.AllocationManager.CreateAllocation | server/allocation/AllocationManager.cpp:62-100 | Sockets, reservation, insertion and start are the machine's allocation step, or nothing changes. |
| AllocationObjects.AllocationManager.ClaimReservation | server/allocation/AllocationManager.cpp:19-47 | The same for a claimed reservation: it succeeds exactly for an outstanding token. |
| AllocationObjects.AllocationManager.RunCompletion | server/allocation/AllocationManager.cpp:49-60 | A completion of an allocation's wait is the machine's completion step. |
| AllocationObjects.AllocationManager.RunTimerEvent | server/channel/ChannelManager.cpp:93-99 | A deadline or handler of a permission's or channel's timer in one running allocation is the machine's step. |
| AllocationObjects.AllocationManager.EndReader | server/allocation/UdpAllocation.cpp:18-31 | The end of a reader lets the socket and timer go exactly when the session map does not hold the allocation. |
| AllocationObjects.AllocationManager.ExpireReservation | server/allocation/ReservationManager.cpp:46-49 | Expiring a token removes its reservation and frees its port. |
| AllocationObjects.AllocationManager.EndReservationTimer | server/allocation/ReservationManager.hpp:44-52 | The end of a reservation's own timer changes nothing, as the manager is held by value. |
| Processor.StunTurnProcessor.AuthenticateRequest | server/core/StunTurnProcessor.cpp:690-812 | The ladder of checks grants the specified key or sends the specified error. |
| Processor.StunTurnProcessor.AllocateSession | server/core/StunTurnProcessor.cpp:113-354 | The Allocate handler, with its inline lifetime, takes the machine's step on the objects. |
| Processor.StunTurnProcessor.RefreshSession | server/core/StunTurnProcessor.cpp:356-420 | So does the Refresh handler. |
| Processor.StunTurnProcessor.PermitPeers | server/core/StunTurnProcessor.cpp:422-504 | So does the loop of CreatePermission, which installs address by address and may stop halfway. |
| Processor.StunTurnProcessor.BindChannel | server/core/StunTurnProcessor.cpp:506-604 | So does the ChannelBind handler. |
| Processor.StunTurnProcessor.HandleChannelData | server/core/StunTurnProcessor.cpp:606-642 | ChannelData goes to the endpoint bound to its number, or nowhere. |
| Processor.StunTurnProcessor.HandleSendIndication | server/core/StunTurnProcessor.cpp:644-688 | The handler sends the data to its address exactly when the five-tuple is in the session map and all parts are there, whatever the permissions. |
| Processor.StunTurnProcessor.Serve | server/core/Server.cpp:59-80 | On objects whose state meets the invariant, processing any packet is one step of the machine, sends the machine's outputs, and keeps the invariant. |
| EventLoop.Perform | server/core/Server.cpp:59-80 | One event of any kind on the objects is one step of the machine, with its outputs, and touches no objects but the server's own and new ones. |
| EventLoop.Drive | server/core/Server.cpp:59-80 | From a freshly started server, every history of packets, datagrams, completions and passing time leaves the objects in the state of the machine's run on it, and sends what that run sends. |

## Left out

- Boost.Asio sockets, coroutines, queues, reader and writer loops: only timers and the bind rule are kept.
- The libstunxx library (decoder, builder, ChannelData codec) is not part of this model: requests are decoded values, and a reply is its header followed by whatever attribute bytes the codec gives.
- Whether a success or Data message fits its buffer: builders of successes are not checked by the source, and an overfull one is not modelled.
- OpenSSL: cryptographic strength, and the trimming of white space around base64 input, which the codec never produces.
- Why the reader of an allocation ends is socket I/O; that it ends is an event (`ReaderEnds`).
- Reservation::expired (`server/allocation/ReservationManager.hpp:62-64`), which nothing calls.
- Races inside one handler, such as a completion between a lookup and a refresh, beyond what `Sessions.AbsentStaysAbsent` says.
- Reservations.ReservationManager.CreateReservation: ends because its random source reaches a token that is not outstanding; that a real source does so with certainty is not modelled.
- The 32-bit width of LIFETIME and the 8-byte width of tokens: both are unbounded here.
- Server.ValidEnv: does not admit a range without an even port, whose distribution is undefined, or a lower port bound of 0, from which the port accounting does not hold; `RelayPorts.GeneratedFitsIff` says how.
- TCP acceptors, configuration parsing, logging and hash functions would add only easy members.
- What RFC 8656 asks for and the code does not do: deletion by Refresh, permission checks on Send, dual-stack allocations, quotas, alternate servers.
