# FTPer core, modelled in Dafny

FTPer runs a local FTP server from a web UI. This project models its
deterministic core, in four parts:

- **The lifecycle manager** (`FtpServerManager`). It owns one FTP engine
  instance: a host and the dependency-injection container it was built from.
  It starts and stops that instance under a lock and reports `Status`,
  `ErrorMessage` and `CurrentConfig`. Every status change raises
  `OnStatusChanged`.
- **Local address discovery** (`NetworkService`). It lists the private IPv4
  addresses of the interfaces that are up and are not a loopback.
- **The open credential policy** (`AllowAllMembershipProvider`). It accepts
  every login, and a blank username becomes `"anonymous"`.
- **The value objects** `FtpServerConfig` and `NetworkInterfaceInfo`.

## Layout

| file | module | models |
|---|---|---|
| `wrappers.dfy` | `Wrappers` | `Option`, which stands for a C# nullable |
| `status.dfy` | `ServerStatus` | The `FtpServerStatus` enum and the snapshot a status notification exposes. |
| `config.dfy` | `FtpConfig` | `FtpServerConfig` as a class with settable fields, and `Clone`. |
| `interface_info.dfy` | `InterfaceInfo` | `NetworkInterfaceInfo` as an immutable datatype, and `DisplayName`. |
| `membership.dfy` | `Membership` | `ValidateUserAsync` as a total function. |
| `network.dfy` | `Network` | The following, in order: `IsPrivateIpAddress` and its RFC 1918 meaning; IPv4 text rendering; a reference definition `Discover` of the discovery filter, with lemmas; and the imperative loops of `GetAvailableLocalAddresses`, proved against it. |
| `network_example.dfy` | `NetworkExample` | A worked discovery over three interfaces. |
| `manager.dfy` | `ServerManager` | Each public operation of the manager as a pure transition on an abstract `State`; invariants over any sequence of calls; and the class `FtpServerManager`, whose methods are proved to perform those transitions. |

### How the manager is modelled

The class keeps the source's fields:

- `Status`, `ErrorMessage` and `CurrentConfig`;
- the two resource slots `ftpServiceProvider` and `ftpServerHost`;
- a flag recording whether the semaphore has been disposed.

A ghost sequence `Notifications` logs the `(status, errorMessage)` snapshot
that each `OnStatusChanged` invocation can observe. Every external step is a
parameter saying whether that step returns or throws with a message:

- the directory check and creation;
- building the container;
- resolving the host;
- starting the host;
- stopping the host;
- disposing the container.

The lock serialises every call, so each public method is one atomic step.

Every method ensures that its effect on `Abstract()` (the fields as a
`State` value) is the matching pure function (`AfterStart`, `AfterStop`,
`AfterDispose`, `AfterCleanup`, `AfterUpdate`). It also ensures that it
appends that function's notifications to the log. The invariants are stated
on the functions and carried through any sequence of calls by `Run`:

- `Consistent` holds in every state.
- `Live` holds until `Dispose`: a running server holds both its host and its
  container.

### Behaviour worth knowing

The model follows the code, including where it behaves differently from what
a reader of the interface might expect:

- **`StartAsync` on a running server.** A reader might expect a second start
  to be refused with nothing changed. In the code the "already running"
  throw (Services/FtpServerManager.cs:37-38) sits inside the `try`. The
  `catch` therefore sets `Error` with that message and tears the running host
  down. `CurrentConfig` keeps the earlier configuration. See
  `ServerManager.StartTwiceFails`.
- **Discovery failure.** A reader might expect a failed enumeration to give
  an empty list. The code catches the exception outside the loops
  (Services/NetworkService.cs:23-65) and returns the records gathered before
  it. That list is a prefix of the full result.
- **Host-stop failure during `StopAsync`.** A reader might expect a host that
  fails to stop to put the server in `Error`. The code swallows the host's
  exception (Services/FtpServerManager.cs:142-145). Only a failing container
  disposal reaches `Error`. `CurrentConfig = null` is then never reached, so
  a failed stop keeps the configuration.
- **Exceptions escaping `StartAsync` and `Dispose`.** A reader might expect
  every failure to end in `Error`. In the code, a container disposal that
  throws inside the `catch` of `StartAsync` escapes
  (Services/FtpServerManager.cs:95). The same throw escapes from `Dispose`
  (:190), before the semaphore is disposed. After a successful `Dispose`,
  waiting on the disposed semaphore makes `StartAsync` and `StopAsync` throw
  before they touch any state. The model returns each escape as an `Escape`
  value.
- **Teardown order.** A reader might expect resources to be released in
  reverse order of acquisition, whatever that order was. The code always
  stops the host and then disposes the container, and so does the model.
- **The error message.** A reader might expect `Error` to carry a non-empty
  message. The code stores `ex.Message`, which may be empty. The model
  guarantees that a message is present exactly in `Error`, not that it is
  non-empty.

## Model

| member | source | states |
|---|---|---|
| ServerStatus.StatusesAreFive | Services/IFtpServerManager.cs:8-15 | There are exactly five statuses, pairwise distinct, and every status is one of them. |
| FtpConfig.FtpServerConfig.constructor | Models/FtpServerConfig.cs:8-10 | A new configuration has root `F:\Memory\temp`, an empty bind address and port 21. |
| FtpConfig.FtpServerConfig.Clone | Models/FtpServerConfig.cs:15-20 | Clone returns a newly allocated object whose three settings equal this object's. |
| FtpConfig.CloneOfClone | Models/FtpServerConfig.cs:15-20 | A clone of a clone is a third object with the original's settings. |
| FtpConfig.CloneIsIsolated | Models/FtpServerConfig.cs:8-10 | After a clone, assigning all three settable properties of the source leaves the clone with the source's old settings. |
| InterfaceInfo.NetworkInterfaceInfo.DisplayName | Models/NetworkInterfaceInfo.cs:13 | The display name starts with the interface name, then the separator exactly as the source spells it, then ends with the address. Its length is the sum of the three. |
| InterfaceInfo.DisplayNameIgnoresTypeAndMask | Models/NetworkInterfaceInfo.cs:13 | Records that agree on name and address have the same display name, whatever their type and mask. |
| InterfaceInfo.DisplayNameDeterminesAddress | Models/NetworkInterfaceInfo.cs:13 | For one interface name, two records have equal display names if and only if they have equal addresses. |
| Membership.IdentityName | Services/AllowAllMembershipProvider.cs:18 | The identity's name is never null or blank, and a non-blank username is returned unchanged. |
| Membership.AllWhiteSpace | Services/AllowAllMembershipProvider.cs:18 | True exactly when every character is .NET white space. |
| Membership.IsNullOrWhiteSpace | Services/AllowAllMembershipProvider.cs:18 | `string.IsNullOrWhiteSpace`: true exactly for null, or for a string of white space only. |
| Membership.ValidateUser | Services/AllowAllMembershipProvider.cs:13-22 | The status is always AuthenticatedUser and the authentication type is "custom". There are exactly two claims, of the name type and then the role type. The name is "anonymous" for a null or blank username and the username otherwise. The role is "user". |
| Membership.PasswordIsIgnored | Services/AllowAllMembershipProvider.cs:13-22 | The result does not depend on the password. |
| Membership.NameIsNeverBlank | Services/AllowAllMembershipProvider.cs:18 | The identity always has a name, and that name is never blank. |
| Membership.NameIsUsernameUnlessBlank | Services/AllowAllMembershipProvider.cs:18 | A non-blank username is kept unchanged. The name is "anonymous" if and only if the username is blank or is literally "anonymous". |
| Network.GetAddressBytes | Services/NetworkService.cs:74 | An IPv4 address gives 4 bytes and an IPv6 address gives 16. |
| Network.IsPrivateIpAddress | Services/NetworkService.cs:72-82 | The switch itself: 10, 172 with a second octet of 16 to 31, or 192 with 168. It has no contract of its own; what it means is stated by `Network.IsPrivateMeansRfc1918`. |
| Network.IsPrivateMeansRfc1918 | Services/NetworkService.cs:68-82 | The test on the first octet (10, 172 with a second octet of 16 to 31, 192 with 168) holds if and only if the address lies in 10.0.0.0/8, 172.16.0.0/12 or 192.168.0.0/16, the private blocks of section 3 of RFC 1918. |
| Network.NatToDecimalReadsBack | Services/NetworkService.cs:47-48 | The decimal text of an octet is non-empty and made only of digits. It has no leading zero and reads back as the number. |
| Network.DottedOctets | Services/NetworkService.cs:47-48 | An IPv4 address renders as its four octets in decimal, joined by three dots. |
| Network.TypeName | Services/NetworkService.cs:46 | Every interface type gets a non-empty label. |
| Network.MakeRecord | Services/NetworkService.cs:43-49 | The record of one kept address. It has no contract of its own; `Network.DiscoverAt` and `Network.DiscoverSound` state its fields. |
| Network.AddressRecords | Services/NetworkService.cs:35-49 | An interface's address list yields at most one record per address. |
| Network.InterfaceRecords | Services/NetworkService.cs:27-49 | An interface yields at most one record per address, and none when it is not up or is a loopback. |
| Network.Discover | Services/NetworkService.cs:25-49 | The reference result of discovery. It has no contract of its own; the lemmas below state its completeness, soundness and order. |
| Network.AddressRecordsAppend | Services/NetworkService.cs:35-49 | The records of a concatenation of address lists are the records of each list, in order. |
| Network.DiscoverAppend | Services/NetworkService.cs:25-49 | The records of a concatenation of interface lists are the records of each list, in order. |
| Network.DiscoverPrefix | Services/NetworkService.cs:23-65 | The records of a prefix of the interfaces are a prefix of the records of all of them. |
| Network.DiscoverAt | Services/NetworkService.cs:25-49 | Completeness: every up, non-loopback interface's private IPv4 address yields a record at its position. The record holds the interface name, the type label, the dotted address, and the mask or "255.255.255.0". |
| Network.DiscoverSound | Services/NetworkService.cs:27-49 | Soundness: every record is the record of some such address of some such interface, at that address's position. |
| Network.PositionIncreases | Services/NetworkService.cs:25-43 | Order: a kept address earlier in interface order, then in address order, has a smaller position. So addresses and records correspond one to one, order preserved. |
| Network.CollectAddresses | Services/NetworkService.cs:35-56 | The inner loop returns exactly the records of the interface's addresses that are IPv4 and private, in order. |
| Network.GetAvailableLocalAddresses | Services/NetworkService.cs:19-66 | The loop returns the records of the interfaces enumerated before the failure point. That list is a prefix of the full result, and with no failure it is the whole reference result. |
| NetworkExample.DiscoverExample | Services/NetworkService.cs:25-49 | On eth0 (10.1.2.3, 172.20.0.5), wlan0 (172.40.0.5, 192.168.1.10, 8.8.8.8) and lo (127.0.0.1), discovery yields exactly 10.1.2.3, 172.20.0.5 and 192.168.1.10, in that order. The wlan0 record has type "Wireless80211" and the default mask. |
| ServerManager.AfterUpdate | Services/FtpServerManager.cs:156-161 | UpdateStatus sets the status and the message together and changes nothing else. The snapshot it notifies shows both. |
| ServerManager.EnsureDirectoryExists | Services/FtpServerManager.cs:163-170 | An existing directory always succeeds. Otherwise the outcome is exactly the creation's: it succeeds when the creation does and fails with the creation's message when it throws. |
| ServerManager.AfterCleanup | Services/FtpServerManager.cs:134-154 | The host slot is always cleared, even when the host's stop throws. The container slot stays filled exactly when its disposal throws, and that exception propagates. Nothing else changes, and with both slots empty the call does nothing. |
| ServerManager.CleanupIgnoresHostStop | Services/FtpServerManager.cs:136-147 | The host stop's outcome does not affect the result. |
| ServerManager.CleanupIsIdempotent | Services/FtpServerManager.cs:134-154 | A second cleanup after a successful one changes nothing. |
| ServerManager.AfterStart | Services/FtpServerManager.cs:32-101 | Six cases. A disposed lock throws ObjectDisposed with no change. A running server ends in Error with "FTP server is already running. Stop it first.", its host released, its configuration kept and one notification. A start whose every step succeeds ends in Running with the configuration copied, both slots filled and notifications Starting then Running. A failing step ends in Error with that step's message, the host released, the configuration untouched and notifications Starting then Error. In a failing start, an exception escapes exactly when the container exists (from before, or built before the failing step) and its disposal throws; the container slot then stays filled, and otherwise it is cleared. Consistent and Live are preserved. |
| ServerManager.AfterStop | Services/FtpServerManager.cs:104-129 | Three cases. A disposed lock throws. A non-running server is left unchanged with no notification. From Running, a successful teardown reaches the initial state with notifications Stopping then Stopped, and a failed container disposal reaches Error with that message and the configuration kept. Stop never throws otherwise. Consistent and Live are preserved. |
| ServerManager.AfterDispose | Services/FtpServerManager.cs:172-193 | Dispose never changes the status, the message or the configuration, and never notifies. It always clears the host slot. It throws exactly when the container disposal throws, and then the lock stays usable. Otherwise the container slot is cleared and the lock disposed. Consistent is preserved. |
| ServerManager.RunKeepsConsistent | Services/IFtpServerManager.cs:23-30 | After any sequence of calls: the status is Stopped, Running or Error; the message is present exactly in Error; a stopped server holds no configuration and no resources; a running one has its configuration. |
| ServerManager.RunWithoutDisposeStaysLive | Services/FtpServerManager.cs:84-85 | Starting from a live state (Initial is one), calls without Dispose keep every Running state holding both its host and its container. |
| ServerManager.RunNotificationsEndWithState | Services/IFtpServerManager.cs:32-33 | Every status write is notified: after any sequence of calls, the last notification shows the final status and message. If none fired, both are unchanged. |
| ServerManager.RestartRepeatsFirstStart | Services/FtpServerManager.cs:32-129 | A successful Stop after a successful Start returns to the initial state, and starting again repeats the first start exactly. |
| ServerManager.StartTwiceFails | Services/FtpServerManager.cs:37-96 | A second Start on a running server ends in Error with the "already running" message. The host and container are torn down and the first configuration stays recorded. |
| ServerManager.FtpServerManager.constructor | Services/FtpServerManager.cs:19-21 | A new manager is Stopped, with no message, no configuration, no resources and an empty notification log. |
| ServerManager.FtpServerManager.UpdateStatus | Services/FtpServerManager.cs:156-161 | Writes the status and the message, then appends their snapshot to the log. Nothing else changes. |
| ServerManager.FtpServerManager.CleanupAsync | Services/FtpServerManager.cs:134-154 | Performs `AfterCleanup` on the fields. |
| ServerManager.FtpServerManager.StartAsync | Services/FtpServerManager.cs:32-101 | Performs `AfterStart` on the fields and the log and keeps the object invariant. A successful start stores a newly allocated clone. |
| ServerManager.StartTry | Services/FtpServerManager.cs:36-90 | The try block as a function. On a running server it stops at once with the "already running" message, no change and no notification. Otherwise it fails exactly when one of its steps (directory, container, host resolution, host start) fails, with that step's message. Success reaches Running with the configuration and both slots filled, after Starting then Running. Failure leaves the configuration and the lock untouched after notifying Starting, and the container slot is filled exactly when it was already filled or the container was built. |
| ServerManager.StartFailed | Services/FtpServerManager.cs:91-96 | The catch block as a function. It ends in Error with the message and appends that snapshot to the notifications. The host slot is cleared and the configuration and lock are untouched. An exception escapes exactly when a container exists and its disposal throws, and then the container slot stays filled. |
| ServerManager.ApplyNotificationsEndWithState | Services/FtpServerManager.cs:156-161 | One call either notifies nothing and leaves status and message unchanged, or its last notification shows its final status and message. |
| ServerManager.FtpServerManager.TryStart | Services/FtpServerManager.cs:36-90 | The try block: the state and notifications at the exception that ends it early, or at its end. |
| ServerManager.FtpServerManager.StartCatch | Services/FtpServerManager.cs:91-96 | The catch block: Error with the message, then the teardown. |
| ServerManager.FtpServerManager.StopAsync | Services/FtpServerManager.cs:104-129 | Performs `AfterStop` on the fields and the log and keeps the object invariant. When the server does not end Stopped, `CurrentConfig` is the same object as before. |
| ServerManager.FtpServerManager.Dispose | Services/FtpServerManager.cs:172-193 | Performs `AfterDispose` on the fields and keeps the object invariant. The log and `CurrentConfig` are untouched. |
| ServerManager.StartedConfigIsIsolated | Services/FtpServerManager.cs:84 | After a successful start, assigning all three settings (root path, bind address, port) of the caller's configuration object leaves `CurrentConfig` with the settings it was started with. |

## Left out

- The FTP engine (the container setup, `AddFtpServer`, `UseDotNetFileSystem`, the options, and the host's `StartAsync`/`StopAsync`) is a foreign library. It appears only as the outcome of each step.
- The authentication options: the manager reads `config.RequireAuthentication`, `config.Username` and `config.Password` (Services/FtpServerManager.cs:57-62), but `FtpServerConfig` declares no such properties.
- `ConfigurableMembershipProvider` is not part of this model. The engine is configured with it (Services/FtpServerManager.cs:70), but its source is not available, so the restricted credential mode is not modelled.
- The semaphore, `async`/`await` and concurrent callers are not modelled: the lock serialises each public call, which is modelled as one atomic step.
- Logging is not modelled; it has no effect on state.
- The event's subscribers are not modelled beyond the snapshots they could observe: not their exceptions, and not when the delegates run.
- The filesystem is not modelled: `Directory.Exists` and `Directory.CreateDirectory` become a boolean and a step outcome.
- The operating system's interface list (`GetAllNetworkInterfaces`, `GetIPProperties`) is not modelled; it is an input sequence.
- Network.GetAvailableLocalAddresses: an enumeration failure is modelled at interface granularity, raised when the loop reaches a given interface. An exception raised partway through one interface's address list is not modelled.
- Network.GetAddressBytes: IPv6 addresses are only told apart from IPv4 and are never rendered, because the filter drops them before any text is produced. A subnet mask is always an IPv4 mask.
- Network.TypeName: the interface type is the enum's integer value, shown by name for the 28 members of .NET's `NetworkInterfaceType` and as a number otherwise, as `Enum.ToString` does.
- `Program.cs` and `Services/INetworkService.cs` are not modelled: the first is dependency-injection wiring, and the second an interface with no logic.
