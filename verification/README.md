# ThinClient: a Dafny model of its stateful core

This project models the parts of the ThinClient repository whose correctness depends on
more than one step: the HTTP status ledger of the configuration server, the layered
configuration, the central configuration gate, the USB root cache, the session manager's
threads, the RDP negotiation probe and the network report. `dafny verify dfyconfig.toml`
checks all of it.

**The ledger.** `Ledger` has the transitions of the status monitor as functions on its
state; `StatusMonitor` is the object itself, whose methods update their fields in place and
are proved to perform those transitions. `Book` is an independent account of the same
history, one line per request, and `Accounting`, `Attribution`, `Recency` and `History`
prove that totals, client figures, keys, eviction and the record list agree with it after
every history of calls and restarts; a valid object carries its history, so they hold of
it. `Outcomes` tells what beginning, finishing and recovering a request does from the inputs
of the calls alone. `DurableServer` puts the monitor behind worker slots, a persistence lock
and a disk with unflushed writes, one step at a time; `DurableProofs` proves what survives
kills and power losses at any step.

**Configuration.** `Config` defines the normal form, merge and id assignment,
`ConfigLoader` has the loader's loops, `ConfigProofs` the theorems and `ConfigTables` the
shipped keys. `LoadMeaning` is a second account of what each value stands for, and
`LoadTheorems` tells every loaded key from it. `ConfigGate` is the fetch with its two files,
and `ConfigGateProofs` follows every sequence of fetches of a boot up to the connections a
client offers.

**USB cache.** `CacheWriter` runs the shell script one command at a time, with signals, the
background copy, kills and power losses between any two; `CacheReader` is the boot-time
loop; `CacheProofs` connects them.

**Sessions.** `Session` interleaves the UI thread, whose dialogs nest its main loop, with
one worker per attempt. `SessionProofs` has what every run keeps, `SessionOverlap` the exact
condition under which cancel and reconnect keep their promises.

**Codecs.** `RdpProbe` reads a peer's stream in arbitrary chunks (sections 2.2.1.1 and
2.2.1.2 of MS-RDPBCGR). `Report` prints and parses the network report, for any words that
do not collide; `ReportWords` has the English ones.

Things the outside world decides are parameters: clock readings, outcomes of writes and
downloads, hash, JSON, URL and signature functions, thread scheduling, signals, crashes.

## What turned out different from what the code suggests

- `start_session` checks that no session is active before it opens the modal credential
  prompt and not after. The prompt nests the main loop, so another session can start
  meanwhile. `SessionProofs.OneAttemptIff` shows that this is the only way to get two live
  attempts; `SessionOverlap.CancelIff` and `ReconnectIff` show that cancel and reconnect keep
  their promises exactly without it.
- Local edits are the last layer, so their connection list wins over an accepted central
  document even under a required production policy, stored passwords included:
  `ConfigGateProofs.EditsSlipThrough`, and the exact condition in `ProductionClient`.
- `fetch` accepts a document with `json.loads` on bytes, which takes a byte order mark and
  UTF-16 or UTF-32; the re-check and the loader read the file as UTF-8 text, which does not.
  A document saved with a mark is accepted and opens the gate, but the loader skips it and
  offers the image's connections, and the next outage shuts the gate:
  `ConfigGateProofs.BomOffersImage`, `UnreadableCopy`, and the exact conditions in
  `RequiredMeansAccepted` and `ProductionClient`.
- Production validation compares `security` with `rdp` exactly, the loader folds case and
  strips: `ConfigGateProofs.LegacySlipsThrough`.
- An accepted central document without a connection list does not clear the image's list:
  `ConfigGateProofs.NoListFallsThrough`.
- A kill between the fetch's two writes leaves a digest that is not the copy's:
  `ConfigGateProofs.DigestStep` is the exact condition of one step.
- The comment in `_normalise_connection` describes a fail-closed default for a mistyped
  certificate policy. With the shipped defaults that branch changes nothing, because the
  ordinary default is already `strict`; the model has one default.

## Model

| member | source | states |
|---|---|---|
| Ledger.KeyKinds | tools/tc-config-server.py:387-388 | An identified client and an anonymous one never share a key, and anonymous keys determine the address. |
| Outcomes.BootPathIff | tools/tc-config-server.py:523-528 | A path names a boot exactly when the text after its last slash, in any case, is `filesystem.squashfs`. |
| Outcomes.BootPathOf | tools/tc-config-server.py:523-528 | For a directory and a name, or a bare name, that is whether the name is `filesystem.squashfs` in any case. |
| Outcomes.ProfileIff | tools/tc-config-server.py:85-93 | A path names the profile `lite` or `full` exactly when that is the component behind its first `thinclient`. |
| Outcomes.PartsAre | tools/tc-config-server.py:85-87 | The components of a path are its words between slashes, in order, empty ones dropped. |
| Outcomes.JudgeTells | tools/tc-config-server.py:504-528 | A transfer succeeds exactly when its status is 200 to 399, the caller saw no interruption and a GET answered 200 sent the announced length; it boots exactly when such a GET fetched the root image. |
| Outcomes.FinishBooks | tools/tc-config-server.py:495-546 | Finishing an active request counts one success or one failure by those conditions, adds its bytes, files its record as the newest, and shows status, path and bytes in its client's entry and nowhere else. |
| Outcomes.BeginRegisters | tools/tc-config-server.py:405-481 | Beginning a request activates it under the next id with its own data, and makes its client the most recent entry, as old as its oldest predecessor and with the outcome and profile of the newest. |
| Outcomes.RequestTold | tools/tc-config-server.py:459-547 | In every history a finished line was begun by one call and ended by a later one; bytes, success and boot follow from the bytes accepted and the length announced in between and the inputs of both calls. |
| Outcomes.CutTold | tools/tc-config-server.py:262-290 | In every history a line cut short was begun by one call and closed by a restart, with the bytes accepted in between. |
| Outcomes.RestartSalvages | tools/tc-config-server.py:262-290 | A restart records each request it finds open with status 0, its saved bytes and the time since it began by the wall clock, the last begun as the newest. |
| Outcomes.RecoveryCredits | tools/tc-config-server.py:266-275 | A recovered request is one recovered failure with its bytes, and its client's entry shows it with status 0 if it is still tabled. |
| Outcomes.StartsCounted | tools/tc-config-server.py:101-134 | Every start of the process is counted, the first included, and the start of the history never moves. |
| Book.BootsSucceed | tools/tc-config-server.py:505-531 | In every history only successful transfers are marked as boots. |
| Accounting.LedgerIsBook | tools/tc-config-server.py:262-547 | After every history of calls and restarts each total is the sum over an independent book with one line per request, and the active table is exactly the book's open lines. |
| Accounting.LedgerBalances | tools/tc-config-server.py:262-547 | requests = successful + failed + active; boots ≤ successful; recovered ≤ failed, in every reachable state. |
| Accounting.BytesConserved | tools/tc-config-server.py:483-547 | Total bytes plus the bytes of running transfers equal what add_bytes accepted, across finishes, re-keying and restarts of the state itself. |
| Accounting.FinishOnce | tools/tc-config-server.py:495-502 | A second finish of the same request, with any outcome, leaves the state as the first one did. |
| ClientTable.TouchedFigures | tools/tc-config-server.py:405-457 | The touched entry has the requests, boots and bytes of both its predecessors, plus one request. |
| ClientTable.TouchedWorth | tools/tc-config-server.py:405-457 | Touching and merging add one request to the table's sums and lose nothing, before eviction. |
| Attribution.ClientsConserveTotals | tools/tc-config-server.py:262-547 | Sums over the client table plus what eviction removed, or was finished for an evicted client, equal the totals, in every history. |
| Attribution.ClientsAreBook | tools/tc-config-server.py:262-547 | While nobody is evicted, every client shows exactly the requests, boots and bytes of the book lines charged to it, merges and recoveries included. |
| Attribution.NothingLost | tools/tc-config-server.py:405-531 | While nobody is evicted the table's sums equal the totals exactly. |
| Recency.KeysAreIdentities | tools/tc-config-server.py:387-481 | Every table entry and every active request is filed under the key of its own address and MAC. |
| Recency.IdentificationMoves | tools/tc-config-server.py:436-439 | When a MAC arrives while the anonymous entry is tabled, the transfers in flight under the anonymous key carry the MAC and its key, and all others are as before. |
| Recency.IdentificationTakesOver | tools/tc-config-server.py:419-457 | From then on, through every later call and restart until the address begins a request without a MAC again, no entry and no active request is filed under the anonymous key. |
| Recency.ClientsByRecency | tools/tc-config-server.py:446-457 | The table never exceeds max_clients, has distinct keys and is ordered by last touch. |
| Recency.EvictsLeastRecent | tools/tc-config-server.py:454-457 | With room for at least one client, everyone evicted was touched before everyone kept, and the client just touched stays. |
| Recency.SmallFleetFits | tools/tc-config-server.py:454-457 | A fleet with no more keys than max_clients is never evicted from. |
| History.HistoryIsCompletions | tools/tc-config-server.py:262-290 | The history is exactly the newest max_requests of all completions, in the order in which they ended, with the record of each. |
| History.CompletionsCounted | tools/tc-config-server.py:262-546 | Every completion is counted once, as a success or as a failure. |
| History.HistoryIsNewest | tools/tc-config-server.py:533-546 | A history bounded by n is the newest n records of any longer one, and the bound affects nothing else. |
| History.HistoryComplete | tools/tc-config-server.py:277-290 | The history has min(max_requests, successful + failed) records: it misses one only when full. |
| SavedState.ReplayIsSound | tools/tc-config-server.py:183-244 | Every reachable state has the shape its own documents need to be loaded: distinct keys, ids below the next id, tables within their bounds. |
| SavedState.RestoreRoundTrip | tools/tc-config-server.py:148-315 | Loading a written document under the same bounds gives back clients, history, totals, active requests and next id except the monotonic stamps, and fails exactly above 2048 active requests. |
| SavedState.BootIsRestart | tools/tc-config-server.py:124-290 | Loading a saved state, counting the start and recovering is one restart applied to the state that was saved. |
| SavedState.RestoreKeepsNewest | tools/tc-config-server.py:183-244 | Any document with at most 2048 transfers, edited by hand or written under larger bounds, gives the newest clients and records in their order, every transfer, and a next id beyond all of theirs. |
| SavedState.RefusedIff | tools/tc-config-server.py:217-219 | A document is refused exactly for holding more than 2048 transfers. |
| StatusMonitor.Monitor.constructor | tools/tc-config-server.py:101-134 | Starts on the saved state when it can be loaded, else afresh, recovers, and writes the file; over a document some monitor wrote, the history goes on with a restart. |
| StatusMonitor.Monitor.RestoreState | tools/tc-config-server.py:148-244 | Either loads the document's state or leaves every field as it was: everything is read into locals before the first field changes. |
| StatusMonitor.Monitor.RestoreClients | tools/tc-config-server.py:187-198 | The loop keeps the newest max_clients entries in their order; with a bound of 0 it keeps all. |
| StatusMonitor.Monitor.RestoreRequests | tools/tc-config-server.py:205-211 | The loop keeps the first max_requests records. |
| StatusMonitor.Monitor.RestoreActive | tools/tc-config-server.py:220-240 | The loops rebuild the active table and find its largest id. |
| StatusMonitor.Monitor.RecoverInterruptedRequests | tools/tc-config-server.py:262-290 | Each active request becomes a recovered failure with its saved bytes; none stays active. |
| StatusMonitor.Monitor.TouchClient | tools/tc-config-server.py:419-457 | The new client table and the re-keyed requests, in place. |
| StatusMonitor.Monitor.RekeyActive | tools/tc-config-server.py:436-439 | Exactly the requests under the anonymous key move to the identified client. |
| StatusMonitor.Monitor.EvictClients | tools/tc-config-server.py:455-456 | Keeps the newest max_clients entries in their order. |
| StatusMonitor.Monitor.StateDocument | tools/tc-config-server.py:292-315 | The document of the current state, active requests without their monotonic stamps. |
| StatusMonitor.Monitor.Persist | tools/tc-config-server.py:317-334 | Changes no counter or table; the file is replaced or kept as the write turned out, and the reported error agrees. |
| StatusMonitor.Monitor.Begin | tools/tc-config-server.py:459-481 | Registers the request under a new id with its own data, makes its client the most recent entry, commits the new state and keeps the object valid for its history. |
| StatusMonitor.Monitor.SetContentLength | tools/tc-config-server.py:483-487 | Changes only the announced length of a request that is still active. |
| StatusMonitor.Monitor.AddBytes | tools/tc-config-server.py:489-493 | Adds a positive count to the bytes of a request that is still active, changes nothing else, and saves nothing. |
| StatusMonitor.Monitor.Finish | tools/tc-config-server.py:495-547 | `successful` or `failed` grows by one as status, interruption and announced length say, `boots` for a complete GET of the root image; record and client entry follow from the same inputs, and the state is committed. An unknown id changes nothing and saves nothing. |
| StatusMonitor.ObjectIsLedger | tools/tc-config-server.py:96-547 | For every valid object: its counters are the sums over its history's book and balance, keys are identities, clients are ordered by last touch, and the history holds the newest completions. |
| StatusMonitor.Monitor.CompleteRequest | tools/tc-config-server.py:500-546 | A short GET counts as interrupted; success, boot, record and bytes are booked in totals, history and the client if it is still tabled, by conditions on the inputs alone. |
| DurableProofs.DocumentsAreSnapshots | tools/tc-config-server.py:317-365 | Over every interleaving of handlers, commits and crashes, every document on disk, or that a power loss can leave there, is what the monitor held at some point of one history, in the order written. |
| DurableProofs.DiskNeverGoesBack | tools/tc-config-server.py:317-365 | The flushed document never goes back in time; neither does the visible one unless power is lost. |
| DurableProofs.PromisesLast | tools/tc-config-server.py:317-334 | Whatever calls, kills and power losses follow a successful commit, the flushed document, the visible one and the live history keep the request's line, and its outcome if that was committed. |
| DurableProofs.CommitSucceeds | tools/tc-config-server.py:317-334 | A commit in which nothing fails always ends with the live monitor's document on the durable disk, nothing unflushed, and the request promised, as begun or with its outcome. |
| DurableProofs.UnflushedCanBeLost | tools/tc-config-server.py:336-365 | Without the flush of the directory a power loss can leave the older document, or any replacement since. |
| DurableProofs.ExactlyOnce | tools/tc-config-server.py:148-290 | In every reachable state of a live server each committed request is one line of the book, with its committed outcome, and the totals count each line once. |
| DurableProofs.RestartSettles | tools/tc-config-server.py:262-290 | A restart keeps recorded outcomes, turns each open transfer of the state file into a recovered failure with the bytes last saved, and leaves none active. |
| DurableProofs.BootNeverRefused | tools/tc-config-server.py:217-219 | With at most 1024 workers no document the server writes can trip the loader's limits. |
| DurableProofs.SlotsConserved | tools/tc-config-server.py:1455-1488 | While the server runs, free slots plus accepted connections not yet released are max_workers, and each active request has its own worker. |
| DurableProofs.AcceptedIff | tools/tc-config-server.py:1463-1488 | In every running state a connection is accepted exactly while fewer than max_workers are held, and turned away exactly when all are. |
| DurableProofs.RejectionsCounted | tools/tc-config-server.py:1463-1466 | Over every run each connection turned away is counted once, and nothing else is. |
| DurableProofs.CallsReachTheLog | tools/tc-config-server.py:459-547 | Each call of a handler is one event of the history, for its own request, and no other step is. |
| Text.StripTrims | overlay/usr/local/lib/thinclient/tcconfig.py:144-148 | Stripping yields trimmed text and leaves trimmed text alone. |
| Text.StripKeeps | overlay/usr/local/lib/thinclient/tcconfig.py:144-148 | Stripping removes white space at both ends and nothing else. |
| Text.StripUnique | overlay/usr/local/lib/thinclient/tcconfig.py:144-148 | No other text is what stripping should leave. |
| Text.DecimalInjective | overlay/usr/local/lib/thinclient/tcconfig.py:259-260 | Different numbers print differently. |
| Config.NextFree | overlay/usr/local/lib/thinclient/tcconfig.py:259-260 | The search for an id ends at the first number whose id is not taken. |
| Config.GeneratedInjective | overlay/usr/local/lib/thinclient/tcconfig.py:259-260 | Generated ids of different numbers differ. |
| ConfigProofs.CanonicalIsNormal | overlay/usr/local/lib/thinclient/tcconfig.py:144-188 | Normalising a usable value yields a usable value that normalisation leaves alone. |
| ConfigProofs.NormaliseFits | overlay/usr/local/lib/thinclient/tcconfig.py:191-206 | A normalised section has a canonical value for every known key, and one that has is left alone. |
| ConfigProofs.LastValidWins | overlay/usr/local/lib/thinclient/tcconfig.py:272-284 | For any number of layers a known device key has the normal form of the last layer's valid value, whatever invalid values follow. |
| ConfigProofs.DefaultOtherwise | overlay/usr/local/lib/thinclient/tcconfig.py:272-284 | Without a valid value in any layer the key keeps what the merge started from. |
| ConfigProofs.LastListWins | overlay/usr/local/lib/thinclient/tcconfig.py:283-284 | Connections come wholesale from the last layer that holds a list. |
| ConfigProofs.IdsAssigned | overlay/usr/local/lib/thinclient/tcconfig.py:247-262 | Ids are non-empty and pairwise distinct, the first holder of each explicit id keeps it, and no generated id equals an explicit one. |
| ConfigProofs.LeastNumberAssigned | overlay/usr/local/lib/thinclient/tcconfig.py:252-262 | A connection that keeps no id of its own gets the least number, from 1 on, whose id nobody asked for and no earlier connection has. |
| ConfigProofs.AssignFixed | overlay/usr/local/lib/thinclient/tcconfig.py:247-262 | Distinct non-empty ids are left alone. |
| ConfigProofs.ConnectionIsNormal | overlay/usr/local/lib/thinclient/tcconfig.py:208-244 | A normalised connection is canonical, and a canonical one is left alone. |
| ConfigProofs.LoadSettles | overlay/usr/local/lib/thinclient/tcconfig.py:265-299 | Every load yields canonical values, distinct ids, names, and no auto_connect without its connection. |
| ConfigProofs.SaveLoadFixedPoint | overlay/usr/local/lib/thinclient/tcconfig.py:265-386 | For every list of JSON layers, loading what was saved from load(layers) gives load(layers) back. |
| LoadMeaning.MeaningIff | overlay/usr/local/lib/thinclient/tcconfig.py:144-188 | For every kind of setting and every JSON value: the value is usable exactly when it means something, and its normal form is the one thing it means - a yes or no in one of eight spellings, a number clamped to the nearest end, a stripped text, a listed word, a display size, the non-blank words. |
| LoadMeaning.ParseIntIff | overlay/usr/local/lib/thinclient/tcconfig.py:166-176 | A text is the number `n` exactly when, stripped, it is an optional sign and at most 4300 digits with single underscores between them that denote it. |
| LoadMeaning.NumbersRead | overlay/usr/local/lib/thinclient/tcconfig.py:166-176 | A printed number is read back, with a plus, a minus or no sign. |
| LoadMeaning.SizeIff | overlay/usr/local/lib/thinclient/tcconfig.py:184-188 | A display size is two numbers from 10 to 99999 without leading zeros and an x between. |
| LoadTheorems.LoadedConnections | overlay/usr/local/lib/thinclient/tcconfig.py:208-244 | Every loaded connection comes from one object of the last list, in order: each known setting is what its value means or else the default, a usable port is clamped into 1 to 65535 and without one the loaded protocol decides, the name is its own, else the host, else the id, unknown keys are kept, and the ids are the wanted ones where they can be. |
| LoadTheorems.LoadedDevice | overlay/usr/local/lib/thinclient/tcconfig.py:265-297 | Every known device setting of a load is the meaning of the last meaningful value any layer gives it, or its default; auto_connect is that value if such a connection was loaded, else empty. |
| LoadTheorems.ThinClientPorts | overlay/usr/local/lib/thinclient/tcconfig.py:233-236 | With the shipped tables a connection without a usable port gets 5900 if it loads as VNC and 3389 otherwise. |
| ConfigTables.ThinClientIsSane | overlay/usr/local/lib/thinclient/tcconfig.py:35-133 | The shipped defaults are in normal form. |
| ConfigTables.ThinClientFixedPoint | overlay/usr/local/lib/thinclient/tcconfig.py:265-386 | The save/load fixed point for the shipped keys and defaults. |
| ConfigLoader.NormaliseFields | overlay/usr/local/lib/thinclient/tcconfig.py:191-206 | Overwriting the known keys one after the other, in any order, computes the normal form. |
| ConfigLoader.ReservedIds | overlay/usr/local/lib/thinclient/tcconfig.py:249-251 | Collects exactly the explicit ids. |
| ConfigLoader.FindFree | overlay/usr/local/lib/thinclient/tcconfig.py:259-260 | The `while` terminates at the next free number. |
| ConfigLoader.AssignConnectionIds | overlay/usr/local/lib/thinclient/tcconfig.py:247-262 | The loop computes the id assignment. |
| ConfigLoader.MergeLayers | overlay/usr/local/lib/thinclient/tcconfig.py:272-284 | The loop over the layers computes the merged device section and the connection list. |
| ConfigLoader.NormaliseConnections | overlay/usr/local/lib/thinclient/tcconfig.py:286-289 | Keeps the objects of the list in order, each in the normal form that `LoadTheorems.LoadedConnections` characterises key by key. |
| ConfigLoader.FinishConnections | overlay/usr/local/lib/thinclient/tcconfig.py:291-293 | Stores the ids and names unnamed connections after their host or id. |
| ConfigLoader.LoadLayers | overlay/usr/local/lib/thinclient/tcconfig.py:265-299 | The whole load computes the configuration that `LoadTheorems.LoadedConnections` and `LoadedDevice` characterise. |
| ConfigGate.ConnectionFaults | overlay/usr/local/lib/thinclient/configfetch.py:44-50 | The loop finds each kind of fault exactly when some connection has it. |
| ConfigGate.Validate | overlay/usr/local/lib/thinclient/configfetch.py:30-51 | The faults of any JSON value, structural ones first. |
| ConfigGateProofs.FaultlessIff | overlay/usr/local/lib/thinclient/configfetch.py:30-51 | A document has no fault exactly when it is an object of schema 1 whose sections have their types and, in production, it sets a password hash and every connection leaves certificates strict, stores no password and does not say `rdp` security. |
| ConfigGateProofs.PublishedIff | overlay/usr/local/lib/thinclient/configfetch.py:108-132 | A step puts a document in place exactly when its URL has a scheme http or https, https if the policy asks for it, a host and no user or password, the payload is within 1 MiB, signed if a key is set, and faultless, and no call failed. |
| ConfigGate.Gate.Attempt | overlay/usr/local/lib/thinclient/configfetch.py:108-138 | Publishes exactly an accepted document, which `ConfigGateProofs.PublishedIff` characterises; raises otherwise, except without a URL that is not required. |
| ConfigGate.Gate.Fetch | overlay/usr/local/lib/thinclient/configfetch.py:95-150 | Both files after any outcome of the calls: the new copy or the old one, and the status, which `ConfigGateProofs.StatusTells` spells out. |
| ConfigGateProofs.FailsClosed | overlay/usr/local/lib/thinclient/configfetch.py:95-150 | Over every sequence of fetches killed anywhere, from a boot without a copy: the copy is what the last successful step put in place, from a safe address, over HTTPS if the policy asks for that, within the size, signed and validated; without such a step there is none; and status current or stale means it exists. |
| ConfigGateProofs.HttpsEnforced | overlay/usr/local/lib/thinclient/configfetch.py:118-119 | Under a policy that requires HTTPS, or a policy file that cannot be read, the copy of every run came over https from an address with a host and no user or password. |
| ConfigGateProofs.StatusTells | overlay/usr/local/lib/thinclient/configfetch.py:106-149 | The status of a whole fetch: requirement, source, failure and digest for each state, authenticated exactly with a key or over https, and unchanged digest and authentication when nothing was published. |
| ConfigGateProofs.OutageKeepsCopy | overlay/usr/local/lib/thinclient/configfetch.py:139-146 | Once a boot has a copy, no outage, rejection or kill removes it, and a failing fetch leaves a required gate open exactly when the copy can be read as text and still validates. |
| ConfigGateProofs.DigestDescribes | overlay/usr/local/lib/thinclient/configfetch.py:133-149 | Without such cuts the digest in the status is always that of the copy. |
| ConfigGateProofs.RequiredMeansAccepted | overlay/usr/local/lib/thinclient/tcconfig.py:300-308 | Under a required or broken policy, connections are offered only when a document was accepted in this boot; it is the loader's remote layer exactly when both decoders agree on it. |
| ConfigGateProofs.GateEmptiesOrKeeps | overlay/usr/local/lib/thinclient/tcconfig.py:299-309 | With a broken policy file, or a required policy without status current or stale, no connection and no auto_connect is left; in every other case the merged configuration is left alone. |
| ConfigGateProofs.CentralListWins | overlay/usr/local/lib/thinclient/tcconfig.py:272-284 | The connections are the accepted document's when it has a list and no local edit does. |
| ConfigGateProofs.NoListFallsThrough | overlay/usr/local/lib/thinclient/tcconfig.py:272-284 | An accepted document without a list leaves the image's or medium's connections in force. |
| ConfigGateProofs.ProductionConnections | overlay/usr/local/lib/thinclient/configfetch.py:40-50 | Connections of a document that passed the production rules load as strict and without password, and as legacy security exactly when it is spelled otherwise than `rdp`. |
| ConfigGateProofs.LegacySlipsThrough | overlay/usr/local/lib/thinclient/configfetch.py:49-50 | A production document that spells legacy security in capitals is accepted and loads as legacy security. |
| ConfigGateProofs.ProductionClient | overlay/usr/local/lib/thinclient/tcconfig.py:299-309 | For every sequence of fetches under a required production policy and whatever image and medium hold: only strict connections without stored passwords are offered exactly when the gate is shut, or local edits have a list and that is safe, or they have none and the accepted document has a list and can be read as it was accepted. |
| ConfigGateProofs.EditsSlipThrough | overlay/usr/local/lib/thinclient/tcconfig.py:272-284 | A local edit that stores a password is offered through any open gate, however strict the central document. |
| ConfigGateProofs.UnreadableCopy | overlay/usr/local/lib/thinclient/configfetch.py:139-146 | An accepted document the text reader rejects opens the gate for the other layers, and the next failing fetch shuts it although the copy is still there. |
| ConfigGateProofs.BomOffersImage | overlay/usr/local/lib/thinclient/configfetch.py:129-133 | Every sound document saved with a byte order mark is accepted, and the client then offers the image's connections, stored passwords included. |
| ConfigGateProofs.ThinClientProduction | overlay/usr/local/lib/thinclient/tcconfig.py:73-133 | The shipped keys and defaults meet what the production theorems assume. |
| CacheProofs.CacheStaysSafe | overlay/usr/local/sbin/tc-cache-save:143-212 | Wherever the writer stops - a failing command, a signal, a kill, a power loss - no image it published misses the hash in its name, and if an intact image was cached before, one is cached now. |
| CacheProofs.SuccessMeansCached | overlay/usr/local/sbin/tc-cache-save:151-212 | After exit status 0 the requested image is intact, also after a power loss. |
| CacheProofs.AlreadyCached | overlay/usr/local/sbin/tc-cache-save:153-157 | An intact image that is already there is neither copied again nor touched, in every run without a power loss. |
| CacheProofs.SignalExits | overlay/usr/local/sbin/tc-cache-save:41-50 | In every run a signal ends the shell with its own code, except around the fork, where it is only noted. |
| CacheProofs.FailingCommandExits | overlay/usr/local/sbin/tc-cache-save:159-210 | A failing command ends the run with exit status 1 and changes nothing, at every point but the first look and the pruning. |
| CacheProofs.BadCopyExits | overlay/usr/local/sbin/tc-cache-save:183-193 | A copy that failed, or that hashes to something else, ends the run with exit status 1 and is not published. |
| CacheProofs.SaveCompletes | overlay/usr/local/sbin/tc-cache-save:159-212 | Every run in which nothing fails never reports failure, has the image in place once it is through, and can be brought to that end from wherever it has got. |
| CacheProofs.ExitLeavesNothingBehind | overlay/usr/local/sbin/tc-cache-save:23-50 | However the shell comes to exit, cleanup ends with the copy reaped and no partial file of this run left. |
| CacheProofs.SignalWaitsForPid | overlay/usr/local/sbin/tc-cache-save:41-50 | A signal between the fork and the recording of its pid is only noted; the shell exits with its code once the pid is known. |
| CacheReader.Restore | overlay/usr/lib/live/boot/9991-thinclient-cache.sh:116-161 | A hit is the first device on which everything succeeds, its copied root has the wanted hash, and there is a hit exactly if some device serves it. |
| CacheReader.MountRoot | overlay/usr/lib/live/boot/9991-thinclient-cache.sh:180-206 | A root is mounted exactly when the manifest is not unverifiable and either the cache may be used and a device serves the image, or the download arrived and matches a signed release; it is the first serving device's copy if there is one, else the download; a signed release is mounted only with the signed hash. |
| CacheReader.ConfiguredIff | overlay/usr/lib/live/boot/9991-thinclient-cache.sh:21-36 | The cache is tried exactly with the switch on, an image to fetch, a profile and a label of 1 to 32 permitted characters and a digest of 64 hexadecimal digits. |
| CacheReader.SavedThenServed | overlay/usr/lib/live/boot/9991-thinclient-cache.sh:116-161 | After a successful save a later boot with the same profile and digest is served by that device, even with a power loss in between. |
| SessionProofs.DoneExactlyOnce | overlay/usr/local/lib/thinclient/manager.py:769-793 | In every interleaving the queued done callbacks are distinct and belong exactly to the attempts whose worker has ended. |
| SessionProofs.OneAttemptIff | overlay/usr/local/lib/thinclient/manager.py:706-770 | At most one attempt is live at any time exactly in the runs that accept no credential prompt while a session is active. |
| SessionProofs.CancelledIsNotRetried | overlay/usr/local/lib/thinclient/manager.py:920-923 | In every run without overlaps the end of a cancelled session opens no countdown. |
| SessionProofs.CountdownLasts | overlay/usr/local/lib/thinclient/manager.py:958-982 | An undisturbed countdown expires with the last of its seconds, at least two, and not before. |
| SessionProofs.AnswerDecides | overlay/usr/local/lib/thinclient/manager.py:984-999 | The answer to a countdown decides: reconnecting starts a session or asks for credentials first unless one is active, refusing rules further reconnects out. |
| SessionProofs.NoHolds | overlay/usr/local/lib/thinclient/manager.py:941-943 | After a refusal no end of a session opens a countdown in any run until a session is started again. |
| SessionProofs.ProgressTells | overlay/usr/local/lib/thinclient/manager.py:800-826 | Cancelling keeps the progress dialog and disables its button; a client that opens closes it, but not while cancelling. |
| SessionProofs.StageIff | overlay/usr/local/lib/thinclient/manager.py:776-888 | A client is launched only after a preflight that succeeded and two looks at the cancel flag that found it clear, and a third look decides whether it is told to terminate. |
| SessionOverlap.TwoAttempts | overlay/usr/local/lib/thinclient/manager.py:535-556 | A reload behind an open prompt arms the automatic connection, that starts a session, and accepting the prompt then gives two live attempts. |
| SessionOverlap.CancelIff | overlay/usr/local/lib/thinclient/manager.py:759-809 | No client can escape its cancel along a run, or after it without further overlaps, exactly when the run accepts no prompt during a session. |
| SessionOverlap.OverlapEscapesCancel | overlay/usr/local/lib/thinclient/manager.py:759-926 | After any overlap, with Cancel pressed in the newer attempt's own dialog, the older one's callback can reset the flag unseen: the cancelled client runs, alive and untold. |
| SessionProofs.ReloadsApplied | overlay/usr/local/lib/thinclient/manager.py:535-556 | In every run a reload is applied at once outside a session, and remembered until it is applied within one. |
| SessionOverlap.ReconnectIff | overlay/usr/local/lib/thinclient/manager.py:907-999 | No countdown can reconnect behind a reload along a run, or after it without further overlaps, exactly when the run accepts no prompt during a session. |
| SessionOverlap.OverlapReconnectsStale | overlay/usr/local/lib/thinclient/manager.py:907-999 | After any overlap the newer session can connect, a reload be applied behind its back, and its loss then reconnect with the settings from before. |
| RdpProbe.RequestIsWellFormed | overlay/usr/local/lib/thinclient/rdpprobe.py:48-59 | The request's three length fields are right and it carries the protocols asked for; values outside 32 bits are refused. |
| RdpProbe.RequestBytes | overlay/usr/local/lib/thinclient/rdpprobe.py:16-59 | The 19 bytes of the request the probe sends. |
| RdpProbe.Socket.RecvExact | overlay/usr/local/lib/thinclient/rdpprobe.py:125-136 | For every chunking: exactly the next bytes, or all there are; sizes outside the bound are refused. |
| RdpProbe.Socket.Probe | overlay/usr/local/lib/thinclient/rdpprobe.py:139-179 | The answer is a function of the peer's bytes alone, and the request is what was sent. |
| RdpProbe.ConfirmRoundTrip | overlay/usr/local/lib/thinclient/rdpprobe.py:62-122 | An encoded confirm parses back to what it says, whatever follows it. |
| RdpProbe.SelectedIff | overlay/usr/local/lib/thinclient/rdpprobe.py:12-27 | A protocol is selected exactly when the stream begins with a well-formed 19-byte confirm of kind 2 with its payload: 0 for RDP, 1 for TLS, 2 for HYBRID, 8 for HYBRID_EX, least significant byte first. |
| RdpProbe.FailureIff | overlay/usr/local/lib/thinclient/rdpprobe.py:119-122 | A failure is reported exactly when the stream begins with a well-formed 19-byte confirm of kind 3. |
| RdpProbe.RecognisedBytes | overlay/usr/local/lib/thinclient/rdpprobe.py:69-111 | The bytes that decide are forced, although packets up to 4096 bytes are read. |
| RdpProbe.PrefixDecides | overlay/usr/local/lib/thinclient/rdpprobe.py:159-179 | Bytes after the first complete packet never change the answer. |
| RdpProbe.CutConfirmIsTruncated | overlay/usr/local/lib/thinclient/rdpprobe.py:143-177 | Every proper prefix of a confirm is reported as truncated, with the right counts. |
| RdpProbe.WrongFieldNamed | overlay/usr/local/lib/thinclient/rdpprobe.py:152-169 | One wrong byte in a packet header is complained about by name, with the value found. |
| RdpProbe.WrongBodyNamed | overlay/usr/local/lib/thinclient/rdpprobe.py:75-89 | One wrong byte in the confirm's header is complained about by name, with the value found. |
| RdpProbe.NegotiationNamed | overlay/usr/local/lib/thinclient/rdpprobe.py:91-122 | Whatever negotiation data a packet has, the first thing wrong with it is named, and data with nothing wrong is answered. |
| Report.FormatReport | overlay/usr/local/lib/thinclient/networkdiag.py:325-366 | Inserting and appending by position yields the report's lines in order. |
| ReportProofs.FrameTold | overlay/usr/local/lib/thinclient/networkdiag.py:339-365 | The report begins with its title, ends with its closing line, and has as many lines as there are findings. |
| ReportProofs.LinesInOrder | overlay/usr/local/lib/thinclient/networkdiag.py:340-365 | The lines begin with their keys in one order, the optional ones in their places. |
| ReportProofs.TargetTold | overlay/usr/local/lib/thinclient/networkdiag.py:338-342 | The target's line names the connection and its endpoint, an address with colons in brackets. |
| Report.ParseReport | overlay/usr/local/lib/thinclient/uxstate.py:177-223 | The loop over the lines computes the rows that `ReportProofs.ReportRoundTrip` and `NothingRead` spell out. |
| ReportProofs.SplitJoin | overlay/usr/local/lib/thinclient/uxstate.py:181 | Splitting joined one-line texts gives them back. |
| ReportProofs.LineReads | overlay/usr/local/lib/thinclient/uxstate.py:182-187 | A printed line is read back as its key and value, whatever colons the value has. |
| ReportProofs.DashReads | overlay/usr/local/lib/thinclient/uxstate.py:163-174 | The detail after the printer's dash is recovered, dashes and colons in it included. |
| ReportProofs.ReportRoundTrip | overlay/usr/local/lib/thinclient/uxstate.py:177-223 | Parsing a printed report gives the rows expected from the findings: the network as failed exactly when its text says there is none, state, detail and port of every check, with or without gateway and route lines. |
| ReportProofs.NothingRead | overlay/usr/local/lib/thinclient/uxstate.py:194-223 | A report in which nothing is recognised reads as no network, no gateway and nothing tested. |
| ReportProofs.LinesEnd | overlay/usr/local/lib/thinclient/uxstate.py:181 | Lines end at every break character. |
| ReportProofs.LinesEndTogether | overlay/usr/local/lib/thinclient/uxstate.py:181 | A carriage return and a line feed end one line together. |
| ReportProofs.ReportDetermines | overlay/usr/local/lib/thinclient/networkdiag.py:325-366 | Equal reports come from equal results of every check, handshake included, equal ports and equal network and gateway texts. |
| ReportWords.EnglishIsSound | overlay/usr/local/lib/thinclient/networkdiag.py:335-365 | The words of the shipped report are distinct enough for the parser. |
| ReportWords.EnglishRoundTrip | overlay/usr/local/lib/thinclient/uxstate.py:163-223 | The round trip for the shipped words. |
| ReportWords.NetworkShown | overlay/usr/local/lib/thinclient/uxstate.py:194-207 | For the shipped words: the network's row shows interface and address and has failed exactly when one is missing or the text contains `no active` or `no ipv`, so never for names without spaces; the gateway's has failed exactly when it is missing or begins with `no `. |

## Left out

- The dashboard, metrics text, health report, sorting, URL decoding and path containment of the server: presentation, or facts about one branch.
- Threads of the ledger's mutations: each call runs under the state lock, so it is one step; the persistence lock, its two acquisitions of the state lock and the disk are modelled step by step.
- Type checks of hand-edited or hostile state files, the 8 MiB limit, and a quarantine that cannot rename the file: apart from `SavedState.RestoreKeepsNewest`, restart theorems speak about documents the monitor wrote.
- `os.path.basename` and the profile name are modelled on the request path as the server records it; the 512-character cut of that path happens before `begin`.
- Negative `max_clients` or `max_requests`. With `max_clients` 0 the slice in `_restore_state` keeps all stored clients, but a monitor with that bound writes none.
- Python aliasing of client and request dictionaries: entries are values that the methods put back; no entry is shared between two tables in the code modelled here.
- JSON text, SHA-256, TLS, curl, openssl, mounts and udev: functions or outcomes given from outside. `version`, `last_success` and `duration_seconds` of the gate's status are not modelled.
- Letter case outside ASCII in `lower`, `upper` and `casefold`, and digits outside ASCII in `int`.
- A policy file whose values have the wrong JSON type (a number as URL, say): the policy is typed. A JSON text nested deeper than the interpreter's recursion limit, which `fetch` does not catch.
- Two fetches at once: `main` takes a lock, so fetches are sequential. Files other than the two that `fetch` writes are parameters of the loader.
- The cache writer's loop over devices is reduced to the first usable one, at which the script ends in every case; its status and progress files are outcomes of commands. Signals during cleanup, and between a successful mount and `MOUNTED=1`, are left out: the script promises nothing there.
- The reader's device discovery window and its mount and unmount of the source medium: a device is described by how each command on it turns out.
- Widgets other than the prompts, countdowns and progress dialogs, labels, the session bar and the credential cache of the manager: `StartDirect` stands for every start without a prompt, by the automatic connection or "Try again", and no claim is made about which settings it uses.
- The order of one attempt's idle callbacks among another's: a notice of a launched client may run at any time before its own attempt's callback, which includes the order of the main loop's queue.
- Socket timeouts and errors during a probe: they propagate as exceptions. The texts of failure codes are a function of the code that is reported.
- Command lines, Kerberos, password hashing, the installer, PXE menus, benchmarks and the PowerShell and Docker files.
- ConfigGateProofs.ProductionClient: assumes that the text reader gives nothing or what the bytes were accepted as, which holds for one JSON grammar over two encodings.
- StatusMonitor.Monitor.constructor: over a document that no monitor wrote it promises the loaded state, but no history behind it.
- ReportWords.EnglishRoundTrip: details, interface, address and gateway must be trimmed single lines and the name and host single lines, which is what the checks and `normalize_target` produce; ports are natural numbers.
