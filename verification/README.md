# Models of the terminal server's brokers, streams and text rewriters

The terminal server keeps shells running behind long-lived session brokers and lets agents in those
shells ask a person for secrets, for root commands and for ways to hand a secret back. This project
models the parts of it that carry state across many calls, or that must agree with a second piece of
code, and proves what they promise.

* **Access broker** (`AccessModel` to `AccessPending`, `AccessChanges` to `AccessOutcomes`,
  `AccessSubscriptions`, `AccessBadges`). The tables of requests, grants, shares, executions and
  activity that one lock guards, and the approval of root commands, which lets go of the lock
  between its sections. Each operation is written once as a function on a `World`: the state of
  the source, plus a history that no code reads (identifiers used, what was filed, what was sent
  on each channel, live subscriptions, approvals in flight, root commands started). The class
  `AccessManager` then does the same on its fields, step by step, and each of its methods is
  proved to be that function. Beside the functions stands a second account in a caller's terms:
  what each operation answers, and what it does to one entry of each table, to one channel and to
  the records (`AccessAccounts`, `AccessAnswers`, `AccessLedger`). The main results are about
  every sequence of operations.
* **Redaction** (`Redaction`, `RedactedOutput`, `Base32`). The chunked scanner that hides a secret
  in command output, against a scan of the whole output at once; when the whole output shows no
  secret; and the base-32 encoder among the redacted variants, against the decoder of section 6 of
  RFC 4648.
* **Broker generations** (`BrokerModel` to `BrokerPools`, `BrokerLookups`, `BrokerOutcomes`,
  `BrokerCalls`). One current and any number of draining brokers, with every lock section and every
  remote call of list, create, rename, remove and the retirement round as one step of an
  interleaving. Brokers may crash, answers may be lost, callers may go away. The results say what
  never happens, and also what does: the course of every call, and of every candidate in a round.
* **Hermes configuration** (`YamlText`, `HermesConfig` to `HermesRoundTrip`, `HermesAddition`,
  `HermesScalars` to `HermesDocuments`, `HermesEditor`). The editor that puts a plugin into the list
  of a YAML file that can have five shapes, and the reader that is meant to find it there; exactly
  what is listed after an insertion and after a removal; and, for every list with entries written
  plainly or in quotes, what the reader finds and what the editor makes of it.
* **What an approval shows and covers** (`ShellDisplay`, `Fingerprint`, `FingerprintedRequests`).
  The displayed command is read back by the quoting and token rules of sections 2.2.1, 2.2.2 and 2.3
  of the POSIX.1-2017 Shell Command Language, and the bytes that are hashed determine the whole
  request, so that in a run of the broker only equal commands share an approval.
* **Login limiter, microphone mixer, screen regions** (`LoginLimiters`, `AudioMixers`,
  `ScreenRegions`).

What comes from outside is a parameter: the clock, fresh identifiers, hashes, random values, the
answers of other processes, and which of several equal entries a hash map yields first. Where a
function of the model takes such a choice (`order`, `pick`, `victim`, `evicted`), the results hold
for every choice the code could make.

Findings about the code:

* A pending root command can have no waiter: its requester left while the password was checked, and
  the check failed. This is the only way (`AccessPending.AwaitedUnlessReturned`).
* After `ensure` the Hermes reader finds the plugin unless it stands in a flat list only below the
  first line of another indent, where the editor looks and the reader does not
  (`HermesResults.ContainedExactly`). After a removal it still finds the plugin if the plugin was
  listed twice, because only the first entry goes (`HermesRemoval.StillContained`). A text whose
  lines end in carriage returns loses them on the way there and back
  (`HermesRoundTrip.RemoveUndoesEnsure`).
* An operation on a terminal that is there all along can be answered "not found". It is, exactly
  when the last step that touched its owner entry since the call's own listing, that listing
  included, did not put it in (`BrokerLookups.SecondLookupMisses`). One call alone is enough, when a
  draining broker does not answer its listing (`BrokerLookups.OneCallMisses`); so are two listings
  that are older than the terminal and finish at the wrong moments, with every broker answering
  (`BrokerLookups.LiveTerminalReportedMissing`).
* Redacted output as a whole can still hold a pattern, where a copied part meets a marker, before
  it, after it or on both sides. Unless the marker is empty, it can exactly when a few pieces, no
  more than the pattern is long, already show it (`RedactedOutput.OutputCleanExactly`); with a
  marker that lies in no pattern and holds none, exactly when a pattern joins it
  (`RedactedOutput.CleanUnlessJoined`). The markers that the code chooses do not rule it out
  (`RedactedOutput.ChosenMarkerJoins`, `RedactedOutput.ChosenMarkerEnds`,
  `RedactedOutput.ChosenMarkerInside`). What is copied between two markers never holds one
  (`Redaction.CopiedRunsAreClean`).
* A 32-bit sum of samples is safe for a number of peers if and only if it is at most 65,536
  (`AudioMixers.SumFitsExactly`); above that it can wrap in a release build, and a mix can lie
  outside the samples that went into it (`AudioMixers.MixedIsBetweenExactly`).
* Each reset or eviction of a client's window lets eight more attempts through
  (`LoginLimiters.AtMostFifteen`), and no fewer can be promised (`LoginLimiters.FifteenIsReached`).

## Model

| member | source | states |
|---|---|---|
| AccessRuns.TablesAgree | src/access.rs:644-1355 | in every reachable state grant names are unique per terminal, every open share has a live grant of its terminal and name with the same value, every other share holds no value, there is one secret request per name and none for a granted name, each still waited for, and all limits per terminal hold |
| AccessRuns.StepGood | src/access.rs:644-1768 | every operation, including each lock section of an approval with any other operation in between, keeps the invariant and only extends the history |
| AccessRuns.LaterKeeps | src/access.rs:644-1768 | over any part of a run nothing that was filed, closed or sent is taken back |
| AccessRuns.WaitersAreSubscriptions | src/access.rs:503-562 | the waiter count of each request and share is the number of live subscriptions to it, so a subtraction never finds zero |
| AccessRuns.ApprovalFindsNoDuplicate | src/access.rs:904-918 | approving a secret never finds its name already granted |
| AccessRuns.SharingFindsRoom | src/access.rs:1161-1199 | a full share table with fewer than eight open shares always has a resolved one to forget |
| AccessRuns.ReplacingSucceeds | src/access.rs:1039-1104 | generating with replace never fails once it has revoked the old grant |
| AccessRuns.ClosedForGood | src/access.rs:1896-1965 | a share that left Pending keeps its final state and its channel, or is forgotten, for ever |
| AccessRuns.OneOutcome | src/access.rs:1233-1355 | the channel of a share carries nothing while it is open and exactly one terminal event once it is closed: Viewed, Dismissed or Expired, as its final state is |
| AccessRuns.RevealCloses | src/access.rs:1273-1325 | a reveal returns the value the share was filed with and closes it |
| AccessRuns.RevealedAtMostOnce | src/access.rs:1273-1355 | no share is revealed twice, or after it was dismissed, expired or cleared |
| AccessRuns.OneRunAsFiled | src/access.rs:1379-1474 | a request has at most one approval in flight and at most one run is started for it, of the command filed under it |
| AccessRuns.RunsAreApproved | src/access.rs:1379-1767 | every started run has the command, directory, digest and identities filed under the very hash that an approver supplied for it |
| AccessRuns.RejectSparesRunning | src/access.rs:948-995 | rejecting leaves alone every request that is being authenticated or runs |
| AccessRuns.DetachSparesRunning | src/access.rs:1639-1671 | losing a waiter removes no request that is being authenticated or runs, nor changes its state |
| AccessPending.PendingWithoutWaiter | src/access.rs:1433-1446 | a sequence of operations that leaves a pending root command without waiters |
| AccessPending.AwaitedUnlessReturned | src/access.rs:1379-1474 | a step leaves a pending request without waiters if and only if it returns an abandoned one to pending |
| AccessChanges.StepChanges | src/access.rs:644-1768 | every operation keeps the table of requests, joins, files, marks or leaves one, or drops some, with only requests filing, only a failed check returning one to pending, no last waiter left on a pending one, and only the sections of an approval touching approvals |
| AccessAccounts.StepAccounts | src/access.rs:644-1768 | what every operation does to every entry of the tables of requests, grants, shares, executions and approvals, and what it sends on every channel, given only the operation, its answer and the entry before |
| AccessAnswers.StepAnswers | src/access.rs:644-1768 | exactly what each operation answers, with the limits in numbers and the checks in their order: for a revocation done if and only if the terminal has that grant |
| AccessLedger.StepBooks | src/access.rs:644-1768 | what every operation records as activity, by how much it moves the revision, and what it does to subscriptions, runs and what was filed |
| AccessOutcomes.RevokedForGood | src/access.rs:997-1014 | in every run a revocation is done if and only if that id is a grant of that terminal; it is then in no later state and every other grant is unchanged, and else none changes |
| AccessOutcomes.GrantsMove | src/access.rs:819-1104 | in a run a grant appears if and only if it was added, generated, or approved under the filed hash, with the given terminal, name and value; it leaves if and only if it was revoked, replaced or its terminal cleared; another keeps all three |
| AccessOutcomes.GrantsComeFrom | src/access.rs:819-1104 | every grant of a reachable state was put in by an earlier operation, with its terminal, name and value |
| AccessOutcomes.ExecutesExactly | src/access.rs:1476-1538 | a command runs with a secret if and only if it is granted at that moment and fewer than eight executions are open |
| AccessOutcomes.CarriesWhatWasSent | src/access.rs:503-562 | in every run a channel carries an event if and only if an operation sent it |
| AccessOutcomes.ToldHowItEnded | src/access.rs:1233-1355 | in every run those who wait for a share are told Viewed if and only if it was revealed, Dismissed if and only if it was dismissed, Expired if and only if an expiry or a withdrawal closed it, a failure if and only if its terminal went, and nothing twice |
| AccessOutcomes.WaitTold | src/access.rs:1233-1263 | in every run waiting for a closed share answers the event that its channel carries, and waiting for an open one attaches to a channel that carries none |
| AccessOutcomes.VictimIsOldest | src/access.rs:1161-1199 | the share that makes room is a closed one of the terminal, resolved no later than any other |
| FingerprintedRequests.JoinedCommandsAreEqual | src/access.rs:731-790 | in every run, under a hash without collisions, who joins a pending root command asked for the same terminal, directory, arguments, digest and file identities as the request that was filed |
| AccessSubscriptions.AccessSubscription.Poll | src/access.rs:532-550 | one poll takes the queued event, else the next on the channel, the overflow failure or the end, and after a terminal event nothing |
| AccessSubscriptions.TerminalIsLast | src/access.rs:532-550 | whatever is sent, a subscriber is given at most one terminal event, as the last |
| AccessSubscriptions.InOrder | src/access.rs:532-550 | however the channel grows, a subscriber is given what was queued for it and then the events from where it joined, in order and without a gap, or with the overflow failure as the last |
| AccessSubscriptions.CatchesUp | src/access.rs:532-550 | a subscriber that has not fallen behind and polls often enough has been given all of it |
| AccessSubscriptions.FallsBehind | src/access.rs:532-550 | one that is more than 256 events behind is told that and nothing more |
| AccessSubscriptions.OneEventChannel | src/access.rs:532-550 | on a channel with one event a subscriber is given what it had queued and that event, and no more |
| AccessSubscriptions.ShareSubscriber | src/access.rs:503-550 | who joins an open share and polls at any later moments is told to wait and then its one outcome, never that it lagged |
| AccessSubscriptions.ShareSubscriberIsTold | src/access.rs:503-550 | who joins an open share and polls twice or more, the last time when it is closed, has been given exactly the wait and the outcome |
| AccessBadges.PopulatePendingRequestCounts | src/access.rs:614-642 | each listed terminal gets its pending requests plus the pending shares that are not due, the first of equal ids only, saturated, and in a sound broker that is what a snapshot of the moment, which expires shares first, shows as pending; the broker stays as it is |
| AccessBadges.BadgeMatchesSnapshot | src/access.rs:580-642 | at one moment that count is what a snapshot, which expires shares first, still shows as pending |
| AccessManagers.AccessManager.RequestSecret | src/access.rs:644-719 | joins the request for the name or files a new one, refuses a granted name or a full table, exactly as specified, and keeps the invariant |
| AccessManagers.AccessManager.RequestSudo | src/access.rs:721-813 | joins a pending request with the same fingerprint, description and agent, refuses one that differs or a full table, else files the command |
| AccessManagers.AccessManager.AddSecret | src/access.rs:819-879 | grants a name once, answers the waiting requests for it, and records it |
| AccessManagers.AccessManager.ApproveSecret | src/access.rs:881-946 | grants what a pending secret request asked for under the reviewed hash, with the source's refusals in its order |
| AccessManagers.AccessManager.Reject | src/access.rs:948-995 | takes a pending request out under the reviewed hash and tells its waiters |
| AccessManagers.AccessManager.RevokeGrant | src/access.rs:997-1014 | takes a grant out, withdraws the open shares of its name and records both |
| AccessManagers.AccessManager.GenerateSecret | src/access.rs:1019-1104 | refuses a granted name unless told to replace it, then withdraws its shares, and grants the new value |
| AccessManagers.AccessManager.ShareSecret | src/access.rs:1118-1229 | expires shares, then joins the open one of the name, refuses, or offers the grant's value, forgetting the oldest resolved share when full |
| AccessManagers.AccessManager.WaitShare | src/access.rs:1233-1263 | attaches to an open share and answers at once for a resolved one |
| AccessManagers.AccessManager.RevealShare | src/access.rs:1273-1325 | hands out the value of an open share once, clears it and tells its waiters |
| AccessManagers.AccessManager.DismissShare | src/access.rs:1327-1355 | clears an open share and tells its waiters |
| AccessManagers.AccessManager.BeginSudo | src/access.rs:1386-1432 | the first lock section of an approval: checks terminal, hash, state and kind, and marks the request as authenticating |
| AccessManagers.AccessManager.AuthFailed | src/access.rs:1433-1446 | a failed password check puts the request back to pending if it is still there |
| AccessManagers.AccessManager.StartSudo | src/access.rs:1457-1465 | marks the request as running, or reports that it is gone |
| AccessManagers.AccessManager.FinishSudo | src/access.rs:1719-1743 | a finished command removes the request, records its result and tells the waiters |
| AccessManagers.AccessManager.FailRequest | src/access.rs:1748-1767 | a failure removes the request if it is still there, tells its waiters and records it |
| AccessManagers.AccessManager.ExecuteSecret | src/access.rs:1476-1538 | registers an execution of a granted secret below the limit and stamps the grant |
| AccessManagers.AccessManager.DetachWaiter | src/access.rs:1639-1671 | one subscriber less; a pending request without any is cancelled and recorded |
| AccessManagers.AccessManager.ExpireSharesLocked | src/access.rs:1903-1936 | resolves exactly the open shares that are due, clears their values, tells their waiters once each, records them, and forgets those kept too long |
| AccessManagers.AccessManager.WithdrawSharesLocked | src/access.rs:1941-1965 | resolves exactly the open shares of a terminal and name |
| AccessManagers.AccessManager.ClearTerminal | src/access.rs:1540-1581 | removes everything of a terminal and tells all its waiters |
| AccessManagers.AccessManager.ClearInactiveTerminals | src/access.rs:1582-1629 | removes everything of the terminals that are not active and tells all their waiters |
| AccessManagers.AccessManager.PushActivity | src/access.rs:1988-2011 | puts a record first, keeps at most a hundred, and bumps the revision with wrap-around |
| Redaction.ChunksDoNotMatter | src/access.rs:2232-2263 | for every way of cutting a stream into chunks the outputs together are the leftmost, longest-first redaction of the whole stream |
| Redaction.HeldTailIsShort | src/access.rs:2237-2243 | what is held back between calls is shorter than the longest pattern, and nothing after the last call |
| Redaction.OccurrencesAreReplaced | src/access.rs:2246-2258 | every occurrence of a pattern begins inside a replaced stretch |
| Redaction.CopiedRunsAreClean | src/access.rs:2246-2258 | what is copied between two markers contains no pattern |
| Redaction.NothingLost | src/access.rs:2246-2258 | copied bytes and replaced stretches, in order, are the input |
| Redaction.RedactionMarker | src/access.rs:2432-2458 | the chosen marker is the first that contains no pattern, of the four texts in their order and then of the printable characters, and empty only when all of these do |
| Redaction.NamedMarker | src/access.rs:2432-2458 | the marker is `[REDACTED: name]`, byte for byte, if and only if no pattern is in that |
| RedactedOutput.OutputCleanExactly | src/access.rs:2246-2258 | for every marker, every redacted output is free of patterns if and only if no list of pieces, each a byte or a pattern and scanned as it was put together, and unless the marker is empty no more of them than a pattern is long, shows that pattern from its first piece to its last |
| RedactedOutput.CleanUnlessJoined | src/access.rs:2246-2258 | for a marker that is not empty, lies in no pattern and holds none, every redacted output is free of patterns if and only if no pattern is an end of the marker, a part that is copied, and a beginning of the marker, with patterns before and after that part to fit |
| RedactedOutput.NoOverlapIsClean | src/access.rs:2246-2258 | when no end of the marker begins a pattern, no beginning of it ends one, and it lies inside none, the whole output of every input contains no pattern |
| RedactedOutput.JoinAppears | src/access.rs:2246-2258 | whatever the marker, such a pattern is in the output for what the marker stands for before the copied part, that part, and what it stands for after it |
| RedactedOutput.EmptyMarkerMeans | src/access.rs:2432-2458 | the empty marker is chosen only when each of the 94 printable bytes is itself a pattern |
| RedactedOutput.ChosenMarkerJoins | src/access.rs:2246-2258 | for the secret `x[` the marker that the code chooses, whatever the name, begins with what a copied byte lacks, and the output shows the secret |
| RedactedOutput.ChosenMarkerEnds | src/access.rs:2246-2258 | for the secret `]x` the chosen marker ends with what the next copied byte lacks, and the output shows the secret |
| RedactedOutput.ChosenMarkerInside | src/access.rs:2246-2258 | a secret that is a byte and the marker of its own name is shown by that marker after that byte |
| Redaction.CollectVariants | src/access.rs:2266-2323 | the variants are distinct, not empty, and exactly the secret and, for 4 to 1024 bytes, its encodings |
| Redaction.OutputRedactor.constructor | src/access.rs:2207-2230 | keeps exactly the given patterns, longest first, with the marker that is chosen for them |
| Redaction.OutputRedactor.Push | src/access.rs:2232-2263 | the buffer, limit and loop of one call return and keep exactly what one step of the stream does |
| Redaction.StreamChild | src/access.rs:2149-2174 | what a command prints comes out as the redaction of all of it, for a set of patterns that holds the secret and its encodings, with the marker that is chosen for them |
| Base32.EncodeBase32 | src/access.rs:2332-2356 | the accumulator loops write the encoding of section 6 of RFC 4648; the accumulator never loses a bit in 16 |
| Base32.SymbolIs | src/access.rs:47 | the symbols are those of table 3 of RFC 4648 |
| Base32.EncodedLength | src/access.rs:2332-2356 | eight symbols for every five bytes begun |
| Base32.RoundTrip | src/access.rs:2332-2356 | a strict decoder gives back exactly the encoded bytes |
| BrokerRuns.OnlyEmptyBrokersAreStopped | src/broker.rs:954-1013 | in every interleaving a broker is sent shutdown only while it holds no terminal, exited ones included, and the current one never |
| BrokerRuns.StoppedForGood | src/broker.rs:935-1013 | a broker that acknowledged a shutdown does not run, is neither current nor draining nor taken out by a call, and is never asked to shut down again |
| BrokerRuns.GenerationsAreDistinct | src/broker.rs:925-1013 | draining names no generation twice, nor the current one, nor one that is taken out; no two calls take out the same |
| BrokerRuns.FailedShutdownReturns | src/broker.rs:994-1000 | whatever other calls and brokers do in between, a generation whose shutdown fails is in no list and with no other call until it goes back, once |
| BrokerRuns.OwnersAreCreators | src/broker.rs:1015-1106 | every owner entry names the broker that created the terminal, and no operation was ever sent to another |
| BrokerRuns.NoTerminalIsOrphaned | src/broker.rs:925-1106 | every running broker that holds a terminal is among those a listing asks, and no other holds it |
| BrokerRuns.OneCreatorAtATime | src/broker.rs:1059-1099 | at most one create or rename is past the lock |
| BrokerOutcomes.RoundOf | src/broker.rs:954-1013 | whatever others do in between, a round asks each generation that drains when it starts once and no other, and its history in the round is one of seven: busy, silent, empty and found out by another, empty, taken out and stopped and forgotten, empty, taken out, not stopped and put back, gone and found out by another, gone, taken out and forgotten |
| BrokerOutcomes.ShutdownExactly | src/broker.rs:954-1013 | a shutdown is sent in the round if and only if the generation answered while it held no terminal and still drained when the round took it out |
| BrokerOutcomes.DeedDoes | src/broker.rs:935-1013 | what each of these does to the tables: out of the draining list, a shutdown on record, back at its end, exactly the owners of that generation gone |
| BrokerOutcomes.EmptyBrokerRetires | src/broker.rs:954-1013 | whatever else is in flight, a round can retire a draining broker that runs and holds nothing |
| BrokerOutcomes.AcknowledgedShutdown | src/broker.rs:954-1013 | a reachable run that ends with an acknowledged shutdown |
| BrokerCalls.EveryCall | src/broker.rs:1015-1106 | whatever others do in between, every list, create, rename, use and remove that returns has run one of the courses of its kind: lock, list, replace, look, send, record, forget |
| BrokerCalls.ActDoes | src/broker.rs:925-1106 | what each act of a call does to the tables: a created terminal is recorded as of the current broker, an operation goes to the broker of the entry, a removed terminal is forgotten, a second miss is reported |
| BrokerCalls.AsksEvery | src/broker.rs:1015-1042 | a listing that gets to its end has asked the current generation and every draining one of its start, each once and in order |
| BrokerCalls.SameCall | src/broker.rs:1015-1106 | a call stays about the terminal it was made for |
| BrokerLookups.SecondLookupMisses | src/broker.rs:1015-1057 | in every interleaving a call reports a terminal missing if and only if the last step that touches its owner entry, from the write of its own listing on, does not put it in; else the operation goes to the creator |
| BrokerLookups.ListingFinds | src/broker.rs:1015-1042 | a listing finds a terminal if and only if a generation that held it answered |
| BrokerLookups.OneCallMisses | src/broker.rs:1020-1057 | one call alone reports a terminal missing that is held before and after each of its steps, when one draining broker does not answer its listing |
| BrokerLookups.LiveTerminalReportedMissing | src/broker.rs:1015-1057 | with every broker answering, two older listings make a call report a terminal missing that is held from before the call to after it |
| BrokerPools.BrokerPool.Generations | src/broker.rs:925-931 | the current generation and a copy of the draining ones, as one step of the model |
| BrokerPools.BrokerPool.AddListed | src/broker.rs:1033-1036 | every listed terminal is mapped to the generation that listed it, whatever was found before stays |
| BrokerPools.BrokerPool.ReplaceOwners | src/broker.rs:1042 | the owners become exactly what the listing found |
| BrokerPools.BrokerPool.LookUp | src/broker.rs:1046-1057 | the entry, if there is one, and then it names the creator |
| BrokerPools.BrokerPool.RecordOwner | src/broker.rs:1079-1082 | the new terminal belongs to the current generation, the other entries stay |
| BrokerPools.BrokerPool.ForgetOwner | src/broker.rs:1104 | exactly the entry of the removed terminal goes |
| BrokerPools.BrokerPool.ForgetDraining | src/broker.rs:935-945 | takes exactly that generation out, keeps the order of the others, and says whether it was there |
| BrokerPools.BrokerPool.ForgetOwners | src/broker.rs:947-952 | exactly the entries of that generation go |
| BrokerPools.BrokerPool.Candidates | src/broker.rs:955 | a retirement round starts from a copy of the draining generations, never the current one |
| BrokerPools.BrokerPool.PutBack | src/broker.rs:994-995 | the generation goes to the end of a list it was not in |
| HermesResults.ContainedIsUnchanged | src/agent_integrations.rs:1182-1360 | what the reader finds, the editor leaves as it is |
| HermesResults.ChangedIsContained | src/agent_integrations.rs:1182-1360 | what the editor changes, the reader then finds |
| HermesResults.EnsureTwice | src/agent_integrations.rs:1235-1360 | adding the plugin twice is adding it once, for every text |
| HermesResults.ContainedExactly | src/agent_integrations.rs:1222-1229 | after adding, the reader finds the plugin unless it stands in a flat list only below the first line of another indent, and then it does not |
| HermesResults.EnsuredButNotContained | src/agent_integrations.rs:1331-1350 | a text with the plugin as an item, that adding leaves as it is, and in which the reader does not find it |
| HermesResults.PlainKept | src/agent_integrations.rs:1247-1360 | every plain entry the reader saw before it still sees after |
| HermesAddition.AddedExactly | src/agent_integrations.rs:1182-1360 | for every text and name the reader finds the name after adding if and only if, where nothing was added, it found it before, and else the list that is written has it: exactly what was listed, what the items of a sequence read as on their own lines, and the items of lines that come to be in the new list |
| HermesResults.OthersExactly | src/agent_integrations.rs:1293-1350 | in block and flat lists the reader sees the same other entries, no more and no fewer |
| HermesResults.InlineExactly | src/agent_integrations.rs:1315-1329 | a rewritten inline list lists exactly what its items read as on their own lines |
| HermesResults.AppendedContains | src/agent_integrations.rs:1250-1259 | a text without plugins comes to enable this one and no other |
| HermesResults.ToggledBack | src/agent_integrations.rs:1278-1290 | of the items of a flow sequence too, removal takes out what was put in |
| HermesRoundTrip.RemoveUndoesEnsure | src/agent_integrations.rs:1235-1350 | in block and flat lists removal gives back the very text that the plugin was added to if and only if no line that the editor ends had a carriage return at its end |
| HermesRoundTrip.RemovalRestoresReading | src/agent_integrations.rs:1182-1350 | in block and flat lists the reader sees after adding and removing what it saw before, for every text and name |
| HermesRemoval.StillContained | src/agent_integrations.rs:1182-1360 | the reader still finds the plugin after a removal if and only if the text listed it once more: on another line it reads, among the other items, or below a flow sequence |
| HermesRemoval.RemovedExactly | src/agent_integrations.rs:1182-1360 | after a removal that changes the lines the reader finds a name if and only if it stands, without the line or item taken out, where the new list is |
| HermesRemoval.RemovalKeepsOthers | src/agent_integrations.rs:1293-1312 | a removal from a block list leaves every other entry that the reader sees, and adds none |
| HermesRemoval.RemovedButContained | src/agent_integrations.rs:1293-1312 | a text from which the plugin is removed and in which the reader still finds it |
| HermesRemoval.JoinedReads | src/agent_integrations.rs:1547-1553 | whatever lines the editor writes, a blank last one too, the reader sees those lines |
| HermesEditor.UpdateHermesEnabledPlugin | src/agent_integrations.rs:1247-1360 | the editor over a list of lines computes the function the results are about |
| HermesEditor.HermesEnabledPluginsContain | src/agent_integrations.rs:1182-1233 | the reader, with its own search for each shape, computes the function the results are about |
| HermesEditor.YamlFlowSequenceItems | src/agent_integrations.rs:1458-1503 | the scan with quote and escape state splits a flow sequence as specified |
| HermesEditor.StripYamlInlineComment | src/agent_integrations.rs:1518-1545 | the scan with quote and escape state cuts a comment as specified |
| HermesLines.LinesOfJoined | src/agent_integrations.rs:1547-1553 | the lines of the joined text are the lines that were joined, but for carriage returns |
| HermesLines.SimilarListed | src/agent_integrations.rs:1182-1233 | a carriage return at the end of a line never changes what the reader sees |
| YamlText.SimpleIsPlain | src/agent_integrations.rs:1505-1516 | without quotes, comment signs and outer white space an entry reads as itself |
| HermesScalars.WrittenReads | src/agent_integrations.rs:1505-1545 | an entry between double or single quotes, or as it is when it needs none, is read as itself, with white space around it and a comment after it |
| HermesEntries.EntryLineIs | src/agent_integrations.rs:1403-1456 | the line of such an entry lists it and nothing else, and is no key |
| HermesFlows.FlowReads | src/agent_integrations.rs:1458-1503 | a flow sequence of such entries is read as exactly these, commas in quotes included |
| HermesDocuments.WrittenInBlock | src/agent_integrations.rs:1182-1312 | in any text with a block list that has such a line for the plugin: it is found, adding changes nothing, and removing takes out the first such line and no other |
| HermesDocuments.WrittenInFlat | src/agent_integrations.rs:1182-1350 | the same of a flat list |
| HermesDocuments.WrittenInEnabledFlow | src/agent_integrations.rs:1182-1290 | in any text with a flow sequence at `enabled:` the reader finds exactly its entries, and removing takes out the first for the plugin and no other |
| HermesDocuments.WrittenInInline | src/agent_integrations.rs:1182-1329 | the same of a sequence at `plugins:` |
| HermesDocuments.BlockDocument | src/agent_integrations.rs:1182-1312 | for every block list the reader finds exactly its entries, adding puts the plugin first unless it is there, and removing takes out its first entry |
| HermesDocuments.FlatDocumentIs | src/agent_integrations.rs:1182-1350 | the same of every flat list |
| HermesDocuments.FlowDocumentIs | src/agent_integrations.rs:1182-1329 | for every flow sequence the reader finds exactly its entries, and the editor leaves it or rewrites it with one line for each name |
| ShellDisplay.DisplayReadsBack | src/access.rs:2695-2717 | the tokens of a displayed command are exactly its arguments, for every list of strings |
| ShellDisplay.DisplayIsInjective | src/access.rs:2695-2717 | two commands that are displayed alike are the same |
| ShellDisplay.ShownAsItIs | src/access.rs:2695-2717 | an argument is shown as it is if and only if it is not empty and made of the safe characters; any other stands between quotes |
| Fingerprint.HashInput | src/access.rs:2719-2726 | the loop gives the hash each part after its length in eight bytes |
| Fingerprint.FirstPartFramed | src/access.rs:2719-2726 | the first eight bytes are the length of the first part, most significant byte first, then comes the part |
| Fingerprint.FramingIsInjective | src/access.rs:2719-2726 | different lists of parts, shorter than 2^64 bytes each, never give the hash the same bytes |
| Fingerprint.FingerprintsAgreeOnlyOnEqualCommands | src/access.rs:731-745 | two root commands hash the same bytes only if terminal, directory text, arguments, digest and both file identities are equal |
| LoginLimiters.AtMostFifteen | src/auth.rs:340-366 | over every run of attempts and resets, with a clock that does not go back, at most fifteen attempts of a client are accepted in any 900 seconds, and eight more for each reset or eviction of its own window |
| LoginLimiters.FifteenIsReached | src/auth.rs:340-366 | for every number of resets of its window, a run that reaches that bound |
| LoginLimiters.RefusedThenAccepted | src/auth.rs:340-366 | over every run of attempts and resets a refusal names 1 to 900 seconds; while the window of the client is not reset or evicted, every attempt before their end is refused and the first one after it accepted |
| LoginLimiters.StaysSmall | src/auth.rs:345-353 | an attempt never leaves more than 4096 windows |
| LoginLimiters.EvictedEndsFirst | src/auth.rs:345-353 | over every run a window is evicted if and only if the client has none that still runs while 4096 others have, and it is one that ends first |
| LoginLimiters.RunStaysSmall | src/auth.rs:340-370 | no run of attempts and resets leaves more than 4096 windows |
| LoginLimiters.LoginLimiter.Consume | src/auth.rs:341-366 | drops elapsed windows, makes room by the one that expires soonest, counts the attempt and answers, exactly as specified |
| LoginLimiters.LoginLimiter.Reset | src/auth.rs:368-370 | exactly the window of that client goes |
| AudioMixers.SumFits | src/audio.rs:645-651 | sums of up to 65,536 samples never leave 32 bits |
| AudioMixers.SumFitsExactly | src/audio.rs:645-651 | for a number of peers the sums fit, whatever the samples, if and only if it is at most 65,536 |
| AudioMixers.OnePeerMoreWraps | src/audio.rs:645-651 | with 65,537 peers the mix of the lowest samples is a positive one |
| AudioMixers.MixedIsBetween | src/audio.rs:644-657 | every mixed sample lies between the least and the greatest that went in, so the clamp changes nothing |
| AudioMixers.MixedIsBetweenExactly | src/audio.rs:644-657 | for a number of peers every mix lies between the least and the greatest sample, whatever the samples, if and only if it is at most 65,536 |
| AudioMixers.OrderDoesNotMatter | src/audio.rs:630-657 | whichever order the map yields the peers in, the mix is the same, for any number of peers |
| AudioMixers.FramesAreConserved | src/audio.rs:613-643 | after any pushes, ticks and retains, for each peer retained: pushed is played plus dropped plus queued, the queue is the last that was pushed, and those played are a subsequence, in order, of those pushed |
| AudioMixers.HeardExactly | src/audio.rs:630-643 | over every run, at a tick a peer plays exactly its oldest queued frame if and only if its queue is not empty and some tick since it last found the queue empty, this one included, found three or more |
| AudioMixers.HeardUntilEmpty | src/audio.rs:630-643 | a peer with three queued frames is heard at the next tick and goes on at every tick until one finds its queue empty |
| AudioMixers.PushedExactly | src/audio.rs:613-624 | over every run a whole frame goes to the end of a queue of fewer than 25 and to the last three of a queue of 25, which drops 22; anything else changes nothing |
| AudioMixers.MixedRoundsTowardZero | src/audio.rs:644-657 | for up to 65,536 peers a mixed sample is the sum over their number, rounded toward zero |
| AudioMixers.AudioMixer.Push | src/audio.rs:613-624 | ignores all but whole frames, cuts a full queue to its last three, and queues the frame; queues never exceed 25 |
| AudioMixers.AudioMixer.TickAll | src/audio.rs:631-643 | every buffer ticks, each peer once, and what is mixed is the oldest queued frame of every peer that is heard by `HeardExactly` |
| AudioMixers.AudioMixer.MixInto | src/audio.rs:630-659 | every sample of the output is the mix of the oldest queued frames of the peers that are heard by `HeardExactly` |
| AudioMixers.AudioMixer.Retain | src/audio.rs:626-628 | exactly the active peers stay, with their queues |
| ScreenRegions.LineStarts | src/agent_detection.rs:660-675 | the scan for line feeds finds where each line of `lines()` starts, one position for each |
| ScreenRegions.LinesAreOfSegments | src/agent_detection.rs:660-685 | line by line, the text between two starts is the line with its end |
| ScreenRegions.SlicesAreSegments | src/agent_detection.rs:677-685 | slicing at a line start cuts the text between lines |
| ScreenRegions.PromptBoxTopBorderIndex | src/agent_detection.rs:786-797 | the top border is the second rule from the end, and missing only with fewer than two rules |
| ScreenRegions.RuleExactly | src/agent_detection.rs:801-823 | a line is a rule if and only if, after white space, it has one rule character or more and then only white space, or three or more |
| ScreenRegions.BlankMeans | src/agent_detection.rs:693-716 | a line counts as blank if and only if all of it is white space |
| ScreenRegions.PromptBoxPartition | src/agent_detection.rs:755-776 | what is above the box, its border, its body and the rest make up the screen |
| ScreenRegions.BodyHasNoRule | src/agent_detection.rs:755-767 | no line of the body is a rule, and with a rule below the top border the body ends at one |
| ScreenRegions.BottomIsShortest | src/agent_detection.rs:693-708 | the shortest text from a line start to the end with that many lines that are not blank, or all there are |
| ScreenRegions.Evaluate | src/agent_detection.rs:448-520 | the winner is the earliest match of greatest priority, and missing only if nothing matched |

## Left out

* Checks of names, descriptions, time limits, passwords and paths (`validate_*`), and the generation of
  random values: easy, and only their outcomes matter here.
* Sorting and formatting in snapshots and listings; `list_grants` and `list_shares`, which only read;
  `drop_grant_by_name`, which looks a grant up and revokes it.
* Each lock section reads the clock once here; the source reads it again for each activity record.
* The hash functions, the file digests and identities, and the sudo password check: their results are
  parameters. The comparison of files before a run is the choice between start and abort.
* Cancelling a secret command when its requester leaves, spawning processes and reading their pipes. The
  output channel of a secret execution is not one of the channels whose history is kept.
* Waiter and revision counters: the revision wraps at 64 bits as in the source; waiter counts are unbounded.
* A running root command whose terminal is cleared may send a second terminal event on its channel; what
  is claimed is what a subscriber is given (`AccessSubscriptions.TerminalIsLast`).
* Broker discovery and start, health and settings calls, automatic names and the check that a name is
  unique (it is the `refused` choice), the pool-wide shutdown, and reaping of processes.
* A socket that refuses connections is taken as that of a broker that does not run.
* Compiling and matching the gates of detection rules: regular expressions are not part of this model.
* Positions in screens are counted in characters, not bytes; indents of YAML lines are counted in bytes.
* Password hashing, sessions, cookies, HTTP and WebSocket routes, terminals and the browser client.
- Redaction.StreamChild: the other encodings (base64, hexadecimal, percent, escapes, octal, binary and
  digests) are a parameter, because only their being patterns matters; the two pipes are one stream of chunks.
- LoginLimiters.LoginLimiter.Consume: times are unbounded, because adding 900 seconds overflows 64 bits only
  in a far future.
- ScreenRegions.Evaluate: whether each gate matches is a parameter, and the evidence that is collected for
  display is not kept.
