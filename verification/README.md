# fv-ssh-unlock: a verified model

fv-ssh-unlock watches Macs whose disks are locked by FileVault, and sends the
unlock password over SSH to the pre-boot server when a machine restarts. This
project models the parts of it where a mistake would release a password twice,
trust a key nobody verified, or lose what an operator decided, and proves what
those parts promise.

How the parts fit together, with the modules that hold them:

- The monitor (`MonitorPolicy`, `MonitorEngine`, `MonitorRuns`,
  `MonitorSafety`, `MonitorEpisodes`, `MonitorCooldown`, `MonitorCrashes`,
  `MonitorLatches`, `LazySaving`). One record per device, in memory and in a
  lazily written state file. `Engine` updates the fields in place as the
  source does and is proved to take exactly the steps of the policy; the runs
  interleave any number of polls and operator clears with adversarial probe
  results, unlock replies, failed saves, crashes and restarts. A failed save
  leaves either the old or the new file, because the replacement can report
  failure after the rename (internal/securefs/replace_unix.go:16-25).
- The unlock adapter (`PlainText`, `BannerText`, `SuccessPhrase`,
  `SshExchange`, `UnlockAdapter`, `UnlockReplies`). An SSH authentication
  exchange is an arbitrary sequence of banners (section 5.4 of RFC 4252) and
  keyboard-interactive requests (sections 3.2 to 3.4 of RFC 4256).
  `ComposedRuns` puts the adapter under the monitor, so that the main theorem
  no longer assumes anything of it.
- The candidate inbox (`TextOrder`, `InboxData`, `InboxSteps`,
  `InboxInvariant`, `InboxIngest`, `InboxBatches`, `InboxOperations`,
  `InboxReopen`, `InboxRuns`, `InboxTheorems`, `InboxGathering`,
  `InboxRetention`, `InboxMeaning`, `InboxLoading`, `InboxEntries`, `Inbox`).
  `InboxSteps` specifies the operations on one abstract value;
  `CandidateInbox` carries them out in place, with loops that visit maps in
  any order; the theorems are about the specified steps and about runs of
  them.
- Enrollment (`KnownHosts`, `ConfigStore`, `Enrollment`, `EnrollmentSafety`,
  `EnrollmentRuns`, `EnrollmentDaemon`). Three stores written in sequence and
  undone in reverse, while other processes write the same files.
- Arithmetic and shutdown (`BoundedTime`, `ShutdownGates`), and the values all
  of them share (`Shared`).

Where the code falls short of what one would expect of it, the model follows
the code, a lemma gives the input, and another says exactly when it holds:

- a host name that still ends in a dot is stored but blocks reopening the
  inbox (`InboxReopen.ReopenIffUndotted`,
  `InboxReopen.TwoDotsBlockReopening`);
- a latch whose save failed is not saved again by an identical observation, so
  a crash can forget it (`LazySaving.UnsavedLatchIsForgotten`); it is found
  again exactly when some save reached the file
  (`MonitorCrashes.LatchSurvivesIffWritten`);
- a device left out of the configuration for a while loses its history as soon
  as any save reaches the file (`MonitorCrashes.RemovedDeviceForgets`);
- the cooldown separates authorisations, not releases
  (`MonitorCooldown.CooldownApartIffNotLate`,
  `MonitorCooldown.BoundIsAttained`);
- a registration that fails after the file was replaced leaves the device in
  it (`EnrollmentRuns.LeftEntryStays`), and a failed pin that cannot be read
  back leaves its line
  (`EnrollmentSafety.StrayLineIffUnreadableAfterFailure`);
- a rollback removes an adapter entry of the same name that was there before
  (`EnrollmentRuns.RollbackRestoresAdapterIffNameWasFree`);
- the backoff returns the cap when the doubled delay is one below it
  (`BoundedTime.BackoffIsCappedDoubling`).

Hypotheses that every theorem of a part shares: the clock of the monitor does
not go back; restarts keep the configured devices; random candidate
identifiers are fresh; case folding is transitive; texts are valid UTF-8;
printing what was parsed gives something that parses to itself; a known_hosts
file that contains a key's line does not call its host unknown; and while an
enrollment is in progress no other process writes the very line it has
written.

## Model

| member | source | states |
|---|---|---|
| BoundedTime.ExponentialBackoff | internal/monitor/engine.go:676-691 | The doubling loop stays inside 64 bits and returns the capped backoff `BackoffDelay`, for every failure count |
| BoundedTime.BackoffInRange | internal/monitor/engine.go:676-691 | For 0 < initial <= maximum every delay lies between the two |
| BoundedTime.BackoffMonotone | internal/monitor/engine.go:676-691 | More failures never give a shorter delay |
| BoundedTime.BackoffIsCappedDoubling | internal/monitor/engine.go:676-691 | For every failure count the delay is the capped doubling min(maximum, initial*2^(n-1)), and the plain initial delay below two failures, if and only if it is not the second or a later failure with that value at maximum-1; in that one case it is maximum |
| BoundedTime.DurationSum | cmd/fv-ssh-unlock/daemon.go:808-823 | The accumulating loop returns min(2^63-1, exact sum of the positive budgets) and never wraps |
| BoundedTime.PositiveSumAnyOrder | cmd/fv-ssh-unlock/daemon.go:808-823 | That sum depends on the multiset of budgets only, so the order of the arguments does not matter |
| MonitorPolicy.ProbeKeepsConsistent | internal/monitor/engine.go:261-342 | A probe keeps: attempted implies open episode, latched implies the state shown is the latch's, a locked view implies an open episode |
| MonitorPolicy.StartKeepsConsistent | internal/monitor/engine.go:403-432 | Setting the attempt marker keeps the same invariant, also when its save failed |
| MonitorPolicy.UnlockKeepsConsistent | internal/monitor/engine.go:434-494 | Applying an unlock result keeps the same invariant for every result and error, on a record that is not latched |
| MonitorPolicy.ClearKeepsConsistent | internal/monitor/engine.go:523-556 | An operator clear keeps the same invariant |
| MonitorPolicy.DueMayStart | internal/monitor/engine.go:368-418 | A record for which the probe approved an unlock passes the recheck at any later time, and its episode is open |
| MonitorEngine.New | internal/monitor/engine.go:94-148 | Starts an engine if and only if the options are valid, the file can be read, every device is valid, unique and has an unlocker when it needs one, and no saved state of a device is unknown; it then holds the saved record of every device that has one, and a fresh record for the others |
| MonitorEngine.Engine.Persist | internal/monitor/engine.go:703-711 | One save writes all configured records; a failed one may leave the old or the new file |
| MonitorEngine.Engine.ProbedRecord | internal/monitor/engine.go:261-342 | The branch-by-branch update of a record by a probe equals the field-by-field policy |
| MonitorEngine.Engine.ApplyProbe | internal/monitor/engine.go:261-371 | Takes exactly the probe step, and says for each kind of error and observation what every field becomes; approves an unlock if and only if it is due and any needed save succeeded |
| MonitorEngine.Engine.MarkUnlockStarted | internal/monitor/engine.go:403-432 | Takes exactly the start step: proceeds if and only if the recheck passes and the marker was saved; a failed save keeps the attempt and the cooldown and shows an error |
| MonitorEngine.Engine.RetryAt | internal/monitor/engine.go:503-511 | The next eligible time of a pre-submission retry is now plus the capped backoff |
| MonitorEngine.Engine.UnlockedRecord | internal/monitor/engine.go:434-494 | The branch-by-branch update by an unlock result equals the field-by-field policy |
| MonitorEngine.Engine.ApplyUnlockResult | internal/monitor/engine.go:434-521 | Takes exactly the unlock step and always saves: a credential or host-key failure latches under its kind and keeps the attempt, an acceptance waits for the boot without connect failures, a failure before the submission releases the attempt until now plus the backoff, no answer keeps it |
| MonitorEngine.Engine.ClearLatch | internal/monitor/engine.go:523-556 | Takes exactly the clear step: removes latch and attempt and shows the last observation; a failed save restores the record in memory |
| MonitorEngine.Engine.AddDevice | internal/monitor/engine.go:57-90 | Refuses an invalid device, automatic unlock without an unlocker, and a known name, without any change; otherwise adds a fresh record and saves, and a failed save removes it again from memory |
| MonitorEngine.Engine.Poll | internal/monitor/engine.go:208-248 | An undisturbed poll is probe step, then start step, then unlock step, and the unlocker runs only when the start step was saved |
| MonitorRuns.StepKeepsLocks | internal/monitor/engine.go:208-259 | Every step of every interleaving keeps: one holder per device operation lock, and the semaphore counts exactly the calls between acquire and release |
| MonitorRuns.SomeCallCanProceed | internal/monitor/engine.go:208-259 | No deadlock: while a call is unfinished, some call can take its next step |
| MonitorSafety.StepKeepsInv | internal/monitor/engine.go:208-556 | Every step, with any probe result, reply, save outcome, crash or restart, keeps the safety invariant of memory, file, history and calls in progress |
| MonitorSafety.SubmissionsApart | internal/monitor/engine.go:403-432 | In a history whose submissions each respect the ledger, any two submissions to one device differ in episode or have an operator clear between them, and their authorisations are a cooldown apart |
| MonitorSafety.OneSubmissionPerEpisode | internal/monitor/engine.go:261-556 | Over every run: two submissions to a device in one lock episode have an operator clear between them; otherwise episode numbers strictly increase; each is authorised no earlier than the cooldown after any earlier authorisation |
| MonitorSafety.MarkerIsDurable | internal/monitor/types.go:72-78 | Whenever an unlock is in progress, the file and the memory already show this open episode as attempted, unlatched, with the cooldown running |
| MonitorSafety.RecheckNeverRefuses | internal/monitor/engine.go:403-418 | The recheck never refuses a poll the probe approved: the start step fails only with a failed save |
| MonitorSafety.BoundedAndLive | internal/monitor/engine.go:208-259 | In every reachable state each device has at most one operation in flight, all together at most the concurrency, and some waiting call can proceed |
| MonitorSafety.RecordsConsistent | internal/monitor/engine.go:94-148 | Every record a run leaves in memory or on disk satisfies the record invariant, so no restart finds a state it must refuse |
| MonitorCrashes.LatchSurvivesIffWritten | internal/monitor/engine.go:350-401 | For every list of polls, replies, clears of others and additions with any save outcomes: after a crash a latch that nobody cleared is found again if and only if the file had it already or some attempted save since reached the file |
| MonitorCrashes.RemovedDeviceForgets | internal/monitor/engine.go:703-711 | For every list of operations without the device: it comes back with the record the file had of it if and only if no attempted save reached the file in the meantime, otherwise with a fresh one |
| MonitorCrashes.ForgottenDeviceIsDue | internal/monitor/engine.go:356-371 | After such a run with a save that reached the file, the next locked view authorises an unlock whatever was submitted before |
| MonitorLatches.ReplyLatches | internal/monitor/engine.go:448-454 | In every reachable state a reply with a credential or host-key failure latches the device under that kind, in the file too unless the save kept the old one |
| MonitorLatches.ProbeLatches | internal/monitor/engine.go:261-371 | So does a probe; the latch is in the file exactly when one was there or an attempted save reached it |
| MonitorLatches.NothingBeforeClear | internal/monitor/engine.go:403-418 | Over every run, crashes included: once a device is latched, each later submission to it comes after an operator clear, or, if the latch had not reached the file, after a restart |
| MonitorLatches.FailureStopsAutomation | internal/monitor/engine.go:434-456 | So after a rejected credential or a wrong host key no password goes to the device before an operator clear, unless the save of that step kept the old file and the process restarted |
| MonitorLatches.ClearedDeviceIsDue | internal/monitor/engine.go:523-556 | After a saved clear the next locked view starts an unlock if and only if automatic unlock is on and the cooldown is over, whatever was latched or attempted |
| MonitorEpisodes.EpisodeCounterIsFold | internal/monitor/engine.go:302-342 | Over every run the episode counter never exceeds the number of rises to Locked in the error-free observations; without a failed save it equals that number, and the episode is open exactly while the last conclusive view is Locked |
| MonitorEpisodes.FileAgreesWithMemory | internal/monitor/engine.go:350-401 | Whenever the last save attempted since the process started succeeded, whatever failed before, the file agrees with memory, between steps, on everything that decides an unlock |
| MonitorEpisodes.AgreeMeansUnchanged | internal/monitor/engine.go:387-401 | Records that differ in no persistence-relevant field agree on everything but times, details and probe backoff |
| LazySaving.LazyRefinesEager | internal/monitor/engine.go:350-354 | Saving only relevant changes makes the same unlock decisions as saving every poll, for every sequence of operations and crashes with no failed save |
| LazySaving.UnsavedLatchIsForgotten | internal/monitor/engine.go:350-401 | The hypothesis is needed: after one failed save of a latch, an identical observation does not save again, and a crash forgets the latch |
| MonitorCooldown.ReleasesApart | internal/monitor/engine.go:403-432 | Over every run: the later of two releases comes no earlier than the first release, and no earlier than the cooldown after the first one's authorisation |
| MonitorCooldown.BoundIsAttained | internal/monitor/engine.go:403-432 | For all options and every delay some run has its second release exactly at that bound, after a first release that late |
| MonitorCooldown.CooldownApartIffNotLate | internal/monitor/engine.go:403-432 | Every run keeps releases a cooldown apart if and only if the earlier release was not late or there is no cooldown |
| BannerText.NormalizeKeepsEarlierText | pkg/fvcore/ssh_analyzer.go:55-59 | Normalising a longer text keeps the normalised earlier lines as its beginning |
| BannerText.SuccessStays | pkg/fvcore/ssh_analyzer.go:571-590 | More text never takes a detected success back |
| BannerText.LockedBannerHasNoSuccessPhrase | pkg/fvcore/ssh_analyzer.go:571-590 | The locked banner does not contain the success phrase |
| BannerText.LockedBannerIsNeverSuccess | pkg/fvcore/ssh_analyzer.go:571-590 | No re-wrapping or re-casing of the locked banner is a success, for any custom success message |
| BannerText.LockedBannerIsLocked | pkg/fvcore/ssh_analyzer.go:592-596 | Every re-wrapping of the locked banner is recognised as locked and as no success |
| BannerText.PromptIsPasswordQuestion | pkg/fvcore/ssh_analyzer.go:523-525 | A question is the password question if and only if it is white space, the letters of `Password:` in either case, and white space |
| SuccessPhrase.SuccessIffSpelled | pkg/fvcore/ssh_analyzer.go:571-590 | A text is a success if and only if, in lower case, it has the three words of the phrase one after the other with any white space between them, or all of a caller's message that is long enough and neither part of the locked banner nor the prompt |
| SuccessPhrase.LockedIffSpelled | pkg/fvcore/ssh_analyzer.go:592-596 | A text is a locked banner if and only if it has the three words of that phrase with any white space between them |
| SshExchange.AuthTrace.constructor | pkg/fvcore/ssh_analyzer.go:170-182 | A new trace has seen no prompt, no answer and no text |
| SshExchange.AuthTrace.RecordPasswordPrompt | pkg/fvcore/ssh_analyzer.go:192-204 | Accepts the first password prompt only, and records whether it was answered |
| SshExchange.AuthTrace.RecordResponseText | pkg/fvcore/ssh_analyzer.go:206-218 | Collects response text after the answer and sets the sticky success flag exactly as the specified callback |
| SshExchange.AuthTrace.OnBanner | pkg/fvcore/ssh_analyzer.go:265-312 | The banner callback takes the specified step and reply |
| SshExchange.AuthTrace.OnChallenge | pkg/fvcore/ssh_analyzer.go:265-312 | The keyboard-interactive callback takes the specified step and reply for every instruction, question list and echo list; what it answers is `SshExchange.PasswordAnswersFirstQuestion` |
| SshExchange.AuthTrace.MarkTransportTransition | pkg/fvcore/ssh_analyzer.go:226-230 | Records that the service went away, and nothing else |
| SshExchange.PasswordSentAtMostOnce | pkg/fvcore/ssh_analyzer.go:261-312 | For every sequence of server events the password goes out at most once, only to a single hidden password question, never from a status probe, and the trace knows whether it did |
| SshExchange.PasswordAnswersFirstQuestion | pkg/fvcore/ssh_analyzer.go:261-288 | For every server the password answers an event if and only if the client may answer and the event is the first single hidden question that spells `Password:` between white space |
| SshExchange.ClientAnswers | pkg/fvcore/ssh_analyzer.go:184-218 | The display is everything the server said, every other question is refused, and the client stops exactly at a text after which the success is known |
| SshExchange.PostAuthIsTextAfter | pkg/fvcore/ssh_analyzer.go:206-218 | The collected text is exactly the responses after the answered prompt |
| SshExchange.SuccessIsBatchSuccess | pkg/fvcore/ssh_analyzer.go:206-218 | Incremental detection equals batch detection: the flag is set if and only if all text after the password, read as one, shows a success |
| SshExchange.NoPasswordNoSuccess | pkg/fvcore/ssh_analyzer.go:166-218 | A server that was never given the password cannot cause a success |
| SshExchange.LockedBannerAfterPasswordIsNoSuccess | pkg/fvcore/ssh_analyzer.go:206-218 | A server that answers the password with the locked banner, however wrapped, is never taken for unlocked |
| UnlockAdapter.AdapterHonoursContract | internal/monitor/types.go:53-62 | For every server behaviour and connection end, a reply that permits another attempt in the same episode means the password was not sent |
| UnlockAdapter.ReplyMeaning | cmd/fv-ssh-unlock/daemon.go:762-806 | What each reply proves: clean acceptance, ambiguous acceptance, and that after a sent password only latching failures are reported without acceptance |
| UnlockReplies.ReplyIff | cmd/fv-ssh-unlock/daemon.go:762-806 | For every server and every way an attempt can end, one exact condition for each kind of reply: accepted, uncertain, credential failure, host-key failure, unreachable, not configured |
| UnlockReplies.UnaskedErrorIsUnreachable | cmd/fv-ssh-unlock/daemon.go:801-802 | If no server event asks for the password, every error that does not itself claim a wrong key, a rejection or an unknown outcome is an unreachable device whose attempt may be repeated |
| UnlockAdapter.RejectionIsCredentialFailure | pkg/fvcore/ssh_analyzer.go:439-467 | A sent password without success, transition, transport or host-key error is reported as a rejected credential |
| UnlockAdapter.UnlockedMeansProof | pkg/fvcore/fvcore.go:107-130 | The core reports unlocked only after a success text or a completed handshake |
| ComposedRuns.OnePasswordPerEpisode | internal/monitor/types.go:72-78 | End to end, with every unlock an SSH exchange delivered message by message, under any client settings of each exchange: at most one password per lock episode without an operator clear, and authorisations a cooldown apart, assuming nothing of the adapter |
| InboxData.NormalizedObservationIsOk | internal/candidates/inbox.go:625-716 | Normalisation gives plain bounded texts, canonical address and fingerprint, a port in range, a time, and some identity |
| InboxData.MergeObservationOk | internal/candidates/inbox.go:554-578 | Merging an observation into a candidate gives a candidate that passes the saved-file checks |
| InboxData.MergeCandidatesOk | internal/candidates/inbox.go:580-605 | Folding one valid candidate into another gives a valid candidate |
| InboxData.AddAllFrom | internal/candidates/inbox.go:805-821 | Folding name lists keeps the old names in place, adds only given ones, and leaves every given one present up to case |
| InboxInvariant.ChosenFacts | internal/candidates/inbox.go:185-217 | The chosen entry matches and may take the key; when none is chosen for a key, no entry has it and no keyless entry matches |
| InboxInvariant.VictimFacts | internal/candidates/inbox.go:292-315 | A victim exists exactly when some entry is unpinned and untouched, and is unique: least by last sighting, then identifier |
| InboxInvariant.AbsorbOk | internal/candidates/inbox.go:249-261 | Taking key, text and configured names keeps the entry invariant and an Ignore |
| InboxIngest.IngestAccounts | internal/candidates/inbox.go:219-290 | One observation: entries after are entries before less evicted and merged plus the named one; at most one eviction, only from a full inbox and of the victim; a drop only when nothing can be evicted |
| InboxIngest.IngestKeeps | internal/candidates/inbox.go:185-315 | One observation never changes a key, never un-ignores, never evicts a reviewed entry |
| InboxIngest.IngestIdentifies | internal/candidates/inbox.go:191-274 | After an accepted keyed observation exactly one entry has the key and no keyless entry still matches it |
| InboxIngest.IngestKeepsOk | internal/candidates/inbox.go:185-290 | One observation keeps the entry invariant, unique keys and the capacity limit |
| InboxBatches.RoundKeepsIgnored | internal/candidates/inbox.go:159-170 | Any number of observations leaves an ignored entry ignored, or folded into a surviving ignored one |
| InboxBatches.RoundSparesItsOwn | internal/candidates/inbox.go:182-184 | No later observation of a round evicts a candidate the round produced |
| InboxGathering.IngestGathers | internal/candidates/inbox.go:219-290 | One observation leaves an entry whose times are the earliest and latest, and whose names, host names, sources and places are all and only those of the observation, the entry it was for and the folded aliases; key type, evidence, key, state and names of devices come from the observation, else from the entry |
| InboxRetention.RoundRetains | internal/candidates/inbox.go:159-184 | Over a round: every observation that was not dropped is shown at the end by an entry of the round, and every earlier entry is shown by itself or its heir unless it was evicted |
| InboxRetention.RoundLosesNothing | internal/candidates/inbox.go:134-180 | The same for a whole round with its expiry |
| InboxRetention.ExpiredIffUnseen | internal/candidates/inbox.go:461-478 | An entry expires if and only if expiry is on, nobody ignores it, and more than the time-to-live passed since it was last seen |
| InboxRetention.SeenStaysFresh | internal/candidates/inbox.go:461-478 | What a round saw is shown by an entry that does not expire before the time-to-live has passed since the observation |
| InboxMeaning.AcceptedIff | internal/candidates/inbox.go:625-716 | Exactly which observations are accepted, and as what, field by field |
| InboxMeaning.ChoiceIff | internal/candidates/inbox.go:185-217 | An observation belongs to the entry with its key, without a key to the only one that has something in common with it, otherwise to the first such entry without a key |
| InboxMeaning.VictimIff | internal/candidates/inbox.go:292-315 | The victim is the free entry not seen for the longest time, then the one with the least identifier |
| InboxMeaning.IngestPublishes | internal/candidates/inbox.go:219-290 | An observation publishes the eviction it caused and then exactly what became of it, with the candidate as it is now |
| InboxMeaning.ExpiryPublishes | internal/candidates/inbox.go:461-478 | One event for each expired entry, in the order of the identifiers |
| InboxMeaning.DecisionIff | internal/candidates/inbox.go:319-379 | Exactly which decisions are possible and what they make of an entry |
| InboxMeaning.DecisionPublishes | internal/candidates/inbox.go:319-379 | A decision publishes one event of its own kind with the entry as it is now |
| InboxMeaning.ReconfiguredMeaning | internal/candidates/inbox.go:406-421 | What a new configuration makes of an entry: its names, and a verification that was the old configuration's alone is pending again |
| InboxMeaning.ConfigurationPublishes | internal/candidates/inbox.go:406-425 | A new configuration publishes one event for each entry it renames, in the order visited |
| InboxLoading.DescribedMeaning | internal/candidates/inbox.go:384-403 | A configuration is accepted if and only if every item can be read and names a device; each key then has exactly the names some item gives it, sorted |
| InboxLoading.ReopenIff | internal/candidates/inbox.go:46-98 | A file is reopened if and only if its configuration can be read and its candidates are valid, agree with it, have identifiers and keys to themselves and are not too many; then every one of them is there and the numbering goes on |
| InboxOperations.CommitKeepsInv | internal/candidates/inbox.go:171-179 | The end of each operation either publishes new state and events together or restores every field, and keeps the invariant |
| InboxOperations.IngestIsOk | internal/candidates/inbox.go:134-180 | A discovery round keeps the inbox invariant and numbers its events on without a gap |
| InboxOperations.ReviewIsOk | internal/candidates/inbox.go:319-379 | Verify, Ignore and Restore keep the inbox invariant |
| InboxOperations.ConfigureIsOk | internal/candidates/inbox.go:384-438 | A reconfiguration keeps the invariant in any visiting order; without event and configuration change it leaves the state exactly as it was |
| InboxOperations.ExpireIsOk | internal/candidates/inbox.go:462-478 | Expiry keeps the inbox invariant and publishes one event per removed entry |
| InboxReopen.ReopenIffUndotted | internal/candidates/store.go:34-48 | A saved inbox reopens to the same entries, configuration and sequence if and only if no stored host name ends in a dot, and otherwise is refused |
| InboxReopen.SavedSurvives | internal/candidates/inbox.go:46-98 | A successfully saved operation survives a crash, less its event buffer and counters, under the same condition |
| InboxReopen.DottedInputs | internal/candidates/inbox.go:645-651 | The stored name ends in a dot exactly when one trimming, one dot and another trimming leave a dot |
| InboxReopen.FirstObservationReopens | internal/candidates/inbox.go:645-651 | For a first observation: the saved inbox reopens if and only if its host name is not of that kind |
| InboxReopen.TwoDotsBlockReopening | internal/candidates/store.go:129-133 | The name "fv.." is accepted, and the saved inbox is then refused |
| InboxRuns.RunKeepsOk | internal/candidates/inbox.go:134-459 | Every state of every run, with failed saves, crashes and restarts, satisfies the inbox invariant in memory and on disk |
| InboxTheorems.RoundIsConserved | internal/candidates/inbox.go:134-180 | Per round: size after = size before + created - expired - evicted - merged, counters agree, the limit holds |
| InboxTheorems.IgnoreSurvives | internal/candidates/inbox.go:461-478 | An operator's Ignore survives every discovery round including its expiry |
| InboxTheorems.EventsSinceIsExact | internal/candidates/inbox.go:500-519 | A cursor gets exactly the events after it, or a reset exactly when the next one is not retained |
| InboxTheorems.CursorsAreComplete | internal/candidates/inbox.go:500-519 | Over every run a cursor gets the end of everything the process published; a reset only before this process or outside the bounded window |
| InboxTheorems.SequenceNeverFalls | internal/candidates/inbox.go:134-459 | Event numbers never fall over a run, also across failed saves, crashes and restarts of a persistent inbox |
| InboxTheorems.IdentityIsWriteOnceAndUnique | internal/candidates/inbox.go:249-274 | Over every run a candidate's key never changes once set, and no two candidates share one |
| InboxTheorems.RunCanRestart | internal/candidates/store.go:85-170 | At every point of every run the file reopens exactly when its entries are undotted; a run whose observations leave no dotted name can always restart |
| InboxEntries.AddTo | internal/candidates/inbox.go:805-821 | The search-and-append loop adds a value unless an equal one is there |
| InboxEntries.MergeEndpointInto | internal/candidates/inbox.go:607-623 | Widens the first endpoint at the same place, or inserts the new one in order |
| InboxEntries.MergeInto | internal/candidates/inbox.go:580-605 | The loops over names, host names, sources and endpoints compute the specified merge |
| InboxEntries.MergeObservationInto | internal/candidates/inbox.go:554-578 | The conditional updates compute the specified merge |
| InboxEntries.AbsorbInto | internal/candidates/inbox.go:249-261 | The statements of the source compute the specified absorption |
| InboxEntries.MatchingIds | internal/candidates/inbox.go:521-552 | The two loops over the map, in any order, give the sorted list of all matching entries |
| InboxEntries.ChooseMatch | internal/candidates/inbox.go:186-217 | The search loops find the specified entry |
| InboxEntries.EvictionTarget | internal/candidates/inbox.go:296-308 | The loop over the map, in any order, finds the one specified victim or none |
| InboxEntries.Overdue | internal/candidates/inbox.go:461-473 | The expiry loop lists exactly the stale, not ignored entries, sorted |
| InboxEntries.FoldAliases | internal/candidates/inbox.go:263-275 | The merging loop folds exactly the other keyless matches, in order, and removes them |
| InboxEntries.Reconfigure | internal/candidates/inbox.go:411-422 | The loop over the entries, in any order, gives each the names of its key and one event per change |
| InboxEntries.ReadConfiguration | internal/candidates/inbox.go:385-405 | The nested loops read a configuration, or refuse it exactly when an item is malformed |
| InboxEntries.AdmitAll | internal/candidates/inbox.go:73-92 | The loading loop admits a file's candidates exactly when each passes every check |
| Inbox.CandidateInbox.constructor | internal/candidates/inbox.go:100-122 | An empty inbox with the defaults filled in |
| Inbox.CandidateInbox.Save | internal/candidates/store.go:34-48 | Writes the whole sorted state; a failure may leave the old or the new file |
| Inbox.CandidateInbox.SettleAt | internal/candidates/inbox.go:249-290 | Settling an observation changes entries, sequence and events exactly as specified |
| Inbox.CandidateInbox.MakeRoom | internal/candidates/inbox.go:227-239 | The eviction loop runs at most once, so a drop never loses an eviction's event |
| Inbox.CandidateInbox.CreateEntry | internal/candidates/inbox.go:219-247 | Evicts, drops or creates exactly as specified |
| Inbox.CandidateInbox.IngestLocked | internal/candidates/inbox.go:185-290 | One observation takes exactly the specified step |
| Inbox.CandidateInbox.ExpireLocked | internal/candidates/inbox.go:461-478 | Removes the stale entries and numbers one event each, in identifier order |
| Inbox.CandidateInbox.FoldRound | internal/candidates/inbox.go:155-170 | Expiry and all observations in order give exactly the specified round, or fail |
| Inbox.CandidateInbox.IngestMany | internal/candidates/inbox.go:134-180 | A round either takes effect as a whole or restores every field exactly |
| Inbox.CandidateInbox.Transition | internal/candidates/inbox.go:358-379 | A decision takes effect with its event or restores the candidate and the sequence |
| Inbox.CandidateInbox.MarkVerified | internal/candidates/inbox.go:317-329 | Success leaves a verified, pinned entry with the same key; failure changes nothing |
| Inbox.CandidateInbox.IgnoreCandidate | internal/candidates/inbox.go:331-338 | Success leaves an entry that neither expires nor is evicted; failure changes nothing |
| Inbox.CandidateInbox.RestoreCandidate | internal/candidates/inbox.go:340-356 | Succeeds only for ignored entries and changes review state and mark only |
| Inbox.CandidateInbox.ReplaceConfiguredFingerprints | internal/candidates/inbox.go:381-438 | Takes the specified reconfiguration, restores everything on failure, and writes nothing when nothing changes |
| Inbox.CandidateInbox.Expire | internal/candidates/inbox.go:440-459 | Expiry takes effect as a whole or restores the entries |
| Inbox.CandidateInbox.ReadEvents | internal/candidates/inbox.go:502-519 | The copying loop returns the specified batch |
| Inbox.Open | internal/candidates/inbox.go:46-98 | Loads exactly what the specified reopening gives, or refuses |
| KnownHosts.RemoveUndoesAppend | cmd/fv-ssh-unlock/hostkey.go:255-333 | For every content without the line, append then remove gives back the same bytes, plus one final newline if it was missing |
| KnownHosts.RemovalDropsOneLine | cmd/fv-ssh-unlock/hostkey.go:265-280 | Removal drops the first matching line and no other, and keeps the rest in order |
| KnownHosts.RemovalSparesOthers | cmd/fv-ssh-unlock/hostkey.go:247-250 | Removal leaves the presence of every other line as it was |
| KnownHosts.AppendSparesOthers | cmd/fv-ssh-unlock/hostkey.go:304-319 | An append makes its line present and no other line appear or disappear |
| KnownHosts.SplitJoin | cmd/fv-ssh-unlock/hostkey.go:267-280 | Splitting at newlines inverts joining |
| KnownHosts.JoinSplit | cmd/fv-ssh-unlock/hostkey.go:267-280 | Joining inverts splitting |
| KnownHosts.CommitClaimsItsOwn | cmd/fv-ssh-unlock/hostkey.go:197-245 | A commit claims a line exactly when it wrote it; a written line goes unclaimed if and only if the write failed half-way and the file could not be read again |
| KnownHosts.MatchesIff | cmd/fv-ssh-unlock/hostkey.go:321-333 | A line matches if and only if it is the target followed by carriage returns only |
| KnownHosts.RemovalSucceedsIff | cmd/fv-ssh-unlock/hostkey.go:255-282 | A removal succeeds if and only if there is nothing to remove or the file without the line was saved, and changes the file only for a line that is there |
| KnownHosts.KnownHostsFile.Append | cmd/fv-ssh-unlock/hostkey.go:303-319 | Builds the new content step by step, within the size limit, and replaces the file |
| KnownHosts.KnownHostsFile.LinePresent | cmd/fv-ssh-unlock/hostkey.go:321-333 | The search loop answers whether some line, less carriage returns, is the target |
| KnownHosts.KnownHostsFile.Remove | cmd/fv-ssh-unlock/hostkey.go:255-282 | The rebuilding loop drops the first matching line only, and writes only if there was one |
| KnownHosts.KnownHostsFile.CommitPending | cmd/fv-ssh-unlock/hostkey.go:214-245 | Re-checks, appends, and reconciles a failed append exactly as specified |
| ConfigStore.ValidateDevices | internal/config/config.go:315-342 | The loop over two maps accepts exactly the inventories of valid devices with distinct names and distinct credential variables |
| ConfigStore.ValidDeviceIff | internal/config/config.go:243-309 | Exactly which devices are valid, told by the way to their credential |
| ConfigStore.VariableOfName | internal/config/config.go:332-340 | The credential variable of a valid device is always that of its name |
| ConfigStore.RemoveUndoesAdd | internal/config/config.go:174-239 | Removing an added device gives back the inventory |
| ConfigStore.RemovalSparesOthers | internal/config/config.go:221-239 | A conditional removal takes away at most the expected device; after success no device has the name; a replacement is preserved and reported |
| ConfigStore.AdditionSparesOthers | internal/config/config.go:174-184 | An addition adds at most the device, under a free name; a failed one adds it only when the file was replaced |
| ConfigStore.RemovalStaysValid | internal/config/config.go:85-87 | What a rollback writes always passes validation again |
| ConfigStore.Store.Load | internal/config/config.go:102-124 | Gives the inventory if the file is readable and valid |
| ConfigStore.Store.Replace | internal/config/config.go:82-99 | A new inventory is written only if valid |
| ConfigStore.Store.Add | internal/config/config.go:174-184 | Adds under lock, after the duplicate check and the validation, as specified |
| ConfigStore.Store.RemoveUnchanged | internal/config/config.go:226-239 | Removes the device only if it is still as it was added, as specified |
| EnrollmentSafety.NextKeepsInv | cmd/fv-ssh-unlock/daemon.go:1206-1420 | Every step of every enrollment, and every write of other processes, keeps the enrollment invariant |
| EnrollmentSafety.OneEnrollmentPerCandidate | cmd/fv-ssh-unlock/daemon.go:1251-1275 | In every interleaving at most one enrollment is in flight per candidate and at most one is past the second check |
| EnrollmentSafety.OnlyVerifiedKeysArePinned | cmd/fv-ssh-unlock/daemon.go:1312-1346 | Every key line ever written has the fingerprint of the request and of the candidate at the second check |
| EnrollmentSafety.OthersSurvive | cmd/fv-ssh-unlock/daemon.go:1326-1420 | No step, forward or back, adds or removes a device or key line that is not the enrollment's own |
| EnrollmentSafety.OtherNamesSurvive | cmd/fv-ssh-unlock/daemon.go:660-671 | Adapter and engine change at the enrollment's own name only |
| EnrollmentSafety.CompletedRollbackLeavesNothing | cmd/fv-ssh-unlock/daemon.go:1397-1420 | After a completed rollback no device of the name, no adapter entry and no claimed key line remains |
| EnrollmentSafety.StrayLineIffUnreadableAfterFailure | cmd/fv-ssh-unlock/hostkey.go:229-236 | A key line is left behind unclaimed if and only if its write failed half-way and the file could not be read again |
| EnrollmentRuns.LeftEntryStays | cmd/fv-ssh-unlock/daemon.go:1326-1335 | In every run a registration is refused and yet leaves its device in the file if and only if the save failed after the replacement; the device then stays until another process, or another enrollment of the same device, takes it out |
| EnrollmentRuns.RollbackRestoresAdapterIffNameWasFree | cmd/fv-ssh-unlock/daemon.go:1397-1400 | In every run a call that was registered and has since rolled back restores the adapter if and only if it did not know the name before; otherwise that entry alone is gone |
| EnrollmentRuns.RollbackLeavesOthersWork | cmd/fv-ssh-unlock/daemon.go:1326-1420 | In every run, from the second check to the end of a completed rollback: devices and key lines are exactly those the other writers left, without the enrollment's own |
| EnrollmentRuns.EnrolledAsRequested | cmd/fv-ssh-unlock/daemon.go:1218-1234 | In every run a success leaves in engine and adapter, under a free name, the device as requested field by field: host, user, port or 22, the credential of the name from file or runtime, and automatic unlock only with a file |
| EnrollmentRuns.RegisteredAsRequested | cmd/fv-ssh-unlock/daemon.go:1326-1335 | In every run a registration appends exactly that device to the inventory |
| EnrollmentRuns.GoesOnIff | cmd/fv-ssh-unlock/daemon.go:1277-1383 | In every reachable state each forward step of an enrollment succeeds if and only if nothing it checks is wrong |
| Enrollment.EnrollableIff | cmd/fv-ssh-unlock/daemon.go:1206-1249 | An enrollment is permitted if and only if the candidate is neither ignored nor managed, its key is the verified one, the inventory takes the requested device, and the daemon can use its credential |
| EnrollmentDaemon.Daemon.BeginEnrollment | cmd/fv-ssh-unlock/daemon.go:1251-1269 | Reserves the candidate if and only if it is free and every precondition holds |
| EnrollmentDaemon.Daemon.EndEnrollment | cmd/fv-ssh-unlock/daemon.go:1271-1275 | Gives the reservation back |
| EnrollmentDaemon.Daemon.Rollback | cmd/fv-ssh-unlock/daemon.go:1399-1420 | Tries every part in reverse order, and succeeds only if each did |
| EnrollmentDaemon.Daemon.EnrollLocked | cmd/fv-ssh-unlock/daemon.go:1306-1383 | Undisturbed, all or nothing: success registers, serves, pins and joins; a completed rollback leaves inventory and engine as they were, known_hosts as it was up to one newline, the adapter without the name |
| EnrollmentDaemon.Daemon.FinishEnrollment | cmd/fv-ssh-unlock/daemon.go:1336-1367 | The same from the registered device on |
| EnrollmentDaemon.Daemon.HandleEnroll | cmd/fv-ssh-unlock/daemon.go:1277-1383 | A whole enrollment, while candidates and both files change in any way during its probe: the reservation never outlives it; a reserved or unfit candidate is refused without any change; success appends to what the others left, and serves, the device as requested field by field; a completed rollback leaves nothing; known_hosts changes only for a key with the requested fingerprint |
| ShutdownGates.StepKeepsOk | internal/monitor/engine.go:585-625 | Every interleaving of runs, additions, cancellations and ending loops keeps flags, wait-group count and loops consistent |
| ShutdownGates.RunsNeverOverlap | internal/monitor/engine.go:585-615 | No two runs overlap, each device has at most one loop, and none belongs to a run that stopped waiting or returned |
| ShutdownGates.EveryDeviceIsPolled | internal/monitor/engine.go:86-88 | While a run polls and is not cancelled every device has its loop, also one added since |
| ShutdownGates.NothingRegistersDuringWait | internal/monitor/engine.go:601-608 | Once a run waits, no step registers a loop with it |
| ShutdownGates.ReturnsAfterItsLoops | internal/monitor/engine.go:608-614 | A run returns only when all its loops ended |
| ShutdownGates.RunGate.TryRun | internal/monitor/engine.go:585-598 | The first locked section of Run: refused while running or stopping, else one loop per device |
| ShutdownGates.RunGate.StartAll | internal/monitor/engine.go:595-597 | The loop over the devices, in any order, registers one loop each |
| ShutdownGates.RunGate.AddDevice | internal/monitor/engine.go:67-90 | An added device gets its loop at once if the engine runs |
| ShutdownGates.JoinsIffSaved | internal/monitor/engine.go:67-90 | A device joins if and only if it is new and could be saved; otherwise nothing changes |
| ShutdownGates.RunGate.BeginStopping | internal/monitor/engine.go:601-607 | Closes the gate before the wait |
| ShutdownGates.RunGate.FinishStopping | internal/monitor/engine.go:608-614 | Opens it again with no loop left |
| ShutdownGates.NoHandlerAfterWait | cmd/fv-ssh-unlock/daemon.go:71-107 | Once admission is closed and the wait is over, no tracked handler runs, now or ever |

## Left out

- Transport, dialing, TCP reachability and timers: they appear as arbitrary events, results and errors.
- JSON encoding, file permissions, locks of the operating system and path lookup: a file is a value, a save has one of three outcomes, and a locked section is one step.
- The clock, randomness, and the credential providers: parameters of the steps.
- Unicode: lower-casing, case folding beyond ASCII patterns and character category C are parameters; a text is a sequence of Unicode scalar values, and byte limits count its UTF-8 length.
- Parsing of addresses, fingerprints, MAC addresses and known_hosts entries: parameters with the facts named above.
- Texts of errors, log lines and HTTP status codes.
- The engine's event history and subscribers, the next-check time, the choice of poll interval and the jitter: they decide nothing about credentials.
- Wrap-around of the 64-bit episode, sequence and failure counters: they are unbounded here.
- Runs in which a restart drops a configured device: such a device can get a second password in one episode, and `MonitorCrashes.RemovedDeviceForgets` says exactly when.
- MonitorSafety.OneSubmissionPerEpisode: separates the instants of authorisation by the cooldown; releases can be closer, down to the bound of `MonitorCooldown.ReleasesApart`, which `MonitorCooldown.BoundIsAttained` shows to be attained for every delay.
- MonitorSafety.SubmissionsApart: an operator clear counts as soon as it reached the file, even when the clear was reported as failed.
- InboxGathering.IngestGathers: the times of a place are the earliest and latest only if no endpoint was last seen at the zero time, which the source takes for a missing one.
- Comparison of configured-name lists joined with NUL bytes: compared as lists, which is the same for names without control characters.
- The order in which an unstable sort leaves two endpoints with the same address and port in a hand-edited file.
- Pointers to candidates: entries are values that are written back, so aliasing between a returned match and the map is not captured.
- InboxEntries.FoldAliases: works on the entries it is given and returns what is left, where the source deletes from the map in the loop.
- `Snapshot`, copies handed to callers, and a blank inbox path.
- Marking the candidate verified and refreshing labels after a successful enrollment: neither can fail it.
- EnrollmentDaemon.Daemon.HandleEnroll: others may change everything during the probe, but nothing while the mutex is held; those interleavings are the subject of `EnrollmentSafety` and `EnrollmentRuns`.
- InboxReopen.ReopenIffUndotted: does not cover texts that are invalid in UTF-8, which the JSON encoding rewrites, so that the reopened entry would differ.
- The configuration mutations an enrollment does not use (update, remove, whole-file save), and preparing external state before a save.
- Waking the wait group inside the gates' critical sections: registering and ending a loop are single steps.
- Command line, terminal display, discovery browsing, the scan worker pool, and multi-device unlock.
