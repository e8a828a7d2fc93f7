# Synapse: authorisation, visibility, notification, canonical JSON and worker planning

A Dafny model of five parts of the Synapse Matrix homeserver, with proofs of what they
promise over every input and every run.

- **Event authorisation** (`synapse/event_auth.py`). `AuthRules` is the decision on one
  event in a room state; `PowerLevelLoop` is the power-levels check as its loop. `RoomLaw`
  says when an event is accepted on the fields of events alone, with no function of
  `AuthRules` in it, and proves that the checks decide exactly this; `RefusalReasons` does
  the same for the reasons given, and `RuleTables` draws tables and a run theorem from it.
  `AuthSufficiency` shows that the selected auth events decide the verdict. `RoomRuns`,
  `PowerRuns` and `MembershipRuns` treat a room as a state machine and prove what every run
  keeps. `AuthChain` and `AuthAdmission` are the checks that look only at cited events, and
  the chains they build; `ChainLaw` is their law, and what it guarantees of create events.
- **History visibility** (`synapse/visibility.py`). `HistoryFilter` has the one-user check
  and the batched one; `ClientFilter` is the list filter for one client. `VisibilityLaw`
  says who sees what on the fields of events, and proves that both filters decide this.
- **The notifier** (`synapse/notifier.py`). `Notifier` has the classes with their fields;
  every method is proved equal to a transition of the value machines in `Hub` and
  `NotifierRuns`, over whose runs the invariants are proved. In these machines a stream
  outlives its registration, as the object a caller holds across an await does. `WakeUps`
  says when wake-ups arrive and when they are lost, `Delivery` is the drain of the queue in
  `PendingQueue`. `Polling` is the wait loop, `StreamTokens` the order of stream positions.
- **Canonical JSON** (`rust/src/canonical_json.rs`). `CanonicalSerializer` has the writer and
  the map and struct serialisers; `CanonicalJson` is what they compute, `JsonText` a printer
  and reference parser for the Canonical JSON grammar, `ShortestText` that no shorter text
  reads the same, `CanonicalLaws` the round trip and its limits, `CanonicalOrder`
  independence of order. `SortedEntries` is the ordered map, `Decimal` decimal text.
- **Worker planning** (`docker/configure_workers_and_start.py`). `WorkerNames` and
  `WorkerPlanner` turn requests into named workers; `WorkerRequests` says how requests read,
  from the parts they are put together from; `WorkerConfig` collects the shared
  configuration through templates that are edited in place.

A place where the source raises or exits is an error value of the model, not a
precondition. Server-name syntax, signatures, clocks, the iteration order of sets, the
reading of an integer by Python and the outcome of a callback are parameters or arbitrary
choices.

## Where the code does not do what is said of it

Each item names the lemma with a failing input and the one with the exact condition.

- Selected auth events do not decide every verdict: a room version with `knock_restricted`
  but without `restricted` would not select the authorising user (`UncoveredVersionFails`,
  `VersionsWithSufficientSelection`), and a power-levels event under a state key other than
  the empty one is compared with an event that is not selected (`UncoveredKeyFails`,
  `PowerKeysWithSufficientSelection`).
- A ceiling on power levels holds over runs exactly when it is not negative, because an
  absent `users_default` means 0 (`NegativeCeilingBreaks`,
  `CeilingIsInvariantIffNonNegative`).
- Erasing a sender can hide a history-visibility event, not only prune it
  (`ErasureHidesClosingOfHistory`, `ErasureHidesExactly`).
- A more open history visibility can show a peeking, invited user less
  (`OpeningHidesFromInvited`, `OpenerShowsMoreIff`).
- Call invites of public rooms reach an administrator's client when every call invite in the
  list is soft-failed, because the join rules are then never fetched
  (`SoftFailedCallInviteIsSent`, `PublicCallInviteIsSentIff`).
- `wait_for_events` holds on to a stream while its callback runs. If the stream expires in
  the meantime, the next wait is on a stream that no notification reaches
  (`ExpiredStreamLosesWakeUps`, `ListenLosesNothingIff`, `HeldStreamIsRegisteredIff`).
- Two overlapping calls of `wait_for_events` for one user replace one stream by another.
  Whoever listens on the first is no longer woken by news for the user
  (`ReplacedStreamLosesWakeUps`, `RegisterLosesNothingIff`), and the first stays in the room
  index (`ReplacedStreamStaysListed`, `TidyThroughoutIff`).
- A callback that fails with a caught error makes `wait_for_events` cover a range twice
  (`FailedCallbackIsRepeated`, `PollTilesIff`).
- The documentation of the canonical serialiser promises sorted keys and integers in range.
  Values under sequences, options and newtypes are neither sorted nor looked at
  (`OrderShowsUnderSequence`, `SortedEverywhereIff`; `RangeIgnoredUnderSequence`,
  `StrictRangeIff`).
- A number token `-0` is written `-0`, so zero has two canonical texts
  (`ZeroHasTwoTexts`, `NumberTokenTextIff`).
- The comment on worker multipliers says that a negative number is an error; it counts as 0
  (`NegativeCountIsDropped`, `MultiplierErrorIff`).

## Model

| member | source | states |
|---|---|---|
| RoomLaw.AcceptedIff | synapse/event_auth.py:388-490 | an event is accepted if and only if it is lawful, which is said on the fields of the event and of the state: memberships, join rules, levels listed or by default, federation, third-party invites, owned state keys, power-level changes, redactions and aliases |
| RoomLaw.LevelIff | synapse/event_auth.py:1158-1197 | a user's level is 2^53 for creators with power, else as listed, else the default or 0; without power levels it is 100 for the founder and 0 for others, and unknown if no founder is named |
| RoomLaw.OwnerIff | synapse/event_auth.py:936-953 | the owner of a state key is the well-formed user id up to the first underscore after its first colon |
| RoomLaw.MoveIff | synapse/event_auth.py:1077-1151 | a change of levels is allowed if and only if each level stays or moves between values the sender does not exceed, and another user at the sender's own level stays |
| RefusalReasons.ReasonIsTrue | synapse/event_auth.py:388-490 | whatever is refused is refused for a reason that holds of the event and the state |
| RuleTables.OrdinaryEventIff | synapse/event_auth.py:883-933 | where creators have no power of their own, an ordinary event that names no other user is accepted if and only if the sender's number in the power levels reaches the one listed for its type, else the default for state (50) or other events (0) |
| AuthSufficiency.AgreementDecides | synapse/event_auth.py:388-490 | two room states that agree on the selected keys give the same verdict, error included |
| AuthSufficiency.SelectedStateSuffices | synapse/event_auth.py:1295-1337 | for every room state, the verdict on the full state is the verdict on the selected part of it |
| AuthSufficiency.KnownVersionsSelectAuthorisers | synapse/event_auth.py:1329-1335 | in every known room version the authorising user of a restricted join is selected |
| AuthSufficiency.FeaturesSince | rust/src/room_versions.rs:187-345 | from which room version on each feature is there |
| AuthSufficiency.UncoveredVersionFails | synapse/event_auth.py:766-797 | a version that understands knock_restricted but not restricted has a join whose verdict changes when judged on the selection |
| AuthSufficiency.UncoveredKeyFails | synapse/event_auth.py:1077-1084 | under any state key that is not covered there is a power-levels event whose verdict changes when judged on the selection |
| AuthSufficiency.VersionsWithSufficientSelection | synapse/event_auth.py:1295-1337 | the selection suffices for all member events of a version if and only if the version selects authorising users |
| AuthSufficiency.PowerKeysWithSufficientSelection | synapse/event_auth.py:1077-1084 | the selection suffices for all power-levels events under a key if and only if the key is empty or can never be accepted |
| RuleTables.StateWasEarned | synapse/event_auth.py:865-965 | every entry a run leaves in the state, memberships aside, was sent by a then joined user with the level for it, and names no user at or above the sender |
| PowerLevelLoop.CheckPowerLevels | synapse/event_auth.py:1006-1151 | the loop over an unordered list of levels reaches the declarative verdict for every iteration order |
| PowerLevelLoop.LevelsToCheck | synapse/event_auth.py:1086-1112 | the list holds exactly the named levels and the users, events and notifications of either content |
| PowerLevelLoop.ChangeOkByRefs | synapse/event_auth.py:1113-1151 | a change is allowed if and only if every single level of the list is |
| RoomRuns.SelectedRunAgrees | synapse/event_auth.py:388-490 | a whole run judged on selected state reaches the same room state as on full state |
| RoomRuns.SelectedRunAccepts | synapse/event_auth.py:388-490 | each event of a run, traceless ones included, is accepted on its selected state if and only if it is accepted on full state |
| RoomRuns.UnselectableIsRefused | synapse/event_auth.py:1311-1337 | an event for which the selection itself raises is refused on every state |
| RoomRuns.StateIsAccepted | synapse/event_auth.py:388-490 | every entry of the state after a run was there at the start or is an accepted event of the run |
| RoomRuns.StepKeepsCreateIff | synapse/event_auth.py:413-416 | a step keeps the create event if and only if its event is not another create event |
| PowerRuns.LevelsStayUnderCeiling | synapse/event_auth.py:1077-1151 | along every run nobody rises above a ceiling that bounds all user levels and the default |
| PowerRuns.NegativeCeilingBreaks | synapse/event_auth.py:1178-1187 | below zero one accepted event breaks the ceiling |
| PowerRuns.CeilingIsInvariantIffNonNegative | synapse/event_auth.py:1077-1151 | the ceiling is kept by every step if and only if it is not negative |
| PowerRuns.ChangeKeepsTop | synapse/event_auth.py:1117-1151 | nobody else's change moves the entry of a user at the ceiling |
| PowerRuns.TopUserIsNotRemoved | synapse/event_auth.py:813-842 | no accepted event bans the user at the ceiling or makes them leave unless they send it |
| PowerRuns.TopUserIsSafe | synapse/event_auth.py:813-842 | over every run in which they do not change the levels, the top user keeps their level, is never banned and leaves only by their own hand |
| MembershipRuns.StepReleasesBan | synapse/event_auth.py:633-643 | a step ends a ban if and only if it is accepted and is the creator's first join or a leave by another joined user with the ban and kick levels and a higher level |
| MembershipRuns.BanLastsUntilLifted | synapse/event_auth.py:813-829 | whoever was banned and is not later in the run was released by such an event in between |
| MembershipRuns.InviterHasPower | synapse/event_auth.py:717-753 | an accepted ordinary invite comes from a joined user with the invite level and names nobody banned |
| MembershipRuns.ThirdPartyInviteIsBacked | synapse/event_auth.py:1213-1281 | an accepted third-party invite is backed by an event of its sender in the state |
| MembershipRuns.ThirdPartySponsorHasPower | synapse/event_auth.py:463-480 | the sender of an accepted third-party-invite event is joined with the invite level |
| MembershipRuns.JoinNeedsInvite | synapse/event_auth.py:754-812 | a join under a rule that needs an invite takes one, a standing membership or founding the room |
| MembershipRuns.MembersAreVouchedFor | synapse/event_auth.py:616-862 | in every state of a run that always needs invites, everyone joined or invited hangs on a chain of accepted invites that starts at the creator's first join, each inviter being vouched for by what came before their invite |
| AuthChain.CheckStateIndependent | synapse/event_auth.py:164-363 | the loop that fills a dictionary of keys computes the walk over the cited events, with the first refusal in citation order |
| AuthChain.WalkMeansCitationsOk | synapse/event_auth.py:304-363 | the walk succeeds if and only if every cited event is known, expected, of the room and not rejected, no two share a key and one is the create event |
| ChainLaw.PassesIff | synapse/event_auth.py:164-363 | an event passes if and only if it is lawful on the fields of what it cites: a create event comes first, names its founder, a known version and a room id of its server; any other cites only known, selected, unrejected state of its room, none twice and the create event, forgiving a rejected past of the joining user |
| ChainLaw.RefusalIsTrue | synapse/event_auth.py:164-363 | whatever is refused is refused for a reason that holds of what it cites |
| ChainLaw.SelectionIff | synapse/event_auth.py:1295-1337 | exactly which state an event may cite, and when the selection raises |
| ChainLaw.AdmitIff | synapse/event_auth.py:164-363 | an event is entered as accepted if and only if its id is new and it is lawful, and left out only if its id is taken or it cannot be judged |
| ChainLaw.AcceptedCreate | synapse/event_auth.py:546-605 | an accepted create event of an admitted log names the founder, has no previous events and a room id of the sender's server where ids show one |
| ChainLaw.CreatorIsNeverMissing | synapse/event_auth.py:587-596 | so in no run of a room founded on it is an event refused for want of a creator |
| ChainLaw.FirstEventIsAccepted | synapse/event_auth.py:546-605 | the create event as servers make it is accepted in every version |
| AuthAdmission.AdmittedLogIsSound | synapse/event_auth.py:164-363 | however events come in, each accepted one passed the check against what came before it, and no id is stored twice |
| AuthAdmission.CitedIsAccepted | synapse/event_auth.py:307-358 | what an accepted event cites is older, accepted, in the same room and has a selected key |
| AuthAdmission.CitedKeysAreDistinct | synapse/event_auth.py:328-335 | an accepted event cites at most one event per type and state key |
| AuthAdmission.AuthChainIntegrity | synapse/event_auth.py:304-363 | every descent along citations from an accepted event stays among accepted events of the room, is finite, and ends at a create event or can be continued to one |
| VisibilityLaw.SightIff | synapse/visibility.py:545-617 | what a user sees by setting and membership, for ordinary events, their own member events, visibility changes and erased senders, said on the fields of the event and the state |
| VisibilityLaw.ClientIff | synapse/visibility.py:398-529 | the one-user check answers by the law: what is kept from clients, exemptions, outliers, missing state, stickiness, then sight |
| VisibilityLaw.BatchIff | synapse/visibility.py:272-370 | the batched filter names exactly the users of the list who see the event by the law |
| VisibilityLaw.BatchWithholds | synapse/visibility.py:620-663 | state events do not depend on who ignores the sender or on retention; who ignores the sender gets no other event; an event older than the limit reaches nobody and one at the limit does; dummy and alias events reach nobody; nothing of this holds where events are not sent to clients |
| VisibilityLaw.SentIff | synapse/visibility.py:185-269 | the list for a client holds an event if and only if it may be relayed, the user sees it, it rings nobody in a public room and their membership after it is known; and how it is sent |
| VisibilityLaw.FailsIff | synapse/visibility.py:185-269 | the list fails if and only if state is missing that the decision, a call or the membership needs |
| VisibilityLaw.ListWithholds | synapse/visibility.py:620-663 | the same for the list as for the batched filter |
| HistoryFilter.OpenerShowsMoreIff | synapse/visibility.py:587-617 | a more open setting shows at least as much, except to an invited peeking user between shared and invited |
| HistoryFilter.OpeningHidesFromInvited | synapse/visibility.py:587-617 | an event that opening the history hides from an invited peeking user |
| HistoryFilter.ErasureOnlyPrunes | synapse/visibility.py:495-529 | visibility changes aside, erasing the sender hides nothing and prunes only for users not joined |
| HistoryFilter.ErasureHidesExactly | synapse/visibility.py:495-529 | erasing the sender hides an event if and only if it is a visibility change whose old setting was open to everyone and whose new one shuts the user out |
| HistoryFilter.ErasureHidesClosingOfHistory | synapse/visibility.py:495-529 | such an event, for a stranger to the room |
| HistoryFilter.GetStateMap | synapse/visibility.py:373-395 | the loop over fetched ids gives the state after the event under the requested keys |
| HistoryFilter.FilterForClients | synapse/visibility.py:272-370 | the batched filter with its discarding loop computes the two-phase user set |
| HistoryFilter.BatchAgreesWithPointwise | synapse/visibility.py:272-370 | a user is in the batched answer if and only if the one-user check shows them the event in full, without exemptions and with the sender not erased |
| HistoryFilter.BatchDisagreesIff | synapse/visibility.py:272-529 | the two checks as they are run disagree if and only if the event is exempted but hidden by visibility, or is an erased user's visibility change that erasure hides |
| HistoryFilter.BatchAgreesOnOrdinaryEvents | synapse/visibility.py:398-529 | on events not exempted and not an erased user's visibility change, both checks agree as they are run |
| ClientFilter.FilterForClient | synapse/visibility.py:77-269 | the two passes over the list give the first error, or everything allowed in order |
| ClientFilter.AnswerIsSubsequence | synapse/visibility.py:185-269 | the answer is an order-preserving selection of exactly the positions that contribute |
| ClientFilter.SentEventContract | synapse/visibility.py:185-269 | what is sent carries the user's membership after it, is their own member event if it is an outlier, and is no dummy or alias event and, unless it is state, neither from an ignored sender nor older than the room keeps events |
| ClientFilter.ErasureOnlyPrunesSent | synapse/visibility.py:185-269 | visibility changes aside, erasing a sender removes nothing from the answer and prunes only for users not joined |
| ClientFilter.PublicCallInviteIsSentIff | synapse/visibility.py:121-164 | a visible call invite of a public room is sent if and only if no call invite of the list made the join rules be fetched |
| ClientFilter.SoftFailedCallInviteIsSent | synapse/visibility.py:121-164 | an administrator's request with one soft-failed call invite of a public room, which is sent |
| StreamTokens.BeforeOrEqIsPointwise | synapse/types/__init__.py:759-781 | the comparison over listed writers decides it for all writers |
| StreamTokens.BeforeOrEqIsAntisymmetric | synapse/types/__init__.py:759-781 | valid tokens each before or equal to the other are equal |
| StreamTokens.AdvanceIsLeastUpperBound | synapse/types/__init__.py:723-744 | advancing gives the least valid token after both, and an event is after it if and only if it is after both |
| PendingQueue.QueueConserves | synapse/notifier.py:462-498 | over every run of enqueues and drains each entry is pending or notified, never both, notified once and only when due, and pending entries keep their order |
| PendingQueue.DrainIff | synapse/types/__init__.py:1686-1690 | a drain puts back exactly the entries whose writer has not come that far in the token, and notifies the others |
| PendingQueue.NothingDueIsLeft | synapse/notifier.py:471-488 | with tokens that move forward, what is pending after a drain lies after every token drained so far |
| PendingQueue.KeptForgetsNames | synapse/notifier.py:471-488 | the list the notifier holds is the history with the names left out |
| PendingQueue.DueForgetsNames | synapse/notifier.py:471-488 | what a drain notifies by name is what the list without names gives as due |
| Hub.RunIsSound | synapse/notifier.py:173-233 | over every run, with streams held past their expiry and overlapping registrations, registered streams are listed under exactly their rooms, others only under their own, no room is listed empty, and every waiting listener waits since the token its stream still has |
| Hub.ResolvedOnce | synapse/notifier.py:173-233 | a listener that was woken or cancelled stays so over every run |
| Hub.StillWaitingMeansUntouched | synapse/notifier.py:213-233 | a listener still waiting at the end of a run waited all along on a stream whose token never moved and no notification was aimed at |
| Hub.RemoveKeepsAgreement | synapse/notifier.py:196-208 | removing streams keeps the index in agreement |
| WakeUps.NotifyWakesIff | synapse/notifier.py:597-632 | a notification wakes a waiting listener if and only if its stream is the registered one of a named user or listed under a named room |
| WakeUps.NothingLostIff | synapse/notifier.py:597-632 | every waiting listener is woken by all news for its user and rooms if and only if nobody waits on an unregistered stream |
| WakeUps.ListenLosesNothingIff | synapse/notifier.py:213-233 | a listener on a held stream loses no wake-up if and only if the stream is registered or the token is out of date |
| WakeUps.RegisterLosesNothingIff | synapse/notifier.py:981-986 | a registration loses no wake-up if and only if nobody listens on the stream it replaces |
| WakeUps.NothingEverLostIff | synapse/notifier.py:657-755 | over every run no wake-up is ever lost if and only if every step is safe in those two ways |
| WakeUps.HeldStreamIsRegisteredIff | synapse/notifier.py:968-986 | a stream that was looked up is registered later in a run if and only if no expiry in between found it idle and its user got no other stream |
| WakeUps.ExpiryKeepsListeners | synapse/notifier.py:968-979 | expiry takes a registered stream if and only if nobody listens on it and it was last notified more than ten minutes ago |
| WakeUps.ExpiredStreamLosesWakeUps | synapse/notifier.py:690-740 | a run in which a caller is answered at once, the stream expires while the callback runs, and is listened on again: news for its user and rooms does not wake the listener |
| WakeUps.ReplacedStreamLosesWakeUps | synapse/notifier.py:668-680 | a run in which a stream is replaced while somebody listens on it: news for the user does not wake them |
| WakeUps.TidyThroughoutIff | synapse/notifier.py:981-986 | over every run all listed streams are registered if and only if no stream with rooms is replaced |
| WakeUps.TidyAgrees | synapse/notifier.py:968-993 | then a stream is listed under a room if and only if it is registered and has that room |
| WakeUps.ReplacedStreamStaysListed | synapse/notifier.py:668-680 | a run that leaves an unregistered stream in the index |
| Delivery.DeliveryKeepsSound | synapse/notifier.py:462-498 | draining the queue keeps the indexes in agreement and every waiting listener up to date with its stream |
| Delivery.DeliveryLosesNothing | synapse/notifier.py:462-498 | where no wake-up is lost before a drain, none is lost after it |
| Delivery.DeliveryIsRun | synapse/notifier.py:471-498 | a drain is a run of joins and one notification |
| Delivery.RoomsAfterDrain | synapse/notifier.py:477-498 | after a drain a stream has its old rooms, and if registered the rooms of the due join events of its user, and no others |
| Delivery.JoinerIsWoken | synapse/notifier.py:471-498 | a user whose member event in a drained batch says join has the room and is woken by that batch |
| Delivery.MemberIsWoken | synapse/notifier.py:477-498 | a user in the room of a due event, or named by it, is woken |
| NotifierRuns.StreamsRun | synapse/notifier.py:416-498 | in runs that mix everything, what the streams go through is a run of theirs, drains included |
| NotifierRuns.StreamsAreSound | synapse/notifier.py:416-498 | over such runs the indexes agree and every waiting listener waits since the token its stream still has |
| NotifierRuns.ResolvedForGood | synapse/notifier.py:416-498 | through drains as well, a listener is resolved at most once |
| NotifierRuns.StillWaitingForGood | synapse/notifier.py:416-498 | a listener still waiting at the end of such a run was meant by no notification in it, drained ones included |
| NotifierRuns.NothingEverLostIff | synapse/notifier.py:416-755 | over every run of streams, enqueues and drains no wake-up is ever lost if and only if every listen and every registration in it is safe |
| NotifierRuns.QueueRuns | synapse/notifier.py:416-498 | over such runs the list held and everything delivered are the pending and the notified entries of the queue with its history |
| Notifier.UserStream.UpdateAndFetchDeferreds | synapse/notifier.py:173-194 | moves the token and hands over all listeners |
| Notifier.UserStream.NewListener | synapse/notifier.py:213-233 | a listener whose token is out of date is resolved at once, any other waits on the stream |
| Notifier.UserStream.CancelListener | synapse/notifier.py:213-233 | a timeout cancels the listener and takes it off the stream |
| Notifier.Notifier.RegisterWithKeys | synapse/notifier.py:981-986 | is the registration transition for every new stream, and loses no wake-up if and only if nobody listens on the stream it replaces |
| Notifier.Notifier.UserJoinedRoom | synapse/notifier.py:988-993 | is the join transition |
| Notifier.Notifier.Remove | synapse/notifier.py:196-208 | is the removal of one stream from both indexes |
| Notifier.Notifier.RemoveExpiredStreams | synapse/notifier.py:968-979 | is the expiry transition |
| Notifier.Notifier.Listen | synapse/notifier.py:696 | is the listen transition on any stream the caller holds, and loses no wake-up if and only if that is registered or the token is out of date |
| Notifier.Notifier.TimeOut | synapse/notifier.py:696-708 | is the cancel transition on any stream |
| Notifier.Notifier.StreamsToWake | synapse/notifier.py:597-604 | collects exactly the streams of the named users and rooms |
| Notifier.Notifier.OnNewEvent | synapse/notifier.py:561-650 | is the notify transition |
| Notifier.Notifier.Enqueue | synapse/notifier.py:435-437 | is the enqueue step |
| Notifier.Notifier.NotifyPendingNewRoomEvents | synapse/notifier.py:462-498 | is the drain step: keeps the entries not yet due, in order, and delivers the others |
| Polling.WaitForEvents | synapse/notifier.py:657-755 | the loop with its breaks makes the calls of the specification |
| Polling.PollMakes | synapse/notifier.py:682-755 | the calls are one per round that wakes the caller, up to the first result or error, each over the range since the round before; and one more if and only if the last answer was nothing at all |
| Polling.PollTilesIff | synapse/notifier.py:682-755 | for every interleaving the ranges given to the callback tile from the starting token if and only if in no round the callback fails over a range that is not empty with nothing found before |
| Polling.FailedCallbackIsRepeated | synapse/notifier.py:682-755 | a single failing round whose range is covered twice |
| Polling.NoErrorNoRepeat | synapse/notifier.py:682-755 | with a callback that never fails the ranges always tile |
| SortedEntries.LessIff | rust/src/canonical_json.rs:494-506 | one key comes before another if and only if they agree up to where the first ends or has the smaller character |
| SortedEntries.SortedIff | rust/src/canonical_json.rs:494-506 | a list is sorted if and only if every key comes lexicographically before all later ones |
| SortedEntries.InsertKeepsSorted | rust/src/canonical_json.rs:497-506 | insertion keeps the keys in strict lexicographic order |
| SortedEntries.InsertMembers | rust/src/canonical_json.rs:571-572 | after an insertion there are the new entry and the old ones of other keys |
| SortedEntries.SortedIsUnique | rust/src/canonical_json.rs:577-584 | sorted lists with the same bindings are the same list |
| JsonText.EscapeReadsBack | rust/src/canonical_json.rs:189-223 | the escape of every character reads back as that character |
| JsonText.ValueReadsBack | rust/src/canonical_json.rs:179-224 | the text of a tree, whatever follows it, reads back as that tree and what follows |
| JsonText.PrintIsInjective | rust/src/canonical_json.rs:94-106 | trees with equal texts are equal |
| ShortestText.ValueIsShortest | rust/src/canonical_json.rs:94-106 | no text that the reference parser reads as a tree is shorter than the printed one |
| ShortestText.EscapeIsOnly | rust/src/canonical_json.rs:189-223 | the escape of a character is the only shortest text for it without capital letters |
| CanonicalJson.TextIsCanon | rust/src/canonical_json.rs:94-106 | the text written is that of the canonical tree |
| CanonicalJson.PlainTextIs | rust/src/canonical_json.rs:250-492 | what is written piece by piece for a value the canonical serialiser passes on is the text of its tree |
| CanonicalJson.SerializedIff | rust/src/canonical_json.rs:281-357 | exactly which values are accepted, strictly and relaxed; a replaced entry counts too |
| CanonicalJson.StrictTextIsRelaxedText | rust/src/canonical_json.rs:299-345 | what is accepted strictly is written in the same way when relaxed |
| CanonicalLaws.CanonIsSorted | rust/src/canonical_json.rs:494-506 | the keys of a canonical object are in strict lexicographic order: of any two, they agree up to where the earlier ends or has the smaller character |
| CanonicalLaws.CanonHoldsLastWrites | rust/src/canonical_json.rs:555-575 | a canonical object holds of each key the entry written last and nothing else |
| CanonicalLaws.CanonicalTextParses | rust/src/canonical_json.rs:94-106 | the reference parser gives back the canonical tree |
| CanonicalLaws.CanonicalTextIsShortest | rust/src/canonical_json.rs:94-106 | no text that reads as the canonical tree is shorter than the one written |
| CanonicalLaws.IntegerIff | rust/src/canonical_json.rs:281-345 | an integer of its type is refused if and only if the options are strict and it is beyond 2^53 - 1 either way, and is otherwise written in decimal |
| CanonicalLaws.TokenIff | rust/src/canonical_json.rs:347-357 | what becomes of number tokens, fractions, floats and raw text under either options |
| CanonicalLaws.NumberTokenTextIff | rust/src/canonical_json.rs:630-667 | a number token gets the one text of its integer if and only if it is not a negative zero |
| CanonicalLaws.ZeroHasTwoTexts | rust/src/canonical_json.rs:630-667 | zero is written in two ways |
| CanonicalOrder.SameIff | rust/src/canonical_json.rs:522-585 | two values have the same canonical tree if and only if they mean the same: their last-written entries match key by key at every depth outside sequences, options and newtypes |
| CanonicalOrder.MeansIff | rust/src/canonical_json.rs:522-585 | the canonical tree of a value is the one tree that lists, at every such depth and in order, the last-written entries and nothing else |
| CanonicalOrder.SameTextIff | rust/src/canonical_json.rs:522-585 | accepted values that mean the same have the same text, and readable ones have the same text only if they mean the same |
| CanonicalOrder.ReorderedSameText | rust/src/canonical_json.rs:494-585 | the order in which the entries of objects and of the objects in them came does not show |
| CanonicalLaws.SortedEverywhereIff | rust/src/canonical_json.rs:375-449 | keys are in order at every depth if and only if everything under sequences, options and newtypes was given in order |
| CanonicalLaws.OrderShowsUnderSequence | rust/src/canonical_json.rs:425-427 | under a sequence two orders of the same entries get two texts |
| CanonicalLaws.StrictRangeIff | rust/src/canonical_json.rs:84-93 | strict success means all numbers are permitted integers if and only if that holds under sequences, options and newtypes |
| CanonicalLaws.RangeIgnoredUnderSequence | rust/src/canonical_json.rs:425-427 | under a sequence the strict options write every integer |
| CanonicalSerializer.Writer.WriteQuoted | rust/src/canonical_json.rs:179-224 | appends the quoted and escaped string |
| CanonicalSerializer.CanonicalMap.SerializeKey | rust/src/canonical_json.rs:530-553 | accepts a string key when none is waiting, and says which of the two errors otherwise |
| CanonicalSerializer.CanonicalMap.SerializeValue | rust/src/canonical_json.rs:555-575 | buffers the canonical text under the waiting key, or fails as the value does and leaves the buffer |
| CanonicalSerializer.CanonicalMap.End | rust/src/canonical_json.rs:577-584 | writes the buffer in order |
| CanonicalSerializer.CanonicalStruct.SerializeField | rust/src/canonical_json.rs:630-678 | buffers the canonical text of a field |
| CanonicalSerializer.CanonicalStruct.End | rust/src/canonical_json.rs:680-698 | writes the fields in order and closes the object |
| CanonicalSerializer.Serialize | rust/src/canonical_json.rs:250-492 | appends the specified text or fails with the specified error |
| CanonicalSerializer.ToStringCanonical | rust/src/canonical_json.rs:94-134 | returns the specified text or error |
| CanonicalSerializer.FirstFailureWins | rust/src/canonical_json.rs:555-575 | the first entry that fails decides the error of the object |
| Decimal.NumberedNameInjective | docker/configure_workers_and_start.py:833-836 | a base name that ends in no digit and a number can be told apart again |
| WorkerNames.ApplyMultipliers | docker/configure_workers_and_start.py:611-650 | the nested loops repeat each request by its count, or stop at a count that is no integer |
| WorkerNames.MultiplierErrorIff | docker/configure_workers_and_start.py:622-650 | there is an error if and only if some count is not an integer, so never for a negative one |
| WorkerNames.NegativeCountIsDropped | docker/configure_workers_and_start.py:622-650 | a request with the count -1 is dropped without an error |
| WorkerRequests.MultiplierIs | docker/configure_workers_and_start.py:628-650 | the count of a request stands after its first colon; without a colon it is 1 |
| WorkerRequests.RepeatedRequestIs | docker/configure_workers_and_start.py:628-650 | a plain type asked for n times is listed n times |
| WorkerRequests.StripIs | docker/configure_workers_and_start.py:670-685 | stripping takes away white space on both sides and nothing else |
| WorkerRequests.SplitIs | docker/configure_workers_and_start.py:670-685 | a text put together with a separator comes apart into its parts, each stripped |
| WorkerRequests.NamedRequestIs | docker/configure_workers_and_start.py:767-801 | a request with a name gets that name, if it fits, and the types listed, and is refused otherwise |
| WorkerRequests.UnnamedRequestIs | docker/configure_workers_and_start.py:796-806 | a request without a name gets the types listed and a generated name |
| WorkerRequests.TwoNamesAreRefused | docker/configure_workers_and_start.py:770-777 | a request with two equals signs is refused |
| WorkerRequests.GeneratedNameIs | docker/configure_workers_and_start.py:803-806 | the generated name lists the types once each in lexicographic order with plus signs between |
| WorkerRequests.GeneratedNameReadsBack | docker/configure_workers_and_start.py:796-806 | the generated name reads as a request for the same types |
| WorkerRequests.KnownTypesAre | docker/configure_workers_and_start.py:653-669 | which types can be requested, and which of them only once |
| WorkerNames.ExpandedLength | docker/configure_workers_and_start.py:628-650 | the list is as long as the multipliers that are not negative add up to |
| WorkerNames.GeneratedNameIsOfSet | docker/configure_workers_and_start.py:803-806 | a generated base name depends on the set of types only |
| WorkerNames.BaseNameEnds | docker/configure_workers_and_start.py:779-806 | no base name ends in a digit, chosen or generated |
| WorkerNames.PlannedWorkers | docker/configure_workers_and_start.py:767-856 | workers have different names; those of one base name have equal types and increasing numbers; no type that cannot be sharded occurs twice |
| WorkerNames.PlannedNumbers | docker/configure_workers_and_start.py:833-836 | each number from 1 to the count of a base name is taken |
| WorkerPlanner.CheckTypes | docker/configure_workers_and_start.py:815-831 | succeeds if and only if all types are known and none that cannot be sharded was counted before |
| WorkerPlanner.PlanWorkers | docker/configure_workers_and_start.py:767-856 | the loop with its counters succeeds if and only if all pairs of requests are compatible, and returns the specified workers in order |
| WorkerPlanner.ParseWorkerTypes | docker/configure_workers_and_start.py:733-856 | the whole parse, and the length of its result |
| WorkerConfig.FirstClaimWins | docker/configure_workers_and_start.py:1010-1017 | a template key is set if and only if some worker has its type, and then by the first such worker in order |
| WorkerConfig.ClaimsKeep | docker/configure_workers_and_start.py:1010-1017 | a setting that was there before any worker stays as it was |
| WorkerConfig.ClaimsOnlyTemplateKeys | docker/configure_workers_and_start.py:1010-1017 | no key is set that neither was there nor is in a template |
| WorkerConfig.EditsDoNotShow | docker/configure_workers_and_start.py:593-608 | templates edited by earlier workers give every later worker the claim that untouched ones would |
| WorkerConfig.MergeTemplate | docker/configure_workers_and_start.py:555-590 | the first template is taken over with its own inner dictionary, a second one is merged into a new dictionary |
| WorkerConfig.InsertName | docker/configure_workers_and_start.py:593-608 | replaces exactly the placeholders, in the dictionary itself |
| WorkerConfig.Generator.ConfigureWorker | docker/configure_workers_and_start.py:983-1017 | one worker changes the shared configuration as templates copied in depth would |
| WorkerConfig.Generator.Configure | docker/configure_workers_and_start.py:983-1017 | the shared configuration of all workers is the one that templates copied in depth would give |
| WorkerConfig.SharedConfig | docker/configure_workers_and_start.py:859-1017 | from requests to shared configuration, with the error cases |
| WorkerConfig.SettingsAre | docker/configure_workers_and_start.py:109-262 | the setting of each of four types is there if and only if some worker has the type, and names the first such worker |
| WorkerConfig.MediaSwitch | docker/configure_workers_and_start.py:133-138 | the media repository is switched off in the main process if and only if some worker runs it |
| RuleTables.OwnTransitionIff | synapse/event_auth.py:616-862 | reference table: exactly which changes users can make to their own membership; nobody invites or bans themselves and a banned user can do nothing |
| RuleTables.OthersTransitionIff | synapse/event_auth.py:717-842 | reference table: exactly which changes a user can make to another's membership: invite, remove or ban, joined and with the level for it, the last two only to someone below |
| RuleTables.RedactionIff | synapse/event_auth.py:968-1003 | reference table: a redaction that may be sent is accepted if and only if event ids do not show their server, the sender has the redact level, or both ids are of one server |
| HistoryFilter.SightByTable | synapse/visibility.py:545-617 | reference table: the four settings: who sees an event, and who sees it whole when the sender is erased |
| HistoryFilter.OwnMemberEventByTable | synapse/visibility.py:545-617 | reference table: the user's own member event is shown if and only if the membership before or after it would do, or it is a departure |
| HistoryFilter.VisibilityChangeByTable | synapse/visibility.py:670-698 | reference table: a visibility change is shown to those the new setting names, and to all when the old one was open to all |

## Left out

- Size limits, signatures and key handling (`_check_size_limits`, `validate_event_for_room_version`, `_verify_third_party_invite` beyond its lookups): foreign cryptography; one parameter says whether a third-party invite is signed.
- Power levels written as strings, and the version flag that forbids them: levels are integers here.
- `get_public_keys` and the parsing of event content: contents are records with optional fields.
- PowerLevelLoop.CheckPowerLevels: one refusal stands for the two messages of the source, because which of them comes first depends on the iteration order of a set.
- RoomRuns.SelectedRunAgrees: the state-dependent rules accept every create event; runs that must keep the room's create event say so, and `StepKeepsCreateIff` is the exact condition.
- AuthAdmission.AuthChainIntegrity: events come one at a time; batches and the forgiving of partial-state rejections are in `CheckStateIndependent` but not in the runs.
- Member events of the state without a membership, which the visibility code would trip over.
- `filter_events_for_server` and `event_visible_to_server`: the deciding code is outside the file.
- ClientFilter.FilterForClient: the case where the filter is not for sending to clients leaves a variable unbound in the source; the model covers what both cases share.
- Awaits are the boundaries between steps: what runs between a lookup and a registration, or while a callback is awaited, is other steps of the run.
- Callbacks and deferreds run no code of their own here: what they would do is a later step of a run.
- Pusher, application-service, federation and replication pokes, metrics, tracing and logging.
- `get_events_for`, `wait_for_stream_token` and paging.
- Tokens of streams other than the room stream are one number each.
- UTF-8: texts are sequences of characters, whose order is that of their UTF-8 bytes.
- The plain serialiser of `serde_json` is taken as its text; map keys it accepts are strings and integers.
- CanonicalLaws.CanonicalTextParses: says nothing of floats, fractions, raw text and negative zero that sit under a sequence, option or newtype, since their text is copied unread.
- SHA-256 of the canonical bytes.
- White space beyond ASCII in worker requests, and how Python reads an integer, which is a parameter.
- Endpoint patterns, listener resources, ports, nginx, supervisord, YAML and log files of the worker script.
- `add_worker_roles_to_shared_config`: it appends to keys that no template has.
