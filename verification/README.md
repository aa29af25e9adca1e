# swarmchat client core in Dafny

This project models the logic of the swarmchat desktop chat client. The client is a React front end over a local Dendrite Matrix homeserver that the Tauri shell runs as a sidecar. Each part of the client becomes one Dafny module. A state-changing operation is a method proved to end in the state that a pure effect function gives, and lemmas state what the client promises about those functions. The contracts that stay weaker than the source are listed under "## Left out".

- **Timeline** (`src/components/ChatDemo.tsx`) covers a room's message timeline:
  - history conversion;
  - the live `Room.timeline` rule that folds a server echo into its optimistic entry;
  - optimistic sends and their confirmation or failure;
  - retries;
  - the direct-message partner and the block check before sending;
  - the read-receipt poll.

  The class `ChatRoom` holds `messages`, the draft and the status notice. Its methods update them as the component's state setters do.
- **SessionConnector** (`src/hooks/useMatrixClient.ts`) is the session hook. `connect` tries the credential sources in order: stored token, then configured token, then password login, then anonymous. The module also covers `login` and `register` with their persistence, `disconnect`, and the two effects that tie the session to the node monitor. The class `Session` holds the hook's five state fields, the browser store and the mounted flag.
- **ConnectionMonitor** (`src/hooks/useConnectionMonitor.ts`) covers:
  - the readiness predicate;
  - `probe` and its polling loop, which stops on readiness, unmount or a positive timeout;
  - `refreshStatus`, `startNode` and `stopNode`.
- **NodeControl** (`src/components/NodeControl.tsx`) covers:
  - the node panel's busy-guarded `start` and `stop`, with the start's 5000 ms status poll;
  - the initial status query;
  - the stdout, stderr and port-detected handlers with their case-insensitive heuristics;
  - the text of the diagnostics export.

  **NodeControlExample** (`web-client-examples/react/NodeControl.tsx`) is the copy that reads the status as a bare string.
- **LogViewer** (`src/components/LogViewer.tsx`) is the bounded log buffer. It appends a line, evicts the oldest lines so that at most `maxLines` remain, and writes the persisted snapshot. **LogViewerExample** (`web-client-examples/react/LogViewer.tsx`) is the example copy.
- **BlockList** (`src/utils/blockList.ts`): `getBlocked`, `isBlocked`, `addBlocked` and `removeBlocked` over the stored JSON list.
- **BadWords** (`src/utils/badWords.ts`) and **AuthForm** (`src/components/AuthForm.tsx`): the restricted-word filter, the ordered registration checks, and the form's `error` and `loading` fields.
- **Text** covers the JavaScript string operations the client relies on: `trim` (its exact whitespace set), `toLowerCase`/`toUpperCase` on ASCII letters, `includes`, `startsWith`, and `join('\n')`.

External effects become parameters:

- **Network and commands.** These are replaced by their answers: the HTTP probe's verdict, a login answer, a send's event id or error, receipt answers per event id, and status answers and command outcomes from the shell.
- **Clocks and random suffixes.** These become `now`, `stamp` and the elapsed time recorded for each poll round.
- **Locale date formatting.** This becomes a function parameter.

Some behaviours of the code are easy to miss; the model follows the code:

- **A password `connect` persists nothing.** `connect` does not write the credentials from its password login (`src/hooks/useMatrixClient.ts:98-113`); only `login` and `register` do. Lemma `PasswordConnectLogsInAgain` states the consequence.
- **A failed reconnect keeps the old session.** After a failed reconnect the client and user id stay in place while the state is `error` (`src/hooks/useMatrixClient.ts:62-65`). The invariant the hook keeps is `Valid`: authenticated exactly when a user id is known. It is not "a user id exactly when connected" (lemma `FailedReconnectKeepsSession`).
- **Port 0.** It is a reported port to the monitor (`client_port != null`), but `connect`, `login` and `register` treat it as no port (`!port`) (lemma `PortZeroReadyButUnconnectable`).
- **The status command answers with a bare string.** `status_dendrite` answers `"running"` or `"stopped"` (`src-tauri/src/main.rs:227-237`). The desktop panel and the monitor read that answer as a record, so:
  - the desktop panel shows `stopped` for a running node;
  - its `start` always ends in `error`;
  - the monitor never becomes ready.

  Only the example panel reads the string as it is. Lemmas `BareRunningShownAsStopped`, `StartAgainstBareStatusFails`, `BareStringAnswersNeverReady` and `PanelsDisagreeOnBareRunning` state these outcomes.
- **No port event.** The shell never emits `dendrite-port-detected`. The handler is modelled as written.
- **Retries match entries without a transaction id.** When the retried entry has no transaction id, every entry that also has none is reset to pending, because `m.txnId === msg.txnId` holds when both are absent (`RetryWithoutTxnIdResetsAllUntagged`).
- **Ids can repeat.** With no user id, an optimistic entry's sender is `me`. Its echo is then appended as a second entry, and the confirmation gives both the same id (`AnonymousSendLeavesTwinIds`).

## Model

| member | source | states |
|---|---|---|
| Text.Trim | src/components/ChatDemo.tsx:159 | the trimmed string is a slice with only whitespace cut from either end, and it neither starts nor ends with whitespace |
| Text.TrimIdempotent | src/components/AuthForm.tsx:28 | trimming an already trimmed name changes nothing |
| Text.TrimEmptyIff | src/components/AuthForm.tsx:28-29 | a string trims to empty exactly when it is all whitespace |
| Text.Lower | src/utils/badWords.ts:12 | lower-casing keeps the length and maps each character by itself |
| Text.ContainsIff | src/utils/badWords.ts:13 | the `includes` search succeeds exactly when the word occurs at some position |
| Text.ContainsTransitive | src/utils/badWords.ts:13 | a string containing `s` contains every word that `s` contains |
| Text.ContainsLower | src/utils/badWords.ts:12-13 | lower-casing both sides keeps containment |
| Text.SplitJoin | src/components/NodeControl.tsx:172 | lines without newlines, joined with `\n` and split again, come back unchanged |
| BadWords.SomeOccurs | src/utils/badWords.ts:13 | the `some` over the list is true iff a non-empty listed word occurs in the text |
| BadWords.ContainsBadWord | src/utils/badWords.ts:4-14 | a name is flagged iff one of the four listed words is a substring of its lower-cased form |
| BadWords.CaseInsensitive | src/utils/badWords.ts:12 | flagging `s` and flagging `lower(s)` agree |
| BadWords.EmptyNeverFlagged | src/utils/badWords.ts:4-9 | the empty name is never flagged |
| BadWords.EachWordFlagged | src/utils/badWords.ts:4-9 | each listed word flags itself |
| BadWords.Monotone | src/utils/badWords.ts:13 | any string that contains a flagged string is flagged |
| AuthForm.CheckRegistration | src/components/AuthForm.tsx:28-31 | checks in order (empty trimmed name, restricted word, empty password); each message is produced exactly when its check is the first to fail, and acceptance carries the trimmed name |
| AuthForm.AcceptedNameIsClean | src/components/AuthForm.tsx:28-31 | an accepted name is non-empty, trimmed and clean; an all-whitespace name is rejected as empty whatever the password |
| AuthForm.CallError | src/components/AuthForm.tsx:17-20 | no error exactly for a truthy result; a falsy result gives the failure message; a throw gives its message |
| AuthForm.Form.OnLogin | src/components/AuthForm.tsx:13-24 | login is asked with the trimmed name and the password as typed, with no word check; the error follows the result and `loading` ends false |
| AuthForm.Form.OnRegister | src/components/AuthForm.tsx:26-42 | the first failing check sets its message and nothing is called; otherwise register gets the trimmed name and the raw password, the error follows the result and `loading` ends false |
| BlockList.GetBlocked | src/utils/blockList.ts:5-14 | the stored list, or `[]` when nothing is stored or the value does not parse |
| BlockList.IsBlocked | src/utils/blockList.ts:16-20 | a missing or empty id is never blocked, and nobody is blocked while the stored list is absent or unreadable |
| BlockList.Added | src/utils/blockList.ts:22-28 | an empty or already-listed id leaves the list unchanged; a new id is appended at the end |
| BlockList.Without | src/utils/blockList.ts:30-34 | the id is gone, every other id keeps its count, and removing a non-member changes nothing |
| BlockList.WithoutAppend | src/utils/blockList.ts:32 | removal commutes with concatenation, so the others keep their relative order |
| BlockList.AddedKeepsNoDuplicates | src/utils/blockList.ts:25-26 | adding keeps a duplicate-free list duplicate-free |
| BlockList.AddedIdempotent | src/utils/blockList.ts:23-25 | adding twice is adding once |
| BlockList.AddRemoveMembership | src/utils/blockList.ts:16-33 | after storing an add of a non-empty id it is blocked; after storing its removal it is not |
| BlockList.WithoutKeepsNoDuplicates | src/utils/blockList.ts:32 | removing keeps a duplicate-free list duplicate-free |
| BlockList.BlockStore.AddBlocked | src/utils/blockList.ts:22-28 | empty or known id: store unchanged; otherwise the list with the id pushed is written, and after a successful write the id is blocked |
| BlockList.BlockStore.RemoveBlocked | src/utils/blockList.ts:30-34 | for a non-empty id the filtered list is written; a non-member leaves the list as it was, and after a successful write the id is not blocked |
| Timeline.MessageEvents | src/components/ChatDemo.tsx:100-102 | keeps exactly the `m.room.message` events |
| Timeline.MessageEventsSingleton | src/components/ChatDemo.tsx:100-102 | one event is kept exactly when it is a message event |
| Timeline.MessageEventsAppend | src/components/ChatDemo.tsx:100-102 | the filter distributes over concatenation, so it keeps order and multiplicity |
| Timeline.Reverse | src/components/ChatDemo.tsx:103 | element `k` of the result is element `n-1-k` of the input |
| Timeline.ConvertHistory | src/components/ChatDemo.tsx:100-103 | history is the normalised message events in reverse order, with no status |
| Timeline.FirstMatchFrom | src/components/ChatDemo.tsx:127 | the first index at or after `from` whose entry passes the test, or none if no such index exists |
| Timeline.FirstPending | src/components/ChatDemo.tsx:127 | `findIndex`: the first matching pending entry (same sender, same trimmed body, younger than 30000 ms), or none if none matches |
| Timeline.ApplyLive | src/components/ChatDemo.tsx:115-138 | after a message event its id is present, and the timeline grows by at most one |
| Timeline.LiveIgnored | src/components/ChatDemo.tsx:118-123 | a non-message event or a known id leaves the timeline unchanged |
| Timeline.LiveUpgradesFirstMatch | src/components/ChatDemo.tsx:127-132 | the first matching pending entry takes the event id, status sent and the event's ts if present, at its own index; length and all other entries unchanged |
| Timeline.LiveAppendsWhenUnmatched | src/components/ChatDemo.tsx:135 | with no id hit and no pending match the event is appended as a sent entry |
| Timeline.LiveKeepsIdsDistinct | src/components/ChatDemo.tsx:123-135 | one live step keeps ids pairwise distinct |
| Timeline.LiveIdempotent | src/components/ChatDemo.tsx:123 | applying the same event again, at any later time, changes nothing |
| Timeline.ConfirmSend | src/components/ChatDemo.tsx:182 | only entries whose txnId or id is the transaction id change; each becomes the old entry with the returned id (or its own) and status `sent`, every other field kept |
| Timeline.FailSend | src/components/ChatDemo.tsx:187 | only targeted entries change, each to the old entry with status `failed` and every other field kept; nothing is removed |
| Timeline.SendThenConfirm | src/components/ChatDemo.tsx:167-182 | send then success: the optimistic entry alone becomes sent under the server id |
| Timeline.SendThenFail | src/components/ChatDemo.tsx:167-187 | send then failure: the optimistic entry stays, marked failed, and nothing else changes |
| Timeline.EchoBeforeConfirmation | src/components/ChatDemo.tsx:127-132 | an echo arriving before the send resolves upgrades the optimistic entry in place, and the confirmation leaves that one entry as it is (with line 182 of the same file) |
| Timeline.UpgradesAppendedPending | src/components/ChatDemo.tsx:127-132 | a matching pending entry on the tail with no earlier match is the one upgraded |
| Timeline.ConfirmationBeforeEcho | src/components/ChatDemo.tsx:123 | a send that resolves before its echo leaves one entry; the echo is dropped as a known id (with line 182 of the same file) |
| Timeline.AnonymousSendLeavesTwinIds | src/components/ChatDemo.tsx:170 | with no user id an echo does not match its optimistic entry, and the timeline ends with two entries of one id (with lines 127, 182 of the same file) |
| Timeline.FindForRetry | src/components/ChatDemo.tsx:208-209 | the first entry whose id or txnId is the key (no earlier entry has it); none exactly when no entry has it |
| Timeline.MarkRetrying | src/components/ChatDemo.tsx:212 | entries sharing the target's id or txnId become the old entry with status `pending`, the new txnId and time, every other field kept; all others unchanged |
| Timeline.RetryWithoutTxnIdResetsAllUntagged | src/components/ChatDemo.tsx:212 | a target with no txnId resets every entry without one |
| Timeline.RetryThenConfirm | src/components/ChatDemo.tsx:211-218 | a retried entry, once confirmed, is sent under the new id at its own index with the new txnId, and the rest are unchanged |
| Timeline.Others | src/components/ChatDemo.tsx:252-253 | the non-empty ids other than the user's, with their multiplicities |
| Timeline.OtherUserId | src/components/ChatDemo.tsx:238-256 | a partner exists exactly when the user id is truthy, the members are known and exactly one other non-empty id remains; it is that member, non-empty and not the user |
| Timeline.OtherIsBlocked | src/components/ChatDemo.tsx:259 | a blocked partner needs a truthy user id, known members and a readable block list |
| Timeline.PartnerIffSingleOther | src/components/ChatDemo.tsx:238-256 | a partner `u` is found exactly when `u` is the single other non-empty member, counted once |
| Timeline.Concat | src/components/ChatDemo.tsx:281-283 | a user id is in the flattening iff it is in some receipt group |
| Timeline.ConcatAppend | src/components/ChatDemo.tsx:281-283 | flattening one more group appends that group |
| Timeline.ReceiptEligible | src/components/ChatDemo.tsx:272-273 | an entry still carrying its `txn-` id, not yet `sent`, or from a blocked sender is never queried |
| Timeline.FlattenReceipts | src/components/ChatDemo.tsx:275-289 | the nested loop pushes every user id of every receipt type, in order |
| Timeline.SetReceipts | src/components/ChatDemo.tsx:291-292 | every entry with the id gets the receipts; the others are unchanged |
| Timeline.PollPrefix | src/components/ChatDemo.tsx:270-295 | the poll keeps the timeline's length |
| Timeline.PollOnlyTouchesReceipts | src/components/ChatDemo.tsx:270-295 | the poll changes receipts only; order and every other field stay |
| Timeline.PollLeavesUnwritten | src/components/ChatDemo.tsx:272-273 | an entry none of whose id-twins is written (a `txn-` id, not sent, blocked sender, failed or empty answer) keeps its receipts (with line 291 of the same file) |
| Timeline.PollWritesAnswer | src/components/ChatDemo.tsx:291-292 | a written entry and every entry sharing its id end with the flattened answer |
| Timeline.PollIsIdempotent | src/components/ChatDemo.tsx:270-302 | a full pass run again over its own result, with the same answers, changes nothing |
| Timeline.PollSkipsOptimisticIds | src/components/ChatDemo.tsx:272 | a `txn-` entry with no id-twin keeps its receipts |
| Timeline.ChatRoom.constructor | src/components/ChatDemo.tsx:10-13 | the timeline starts empty with an empty draft and no notice |
| Timeline.ChatRoom.ClearRoom | src/components/ChatDemo.tsx:60-62 | with no client or no selected room the timeline is emptied |
| Timeline.ChatRoom.LoadHistory | src/components/ChatDemo.tsx:77-112 | the loading notice goes up; then the converted history and no notice, or the failure notice; a cancelled load changes nothing more |
| Timeline.ChatRoom.OnTimeline | src/components/ChatDemo.tsx:115-138 | the timeline becomes `ApplyLive` of the event at time `now` |
| Timeline.ChatRoom.SendMessage | src/components/ChatDemo.tsx:157-176 | no room or a blank draft: nothing; a blocked partner: only the blocked notice and no send; otherwise one pending entry keyed by the new txnId is appended with the untrimmed body, the draft is cleared and that body is sent |
| Timeline.ChatRoom.CompleteSend | src/components/ChatDemo.tsx:178-189 | success confirms the targeted entries with notice `Sent`; failure marks them failed with `Send failed: ` and the message |
| Timeline.ChatRoom.RetrySend | src/components/ChatDemo.tsx:206-213 | an unknown key changes nothing; otherwise the matched entries go pending and the target's body is sent under a `retry-` txnId |
| Timeline.ChatRoom.CompleteRetry | src/components/ChatDemo.tsx:215-224 | success confirms with notice `Sent`; failure marks failed with `Retry failed: ` and the message |
| Timeline.ChatRoom.PollReceipts | src/components/ChatDemo.tsx:262-302 | one pass over the snapshot, stopped after `stopAt` entries, leaves `PollPrefix` of the old timeline |
| ConnectionMonitor.PortZeroCountsAsReported | src/hooks/useConnectionMonitor.ts:43-46 | port 0 counts as reported; a missing port does not |
| ConnectionMonitor.IsReady | src/hooks/useConnectionMonitor.ts:43-46 | a missing state is never ready, and when a port is required an absent port is never ready (a port of 0 is) |
| ConnectionMonitor.ReadyIgnoresCase | src/hooks/useConnectionMonitor.ts:44 | readiness is the same for a state and its upper-case form |
| ConnectionMonitor.ProbeEffect | src/hooks/useConnectionMonitor.ts:31-62 | ok iff mounted and the answer is ready; `ready` is only ever raised; missing fields default to `unknown` and null; a throw records `error` and its message; after an unmount only `probing` is raised |
| ConnectionMonitor.RefreshEffect | src/hooks/useConnectionMonitor.ts:114-131 | a throw records `error` even after an unmount; a late answer is dropped; otherwise status, pid, port, uptime and message are copied with their `unknown`/null defaults and `ready` is recomputed from the answer |
| ConnectionMonitor.RefreshCanLowerReady | src/hooks/useConnectionMonitor.ts:126 | a refresh can take `ready` back down |
| ConnectionMonitor.ProbeNeverLowersReady | src/hooks/useConnectionMonitor.ts:46-47 | a probe never lowers `ready` |
| ConnectionMonitor.PollLoop | src/hooks/useConnectionMonitor.ts:71-77 | at most one probe per round; a loop that starts unmounted probes nothing and changes nothing; only the last probe can follow a cleanup (one that lands in the wait still lets its query run), and such a loop ends unmounted with `probing` left raised; every probe before the last saw a not-ready answer while mounted, so the loop stops at the first ready one |
| ConnectionMonitor.Monitoring | src/hooks/useConnectionMonitor.ts:66-78 | unmounted before the immediate answer: only `probing` is raised and the loop does not run; a ready immediate answer skips the loop and leaves `ready` set; at most one loop probe per round and at most one after a cleanup |
| ConnectionMonitor.UnmountInWaitProbesOnce | src/hooks/useConnectionMonitor.ts:75-76 | a cleanup during the wait of round k, after k unready mounted rounds, still lets round k query: the loop makes k+1 probes, ends unmounted, and the late probe only raises `probing` over the state the first k rounds left |
| ConnectionMonitor.PollStopsForAReason | src/hooks/useConnectionMonitor.ts:71-77 | the loop ends only on a ready probe, an unmount (at the start or during a wait), a passed positive timeout, or when the rounds run out |
| ConnectionMonitor.PollRespectsTimeout | src/hooks/useConnectionMonitor.ts:74 | with a positive timeout no round past the timeout is probed |
| ConnectionMonitor.PollUnboundedWithoutTimeout | src/hooks/useConnectionMonitor.ts:74 | a timeout of 0 never stops the loop: with no ready answer and no cleanup it probes every round |
| ConnectionMonitor.PollKeepsReady | src/hooks/useConnectionMonitor.ts:46-47 | readiness, once raised, survives the loop (with lines 71-77 of the same file) |
| ConnectionMonitor.PollReadyNeedsReadyAnswer | src/hooks/useConnectionMonitor.ts:46-47 | the loop raises readiness only through a ready answer that arrived before any cleanup (with lines 71-77 of the same file) |
| ConnectionMonitor.BareStringAnswersNeverReady | src-tauri/src/main.rs:227-237 | bare-string status answers never make the monitor ready |
| ConnectionMonitor.Monitor.SetView | src/hooks/useConnectionMonitor.ts:18-24 | writes the seven exposed fields |
| ConnectionMonitor.Monitor.constructor | src/hooks/useConnectionMonitor.ts:17-24 | status `unknown`, nothing known, not ready, mounted |
| ConnectionMonitor.Monitor.Probe | src/hooks/useConnectionMonitor.ts:31-62 | the state and result are those of `ProbeEffect` |
| ConnectionMonitor.Monitor.RunPolling | src/hooks/useConnectionMonitor.ts:66-78 | the immediate probe, then `Poll` unless it succeeded; view, probe count and mount end where `Monitoring` says |
| ConnectionMonitor.Monitor.Poll | src/hooks/useConnectionMonitor.ts:71-77 | the `while (polling)` loop, with the cleanup run inside a flagged round before its probe; view, probe count and mount end where `PollLoop` says |
| ConnectionMonitor.Monitor.ProbeRound | src/hooks/useConnectionMonitor.ts:75-76 | one round past the check: the cleanup when it lands in the wait, then the probe, which then sees the hook unmounted |
| ConnectionMonitor.Monitor.RefreshStatus | src/hooks/useConnectionMonitor.ts:114-131 | the state becomes `RefreshEffect` of the answer |
| ConnectionMonitor.Monitor.StartNode | src/hooks/useConnectionMonitor.ts:88-99 | true iff the command succeeded; status `starting`, or `error` with the message |
| ConnectionMonitor.Monitor.StopNode | src/hooks/useConnectionMonitor.ts:101-112 | true iff the command succeeded; status `stopping`, or `error` with the message |
| ConnectionMonitor.Monitor.Unmount | src/hooks/useConnectionMonitor.ts:80-84 | the cleanup clears `mounted` and nothing else |
| SessionConnector.PathOf | src/hooks/useMatrixClient.ts:49-126 | one if-and-only-if per path: no port, failed probe, then stored credentials, configured token, password login (success or its error message), anonymous, each exactly when every earlier source is absent; a credentialed path carries that source's token and user id |
| SessionConnector.HasStoredCredentials | src/hooks/useMatrixClient.ts:70-72 | both stored keys hold non-empty values |
| SessionConnector.HasConfiguredToken | src/hooks/useMatrixClient.ts:84 | a non-empty configured access token and user id |
| SessionConnector.HasPassword | src/hooks/useMatrixClient.ts:98 | a non-empty configured username and password |
| SessionConnector.LoginSucceeded | src/hooks/useMatrixClient.ts:101-104 | the login answered with a non-empty access token and user id |
| SessionConnector.ConnectEffect | src/hooks/useMatrixClient.ts:46-132 | `no-port`, `server-probe-failed` and the login error each give `error` with that message and the old session kept; a credentialed path builds a client with its token and uid and, while mounted, is `connected` and authenticated as that uid; the anonymous path builds a client without credentials and, while mounted, is `connected`, unauthenticated and without a user id; unmounted successes stay `connecting`; `Valid` is preserved |
| SessionConnector.Persisted | src/hooks/useMatrixClient.ts:169 | both credential keys are written, and no other key changes (with line 201 of the same file) |
| SessionConnector.Forgotten | src/hooks/useMatrixClient.ts:147-148 | both credential keys are removed, and no other key changes |
| SessionConnector.SignInEffect | src/hooks/useMatrixClient.ts:154-216 | no port: only `no-port` is set; a throw or a missing token or user id: `error` with the message and the store untouched; success persists both keys and, while mounted, is `connected` and authenticated; `Valid` is preserved |
| SessionConnector.DisconnectEffect | src/hooks/useMatrixClient.ts:134-151 | no client: no-op; otherwise `disconnected`, no client or user id, not authenticated, keys removed; `Valid` is preserved |
| SessionConnector.ShouldAutoConnect | src/hooks/useMatrixClient.ts:220-221 | auto-connect is on, the monitor is ready with a truthy port, and the state is neither `connected` nor `connecting` |
| SessionConnector.StoredCredentialsWin | src/hooks/useMatrixClient.ts:70-82 | stored token and user id take precedence over any configured credentials |
| SessionConnector.ConfiguredTokenBeatsPassword | src/hooks/useMatrixClient.ts:84-96 | without stored credentials a configured token and user id win over a password login, whatever the login would answer |
| SessionConnector.PasswordConnectLogsInAgain | src/hooks/useMatrixClient.ts:98-113 | with no stored token a password connect logs in, and any authentication it gets is a fresh login |
| SessionConnector.LoginThenConnectReusesCredentials | src/hooks/useMatrixClient.ts:169 | after a successful login the next connect uses the stored credentials (with lines 70-82 of the same file) |
| SessionConnector.DisconnectForgetsCredentials | src/hooks/useMatrixClient.ts:147-148 | after a disconnect the next connect does not use stored credentials (with lines 70-72 of the same file) |
| SessionConnector.PortZeroReadyButUnconnectable | src/hooks/useMatrixClient.ts:49-52 | port 0 is ready to the monitor, but connect reports `no-port` and auto-connect does not fire (with line 221 of the same file) |
| SessionConnector.FailedReconnectKeepsSession | src/hooks/useMatrixClient.ts:62-65 | a failed reconnect is `error` with the old client and user id kept |
| SessionConnector.Session.SetView | src/hooks/useMatrixClient.ts:33-37 | writes the five state fields |
| SessionConnector.Session.constructor | src/hooks/useMatrixClient.ts:33-44 | `idle` with no client, no user id, no error, not authenticated, mounted |
| SessionConnector.Session.Connect | src/hooks/useMatrixClient.ts:46-132 | the state and result are those of `ConnectEffect`; storage is only read |
| SessionConnector.Session.SignIn | src/hooks/useMatrixClient.ts:154-216 | the state, store and result are those of `SignInEffect` |
| SessionConnector.Session.Login | src/hooks/useMatrixClient.ts:154-184 | `SignInEffect` with `login_failed` |
| SessionConnector.Session.Register | src/hooks/useMatrixClient.ts:186-216 | `SignInEffect` with `register_failed` |
| SessionConnector.Session.Disconnect | src/hooks/useMatrixClient.ts:134-151 | the state and store are those of `DisconnectEffect` |
| SessionConnector.Session.AutoConnect | src/hooks/useMatrixClient.ts:219-239 | when enabled, ready, with a port and neither connected nor connecting: `connecting` then `connect`; otherwise nothing |
| SessionConnector.Session.TearDownIfUnready | src/hooks/useMatrixClient.ts:242-249 | not ready with a client: disconnect; otherwise nothing |
| SessionConnector.Session.Unmount | src/hooks/useMatrixClient.ts:41-44 | clears `mounted` only |
| NodeControl.HeuristicsIgnoreCase | src/components/NodeControl.tsx:59 | both heuristics ignore case (with line 71 of the same file) |
| NodeControl.SignalsRunning | src/components/NodeControl.tsx:59 | the stdout readiness pattern, an ASCII case-insensitive alternation of four words |
| NodeControl.SignalsError | src/components/NodeControl.tsx:71 | the stderr error pattern, an ASCII case-insensitive alternation of four words |
| NodeControl.ServerListeningIsRedundant | src/components/NodeControl.tsx:59 | the `server listening` alternative matches nothing that `listening` does not |
| NodeControl.SignalsRunningIff | src/components/NodeControl.tsx:59 | a line signals readiness exactly when one of the words occurs in it, in any case |
| NodeControl.CleanLineIsNoError | src/components/NodeControl.tsx:71 | a line with none of the error words never signals an error |
| NodeControl.WindowCount | src/components/NodeControl.tsx:118-121 | the leading checks inside the 5000 ms window, and no more |
| NodeControl.FirstAccepted | src/components/NodeControl.tsx:121-130 | the first accepted check in range, or none if no check is accepted |
| NodeControl.StartPoll | src/components/NodeControl.tsx:118-133 | the first check inside the window that sees the node running, or none if no such check exists |
| NodeControl.ChecksMade | src/components/NodeControl.tsx:121-133 | every check made falls inside the window |
| NodeControl.RecordRunning | src/components/NodeControl.tsx:124 | the answer is a record whose state is exactly `running` |
| NodeControl.InitialProbe | src/components/NodeControl.tsx:31-46 | a throw shows `error` even after an unmount; a late answer is dropped; otherwise the answer's state (or `stopped`), pid and port are shown |
| NodeControl.BareRunningShownAsStopped | src-tauri/src/main.rs:227-237 | the bare `running` string is shown as `stopped` |
| NodeControl.StartEffect | src/components/NodeControl.tsx:110-140 | ignored while busy; otherwise ends `running` iff the command succeeded and a check in the window saw a running record, showing that record's pid and port; on `error` pid and port stay as they were; busy is cleared |
| NodeControl.StartAgainstBareStatusFails | src-tauri/src/main.rs:227-237 | against bare-string answers, start always ends in `error` |
| NodeControl.StopEffect | src/components/NodeControl.tsx:142-156 | ignored while busy; success: `stopped` with pid and port cleared; failure: `error`; busy is cleared |
| NodeControl.ExportLines | src/components/NodeControl.tsx:172 | one `[time] ORIGIN: text` line per record, in order |
| NodeControl.ExportContents | src/components/NodeControl.tsx:168-178 | absent logs give the notice, unparseable text is exported as it is, no records give the empty text; `ExportOfSnapshotListsEveryLine` gives the parsed case |
| NodeControl.EmptyLogExportsEmptyText | src/components/NodeControl.tsx:168-178 | an empty stored array exports empty text; no logs export the no-logs notice |
| NodeControl.NoNewlineUpper | src/components/NodeControl.tsx:172 | upper-casing adds no newline |
| NodeControl.NoNewlineConcat | src/components/NodeControl.tsx:172 | joining two newline-free strings gives a newline-free string |
| NodeControl.ExportLineHasNoNewline | src/components/NodeControl.tsx:172 | an export line from newline-free parts is one line |
| NodeControl.ExportOfSnapshotListsEveryLine | src/components/NodeControl.tsx:168-172 | the export of the persisted buffer has one line per log line, in order, labelled `STDOUT`/`STDERR` |
| NodeControl.Panel.constructor | src/components/NodeControl.tsx:24-27 | `stopped`, not busy, no pid, no port |
| NodeControl.Panel.OnInitialStatus | src/components/NodeControl.tsx:31-46 | the panel becomes `InitialProbe` of the answer |
| NodeControl.Panel.OnStdout | src/components/NodeControl.tsx:56-61 | `running` iff the line matches the readiness words; otherwise unchanged |
| NodeControl.Panel.OnStderr | src/components/NodeControl.tsx:68-73 | `error` iff the line matches the error words; otherwise unchanged |
| NodeControl.Panel.OnPortDetected | src/components/NodeControl.tsx:81-84 | a numeric payload sets the port; NaN is ignored |
| NodeControl.Panel.Start | src/components/NodeControl.tsx:110-140 | the loop ends in the state of `StartEffect`, having made its number of checks |
| NodeControl.Panel.Stop | src/components/NodeControl.tsx:142-156 | the panel becomes `StopEffect` of the outcome |
| NodeControl.Panel.Unmount | src/components/NodeControl.tsx:45 | clears `mounted` only |
| NodeControlExample.InitialProbe | web-client-examples/react/NodeControl.tsx:18-31 | a throw shows `error`; a late answer is dropped; otherwise `running` iff the string is `running`, else `stopped` |
| NodeControlExample.StringRunning | web-client-examples/react/NodeControl.tsx:99 | the answer is the bare string `running` |
| NodeControlExample.PanelsDisagreeOnBareRunning | web-client-examples/react/NodeControl.tsx:22-24 | the example panel shows `running` for the bare string where the desktop panel shows `stopped` |
| NodeControlExample.StartEffect | web-client-examples/react/NodeControl.tsx:85-113 | ignored while busy; otherwise `running` iff the command succeeded and a check in the window saw `running`, else `error`; busy cleared |
| NodeControlExample.StartDivergesOnBareRunning | web-client-examples/react/NodeControl.tsx:96-103 | one `running` answer inside the window starts the example panel while the desktop panel ends in `error` |
| NodeControlExample.StopEffect | web-client-examples/react/NodeControl.tsx:115-127 | ignored while busy; `stopped` or `error`, busy cleared |
| NodeControlExample.ExamplePanel.constructor | web-client-examples/react/NodeControl.tsx:14-15 | `stopped`, not busy |
| NodeControlExample.ExamplePanel.OnInitialStatus | web-client-examples/react/NodeControl.tsx:18-31 | the panel becomes `InitialProbe` of the answer |
| NodeControlExample.ExamplePanel.OnStdout | web-client-examples/react/NodeControl.tsx:40-46 | `running` iff the line matches the readiness words |
| NodeControlExample.ExamplePanel.OnStderr | web-client-examples/react/NodeControl.tsx:52-58 | `error` iff the line matches the error words |
| NodeControlExample.ExamplePanel.Start | web-client-examples/react/NodeControl.tsx:85-113 | the loop ends in the state of `StartEffect` |
| NodeControlExample.ExamplePanel.Stop | web-client-examples/react/NodeControl.tsx:115-127 | the panel becomes `StopEffect` of the outcome |
| NodeControlExample.ExamplePanel.Unmount | web-client-examples/react/NodeControl.tsx:30 | clears `mounted` only |
| LogViewer.PayloadOrEmpty | src/components/NodeControl.tsx:57 | a missing, null or empty payload is the empty string (with line 69 of the same file) |
| LogViewer.PayloadString | src/components/LogViewer.tsx:26 | `String(payload)`: the text itself, and for a missing or null payload the non-empty `undefined`/`null`, unlike `String(payload || '')` |
| LogViewer.Appended | src/components/LogViewer.tsx:27-30 | the result is the newest `min(n, maxLines)` lines of the old buffer plus the new line; with `maxLines > 0` the line is last; otherwise the buffer is empty |
| LogViewer.AppendBelowCapacityKeepsAll | src/components/LogViewer.tsx:29 | below capacity nothing is dropped |
| LogViewer.LastOfLast | src/components/LogViewer.tsx:29 | cutting a suffix, appending, and cutting again is one cut |
| LogViewer.BufferIsNewestSuffix | src/components/LogViewer.tsx:25-43 | over any run of arrivals the buffer is the newest lines of everything, in arrival order |
| LogViewer.BufferHoldsNewestLines | src/components/LogViewer.tsx:25-43 | from empty, the buffer holds the newest lines and never more than `maxLines` |
| LogViewer.Snapshot | src/components/LogViewer.tsx:53-60 | the snapshot has the same length and order, and each record carries its line's origin name, text and ts |
| LogViewer.OriginLabels | src/components/NodeControl.tsx:172 | stored origins upper-case to `STDOUT` and `STDERR` |
| LogViewer.Viewer.constructor | src/components/LogViewer.tsx:15-16 | the buffer starts empty; the mount-time write of the empty buffer leaves the store empty, or, when it fails, the records an earlier session left (with lines 53-60 of the same file) |
| LogViewer.Viewer.OnLine | src/components/LogViewer.tsx:25-43 | the line `String(payload)` is appended with eviction; the snapshot is written when the storage write succeeds and the old copy stays when it fails (with lines 53-60 of the same file) |
| LogViewer.Viewer.OnStdout | src/components/LogViewer.tsx:25-32 | a `stdout`-tagged line is appended; the snapshot is written unless the write fails (with lines 53-60 of the same file) |
| LogViewer.Viewer.OnStderr | src/components/LogViewer.tsx:36-43 | a `stderr`-tagged line is appended; the snapshot is written unless the write fails (with lines 53-60 of the same file) |
| LogViewer.Viewer.SetMaxLines | src/components/LogViewer.tsx:51 | a new `maxLines` re-subscribes the listeners with it; the buffer and the stored copy are not touched until the next line |
| LogViewerExample.ExampleViewer.constructor | web-client-examples/react/LogViewer.tsx:19-20 | the buffer starts empty; a failed mount-time write leaves the earlier session's records stored (with lines 65-71 of the same file) |
| LogViewerExample.ExampleViewer.OnStdout | web-client-examples/react/LogViewer.tsx:31-38 | a `stdout`-tagged line is appended with eviction; the snapshot is written unless the write fails (with lines 65-71 of the same file) |
| LogViewerExample.ExampleViewer.OnStderr | web-client-examples/react/LogViewer.tsx:44-51 | a `stderr`-tagged line is appended with eviction; the snapshot is written unless the write fails (with lines 65-71 of the same file) |
| LogViewerExample.ExampleViewer.SetMaxLines | web-client-examples/react/LogViewer.tsx:62 | a new `maxLines` re-subscribes the listeners; the buffer and the stored copy are kept |

## Left out

- Event normalisation from SDK objects (`normalizeEvent`, ChatDemo.tsx:67-75) is replaced by the already-normalised `Event` record. This also drops the random id fallback for an event without an id.
- Member-id extraction from room objects (ChatDemo.tsx:240-251) is replaced by an optional list of member ids.
- Timers are not modelled: the `Sent` notice cleared after 1200 ms and 800 ms, the 5000 ms receipt re-poll, the auto-connect retry timer, and the poll interval waits. The poll loops iterate over supplied rounds instead.
- SessionConnector.Session.AutoConnect: the timer that sets `error` after a failed attempt is applied at once. `connect` has already set that state, so the outcome is the same.
- Concurrent async handlers are modelled only as explicit orderings, for example an echo before or after a send's confirmation. The cancellation of an in-flight receipt poll is the `stopAt` count.
- Effect re-runs sharing the `mounted` ref are not modelled. The monitor treats `cancelled` as `!mounted`.
- Timeline.ChatRoom.PollReceipts: the view re-runs the poll whenever its own write changes `messages`. Only a single pass is modelled; `PollIsIdempotent` says a repeated pass adds nothing.
- The joined-rooms list, the room listener and the storage-event listener in ChatDemo are UI wiring.
- JSON parsing and serialisation become three outcomes: absent, unparseable or parsed. `JSON.parse` answering a non-list is folded into unparseable.
- `Number(e.payload)` becomes an optional integer, with `None` standing for NaN.
- Case mapping covers ASCII letters only; the rest of Unicode case folding is not modelled.
- The status colour map (NodeControl.tsx:95-108) is presentation.
- The export filename, the save dialog, the file write and the browser download (NodeControl.tsx:165, 180-206) are I/O.
- `toLocaleString` is a function parameter.
- localStorage write failures are modelled for the block list and for the log viewers' snapshot (`writeOk`), but not for the session's credential writes. Those writes are inside a `try` that ignores failures.
- LogViewer.Viewer.constructor, LogViewerExample.ExampleViewer.constructor: an earlier store is given as a list of records; one that was absent or unparseable before the mount is not distinguished from an empty list.
- A log event that arrives while a new `maxLines` re-subscribes the listeners is not modelled; `SetMaxLines` is one step between events.
- The HTTP probe with its abort timeout becomes a boolean.
- Sidecar process management in `src-tauri/src/main.rs` is OS I/O; only `status_dendrite`'s answer shape is used.
- Rendering, scrolling and auto-scroll are not modelled.
- The block manager UI (`src/components/BlockManager.tsx`) and `src/App.tsx` are not part of this model.
