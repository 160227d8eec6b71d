# Passkey: a verified model

Passkey is a security key made of phones. A daemon on a Linux computer presents one CTAPHID device
to the kernel and hands each CTAP2 request to several phones at once; a service on each phone runs
an authenticator that asks its user for a fingerprint, one question at a time; small tools on the
computer keep the list of registered keys and edit the PAM configuration. This project models that
behaviour in Dafny and proves what it promises, on all inputs and over whole runs.

`dafny verify dfyconfig.toml` checks everything.

## The parts

- `Bytes`: bytes, big-endian numbers.
- `CtapHid`: cutting messages into reports and putting them together again, per channel (section
  8.1.4 of CTAP 2.0).
- `Framing`: the frames between daemon and phone, and the request numbers in them.
- `Rounds`: which phones are asked for a request, what is made of their answers, the final reply.
- `Daemon`: the daemon as a class whose methods carry out `CtapHid`, `Framing` and `Rounds`.
- `Protocol`, `Abandonment`, `Witnesses`: daemon, links and phones as one step relation, one step for
  each mutex section, send, poll or handled request; safety over every run, and two concrete runs.
- `History`, `Winning`, `Overtaking`: the same runs with a record of plans, questions, rounds and wins
  beside the state; whom each request asks, and which phone a getNextAssertion goes to.
- `Verdicts`, `Traffic`: the same runs with an account of every request and of every frame: what each
  reply follows from, who was tried, who was told.
- `EndToEnd`, `Spelling`, `HostAnswers`: the same system on bytes, from the host's reports to the
  host's reports, in step with `Protocol`; what completed messages were spelled by and what the host
  reads back.
- `Cbor`, `CborDecode`, `CborAgree`, `CborAsRead`, `CborRoundTrip`, `CborCanonical`, `CborShortest`,
  `CborNesting`, `Probe`: the phone's encoder (shortest heads and keys in the order of section 3.9 of
  RFC 7049), both decoders, and how they relate.
- `Prompt`: the phone's prompt as a step relation and as the service's methods.
- `Authenticator`, `AuthenticatorRuns`, `Registrations`, `AuthenticatorService`: the commands on
  values, whole runs of commands, what they store and tell, and the class.
- `Base64`: the helper's base64 reader (sections 4 and 5 of RFC 4648).
- `Text`, `KeyFile`, `KeyFileRuns`, `KeyFileText`, `PamFile`: lines as Rust's string functions see
  them, the key file with its names, and the edit of a PAM file.

Code that changes things step by step is a class or a method with loops here too, proved against a
function on values; the theorems are about those functions and about runs of them.

What comes from outside is a parameter: which sends succeed and what each poll finds (`World`), the
phone's `result`, the time, the user's answer, the random identifier, the order in which the store
lists its entries, whether the Keystore makes a key and signs (`Env`), and what becomes of malformed
UTF-8 on the phone (`Decoder`, assumed to keep valid text). The interleaving of threads is the order
of events in `Protocol` and `Prompt`.

## Where the code does less than it says

Each of these is a theorem with an exact condition, and most have a concrete input.

- A handler looks at the slot and then replies; INIT may come in between. A reply is the current
  request's exactly when that did not happen (`Abandonment`, `Witnesses`).
- `last` is set by the handler that concludes a sign-in, whether or not its request is still in the
  slot. A getNextAssertion goes to the device whose success the host was sent last exactly when no
  sign-in was concluded after that one, or the last of those was won by the same device; apart from a
  success sent for an abandoned request itself, only an abandoned handler can overtake like this
  (`Winning`, `Overtaking`).
- `silent` looks at map entries, the phone at a map: a request with "up" given twice may be a probe for
  one and not for the other, and so may one with a tag or a malformed text. The exact condition is
  `Probe.ProbesAreClassifiedAlikeIff`.
- The daemon's decoder passes over tags and refuses malformed text; the phone's refuses tags and
  replaces malformed text. They agree exactly where neither occurs (`CborAgree`).
- `answer` compares with `current`, which is -1 when no prompt is open; an answer without a number
  (-1 is also the default of the intent extra) changes the result of a settled prompt until
  `confirm` collects it (`Prompt`). The app itself never sends one: `PromptActivity` and `KeyService`
  are not exported (android/AndroidManifest.xml:23 and :28) and both intents carry the number
  (KeyService.java:135 and :149), so what holds there is `Prompt.StatusIsTheVerdict`.
- A connection's withdrawn number starts as the smallest Java int. Request number 0x80000000 reads as
  that number, so the phone refuses it from the start, against the comment that a stale cancel never
  applies to a newer request (`Prompt`).
- The counter in an assertion is the low 32 bits of the stored one (`AuthenticatorRuns`).
- `pam_remove` and `root_remove` write lines back with plain line feeds: files with CR LF, an unended
  last line or (key file) blank lines do not come back as they were (`PamFile`, `KeyFileText`).

## Model

| member | source | states |
|---|---|---|
| `CtapHid.SequenceBytesStayLow` | src/daemon.rs:462-481 | cut as `reply` cuts it, every continuation packet keeps bit 7 of its sequence byte clear if and only if the message has at most 7609 = 57 + 128·59 bytes |
| `CtapHid.Feed` | src/daemon.rs:487-551 | one report against one channel's partial message: whatever stays stored has fewer bytes than its total, a total of at most 7609 and a next sequence number of at most 128; what completes has exactly its total |
| `CtapHid.Receive` | src/daemon.rs:487-559 | the same bounds kept for every channel's partial message by an arbitrary report; no completed message exceeds 7609 bytes |
| `CtapHid.FeedPackets` | src/daemon.rs:462-559 | the packets of a message, in order and padded in any way, complete exactly that message once, whatever partial message was stored before |
| `CtapHid.ChannelsAreIndependent` | src/daemon.rs:487-559 | what a channel completes is a function of its own reports alone, however other channels' reports are mixed in |
| `CtapHid.ReassemblyUndoesFragmentation` | src/daemon.rs:462-559 | a message cut as `reply` cuts it, its packets mixed with any reports of other channels and any changes of the slot, is dispatched exactly once with the same channel, command and bytes, unless its first packet meets another channel's request (INIT never does) or it is a CANCEL |
| `CtapHid.InterleavedMessagesAreReassembled` | src/daemon.rs:462-559 | the same from the mixing itself: the padded packets at increasing positions, every other arrival of another channel or too short to have one |
| `Spelling.MessagesAreSpelledOut` | src/daemon.rs:487-559 | the other half: whatever reports arrive on whatever channels, every completed message is carried by reports of its own channel, a first packet with its command and length that was not refused, then continuation packets numbered 0, 1, 2, ... in increasing positions |
| `Spelling.RequestsAreSpelledOut` | src/daemon.rs:487-608 | so is every request of every run on bytes |
| `Daemon.Daemon.Reply` | src/daemon.rs:462-481 | the reports written are exactly the padded packets that the reassembly theorem starts from |
| `Daemon.Daemon.Packet` | src/daemon.rs:487-559 | one report: stored messages and dispatched messages as `Receive` says, one error report or the completed message's effect, INIT on the slot's channel empties it first, CANCEL and INIT tell exactly the links still pending, nothing else changes |
| `Daemon.Daemon.Complete` | src/daemon.rs:543-559 | a stored message with all its bytes is removed and dispatched, otherwise nothing happens |
| `Daemon.Daemon.Dispatch` | src/daemon.rs:561-608 | a message is answered at once, or takes the free slot under the next request number and gets a handler; a number is used up even when the slot is taken |
| `HostAnswers.InitIsAnswered` | src/daemon.rs:561-582 | after INIT the host reads one INIT message with its nonce in bytes 0 to 8 and in bytes 8 to 12 its own channel, or after broadcast one it can use |
| `HostAnswers.MessagesAreAnswered` | src/daemon.rs:561-608 | every other message takes the free slot or the host reads exactly one answer to it, a PING as it was sent |
| `Daemon.Daemon.AssignChannel` | src/daemon.rs:568-575 | INIT on broadcast gets the next counter value that is neither 0 nor the broadcast channel |
| `Daemon.Daemon.CancelRequest` | src/daemon.rs:610-628 | only INIT on the request's own channel empties the slot; only the links still pending of that request are told, under its number |
| `Daemon.Daemon.WithdrawFrom` | src/daemon.rs:840-846 | one CANCEL body with the request's number to each given link, in order |
| `Daemon.Daemon.BestLinks` | src/daemon.rs:329-335 | sorting and retaining in place gives the list that `ByDeviceIsBest` characterises |
| `Daemon.Daemon.Publish` | src/daemon.rs:295-315 | the file of devices names the devices of `by_device`, in that order |
| `Daemon.Daemon.SendToAll` | src/daemon.rs:734-744 | the REQ body goes once to every link that accepts it, and those are the ones pending |
| `Daemon.Daemon.SweepLinks` | src/daemon.rs:754-783 | one pass over the pending links does to wins, errors and pending what the step-by-step fold says, and stops at an answer that ends the round |
| `Daemon.Daemon.AskRound` | src/daemon.rs:726-794 | a whole round: the fan-out of `FanOutConserves`; the bodies sent are the requests, then CANCEL to exactly the still pending; only keepalives go to the host |
| `Daemon.Daemon.AskRounds` | src/daemon.rs:671-703 | rounds run one after the other as `VerdictIsFair` says |
| `Daemon.Daemon.HandleCbor` | src/daemon.rs:639-713 | a whole request: rounds as planned, one final reply if and only if the request is still in the slot, the winner and after a probe all holders recorded, the slot emptied of this request only |
| `Framing.FramesAreReadBack` | src/daemon.rs:797-829 | bodies of 1 to 8192 bytes framed back to back are read back as the same list, whatever follows |
| `Framing.NumbersSurvive` | android/src/sn/mahir/passkey/KeyService.java:277-294 | the phone sees the daemon's number and bytes, echoes the number's bytes so that the daemon decodes it with the phone's result, and CANCEL names the same number; an accepted message makes a body of at most 7614 bytes |
| `Framing.ReadLink` | src/daemon.rs:797-822 | the reader passes on exactly the RESP bodies with a number, counts the pongs, drops the rest, and ends on a truncated frame or a length outside 1..8192 |
| `Rounds.ByDeviceIsBest` | src/daemon.rs:327-335 | one live link for every device that has one, of lowest priority number and then oldest, best first |
| `Rounds.NobodyIsAskedTwice` | src/daemon.rs:648-670 | the rounds of a request name every device at most once, only given devices, each round in rank order |
| `Rounds.EveryDeviceIsReached` | src/daemon.rs:648-670 | without a choice, every command but getInfo and getNextAssertion reaches each device in exactly one round, recorded holders before the others |
| `Rounds.PlansByCommand` | src/daemon.rs:648-670 | a choice asks that device's link and no other; without one getInfo asks the best link, getNextAssertion the last winner's, and only a getAssertion that is no probe, with a holder there, has a second round |
| `Rounds.TookThoseThatAccept` | src/daemon.rs:740-744 | exactly the targets whose send succeeds are pending at the start |
| `Rounds.FanOutConserves` | src/daemon.rs:734-794 | for every order of answers, stale answers and closings: each link that took the request is exactly one of winner, failure or still pending; winners and failures are exactly the decisive answers read; the round is ended exactly by a success or a denial of this request when it does not wait, and nothing is read after that |
| `Rounds.RoundsReadWhatArrives` | src/daemon.rs:753-784 | a round reads exactly the answers that arrive, pass by pass and link by link, of the links that took the request and are not settled, until one ends it; a silent link keeps nobody from being heard |
| `Rounds.DecisiveAnswersSettle` | src/daemon.rs:753-784 | in a round that no answer ended, a link with a decisive answer in any pass is not pending at the end |
| `Rounds.CountsAddUp` | src/daemon.rs:734-794 | wins + failures + still pending = requests sent |
| `Rounds.NoCredentialsIsUnanimous` | src/daemon.rs:704-711 | NO_CREDENTIALS is the final error if and only if there were errors and all are that; the final error is one of the collected ones |
| `Rounds.FinalErrorIsTheFirst` | src/daemon.rs:704-711 | the final error is the first that is not NO_CREDENTIALS, else the first, else OTHER |
| `Rounds.VerdictIsFair` | src/daemon.rs:673-711 | a later round runs only if nobody won and every failure so far is NO_CREDENTIALS; the reply is the first win, or else sums up the failures of all rounds |
| `Rounds.RoundsRunInTurn` | src/daemon.rs:671-703 | the planned rounds that have somebody to ask run in their order, and one is left out only after a round that was won or failed with more than NO_CREDENTIALS |
| `Protocol.MovesAreOfFourKinds` | src/daemon.rs:639-723 | whatever a handler does in one section is silent, gives up its reply because the slot is lost, sends its one reply, or finishes; it never touches another request or takes the slot (which reply it sends: `Verdicts`) |
| `Protocol.TruthKept` | src/daemon.rs:726-794 | every event of daemon, links and phones keeps: each frame, answer and payload under way belongs to the request whose number it bears |
| `Protocol.RepliesAreTrue` | src/daemon.rs:639-794 | in every run with fewer than 2^32 requests, any number of phones, any interleaving, links closing at any time: a reply goes to its request's channel and is a non-zero status or exactly what one phone asked for this request returned for its bytes |
| `Protocol.SlotPassesThroughEmpty` | src/daemon.rs:594-606 | the slot never passes from one request to another directly, and only an accepted message fills it |
| `Protocol.OnlyItsOwnHandlerOrInitEmptiesTheSlot` | src/daemon.rs:610-637 | the slot is emptied only by the handler of the request in it or by INIT on that request's channel; an abandoned handler never clears a newer request |
| `Protocol.StepsAreDisciplined` | src/daemon.rs:639-723 | every event keeps the bookkeeping from which the next row follows |
| `Protocol.EveryRequestIsAnsweredOnce` | src/daemon.rs:673-724 | in every run an accepted request gets at most one final reply, and exactly one once its handler is done unless INIT abandoned it; a handler at work holds the slot or was abandoned |
| `Verdicts.RepliesAreRulings` | src/daemon.rs:639-724 | in every run every final reply is the first win of its request's rounds or sums up the failures of all of them; every round accounts for exactly the links that took it; part of the plan is left untried only after a round that was won or failed with more than NO_CREDENTIALS |
| `Verdicts.NoCredentialsMeansEveryoneWasTried` | src/daemon.rs:639-711 | in every run NO_CREDENTIALS is sent only after every link of the plan was tried and every failure was that; without a choice, and but for getInfo and getNextAssertion, these are links of all devices that were connected when the request began |
| `Verdicts.HoldersAreTriedFirst` | src/daemon.rs:644-684 | in every run the holders are those who agreed in the last probe that anybody won, and a getAssertion that is no probe tries nobody before one of them |
| `Verdicts.PassesPollEverybody` | src/daemon.rs:748-784 | in every run a pass that no answer ended polled every link that was pending when it began, in order, and what a round has read is what was waiting there |
| `Traffic.WhatGoesOverTheLinks` | src/daemon.rs:734-794 | in every run a link was asked exactly when a frame with the request's number and bytes was put on it, whoever was pending when a round ended was sent CANCEL with its number, a cancellation tells those that took the round, and every link that is gone left its closing mark |
| `Traffic.CancellationsReachTheRound` | src/daemon.rs:610-628 | telling a cancellation while the handler listens puts CANCEL on every link that took the round |
| `History.NoDeviceIsAskedTwice` | src/daemon.rs:639-752 | in every run, whatever links come and go meanwhile, two questions sent for one request go to different devices |
| `History.AskedLinksAreOfDifferentDevices` | src/daemon.rs:639-752 | in every run, two links asked for one request are of different devices |
| `History.EveryRoundConserves` | src/daemon.rs:726-794 | in every run, each round under way keeps the invariant of `FanOutConserves` over the links that took it, however the handlers and phones interleave |
| `Winning.WinsAlways` | src/daemon.rs:676-691 | in every run: `last` is the device of the sign-in concluded last; a sign-in replies a success exactly when it was won; of two wins the earlier one replied earlier, unless INIT abandoned one of them |
| `Winning.NextFollowsTheLatestWin` | src/daemon.rs:644-654 | in every run a getNextAssertion without a choice is sent to one link only, of the device that won the sign-in concluded last when its handler planned |
| `Winning.NextGoesToTheRepliedDeviceIff` | src/daemon.rs:644-690 | in every run, when the request in the slot is about to be planned: the device remembered is the one whose success the host was sent last if and only if no sign-in was concluded since that one's, or the last of those was won by the same device; each of those was abandoned by INIT, unless the one replied to was |
| `Winning.WithoutAbandonedWinnersItDoes` | src/daemon.rs:644-690 | so with no abandoned winner it is |
| `Overtaking.NextCanGoToAPhoneTheHostNeverHeardOf` | src/daemon.rs:676-690 | a concrete run: an abandoned sign-in is concluded after another one was answered, and the getNextAssertion that follows is planned for the phone of the abandoned one |
| `EndToEnd.AlwaysInStep` | src/daemon.rs:726-829 | the system on bytes (reports in, one byte stream each way per phone cut by its readers, reports out) carries out a run of `Protocol`: the bytes under way are always the frames of its queues, whatever steps are taken in whatever order |
| `EndToEnd.HostBytesToHostBytes` | src/daemon.rs:462-829 | in every run on bytes with fewer than 2^32 messages: every final reply answers a message that the host's reports spell, on its channel, with a failure or with what one phone, whose reader cut that message from its bytes, returned; no request is answered twice; the reports of the replies are those cut from them |
| `EndToEnd.RepliesAreReadBack` | src/daemon.rs:462-481 | from the reports of any replies of at most 7609 bytes the host puts together exactly the payloads of each channel, in order |
| `EndToEnd.WhatTheHostReads` | src/daemon.rs:462-829 | so every message the host puts together from them is a failure or a phone's own result for a message that the host sent on that very channel |
| `Abandonment.RepliesMeetTheirSlotIff` | src/daemon.rs:688-691 | in every run, a reply about to be sent is the current request's if and only if INIT did not abandon that request after the handler's last look |
| `Witnesses.RepliesCanFollowInit` | src/daemon.rs:709-711 | a concrete run in which the reply is sent although INIT emptied the slot in between |
| `Witnesses.OneRequestSucceeds` | src/daemon.rs:639-794 | a concrete run with one phone in which the host gets the phone's own bytes |
| `Cbor.WriteHead` | android/src/sn/mahir/passkey/Cbor.java:23-35 | writes the head of a major type and value that the next row proves shortest |
| `CborShortest.HeadsAreShortest` | android/src/sn/mahir/passkey/Cbor.java:23-35 | any bytes that a decoder reads as a head of this major type and value are no shorter than the head written |
| `Cbor.EncodeValue` | android/src/sn/mahir/passkey/Cbor.java:17-21 | the buffer at the end is the encoding, and the call fails exactly on values that have none |
| `Cbor.Write` | android/src/sn/mahir/passkey/Cbor.java:38-69 | appends exactly the encoding of the value, recursively, entries sorted |
| `Cbor.WriteMap` | android/src/sn/mahir/passkey/Cbor.java:54-63 | entries are encoded, put in order and written after a head with their number |
| `CborDecode.ReadNumber` | src/daemon.rs:1356-1363 | the fold over the bytes is their big-endian number; fails exactly when they pass the end |
| `CborDecode.DecodeRust` | src/daemon.rs:1292-1354 | the daemon's decoder over its cursor is the function the theorems are about, value and final offset |
| `CborDecode.DecodeJava` | android/src/sn/mahir/passkey/Cbor.java:86-117 | the phone's decoder over its cursor likewise, with signed 64-bit lengths, `(int)` casts and `LinkedHashMap.put` |
| `CborDecode.EveryValueTakesAByte` | src/daemon.rs:1292-1354 | each success consumes at least one byte for every value in the tree, so a claimed count near 2^64 stops within the remaining bytes |
| `CborAgree.DecodersAgree` | src/daemon.rs:1292-1354 | on any bytes a Java array holds, from any position: the daemon succeeds without a tag if and only if the phone succeeds without a malformed text or a number with the top bit set, and then with the same tree, repeated keys put together, and the same end |
| `CborAsRead.HeldIsRead` | android/src/sn/mahir/passkey/Cbor.java:86-117 | on any bytes, what the phone holds is what it reads entry by entry, equal keys put together at every level, with the same end and the same failures |
| `CborCanonical.EncodingIsPrefixFree` | android/src/sn/mahir/passkey/Cbor.java:17-69 | no encoding is a prefix of another one's; equal encodings come from values with one canonical form |
| `CborCanonical.MapKeysIncrease` | android/src/sn/mahir/passkey/Cbor.java:54-63 | a map with distinct keys is written with its encoded keys strictly increasing, shorter first and then byte by byte unsigned, nothing lost |
| `CborCanonical.EncodingIsCanonical` | android/src/sn/mahir/passkey/Cbor.java:38-69 | two values encode to the same bytes if and only if they are equal up to the order of map entries at every level |
| `CborCanonical.CollapseChangesNothing` | android/src/sn/mahir/passkey/Cbor.java:110-113 | with distinct keys the phone's maps are the entries as read |
| `CborCanonical.BothReadBack` | android/src/sn/mahir/passkey/Cbor.java:17-117 | every value nested at most 8 deep, encoded in the middle of any bytes, is read back by both decoders as one tree, equal up to map order, and both stop exactly where its encoding ends |
| `CborShortest.EncodingIsShortest` | android/src/sn/mahir/passkey/Cbor.java:17-69 | from whatever bytes at whatever offset either decoder reads a value equal to this one up to map order, it takes at least as many bytes as the encoder writes |
| `CborNesting.DaemonReadsNested` | src/daemon.rs:1292-1354 | the daemon reads nothing that is nested more than 8 levels deep |
| `CborNesting.PhoneReadsNested` | android/src/sn/mahir/passkey/Cbor.java:86-117 | nor does the phone |
| `Probe.ProbesAreClassifiedAlikeIff` | src/daemon.rs:1365-1383 | for every getAssertion, when `silent` is true exactly if the phone computes `up` as false: a map read without a tag, if and only if the last "up" of the last options asks for no presence whenever any entry does; with a tag, if and only if no entry does; what is no map, always; what the daemon cannot read, if and only if it is no map to the phone or the last "up" of the last options that the phone reads does not ask for it |
| `Probe.PhoneTakesTheLast` | android/src/sn/mahir/passkey/Authenticator.java:205-206 | the phone computes `up` as false exactly when the last options are a map whose last "up" is false |
| `Probe.OnlyMalformedProbesAreUnread` | src/daemon.rs:1292-1354 | a probe of the phone that the daemon cannot read holds a malformed text or a number with the top bit set |
| `Probe.ProbesAreClassifiedAlike` | src/daemon.rs:1365-1383 | in particular every request read without a tag and without a repeated key is classified alike |
| `Probe.EncodedProbesAreClassifiedAlike` | android/src/sn/mahir/passkey/Authenticator.java:205-206 | and every parameter map as the encoder writes it |
| `Probe.RepeatedKeysAreClassifiedApart` | src/daemon.rs:1365-1383 | a concrete request with "up" twice that the daemon calls silent and the phone does not |
| `Probe.MalformedTextsAreClassifiedApart` | src/daemon.rs:1292-1383 | a concrete request with a malformed text that the phone takes for a probe and the daemon does not |
| `Prompt.StatusIsDecidedMeanwhile` | android/src/sn/mahir/passkey/KeyService.java:77-172 | in every run a prompt's status is that of the first event since its opening that settles it (an answer with its number, or its own connection withdrawing its request or closing), else the timeout status; only answers without a prompt number after that override it |
| `Prompt.StatusIsTheVerdictIff` | android/src/sn/mahir/passkey/KeyService.java:93-100 | the status is the verdict of the first settling event if and only if no unnumbered answer comes later, or the last one says the same |
| `Prompt.StatusIsTheVerdict` | android/src/sn/mahir/passkey/KeyService.java:93-114 | with numbered answers only, as the app itself gives them, the status is that verdict in every run |
| `Prompt.UnaddressedAnswersOverride` | android/src/sn/mahir/passkey/KeyService.java:195-199 | a concrete run in which an unnumbered approval replaces a withdrawal before it is collected |
| `Prompt.OthersNeverMatter` | android/src/sn/mahir/passkey/KeyService.java:77-114 | two courses of events with the same answers and withdrawals for this prompt give the same status, whatever older answers, other connections and other numbers are mixed in |
| `Prompt.PromptsAreNumbered` | android/src/sn/mahir/passkey/KeyService.java:121-131 | prompts are numbered 1, 2, 3, ... in the order in which they open |
| `Prompt.PromptIsRefusedIff` | android/src/sn/mahir/passkey/KeyService.java:121-124 | no prompt opens if and only if the connection has closed or its latest withdrawal names the request |
| `Prompt.FreshConnectionIsRefusedIff` | android/src/sn/mahir/passkey/KeyService.java:59-62 | a connection that withdrew nothing is refused for one number only, the one its memory starts with |
| `Prompt.OneNumberIsRefusedFromTheStart` | android/src/sn/mahir/passkey/KeyService.java:284-288 | on the wire that is request number 0x80000000 |
| `Prompt.OnlyAttachedScreensAreTakenDown` | android/src/sn/mahir/passkey/KeyService.java:104-114 | a screen is aborted only with the prompt it attached to, when that ends without its answer |
| `Prompt.KeyService.Attach` | android/src/sn/mahir/passkey/KeyService.java:77-83 | only the current prompt takes a screen, and the result tells which |
| `Prompt.KeyService.Detach` | android/src/sn/mahir/passkey/KeyService.java:87-91 | only the shown screen of the current prompt is taken off |
| `Prompt.KeyService.Answer` | android/src/sn/mahir/passkey/KeyService.java:93-100 | settles the prompt with this number and no other |
| `Prompt.KeyService.Note` | android/src/sn/mahir/passkey/KeyService.java:106-107 | the withdrawn number and the closing are remembered for this connection and no other |
| `Prompt.KeyService.Cancel` | android/src/sn/mahir/passkey/KeyService.java:104-114 | settles the open prompt only of this connection, and only when closing or for its number |
| `Prompt.KeyService.ConfirmOpens` | android/src/sn/mahir/passkey/KeyService.java:121-131 | refuses or opens the next prompt, for this caller and request |
| `Prompt.KeyService.ConfirmCloses` | android/src/sn/mahir/passkey/KeyService.java:155-171 | returns the result, ends the prompt if nobody did, and forgets its owner and screen |
| `Authenticator.DigitsCompare` | android/src/sn/mahir/passkey/Authenticator.java:227-229 | 20-digit zero-padded times compare like the numbers, and are equal only for equal numbers |
| `Authenticator.DiscoveredIsTheWholeSite` | android/src/sn/mahir/passkey/Authenticator.java:218-231 | without an allow list: every stored credential of the site exactly once, latest first, in whatever order the store lists its entries |
| `Authenticator.AllowedIsWhatTheListNames` | android/src/sn/mahir/passkey/Authenticator.java:212-217 | with one: exactly the stored credentials of the site that it names |
| `Authenticator.AllowedAreHeld` | android/src/sn/mahir/passkey/Authenticator.java:212-217 | each of them once |
| `Authenticator.ExcludedIff` | android/src/sn/mahir/passkey/Authenticator.java:130-137 | for every exclude list the first entry that matters decides: a known key of the site refuses, an unreadable entry fails with its own status, and without either the registration goes on |
| `Authenticator.OffersEs256Iff` | android/src/sn/mahir/passkey/Authenticator.java:116-120 | for every list of algorithms the first entry that is no map fails with its own status, even behind an ES256 entry; without one the answer is whether some entry is public-key with -7 |
| `Authenticator.CreationReplacesOnlyItsLike` | android/src/sn/mahir/passkey/Authenticator.java:138-164 | a new key is stored under the request's site, user id, names and option, with the time of the approval; every other credential stays as it was, except that a discoverable one replaces the discoverable one of its site and the request's own user id |
| `Authenticator.MakeParametersSay` | android/src/sn/mahir/passkey/Authenticator.java:112-130 | under which keys of the parameter map a registration finds hash, site, user, algorithms, exclude list and options, and what it requires of them |
| `Authenticator.GetParametersSay` | android/src/sn/mahir/passkey/Authenticator.java:200-217 | the same for a sign-in; presence is wanted unless "up" is false |
| `AuthenticatorService.FindEs256` | android/src/sn/mahir/passkey/Authenticator.java:116-120 | the loop over the algorithms: ES256 offered, or the status of the first entry that cannot be read |
| `AuthenticatorService.Authenticator.IsExcluded` | android/src/sn/mahir/passkey/Authenticator.java:130-137 | the loop over the exclude list |
| `AuthenticatorService.Authenticator.DeleteReplaced` | android/src/sn/mahir/passkey/Authenticator.java:142-149 | deleting while going through a copy leaves exactly the credentials that are not in the way |
| `AuthenticatorService.Authenticator.MakeCredential` | android/src/sn/mahir/passkey/Authenticator.java:111-197 | the whole command: state, question and reply of the specification |
| `AuthenticatorService.Authenticator.AllowedHits` | android/src/sn/mahir/passkey/Authenticator.java:212-217 | the loop over the allow list |
| `AuthenticatorService.Authenticator.SiteHits` | android/src/sn/mahir/passkey/Authenticator.java:218-231 | the loop over the store, the sort and the loop over its result |
| `AuthenticatorService.Authenticator.Sign` | android/src/sn/mahir/passkey/Authenticator.java:261-299 | the counter is stored before the key signs; names are told only with user verification |
| `AuthenticatorService.Authenticator.GetAssertion` | android/src/sn/mahir/passkey/Authenticator.java:200-253 | the whole command: state, question and reply of the specification |
| `AuthenticatorService.Authenticator.GetNextAssertion` | android/src/sn/mahir/passkey/Authenticator.java:255-259 | the next account, with the first assertion's site, hash and flags |
| `AuthenticatorService.Authenticator.Handle` | android/src/sn/mahir/passkey/Authenticator.java:66-87 | the whole command, and what is left of a sign-in is in the store and of its site |
| `AuthenticatorRuns.SoundKept` | android/src/sn/mahir/passkey/Authenticator.java:66-87 | every command keeps the invariant: one discoverable key per site and account, accounts left are stored under their site, counters known, sign-ins traceable to their opening |
| `AuthenticatorRuns.EveryRunIsLawful` | android/src/sn/mahir/passkey/Authenticator.java:66-273 | in every run from a store with one discoverable key per site and account, with fresh identifiers: that invariant, and every command obeyed the laws of the next rows |
| `AuthenticatorRuns.FlagsAreCovered` | android/src/sn/mahir/passkey/Authenticator.java:238-259 | an assertion with non-zero flags rests on a getAssertion of the same connection, site and hash whose question was answered OK |
| `AuthenticatorRuns.NextFollowsItsOpening` | android/src/sn/mahir/passkey/Authenticator.java:66-71 | every served getNextAssertion continues one sign-in: same connection, within 30 s, nothing but getNextAssertions and empty requests in between, the next account of the list made at its opening, with its site, hash and flags |
| `AuthenticatorRuns.AnswersAreFirst` | android/src/sn/mahir/passkey/Authenticator.java:232-252 | a getAssertion answers with the newest account and tells how many there are if more than one |
| `AuthenticatorRuns.CountersRise` | android/src/sn/mahir/passkey/Authenticator.java:261-266 | a credential's counter is above every one it showed before |
| `AuthenticatorRuns.CommandsAsk` | android/src/sn/mahir/passkey/Authenticator.java:232-243 | keys are made only when approved; a sign-in that wants presence asks whether or not there is a key |
| `AuthenticatorRuns.NextIsServedIff` | android/src/sn/mahir/passkey/Authenticator.java:66-71 | in every state a run reaches: a readable getNextAssertion whose key signs is served if and only if the log of commands holds a sign-in without allow list that was opened by the same connection, is in time, was followed by nothing but getNextAssertions and empty requests, and has an account left; else NOT_ALLOWED |
| `AuthenticatorRuns.SignInsListTheWholeSite` | android/src/sn/mahir/passkey/Authenticator.java:200-259 | a getAssertion without allow list and the getNextAssertions that follow answer with every credential of the site exactly once, newest first, and then NOT_ALLOWED |
| `Registrations.SignInIsAnswered` | android/src/sn/mahir/passkey/Authenticator.java:200-253 | every sign-in with a readable allow list: whom it asks, NO_CREDENTIALS if and only if no key fits, the user's refusal, or an assertion for the newest key of the site or the first one the list names, with flags bit by bit and the stored user, names only with bit 2 |
| `Registrations.RegistrationIsAnswered` | android/src/sn/mahir/passkey/Authenticator.java:111-197 | every registration for a site: the first entry of the exclude list that matters refuses it, a known one after asking; else the user is asked, and a key is created if and only if the answer is OK, the user id can be read and the Keystore makes a key that signs |
| `Registrations.EveryRunTells` | android/src/sn/mahir/passkey/Authenticator.java:66-299 | in every run every sign-in is so answered, every getNextAssertion tells what its opening earned, every assertion is for a key as it was registered, and every key made is still stored as registered unless a later approved registration of its site and user id displaced it |
| `Registrations.FlagsSayWhatWasAsked` | android/src/sn/mahir/passkey/Authenticator.java:238-259 | in every run's log bit 0 of an assertion's flags is set if and only if its sign-in asked for presence, bit 2 if and only if that sign-in's question was asked and answered OK, and no other bit is; the flags are zero if and only if the user did not approve |
| `Registrations.TwoAccountsKeepBothKeys` | android/src/sn/mahir/passkey/Authenticator.java:142-164 | two discoverable registrations of one site for different user ids, each the last of its id, leave both keys, each under its own request's id |
| `Registrations.SignInsTellTheRegisteredUser` | android/src/sn/mahir/passkey/Authenticator.java:261-299 | in every run's log a sign-in that names a user names the id its key was registered with, and the registered names if and only if bit 2 is set |
| `AuthenticatorRuns.ShownCountersRise` | android/src/sn/mahir/passkey/Authenticator.java:261-272 | in every lawful log a credential's later counter is the greater; as signed, for two less than 2^32 apart, if and only if the stored counter did not leave 32 bits in between |
| `Base64.Decode` | src/pam_auth.rs:148-168 | the loop with its unmasked 32-bit register computes the leading floor(6n/8) bytes of the unbounded base-64 number, and refuses if and only if a character outside both alphabets stands before the padding |
| `Base64.EveryEncodingIsRead` | src/pam_auth.rs:148-168 | every RFC 4648 encoding, either alphabet, padded or not, gives its bytes back |
| `Text.UnlinesRestoreIff` | src/cli.rs:380-408 | lines read and written back give the text if and only if its last line is ended and no line ends in CR LF |
| `KeyFile.StoringAppendsTheHandle` | src/cli.rs:508-520 | the user has exactly one handle more, at the end |
| `KeyFile.StoringTouchesNobodyElse` | src/cli.rs:513-520 | no other user's registrations change, for `handles_for` and for the sign-in helper |
| `KeyFile.RemovingUndoesStoring` | src/cli.rs:531-545 | removing a new handle after storing it gives all lines back |
| `KeyFileRuns.RemovingDropsTheHandle` | src/cli.rs:532-545 | the user loses exactly the registrations with this handle |
| `KeyFileRuns.RemovingTouchesNobodyElse` | src/cli.rs:532-545 | nobody else's registrations change |
| `KeyFileRuns.StoringKeepsOneLine` | src/cli.rs:513-520 | one line per user stays so when storing |
| `KeyFileRuns.RemovingKeepsOneLine` | src/cli.rs:531-545 | and when removing |
| `KeyFileRuns.HelperReadsTheSameEntries` | src/pam_auth.rs:126-146 | with one line per user the sign-in helper reads exactly the entries that `handles_for` reads, those that decode as es256 |
| `KeyFileRuns.FilesSayWhatTheBookSays` | src/cli.rs:558-589 | after any legal run of edits: one line per user, handles in order, beside each the name it was stored with or its numbered default, and the helper's credentials, all as a plain book of registrations says |
| `KeyFileText.TextsSayWhatTheBookSays` | src/cli.rs:494-589 | the same on the text of the two files |
| `KeyFileText.RemoveUndoesStoreIff` | src/cli.rs:494-556 | for any two texts, storing a new handle and removing it gives both files back, each if and only if it was tidy: last line ended, no CR LF, no blank line |
| `KeyFileText.StoreLine` | src/cli.rs:508-520 | the search and the edit in place of the line list |
| `KeyFileText.RemoveLines` | src/cli.rs:531-545 | the loop over the lines |
| `KeyFileText.KeyFiles.Store` | src/cli.rs:494-526 | the whole command with its error cases; on an error nothing is written, and for a well-formed registration the two files change by exactly the step of the runs above |
| `KeyFileText.KeyFiles.Remove` | src/cli.rs:528-556 | the whole command on both files, exactly the step of the runs above; without a key file an error, and nothing is written |
| `PamFile.WantedIsOurModule` | src/cli.rs:340-363 | the line that is written is recognised as ours, is not the comment, and is read back as written |
| `PamFile.Add` | src/cli.rs:365-408 | the loop computes the text with our line in the place of the first one of ours or above the first real auth line, or leaves the file alone |
| `PamFile.PlacingKeepsOthers` | src/cli.rs:380-404 | a rewrite keeps every line that is not ours, in order, and leaves exactly one module line of ours, the wanted one |
| `PamFile.OursComesFirst` | src/cli.rs:394-402 | no real auth line stands before ours, and a newly inserted one has the comment right above and that line right below |
| `PamFile.AddingTwiceIsAddingOnce` | src/cli.rs:377-379 | adding again changes nothing |
| `PamFile.RemoveUndoesAddIff` | src/cli.rs:430-441 | adding and removing gives a file without lines of ours back if and only if it has no real auth line, or its last line was ended and no line ended in CR LF |
| `PamFile.CarriageReturnsAreNotRestored` | src/cli.rs:434-441 | a concrete file that is not restored |

## Left out

- The `/dev/uhid` event layout, device creation and the poll loops: reports are sequences of bytes in and out.
- adb, `/proc/net/tcp`, BlueZ and the transport loops: a link is a FIFO that may close once.
- `src/wifi.rs`, `WifiTransport.java`, `WifiKeyManager.java`: TLS and sockets.
- `pam/src/lib.rs`: terminals, signals and the conversation with libpam.
- libfido2, the Android Keystore, SHA-256 and ECDSA: a signature either fails or succeeds; the bytes of attestations and the encoding of responses are not spelled out beyond id, site, hash, flags, counter, user and count.
- The screens (`MainActivity`, `PromptActivity`, `BootReceiver`): they appear as attach, detach and answer events.
- Clocks: deadlines of the daemon and of the prompt are steps that may happen at any time; the authenticator's 30 s are explicit times, which need not increase.
- 64-bit overflow of prompt numbers and stored counters.
- Protocol.RepliesAreTrue: for runs with fewer than 2^32 requests, because request numbers repeat after that.
- Protocol.EveryRequestIsAnsweredOnce: likewise, for fewer than 2^32 requests; so are the results of `History`, `Winning`, `Verdicts` and `Traffic`.
- EndToEnd.HostBytesToHostBytes: for fewer than 2^32 messages, and for the reports of the final replies: keepalives, errors and the answers to INIT, PING and WINK go out beside them, and one report is put together in one step.
- EndToEnd.WhatTheHostReads: for replies of at most 7609 bytes, the most that `CtapHid.SequenceBytesStayLow` allows.
- Daemon.Daemon.HandleCbor: other threads do not change the slot while it runs; the loss of the slot in the middle of a request is in `Protocol`.
- AuthenticatorRuns.ShownCountersRise: the order of two counters as signed is stated for stored ones less than 2^32 apart.
- CborAgree.DecodersAgree: for inputs shorter than 2^31 bytes, the longest Java array, and a UTF-8 decoder that keeps valid text.
- AuthenticatorRuns.EveryRunIsLawful: for identifiers that were never given out before; the generator itself is not modelled.
- KeyFileText.RemoveUndoesStoreIff: for well-formed users and registrations (no second colon, no tab or line break), a name that the command accepts, and a handle the user does not have.
- A first packet that is refused as busy leaves an older partial message of its channel in place, and the sender's further packets are then taken as that message's continuation: covered by `CtapHid.Receive`, outside the reassembly theorem.
- Lengths with the top bit set in the phone's decoder: modelled as the code treats them (`CborDecode.DecodeJava`), outside the agreement of the decoders; running out of memory is not modelled.
- `JSONObject` and hexadecimal names in the phone's store: a credential is a record under its identifier's bytes; a store damaged from outside is not modelled.
- The rest of `src/cli.rs`: sudo, systemd, packages, file permissions, symbolic links, the copy of a vendor PAM file and its marker, and missing files.
- Text is a sequence of characters: where Rust compares UTF-8 bytes, equality of texts is the same; no normalisation.
