# fam100 chat commands, modelled in Dafny

fam100 is a multiplayer trivia game played in Telegram group chats. The
bot's command file `telegram/commands.go` holds the parts of the bot that
decide whether a game may run. This project models that core as pure
functions over immutable data and proves properties of them:

- **/join** (`cmdJoin`) as a state machine over the registry of channels
  (`Lobby`) and the global game queue (`GameQueue`):
  - the first join creates a channel;
  - the background admission goroutine takes a slot from the queue, admits
    the game without one when queueing is off, or waits for a slot;
  - later joins collect the quorum, restart the quorum timer and start the
    game.
- **rateLimited**: a cooldown per chat shared by /help and /score
  (`RateLimit`).
- **escape**: HTML escaping by three ordered replace-all passes (`Html`).
- **formatRankText**: the ranking text with "..." lines at jumps in
  position (`RankText`).
- **cmdChannels**: the listing body and its truncation to 3000 bytes
  (`ChannelList`).

Go's `strings.Replace`, `strings.LastIndex` and the `%d`/`%2d` verbs are
written out in `GoStrings`, so that the text-producing functions can be
reasoned about down to the character. Strings stand for Go byte strings, one
`char` per byte, so `|s|` is Go's `len(s)`.

The file relies on behaviour it does not show. The model takes it as given:

- `fam100.NewGame` returns a game in state Queued, as the check at line 117
  implies;
- `game.Start()` moves the game to Started;
- `startQuorumTimer`, `startQuorumNotifyTimer`, `cancelTimer` and the notify
  cancel function only start or stop their timer;
- `gameQueue`, declared at line 20 without `make`, is created elsewhere as a
  buffered channel whose buffer size is `GameQueue.Queue.capacity`. Capacity 0
  also stands for a nil channel: `TryAcquire` and `Release` never succeed on
  it and `SlotObtained` never fires (`GameQueue.NilQueueBlocks`,
  `Lobby.NilQueueNeverFreesSlot`).

A timer is a flag for "a cancel function is held" plus a count of starts,
so that restarting a timer can be told apart from leaving it running.

Three places where the code does less than its own text suggests. The model
follows the code in each:

- Repeated /join. The `switch` at lines 103–110 has a case for a sender
  already in `quorumPlayer` at line 106, which returns at once, so a repeat
  joiner was evidently meant to be turned away. The Queued and Created cases
  above it catch every join to a forming game first. A repeated join to a
  Created game therefore goes through and restarts the quorum timer
  (`Lobby.DuplicateJoinRestartsQuorumTimer`).
- Quorum at admission. Only the goroutine's blocked path checks the quorum,
  at line 91, under the comment "maybe it's already quorum after finished
  waiting" at line 90. A game admitted at once at lines 67–68 or 72–73 stays
  Created even when joins made while it was Queued have already reached the
  quorum (`Lobby.FastAdmissionIgnoresQuorum`).
- "..." lines. `lastPos` starts at 0 at line 229 and the test at line 234
  skips the "..." line while `lastPos` is 0. So an entry that follows one at
  position 0 never gets a "..." line (`RankText.Gap`).

## Model

| member | source | states |
|---|---|---|
| GoStrings.ReplaceAll | telegram/commands.go:247-249 | replacing a character leaves a string without it unchanged, cannot introduce it unless the replacement holds it, and only draws characters from the input and the replacement |
| GoStrings.ReplaceAllAppend | telegram/commands.go:247-249 | a replace-all pass distributes over concatenation |
| GoStrings.LastIndex | telegram/commands.go:307 | the index found holds the character and no later index does; -1 exactly when the character is absent |
| GoStrings.NatDigitsText | telegram/commands.go:237 | %d of a non-negative value writes only digits, one digit exactly below ten, and a leading zero only for zero |
| GoStrings.NatDigitsRoundTrip | telegram/commands.go:237 | the digits %d writes read back as the value written |
| GoStrings.FormatInt | telegram/commands.go:237 | %d of any Go int writes a non-empty text |
| GoStrings.FormatIntText | telegram/commands.go:237 | %d writes a minus sign exactly for negative values, followed by digits |
| GoStrings.FormatIntRoundTrip | telegram/commands.go:237 | %d loses nothing: parsing its output gives back the integer |
| GoStrings.PadLeftShape | telegram/commands.go:237 | %2d keeps the %d text as its tail and pads only with spaces in front |
| GoStrings.FormatIntWidth | telegram/commands.go:237 | %2d is at least two characters wide |
| Html.Escape | telegram/commands.go:246-252 | the escaped text holds no '<' or '>', is never shorter than the input, and equals the input when it has no special character |
| Html.EscapeAppend | telegram/commands.go:246-252 | escaping a concatenation escapes each part |
| Html.EscapeSingle | telegram/commands.go:246-252 | the three passes turn a single character into its entity, and "&" is not escaped twice |
| Html.EscapeCons | telegram/commands.go:246-252 | escape works character by character, each character becoming its entity |
| Html.UnescapeCons | telegram/commands.go:246-252 | decoding reads back exactly one entity at the front |
| Html.UnescapeEscape | telegram/commands.go:246-252 | mapping the entities back recovers the input exactly |
| Html.EscapeIdentityIff | telegram/commands.go:246-252 | escape changes a string if and only if it holds '&', '<' or '>' |
| RankText.EntryText | telegram/commands.go:237 | an entry line is always longer than a "..." line |
| RankText.EntryNeverDots | telegram/commands.go:235-237 | an entry line never reads as a "..." line |
| RankText.FormatRankText | telegram/commands.go:224-244 | the result is the escaped ranking text; unescaping gives back the unescaped text; it starts with a newline and holds no '<' or '>' |
| RankText.WriteRankLines | telegram/commands.go:229-240 | the loop writes, entry by entry, a "..." line at each jump followed by the entry line, carrying the previous position in lastPos |
| RankText.LayoutLength | telegram/commands.go:233-239 | the ranking has one line per entry plus one per jump |
| RankText.LayoutPrefix | telegram/commands.go:233-239 | writing more entries only appends lines |
| RankText.GapCountMonotone | telegram/commands.go:233-239 | the count of jumps never decreases along the ranking |
| RankText.EntryPlacement | telegram/commands.go:233-239 | each entry's line sits at its computed index, the indices follow the input order, and a "..." line stands right before an entry exactly when the positions jump there |
| RankText.EntriesAppend | telegram/commands.go:233-239 | dropping "..." lines distributes over concatenation |
| RankText.EntriesInOrder | telegram/commands.go:233-239 | dropping the "..." lines leaves every entry exactly once, in input order |
| RankText.EmptyRank | telegram/commands.go:228-231 | An empty ranking is escaped to a newline followed by the escaped "none" text and nothing else. |
| ChannelList.ListingBody | telegram/commands.go:293-301 | a non-empty listing starts with a newline; an empty one is empty |
| ChannelList.Truncate | telegram/commands.go:304-309 | a body within 3000 bytes is kept; a longer one is cut right before the last newline among its first 3000 bytes and gets the marker; no such newline is the panicking slice; the result is shorter than 3000 plus the marker |
| ChannelList.TruncateKeepsWholeLines | telegram/commands.go:305-309 | a truncated body ends in the marker, and what precedes it is a prefix of the body followed there by a newline |
| ChannelList.ListingNeverPanics | telegram/commands.go:293-309 | a listing body always has a newline to cut at, so truncating it never panics |
| ChannelList.Header | telegram/commands.go:303 | the header starts with "found " and ends with " channels:", with something in between |
| ChannelList.HeaderCount | telegram/commands.go:303 | the number in the header reads back as the count of matched channels |
| ChannelList.ChannelsText | telegram/commands.go:303-311 | the reply is the header plus the whole body when it fits, and is bounded in length otherwise |
| RateLimit.RateLimited | telegram/commands.go:341-351 | a call is let through if and only if the chat has no entry or its cooldown has elapsed; a call let through stores now, an ignored call changes nothing |
| RateLimit.CommandIgnored | telegram/commands.go:341-349 | the command name never changes the verdict |
| RateLimit.SharedCooldown | telegram/commands.go:341-351 | a /help let through makes a /score of the same chat within the cooldown be ignored |
| RateLimit.OtherChatsUntouched | telegram/commands.go:349 | a call never changes another chat's entry |
| RateLimit.StampPrefix | telegram/commands.go:343-349 | the time a call is measured from depends only on the calls before it |
| RateLimit.ReplayStep | telegram/commands.go:343-349 | one more call keeps the record of the earlier calls and is decided by the last call let through |
| RateLimit.Replay | telegram/commands.go:341-351 | over a run of calls, each one is ignored exactly when it falls within the cooldown of the last call let through before it, and the table ends up holding that call's time |
| GameQueue.TryAcquire | telegram/commands.go:65-66 | the non-blocking send succeeds exactly when a slot is free, and then takes one slot |
| GameQueue.Release | telegram/commands.go:20 | handing a slot back succeeds exactly when one is taken, and then frees it |
| GameQueue.NilQueueBlocks | telegram/commands.go:20 | a queue of capacity 0 never admits and never releases |
| GameQueue.AcquireThenRelease | telegram/commands.go:20 | taking a slot and handing it back restores the queue |
| GameQueue.ReleaseThenAcquire | telegram/commands.go:20 | handing a slot back makes room to take it again |
| Lobby.FirstJoin | telegram/commands.go:36-55 | a failed NewGame stores nothing; otherwise a channel is added with the sender as the only player and no timer; it is Started without a slot exactly when the quorum is 1, and is otherwise Queued awaiting admission; the queue and the other channels are untouched |
| Lobby.JoinChannel | telegram/commands.go:103-138 | only a Queued or Created game takes the sender in; a Queued game changes nothing else; a Created game starts exactly when the quorum is reached, with both timers stopped, and otherwise restarts the quorum timer and keeps a notify timer already held |
| Lobby.HandleJoin | telegram/commands.go:26-139 | a disabled chat changes nothing; the queue and every other chat's channel are untouched; the join creates the channel or goes to it |
| Lobby.Admit | telegram/commands.go:61-97 | a free slot is taken and the game is Created with both timers started; with no slot and queueing off the game is Created without a slot; otherwise it waits; other channels are untouched |
| Lobby.SlotObtained | telegram/commands.go:85-97 | a waiting game takes a slot once one is free, and then starts exactly when its quorum is already reached, or is Created with both timers started |
| Lobby.NilQueueNeverFreesSlot | telegram/commands.go:85 | with a queue of capacity 0 the blocked send never completes |
| Lobby.ReleaseSlot | telegram/commands.go:20 | a slot handed back frees one slot and touches no channel |
| Lobby.JoinChannelKeepsInv | telegram/commands.go:103-138 | a join keeps a channel consistent: quorum equals the roster, Queued exactly while admission is unfinished, timers matching the state, a Started game has its quorum |
| Lobby.HandleJoinKeepsInv | telegram/commands.go:26-139 | /join keeps every channel consistent and the queue within capacity |
| Lobby.AdmitKeepsInv | telegram/commands.go:61-97 | admission keeps every channel consistent and the queue within capacity |
| Lobby.SlotObtainedKeepsInv | telegram/commands.go:85-97 | obtaining a slot keeps every channel consistent and the queue within capacity |
| Lobby.StepKeepsInv | telegram/commands.go:26-139 | every event keeps the registry consistent |
| Lobby.RunKeepsInv | telegram/commands.go:26-139 | every reachable registry is consistent, and the slots in use never exceed the capacity |
| Lobby.JoinChannelGrows | telegram/commands.go:112-114 | a join never shrinks the quorum or roster and never moves the game backwards |
| Lobby.StepGrows | telegram/commands.go:26-139 | no event removes a channel, shrinks a quorum or roster, moves a game backwards or changes the capacity |
| Lobby.GrewTrans | telegram/commands.go:26-139 | growing is transitive |
| Lobby.RunGrows | telegram/commands.go:26-139 | along any run, channels stay, quorums only grow and games only move forward |
| Lobby.DuplicateJoinRestartsQuorumTimer | telegram/commands.go:103-131 | a repeated join to a Created game short of its quorum keeps the quorum's size but restarts the quorum timer |
| Lobby.NotifyStartedOncePerWait | telegram/commands.go:131-133 | while a Created game keeps waiting, joins never restart its notify timer |
| Lobby.FastAdmissionIgnoresQuorum | telegram/commands.go:65-67 | a game admitted with a free slot is Created even when its quorum is already reached |
| Lobby.JoinsStartIffQuorum | telegram/commands.go:112-133 | after admission, a non-empty run of joins starts the game exactly when the players already in and the joiners together reach the quorum; otherwise the game is still Created with all of them in its quorum |
| Lobby.StartedStays | telegram/commands.go:103-110 | a Started game ignores every later join |
| Lobby.RunAppend | telegram/commands.go:26-139 | running two batches of events is running them in turn |
| Lobby.ScenarioQuorumThenStart | telegram/commands.go:36-133 | with quorum 3 and one free slot, three distinct joiners start the game holding the slot, never having waited |
| Lobby.ScenarioWaitForSlot | telegram/commands.go:58-98 | with the only slot held elsewhere, a queueing chat waits for a slot, then takes it once handed back and is Created |
| Lobby.ScenarioQueueingOff | telegram/commands.go:58-70 | with queueing off and no slot left, a join is admitted at once without holding a slot |

## Left out

- Goroutines and data races. The admission goroutine runs as a single step, or as two steps when it blocks on the queue. The unsynchronised `b.channels` and `lastCmdRequest` maps, and the race between the goroutine and a join around lines 90–92, are not modelled.
- Timers firing. Disbanding on expiry, the reminder message and the timer helpers' bodies are outside this file. Only the held flag and the start count are kept. The teardown scenario (a channel disbanded on expiry, its slot released) is not modelled, and no game reaches Finished.
- Slot release. Its trigger lives in the game engine, so a release is an external event that can fire whenever a slot is taken. It is not tied to a particular channel.
- Message sends to `b.out`: the queue notice, the /help and /score replies, the usage and error replies, and `DiscardAfter`.
- Metrics: `cmdJoinTimer`, `gameWaitingTimer` and all the counters.
- Database lookups and `handleDisabled`. Whether a chat is disabled, its "queued" setting, `fam100.NewGame` succeeding, the ranking and the channel list are inputs to the model.
- `cmdChannels` regular-expression filtering. Go's `regexp` is not part of this model, so the filtered records are the input. The nil dereference on a bad pattern and the continuation after a failed `Channels()` call are not modelled.
- Go's map iteration order. The matched records come as a sequence in any order.
- `fam100.T`. The translated "Tidak ada" text is a parameter. Its use as a format string at line 231, where a '%' in a translation would be interpreted, is not modelled.
- `formatRoundText`, `cmdSay`, `cmdBroadcast`, and the parts of `cmdHelp` and `cmdScore` other than their `rateLimited` call.
- Integer widths. Positions, scores and times are unbounded integers. Go's 64-bit `int` and `time.Time` arithmetic cannot overflow in the model.
- GoStrings.FormatInt: the contract states only that the text is non-empty. The digit and sign facts are in GoStrings.FormatIntText and GoStrings.FormatIntRoundTrip.
