# Nexus Exchange Rust SDK: a verified model

A Dafny model of the stateful protocols and the exact codecs of the Nexus Exchange Rust SDK,
with proofs of what they keep over every run and every input. `dafny verify dfyconfig.toml`
checks all of it.

## What is modelled

**Streams.** `Protocol` holds channels, frames and cursor keys. `TypedClient` is what one frame
or command does to the replay set and the resume cursors, `Delivery` the bounded delivery queue
with its lag markers, `StreamSystem` the client, two pipes and a server with per-stream logs and
ring buffers in one transition system, in which the environment picks appends, evictions,
disconnects, commands, reads, refusals and acknowledgements. `NoDeadStream` and `GapFree` are two
theorems over its runs. `Rejoin` is a third: exactly when a stream asked for on a live connection
starts without a gap. `WithinLog` is what it needs of reachable states, `Confirmation` how a caller
can tell.

**Tasks.** `Backoff` and `SplitMix` are the reconnect delays, `Reconnect` the shape both reconnect
loops have: attempts with one delay between them, commands taken meanwhile, a reset after a
connection that delivered something. `StreamTask` (the typed client) and `AccountSocket` (the raw
account socket, with single-use tokens and redacted reasons instead of cursors) fill that shape in.
In both, a connection is a fold of a step function over its inputs and the loop a fold over its
attempts. What is claimed is proved of the folds; the tasks are classes whose methods update
channels, cursors, queue, wire and clock in place, each ensuring that the new state, the outputs and
the commands taken are exactly the step's or the fold's. `Handover` is what a consumer gets of a
connection's frames; `StreamRuns` and `AccountRuns` say, of the inputs alone, what each task hands
over, takes, answers and announces, and when it ends.

**Requests.** `NonceProtocol` is the agent nonce, the fair write queue and the server that wants
rising nonces, over all interleavings. `AgentAuth` is the signer itself: canonical strings, the
choice of scheme, the headers; `AgentHeaders` is what the server makes of them. `RateLimiter.dfy` (module `RateLimiting`) is the token bucket and
the server back-off, `Bursts` what blocks do to its rate bound, `Snapshots` what reported limits leave to spend, `RetryLoop` the `GET` retry loop on top of it, `Pagination` the cursor walk.

**Codecs and arithmetic.** `Coding` is percent and form coding, `Text` decimal, hex and separators,
`Redaction` the token scrubber, `Markets` grid rounding and order checks. `TradingRequest` reads
the action out of a request, `TradingDigest` is its EIP-712 digest, `TypeStrings` the texts of the
eight struct types and the domain, and `SigningActions` the code that hashes word by word. `Routes`
says which paths are actions. `EncodeData` and `ActionData` are EIP-712 on its own terms: the members
are read out of the type texts, and what is hashed is compared with them one by one.

## What is assumed

- Server of a stream: an acknowledgement of a join at the live edge names where it joined; any other
  never names a seq beyond the cursor asked for or the events already sent on that connection. Both
  may come before or after events, or never. Every subscribe is taken, or answered with `out_of_sync`,
  and not with an error frame. An unsubscribe is answered by one `unsubscribed`, and nothing else is.
  A ring buffer never starts past the next event. Events, resets, refusals and unrelated frames are
  otherwise up to the server.
- The channel list a stream is opened with names no stream twice (the code does not check).
- Nonces: the first write of a fresh signer draws a nonce past those an earlier signer of the same key
  used (a clock past them is enough), and no write draws after one has drawn `u64::MAX` (what happens
  then is a lemma). Later clocks may say anything.
- Hashes: Keccak-256 and SHA-256 are arbitrary functions. Nothing says they are injective; results
  about digests end in "or two different strings, both hashed here, have the same hash", and the
  strings come from finite sets that are written out. Only SHA-256 outputs being bytes is used.
- Time never runs back under the limiter's lock. Tokens, delays and decimals are exact reals.
  Durations saturate at 2^64 s as in the source: the back-off law includes that, and the rate bound
  speaks of waits shorter than that (`Unsaturated`). Decimal overflow is a parameter, and takes the
  pass-through branch.
- Texts are their UTF-8 bytes, one `char` a byte. Channel names, body keys and header names that the
  code knows are constructors of a datatype with one more for any other text.
- What `select!` yields, how many writes succeed, how upgrades and mints go, what arrives during a
  delay and how late its timer fires are inputs of `StreamTask` and `AccountSocket`, chosen by the
  environment. When the inputs of a connection run out, its stream has ended. `pacing`, `consumed`,
  `presented` and `notices` record what happened and steer nothing.

## Where the code does less than its comments

- `src/ws/typed.rs` promises a lag marker before the next delivered frame. A read between the two
  `try_send`s breaks that; `Delivery.DeliveryKeepsPositionUnlessItOvertakes` says exactly when.
- A server block does not stop the bucket refilling, so a burst can follow it: the rate bound is kept
  by every run exactly when the refill until the end of the block does not lift the bucket over its
  capacity (`RateLimiting.RateBoundIff`). A re-tune can let a later call go first: it does not exactly
  when the promised time is past, or behind the block, or the debt waited for is left alone and
  outlasts that time at the new rate (`RateLimiting.RetuneKeepsOrderIff`).
- `src/auth/agent.rs:75-77` says a restarted process picks up above the nonces it issued before. Many
  writes at one moment run ahead of the clock: after `n` of them at `t` a restarted signer does so
  exactly from `t + n` on (`NonceProtocol.RestartPicksUpAboveIff`).
- `src/rest/pagination.rs` takes the cursor before fetching, so the call after an error asks for the
  first page. Its `max_pages` is an equality test, so a cap lowered mid-walk below the pages already
  fetched stops nothing (`Pagination.Paginator.NextPage`).
- `encode_path_segment` promises that `..` becomes escapes and that traversal is ruled out
  (`src/rest.rs:156-161`), but dots are unreserved: the texts `.` and `..`, and no others, are sent as
  dot segments, which a URL parser removes (`Coding.DotSegmentIff`).
- `cancel_order` puts the raw id into the path. It is routed, and signed, as the cancel of that order
  exactly when the id is not empty, not `orders`, and has no slash or question mark
  (`TradingRequest.RawIdIsTheOrderIff`). Otherwise the last part of the id decides: none, or `orders`,
  signs cancel-all of the market passed; one right after `orders` signs the cancel of that part;
  anything else is not a trading route at all (`TradingRequest.CancelSigns`).

## When a stream may be asked for again

Frames are not matched to the subscribe they answer, so what is left of an earlier subscription can
set the cursor of a new one, and events in between are missed without a notice. A stream left and
subscribed to again on one connection stays gap-free, whatever happens next, exactly when it is quiet:
the server does not have it, no subscribe of it is in flight, and no frame of it in flight is an event
or ahead of the cursor (`Rejoin.RejoinIsGapFreeIff`; `Rejoin.JustLeftIsReached` and
`Rejoin.ARejoinCanLeaveAGap` are an input that fails). The same condition decides whether the client's
own subscribe after an `out_of_sync` starts afresh (`Rejoin.ResyncIsGapFreeIff`). A caller is safe once
it has read an `unsubscribed` for every time it left the stream on that connection
(`Rejoin.RejoinAfterConfirmation`). No comment promises more of a subscribe; `src/ws/typed.rs:22-31`
tells callers to refetch at the next `subscribed` frame after an `out_of_sync`, which makes up for
everything only where the stream is gap-free from there.

## Model

| member | source | states |
|---|---|---|
| `Protocol.FrameKeyMeetsChannelKey` | src/ws/protocol.rs:358-372 | An inbound frame has the cursor key of a channel exactly when its label is the name and market that channel subscribes with; unknown names and the interval never matter. |
| `Protocol.SameKeySameStream` | src/ws/protocol.rs:133-169 | Two channels share a cursor exactly when they are equal or are candles of one market at two intervals. |
| `Protocol.SubscribeTellsAll` | src/ws/protocol.rs:170-200 | A subscribe that is written tells its channel, interval included, and its cursor; an unsubscribe tells its channel. |
| `TypedClient.RetainFacts` | src/ws/typed.rs:433-436 | Unsubscribing removes exactly the channels of one key, and distinct keys stay distinct. |
| `TypedClient.ConnectedCommandsApply` | src/ws/typed.rs:414-453 | A command changes replay set and cursors on a live connection exactly as it does during a back-off, however many writes succeed. |
| `TypedClient.ReplaySetIsCommandHistory` | src/ws/typed.rs:414-453 | The replay set is exactly the channels of the adds in force (never removed since, and not already held when added), in the order they were added. |
| `TypedClient.OpeningListCountsAsAdds` | src/ws/typed.rs:227-249 | A list of channels with distinct keys, given at opening, leads to the same replay set as adding them one by one. |
| `TypedClient.ReplaySetFromOpening` | src/ws/typed.rs:227-249 | From the opening list on, the replay set is a function of the commands alone and its keys stay distinct. |
| `StreamSystem.ReplaysAskOnce` | src/ws/typed.rs:383-392 | Opening a connection asks for each held stream exactly once, with that stream's cursor, and for no other. |
| `StreamSystem.ResyncSparesOthers` | src/ws/typed.rs:487-516 | An `out_of_sync` neither writes about nor touches the cursor of a stream it does not cover. |
| `StreamSystem.ResyncAsksAgain` | src/ws/typed.rs:487-516 | When its writes succeed, an `out_of_sync` drops the cursor of every held stream it covers and writes exactly one subscribe for it, without a cursor. |
| `StreamSystem.OtherFramesAskNothing` | src/ws/typed.rs:461-486 | No other frame makes the client write anything about a stream. |
| `NoDeadStream.StepKeepsAlive` | src/ws/typed.rs:414-516 | Every step of client, server, network or consumer keeps this: each held stream is subscribed at the server, or last asked for in flight, or has an `out_of_sync` on its way. |
| `NoDeadStream.NeverSilentlyDead` | src/ws/typed.rs:270-338 | In every reachable state of client, pipes and server no held stream is silently dead on a live connection. |
| `NoDeadStream.CommandAsks` | src/ws/typed.rs:414-453 | A command that leaves a stream held writes nothing about it or ends by asking for it. |
| `GapFree.ReadingKeepsGood` | src/ws/typed.rs:523-544 | Reading one frame extends the recorded events by exactly the next event of the log, or leaves them alone. |
| `GapFree.ServerKeepsInStep` | src/ws/protocol.rs:322-338 | Whatever the server does, acknowledging a join before its events, after them or never, the frames in flight lead from the client's cursor to the server's position without a gap. |
| `GapFree.WatchStaysGood` | src/ws/typed.rs:383-392 | The invariant behind gap-free resume holds along every run. |
| `GapFree.GapFreeResume` | src/ws/typed.rs:383-392 | Over any number of disconnects and reconnects, while a stream is held and not told `out_of_sync`, the events processed are one contiguous slice of the server's log, from just after the initial cursor, else from the first `seq_at_join` or the first event, whichever is processed first. |
| `Rejoin.GapFreeFromALiveSubscribe` | src/ws/typed.rs:414-431 | The same from a subscribe sent on a live connection, with or without a cursor, for a stream not held that is quiet there; an unsubscribe of it may still be in flight. |
| `Rejoin.RejoinIsGapFreeIff` | src/ws/typed.rs:414-431 | On a connection where no `out_of_sync` of the stream and no close is in flight or due: no run from the subscribe leaves a gap if and only if the stream is quiet, or the connection is given up for one with a token. |
| `Rejoin.GapFreeIffAlone` | src/ws/typed.rs:414-431 | The general form: a stream just asked for stays gap-free over every run if and only if it is asked for alone. |
| `Rejoin.ResyncIsGapFreeIff` | src/ws/typed.rs:487-516 | After an `out_of_sync`, however far its resync gets, no run leaves a gap if and only if the stream is quiet behind that frame. |
| `Confirmation.ConfirmedIsQuiet` | src/ws/typed.rs:433-447 | In every reachable state, a stream that is not held is quiet once an `unsubscribed` has been read for every time it was left on the connection, written or not. |
| `Rejoin.RejoinAfterConfirmation` | src/ws/typed.rs:414-447 | So a caller that has read that many may subscribe again, in any reachable state: no run from there leaves a gap. |
| `WithinLog.RunStaysSane` | src/ws/typed.rs:383-392 | In every reachable state no cursor, ask, position or frame is ahead of the log. |
| `Rejoin.JustLeftIsReached` | src/ws/typed.rs:433-447 | A fresh client that connects, is sent an event and unsubscribes before reading it leaves that event in flight. |
| `Rejoin.ARejoinCanLeaveAGap` | src/ws/typed.rs:414-431 | Subscribed again in that state, the stream has a run that misses events without an `out_of_sync`. |
| `Delivery.TryDeliver` | src/ws.rs:732-761 | The two non-blocking sends, with reads in between, are the delivery the accounting laws speak of. |
| `Delivery.LagAccounting` | src/ws/typed.rs:553-580 | Under every interleaving of deliveries, reads between their two halves, surfaced errors and reconnects, messages and lag counts queued or received plus drops pending or lost with a connection equal the frames decoded. |
| `Delivery.HappeningIsSound` | src/ws/typed.rs:553-580 | Whatever happens to the queue, the accounts stay straight, and the flag that makes a connection count as good says exactly whether a message was handed over since the connection began. |
| `Delivery.EveryFrameIsAccountedFor` | src/ws/typed.rs:553-580 | From a fresh queue: received + queued + pending + residue = decoded. |
| `Delivery.DeliveryKeepsPositionUnlessItOvertakes` | src/ws/typed.rs:561-579 | A delivery keeps every message at its index exactly when it does not overtake its own lag marker (a gap pending, no room for the marker, room by the time the message is tried); otherwise the message stands exactly `dropped` places early. |
| `Delivery.AtomicDeliveriesStayInOrder` | src/ws.rs:732-761 | With each delivery atomic, every delivered message's index is the messages plus lag counts ahead of it. |
| `Delivery.AMessageCanPrecedeItsLagMarker` | src/ws/typed.rs:561-579 | A three-frame run in which a read between the two `try_send`s lets a message out ahead of the marker that should precede it. |
| `Handover.GoneIff` | src/ws/typed.rs:553-580 | A delivery finds the consumer gone exactly when it has hung up before, or does so between the two sends. |
| `Handover.ConnectionHandsOverItsFrames` | src/ws/typed.rs:553-580 | Every message handed over on a connection is one of its frames, under its own number among those that found the consumer there. |
| `Handover.KeepingUpLosesNothing` | src/ws/typed.rs:553-580 | Over any number of connections, to a consumer whose queue has room whenever a frame comes, every frame is handed over once and in order, and none is reported as dropped. |
| `Handover.QueueStaysBounded` | src/ws/typed.rs:553-592 | The queue never holds more than its capacity. |
| `StreamTask.ConnectionInvariants` | src/ws/typed.rs:367-456 | Over one connection and any inputs the replay set follows the commands and every frame stays accounted for. |
| `StreamTask.Task.Write` | src/ws/typed.rs:383-392 | A write goes out exactly when the socket still accepts one. |
| `StreamTask.Task.Deliver` | src/ws/typed.rs:553-580 | The two non-blocking sends, flag and drop count are the delivery that the accounting laws speak of; the task stops exactly when the consumer is found gone. |
| `StreamTask.Task.Emit` | src/ws/typed.rs:586-592 | A surfaced error is queued when there is room; only a closed queue ends the task. |
| `StreamTask.Task.Decode` | src/ws/typed.rs:523-544 | A parsed message advances its cursor by the larger seq and is delivered; anything else changes nothing. |
| `StreamTask.Task.Resubscribe` | src/ws/typed.rs:487-516 | The loop over held streams drops cursors and writes subscribes exactly as the resync does that the liveness and gap-free theorems speak of, stopping at the first failed write. |
| `StreamTask.Task.HandleFrame` | src/ws/typed.rs:461-516 | A frame changes cursors, queue and wire as the transition system's client step does, with the same exit. |
| `StreamTask.Task.OnCommand` | src/ws/typed.rs:414-453 | A command changes replay set, cursors and wire as the transition system's command step does, with the same exit. |
| `StreamTask.Task.Replay` | src/ws/typed.rs:383-392 | Every held stream's subscribe, with its cursor, is written in order until a write fails. |
| `StreamTask.Task.React` | src/ws/typed.rs:398-456 | One pass of the `select!` loop is one step of the connection's fold. |
| `StreamTask.Task.Serve` | src/ws/typed.rs:367-456 | A connection is that fold over some prefix of its inputs, with the exit the source returns. |
| `StreamTask.Task.BackoffWait` | src/ws/typed.rs:596-622 | The delay is the timer's next; replay set, clock, commands taken and whether the task ends are those of the wait over exactly the arrivals given. |
| `StreamTask.Task.Try` | src/ws/typed.rs:276-331 | One attempt leaves the state, commands, fed flag and stop of the attempt step: a failed mint is surfaced, a refusal without a token ends the task, a connection is the fold over its inputs. |
| `StreamTask.Task.Turn` | src/ws/typed.rs:270-338 | One turn is one step of the loop's fold: an attempt, a reset if its connection delivered anything, and one delay unless the task ends. |
| `StreamTask.Task.Run` | src/ws/typed.rs:270-338 | State, timer, record, commands taken and whether the task has ended are those of the fold over the attempts the environment makes. |
| `StreamTask.ExitIsFinal` | src/ws/typed.rs:398-456 | Inputs after a connection's exit change nothing. |
| `StreamTask.FedMeansAMessage` | src/ws/typed.rs:308-325 | An attempt counts as having delivered exactly when it opened a connection and that connection handed a message to the consumer. |
| `StreamTask.TypedLoopIsPaced` | src/ws/typed.rs:270-338 | Over the whole loop: every attempt offered is made until one ends it, exactly one delay lies between consecutive attempts and is waited out, and the n-th since the last connection that handed over a message is one the policy allows for n. |
| `StreamTask.LoopKeepsHistory` | src/ws/typed.rs:270-338 | Over the whole loop, connected or not, the replay set is a function of the commands taken and every frame is accounted for. |
| `StreamTask.LoopReplaysAddsInForce` | src/ws/typed.rs:270-338 | From an opening list with distinct keys, the replay set is at every moment the channels of the adds in force, in order, and its keys stay distinct. |
| `StreamRuns.TaskStopsIff` | src/ws/typed.rs:270-338 | Over any attempts the task has ended if and only if an attempt or the delay after it ended it: the delay was cut off, a failed mint found the queue closed, an upgrade without a token was refused, or a connection read, before anything else ended it, a close, the loss of the handle, or a message with the consumer gone. |
| `StreamRuns.ConnectionStopsIff` | src/ws/typed.rs:398-456 | A connection ends with the end of the task exactly when an input that is read is a close, the loss of the handle, or a message that comes after the consumer hung up or while it does. |
| `StreamRuns.MessagesAreTheFramesRead` | src/ws/typed.rs:398-456 | Every message handed over on a connection is one of the frames read, under its number. |
| `StreamRuns.QueueSeesTheInputs` | src/ws/typed.rs:398-412 | Every frame read that says something is put to the queue, in order, and nothing else is. |
| `StreamRuns.CommandsAreTaken` | src/ws/typed.rs:413-453 | A connection takes every command that is read, in order. |
| `StreamRuns.PingsAreAnswered` | src/ws/typed.rs:461-470 | While a connection is up it has answered each ping with one pong, and sent no other. |
| `StreamRuns.UnconnectedAttemptsTell` | src/ws/typed.rs:284-306 | Without a connection the consumer is told of a failed mint and of a refusal without a token, when there is room, and of nothing else. |
| `Reconnect.LoopIsPaced` | src/ws.rs:404-522 | The pace for any loop of this shape: what the record says of each attempt is what that attempt did. |
| `Reconnect.LoopKeeps` | src/ws/typed.rs:270-338 | Whatever attempts, waits and idling each keep, relative to the commands taken, the whole loop keeps. |
| `Reconnect.WaitKeepsItsEnd` | src/ws.rs:530-545 | Commands neither shorten nor stretch a wait that is not cut off. |
| `Reconnect.WaitStopsIff` | src/ws/typed.rs:596-622 | A wait is cut off exactly when a closing command or the loss of the handle arrives before anything too late to be seen. |
| `Reconnect.WaitTakesWhatArrives` | src/ws/typed.rs:596-622 | A wait reads what arrives in time, up to what cuts it off, and takes and applies every command of that, in order. |
| `Reconnect.LoopStopsIff` | src/ws.rs:404-522 | A loop of this shape has stopped exactly when one of its attempts, or the delay after one, ended it. |
| `Reconnect.StopIsFinal` | src/ws/typed.rs:270-338 | After the turn that ends the loop no attempt, delay or command follows. |
| `AccountSocket.LoopPresentsOnce` | src/ws.rs:435-448 | Over the whole loop the token minted beforehand goes to the first attempt and no other, and every other attempt presents exactly the token minted for it, or none if minting failed. |
| `AccountSocket.NoTokenIsPresentedTwice` | src/ws.rs:435-448 | When the minted tokens differ from each other and from the first one, no token is put into two URLs, whatever fails and however often the socket reconnects. |
| `AccountSocket.NoCredentialsNoToken` | src/ws.rs:435-448 | Without credentials no attempt presents a token. |
| `AccountSocket.ConnectionServes` | src/ws.rs:617-675 | On every connection, whatever its inputs: the list has grown by what the commands asked for, in order; while writes succeed all of it has been asked for, in order, and when one fails a prefix; every frame is accounted for. |
| `AccountSocket.LoopIsSteady` | src/ws.rs:404-522 | Over the whole loop the subscriptions are the first ones and those asked for since, in order; every frame is accounted for; no notice shows a token; only a tokenless socket is rejected. |
| `AccountRuns.TaskStopsIff` | src/ws.rs:404-522 | Over any rounds the task has ended if and only if a round or the delay after it ended it: the delay was cut off, the consumer was gone or went away during the connection, a tokenless upgrade was refused, or a connection read a close or the loss of the handle. |
| `AccountRuns.ConnectionsAreTakenBack` | src/ws.rs:450-511 | Over the whole loop every connection announced as up is reported down before anything else is said, and none is left standing while the task goes on. |
| `AccountRuns.RoundSays` | src/ws.rs:429-511 | A round says that the socket is up exactly when it connects, and then at most why it was lost; else it says one thing. |
| `AccountRuns.MessagesAreThePayloadsRead` | src/ws.rs:684-722 | Every message handed over on a connection is one of the payloads read, under its number. |
| `AccountRuns.RequestsAreTaken` | src/ws.rs:617-675 | A connection takes every request that is read, in order. |
| `AccountRuns.PingsAreAnswered` | src/ws.rs:684-722 | While a connection is up it has answered each ping with one pong, and sent no other. |
| `AccountSocket.Task.Token` | src/ws.rs:435-448 | An attempt presents the token minted beforehand if it is still there, else a freshly minted one, else none; without credentials never one; a spent token is not kept. |
| `AccountSocket.Task.Report` | src/ws.rs:484-509 | A reason is redacted before it is offered to the consumer; the answer says whether the queue is open. |
| `AccountSocket.Task.Connect` | src/ws.rs:450-511 | A failed upgrade ends the task exactly when it was a 401 or 403 without a token, or the consumer is gone; an open one is announced and served. |
| `AccountSocket.Task.HandleMessage` | src/ws.rs:684-722 | Queue, wire, writes left and exit are those of the frame step: a JSON payload is delivered, a ping answered with a pong, a close or failed write ends the connection, anything else does nothing. |
| `AccountSocket.Task.Serve` | src/ws.rs:617-675 | Subscriptions, queue, wire, commands taken and exit are those of the fold over the inputs. |
| `AccountSocket.Task.WaitBackoff` | src/ws.rs:530-545 | The delay is the timer's next; subscriptions, clock, commands taken and whether the task ends are those of the wait over exactly the arrivals given. |
| `AccountSocket.Task.Turn` | src/ws.rs:429-521 | One turn is one step of the loop's fold: a token, an attempt, a reset if its connection delivered anything, and one delay unless the task ends. |
| `AccountSocket.Task.Run` | src/ws.rs:404-522 | State, timer, record, tokens, notices, commands taken and whether the task has ended are those of the fold over the rounds the environment makes. |
| `Backoff.CeilingIsExponential` | src/ws/backoff.rs:119-151 | The saturating step-by-step ceiling after n draws is exactly min(max, initial * multiplier^n), overflow included. |
| `Backoff.ExponentialIsMonotone` | src/ws/backoff.rs:119-138 | Delays with jitter off never shrink until a reset and never exceed the maximum. |
| `Backoff.JitterStaysUnderCeiling` | src/ws/backoff.rs:119-134 | A jittered delay lies between zero and the ceiling; without jitter it is the ceiling. |
| `Backoff.EveryDelayIsPossible` | src/ws/backoff.rs:119-134 | With jitter every delay below the ceiling comes of some sample. |
| `Backoff.NthDelay` | src/ws/backoff.rs:119-151 | The delay drawn n draws after a reset is one permitted for n, and leaves the timer at draw n + 1. |
| `Backoff.BackoffIter.NextDelay` | src/ws/backoff.rs:119-134 | The saturating arithmetic returns the delay of the timer and leaves the timer after that draw. |
| `Backoff.BackoffIter.Reset` | src/ws/backoff.rs:136-138 | A reset goes back to draw 0 and leaves the generator alone. |
| `SplitMix.XorShiftInjective` | src/ws/backoff.rs:170-177 | An xor-shift loses nothing. |
| `SplitMix.MulInjective` | src/ws/backoff.rs:170-177 | A wrapping multiplication by a factor with an inverse loses nothing. |
| `SplitMix.MixInjective` | src/ws/backoff.rs:170-177 | The output function is one-to-one on 64-bit words. |
| `SplitMix.OutputsAreDistinct` | src/ws/backoff.rs:170-177 | Any 2^64 consecutive outputs are pairwise distinct, from every seed. |
| `SplitMix.UnitIsAFraction` | src/ws/backoff.rs:179-182 | The unit sample lies in [0, 1). |
| `SplitMix.UnitIsClose` | src/ws/backoff.rs:179-182 | The sample is the output over 2^64, to within 2^-53. |
| `SplitMix.Rng.NextU64` | src/ws/backoff.rs:170-177 | The wrapping arithmetic step advances the word and returns that word's output. |
| `NonceProtocol.NonceProtocolIsSafe` | src/client.rs:500-532 | With any number of tasks, delays, losses, timeouts and cancellations, whatever the clocks say after the first write and until a write has drawn the ceiling: a write whose caller holds its turn is never rejected for its nonce, accepted nonces rise in turn order, a write is rejected exactly when a later turn's got there first, and turns are granted in the order asked. |
| `NonceProtocol.DrawsAscendIff` | src/auth/agent.rs:225-236 | A draw keeps later turns ahead of earlier ones and of the base exactly when no write has drawn the ceiling and, for the first write, its nonce passes the base. |
| `NonceProtocol.JudgeIsRight` | src/auth/agent.rs:225-236 | The server rejects an arriving write exactly when a write of a later turn was accepted before it. |
| `NonceProtocol.NonceIsFreshBelowCeiling` | src/auth/agent.rs:225-236 | A draw exceeds the last one exactly while the counter is below its ceiling, and is never below its floor. |
| `NonceProtocol.NonceIsLeast` | src/auth/agent.rs:225-236 | A draw is the least number that is past the last one and not below the clock. |
| `NonceProtocol.CounterFollowsTheClock` | src/auth/agent.rs:75-77 | After n draws on clocks up to t, of writes and reads alike, no nonce drawn, sent or seen by the server is past t + n. |
| `NonceProtocol.SafeBelowTheCeiling` | src/client.rs:500-532 | So every run with t + n below the ceiling is safe, as soon as the first write draws past the base. |
| `NonceProtocol.RestartedSignerMayDraw` | src/auth/agent.rs:75-77 | A signer that restarts with a clock past the former one's t + n may draw, whatever of that one reached the server or still will. |
| `NonceProtocol.RestartPicksUpAboveIff` | src/auth/agent.rs:75-77 | After n writes accepted at one moment t, a restarted signer picks up above them if and only if its clock has reached t + n. |
| `NonceProtocol.QueueStaysFair` | src/auth/mod.rs:126-140 | Granted and waiting tickets stay in the order they were asked for, whoever gives up. |
| `NonceProtocol.AtTheCeilingHeldWritesAreRejected` | src/auth/agent.rs:225-236 | At the counter's ceiling a write is rejected although its caller holds the turn. |
| `NonceProtocol.CeilingIsReached` | src/auth/agent.rs:225-236 | Eight steps of a fresh signer lead to that state. |
| `RateLimiting.PromiseSettles` | src/ratelimit.rs:83-123 | Without a block, a reservation is promised for the moment its cost is paid, leaving a level between zero and the capacity less the cost. |
| `RateLimiting.RateBound` | src/ratelimit.rs:83-123 | Over any run of reservations with costs within the capacity, from any starting debt and with or without a block to wait out first, the cost promised for any window is at most capacity + refill * width, when the refill until the end of the block stays within the capacity. |
| `RateLimiting.RateBoundIff` | src/ratelimit.rs:91-123 | Exactly then: if the refill does not stay within the capacity, two calls break the bound. |
| `Bursts.FirstThrottleBreaksTheBound` | src/ratelimit.rs:127-150 | The first 429 that blocks a limiter just made leaves a bucket for which a run breaks the bound. |
| `Bursts.RateBoundAcrossBlocks` | src/ratelimit.rs:83-150 | Over any mix of reservations and block-only 429s, whenever and however often they come, the cost promised for any window is at most capacity + refill * (width + 300 s). |
| `RateLimiting.PromisesAreFifo` | src/ratelimit.rs:83-150 | Across any mix of reservations and block-only 429s, promised send times never decrease in lock order. |
| `RateLimiting.InOrderIff` | src/ratelimit.rs:83-123 | No later call is promised for a time before `at` exactly when that is past, or blocked, or unaffordable until then. |
| `RateLimiting.RetuneKeepsOrderIff` | src/ratelimit.rs:127-177 | Exactly when a 429 or a snapshot keeps every later call behind a promise for `at`: it is past, or behind the block, or the debt is left alone and outlasts it at the new rate. |
| `RateLimiting.BackoffIsNeverShortened` | src/ratelimit.rs:127-177 | Nothing that takes the lock moves an active block earlier. |
| `RateLimiting.PacedCallsRespectBackoff` | src/ratelimit.rs:83-100 | A reservation is promised for the end of an active block or later exactly when the limiter is enabled and limited and the cost is positive. |
| `RateLimiting.BackoffIsBoundedAndKept` | src/ratelimit.rs:127-150 | Over every run a block never reaches more than 300 s past the latest 429, and stays until it has passed. |
| `RateLimiting.HintIsBounded` | src/ratelimit.rs:210-223 | Whatever the headers say, the wait they ask for is between zero and 300 s. |
| `RateLimiting.RateLimiter.Reserve` | src/ratelimit.rs:83-123 | The call under the lock returns the wait and leaves the bucket that the rate and order laws speak of. |
| `RateLimiting.RateLimiter.NoteThrottle` | src/ratelimit.rs:127-150 | A 429 extends the block by the hinted wait and re-tunes the bucket, whether or not the limiter is enabled. |
| `RateLimiting.RateLimiter.Sync` | src/ratelimit.rs:156-177 | A reported snapshot re-tunes capacity, refill and tokens as the bucket does that the laws on snapshots speak of, and never the block. |
| `Snapshots.ReportIsObeyed` | src/ratelimit.rs:127-177 | After a snapshot or a 429 with a limit L and a remaining r, a paced call waits for the block, or for exactly what its cost exceeds min(r, L) by, at L a second, saturation included; and no more is promised within t than min(r, L) + L * t. |
| `Snapshots.WaitAfterReport` | src/ratelimit.rs:127-177 | The same for every combination of limit and remaining given or left out; a snapshot without a limit makes calls wait for nothing, one with a limit ends that. |
| `Snapshots.HintIsWaitedOut` | src/ratelimit.rs:210-223 | After a 429 a paced call waits out `Retry-After`, whatever the reset says, and without it the time to the reset, up to 300 s. |
| `RetryLoop.BudgetsHold` | src/client.rs:216-276 | While nothing has ended the call, each kind of failure is within its own budget. |
| `RetryLoop.SomeReplyEnds` | src/client.rs:216-276 | Against any server some reply within the two budgets together ends the call. |
| `RetryLoop.FallbackIsShort` | src/client.rs:216-276 | The wait used when a 429 gives no hint is positive and within 300 s. |
| `RetryLoop.FallbackDoubles` | src/client.rs:248-256 | It is half a second after the first 429 and doubles with each, up to 16 s. |
| `RetryLoop.UnhintedWaitsDouble` | src/client.rs:248-256 | A 429 that gives no hint is waited for by its number among the 429s of the call. |
| `RetryLoop.FirstReplyIsFinalIff` | src/client.rs:216-274 | A first reply is retried exactly when it is a failure worth retrying and its kind has a retry to spend. |
| `RetryLoop.OutcomeTells` | src/client.rs:258-274 | Only an answer is a success, and only a 429 a rate limit, with what it said. |
| `RetryLoop.GetPage` | src/client.rs:194-276 | The call ends at the first reply that is final or exhausts its own budget, after at most 1 + both budgets sends. It waits for its reservation, then after every retried failure exactly once: the hint or the fallback for a 429, the next back-off delay for a transient one. The limiter hears one reservation and one note for every 429. |
| `RetryLoop.WaitsAreSeparate` | src/client.rs:216-276 | The waits after transient failures are the back-off's delays in order, from the first, whatever 429s come between. |
| `RetryLoop.ThrottleWaitsAreShort` | src/client.rs:216-276 | The waits after 429s are between zero and 300 s. |
| `RetryLoop.Digest` | src/client.rs:222-274 | One reply is waited out once, against its own budget only, or decides the outcome. |
| `Pagination.WalkIsUnique` | src/rest/pagination.rs:248-293 | Against a stateless server there is one walk from a cursor under a cap, whatever came before. |
| `Pagination.ResumedWalkIsTheWalk` | src/rest/pagination.rs:232-235 | Items taken before a saved cursor that leads on, followed by a fresh walk from it, are the uninterrupted walk's. |
| `Pagination.EndlessWalks` | src/rest/pagination.rs:278-287 | Where no walk without a cap ends, there are chains of every length: nothing but the end of the walk stops `all`. |
| `Pagination.TwoCyclesNeverEnd` | src/rest/pagination.rs:236-247 | Two cursors that lead to each other are such a server; the guard stops a cursor that repeats itself and no longer cycle. |
| `Pagination.ListingIsWalked` | src/rest/pagination.rs:248-287 | A listing whose pages each name another next cursor, the last none, is walked whole. |
| `Pagination.EchoEnds` | src/rest/pagination.rs:236-247 | A server that hands back the cursor it was given is asked for that page and no other. |
| `Pagination.Paginator.NextPage` | src/rest/pagination.rs:248-273 | One page: nothing once done or at the cap; on an error the cursor is already taken, so the next call asks for the first page; a missing or self-repeating cursor ends the walk. |
| `Pagination.Paginator.All` | src/rest/pagination.rs:278-287 | Given a cap, or a walk that ends, returns the items along the cursor chain up to the first page that does not lead on or the cap, or the error that stopped it, in at most the pages the cap allows. |
| `Pagination.ItemStream.Next` | src/rest/pagination.rs:297-319 | As long as an item, the end or a cap lies ahead: yields exactly the items of the chain in order, asks for a page only when the previous one is used up, and after the end or first error nothing more. |
| `Pagination.ItemStream.Refill` | src/rest/pagination.rs:305-317 | An empty page that leads on is skipped; the stream ends with the walk or its error. |
| `Coding.EncodePathSegment` | src/rest.rs:162-173 | The loop writes every byte as itself or as an escape. |
| `Coding.PercentDecode` | src/auth/trading.rs:301-324 | The loop reads every escape, plus sign and plain byte, malformed escapes as themselves. |
| `Coding.DecodeUndoesEncode` | src/auth/trading.rs:301-324 | Decoding undoes path encoding and form encoding, for every byte string. |
| `Coding.DecodedIsItselfIff` | src/auth/trading.rs:301-324 | Decoding never lengthens, and leaves a text as it is exactly when it holds no plus sign and no whole escape. |
| `Coding.SegmentIsPlain` | src/rest.rs:162-173 | An encoded segment has nothing but unreserved characters and escapes: it cannot split or end its place in a path. |
| `Coding.SegmentIsItselfIff` | src/rest.rs:162-173 | A segment is sent as it is exactly when all of it is unreserved; encoding never shortens one. |
| `Coding.DotSegmentIff` | src/rest.rs:156-173 | An encoded segment is a dot segment (WHATWG URL Standard, section 4.4) exactly for the texts `.` and `..`, against the promise that these are escaped. |
| `Coding.QueryReadsBack` | src/auth/trading.rs:294-299 | From any list of pairs form-encoded as sent, a name reads back as the first value passed under it, or none. |
| `Redaction.RedactToken` | src/ws.rs:593-614 | The loop computes the redacted text. |
| `Redaction.RedactedIsSealed` | src/ws.rs:593-614 | In the output every `token=` is followed by exactly `***` and then a delimiter or the end. |
| `Redaction.FixedIffSealed` | src/ws.rs:593-614 | A text is left as it is exactly when that is already so. |
| `Redaction.RedactionIsIdempotent` | src/ws.rs:593-614 | Redacting twice is redacting once. |
| `Redaction.EveryStringIsAText` | src/ws.rs:593-614 | Every string reads as token-free pieces with delimiter-free values between them. |
| `Redaction.OnlyPiecesShow` | src/ws.rs:593-614 | The output is that text with every value masked. |
| `Redaction.TokensDoNotShow` | src/ws.rs:593-614 | Inputs that differ only in delimiter-free token values give equal outputs. |
| `Redaction.ConnectTokenIsHidden` | src/ws.rs:579-614 | What is written of a reason that quotes the connect URL does not depend on the token, whatever bytes it is made of and whatever stands before and behind, because the URL form-encodes it. |
| `Redaction.ConnectTokenIsMasked` | src/ws.rs:579-614 | Quoted first, and followed by a delimiter or nothing, the token is masked whole and the rest is redacted on its own. |
| `Text.DecimalIsInjective` | src/auth/trading.rs:289-291 | Printed numbers are equal exactly when the numbers are. |
| `Text.NoLeadingZero` | src/auth/trading.rs:289-291 | A printed number starts with a zero exactly when it is zero. |
| `Text.HexIsInjective` | src/auth/agent.rs:284-293 | Hex tells byte strings apart. |
| `Text.HexIsLower` | src/auth/agent.rs:284-293 | Hex is two characters a byte, in lower case. |
| `TradingRequest.PrefixKeepsRouteIff` | src/auth/trading.rs:199-215 | A version prefix keeps the route exactly unless the path is a lone segment that a route looks for behind the last segment of the prefix. |
| `Routes.OrdersAreRouted` | src/auth/trading.rs:199-215 | Under any prefix, `POST /orders` places an order and `POST /orders/batch` a batch. |
| `Routes.CancelAllIsRouted` | src/auth/trading.rs:199-215 | Under any prefix, `DELETE /orders` cancels all. |
| `Routes.SettingsAreRouted` | src/auth/trading.rs:199-215 | Under any prefix, margin, margin mode and leverage are set by their three paths. |
| `Routes.ReadsAreNotActions` | src/auth/trading.rs:53-59 | Nothing that is not posted, patched or deleted is an action. |
| `Routes.PreviewIsNoAction` | src/auth/trading.rs:53-59 | `POST /orders/preview` is none. |
| `TradingRequest.AmendedIdIsTheSegment` | src/rest.rs:1313-1335 | An amend is routed with the encoded segment of the id it was asked for, under any prefix. |
| `TradingRequest.RawIdIsRouted` | src/rest.rs:1001-1008 | A cancel of any raw id is routed by the parts of that id. |
| `TradingRequest.RawIdIsTheOrderIff` | src/rest.rs:1001-1008 | It is the cancel of that order exactly when the id is not empty, not `orders`, and has no slash or question mark. |
| `TradingRequest.CancelSigns` | src/rest.rs:1001-1008 | What a cancel of any raw id in any market signs: the cancel of the last part, cancel-all of that market, or no action. |
| `TradingRequest.OrderIsReadIff` | src/auth/trading.rs:218-287 | Exactly which order bodies are signed: required texts, optional texts absent, null or non-empty, counts absent, null or in the u32 range, `reduce_only` absent or a boolean. |
| `TradingRequest.SameOrderIff` | src/auth/trading.rs:218-287 | Two bodies read as one order exactly when they agree in every order field, absent and null being the same, and absent and false for `reduce_only`. |
| `TradingRequest.OrderSaysWhatTheBodySays` | src/auth/trading.rs:218-245 | Each field of the order read is the body's own field. |
| `TradingRequest.SignedMarketIsTheSentOne` | src/auth/trading.rs:74-80 | The market signed for an amend, cancel or cancel-all is the first one passed to the query that is sent. |
| `TradingDigest.BigEndianIsInjective` | src/auth/eth.rs:434-438 | Fixed-width numbers are told apart within their range. |
| `TradingDigest.ConcatIsInjective` | src/auth/trading.rs:170-186 | Words fed one after another are told apart, and so is their number. |
| `TradingDigest.OrderFromTexts` | src/auth/trading.rs:218-245 | The fourteen signed fields determine the order: leaving a field out never signs as saying it. |
| `TradingDigest.OrderFromHash` | src/auth/trading.rs:218-245 | Equal order hashes mean equal orders, or a collision among the strings hashed for them. |
| `TradingDigest.BatchFromHash` | src/auth/trading.rs:93-103 | Equal batch hashes mean the same orders in the same order, or such a collision. |
| `TradingDigest.ActionFromWords` | src/auth/trading.rs:91-150 | Within one type the signed words determine the action, or such a collision. |
| `TradingDigest.DigestDeterminesAction` | src/auth/trading.rs:64-186 | Equal digests mean the same action, account, domain, timestamp and nonce, or two different strings hashed for the two digests have the same hash. |
| `TypeStrings.TypesDiffer` | src/auth/trading.rs:152-168 | Type texts with distinct names are distinct, whatever their fields. |
| `TypeStrings.NexusTypesDiffer` | src/auth/trading.rs:152-168 | No two of the eight actions share a type text. |
| `EncodeData.MembersReadBack` | src/auth/trading.rs:152-171 | A type text reads back as exactly the members it lists. |
| `EncodeData.OrderTypeReads` | src/auth/trading.rs:25-28 | The text of the order type lists the fourteen keys of an order body, each under its name and kind. |
| `EncodeData.OrderFollowsItsType` | src/auth/trading.rs:218-245 | The i-th word of an order is what the body says under the name of the i-th member of the type text, encoded as its kind asks. |
| `ActionData.TypeReads` | src/auth/trading.rs:152-171 | The text of each of the eight action types lists account, domain, the fields of its action, time and nonce, each under its name and kind. |
| `ActionData.DigestFollowsTheType` | src/auth/trading.rs:64-186 | The digest of a trading request is EIP-712's for its type: the i-th word of the struct is what the request says under the name of the type's i-th member, encoded as its kind asks. |
| `ActionData.DomainFollowsItsType` | src/auth/trading.rs:187-198 | The words of the domain separator follow the names in the text of the domain type. |
| `SigningActions.HashOrder` | src/auth/trading.rs:218-245 | The hasher is fed the words of exactly the order the body says, or the first refusal is returned. |
| `SigningActions.HashBatch` | src/auth/trading.rs:93-103 | Entries are hashed in order, or the first refusal is returned. |
| `SigningActions.RouteWords` | src/auth/trading.rs:70-150 | Each route signs the words of the action it carries, or gives the source's refusal. |
| `SigningActions.RequestDigest` | src/auth/trading.rs:64-186 | The digest of a request is the digest of the action it carries; off the trading routes there is none, and the request is refused exactly when the action cannot be read. |
| `SigningActions.OneDigestOneRequest` | src/auth/trading.rs:64-186 | Two requests with one digest have the same route and order id, action, account, domain, timestamp and nonce, or a collision is exhibited. |
| `SigningActions.OneDigestOneOrder` | src/auth/trading.rs:64-186 | Two single orders with one digest say the same in every field of their bodies, or a collision is exhibited. |
| `AgentAuth.CanonicalTellsAll` | src/auth/agent.rs:284-293 | Agent strings are equal exactly when upper-cased verb, path-LF-query, body hash, time and nonce are. |
| `AgentAuth.HmacCanonicalTellsAll` | src/auth/mod.rs:222-247 | The same for the HMAC string. |
| `AgentHeaders.CanonicalLines` | src/auth/agent.rs:284-293 | The lines of the agent string are upper-cased verb, path, query, body hash, time and nonce. |
| `AgentHeaders.HmacLines` | src/auth/mod.rs:218-247 | The lines of the HMAC string are time, upper-cased verb, path, query and body hash. |
| `AgentAuth.TargetTellsPathFromQuery` | src/auth/agent.rs:284-293 | Where queries hold no line feed, path-LF-query are equal exactly when path and query are, whatever a raw id puts into the path. |
| `AgentAuth.SentContextIsPlain` | src/client.rs:341-353 | Every query the client sends is such a one. |
| `AgentAuth.OneHashOneRequest` | src/auth/agent.rs:163-270 | Two requests with one signed hash are of one scheme and agree in nonce and time and in the action, route and domain, or in verb, path, query and body hash, or a collision is exhibited. |
| `AgentAuth.SchemesDoNotMix` | src/auth/agent.rs:240-252 | No canonical string is the preimage of an action digest. |
| `AgentAuth.HeadersCarryTheNonce` | src/auth/agent.rs:175-252 | Under either scheme the nonce header is the decimal of the nonce drawn. |
| `AgentAuth.HeadersNeverRepeat` | src/auth/agent.rs:225-270 | No two requests of a run below the counter's ceiling carry the same headers. |
| `AgentHeaders.HeadersDifferBelowTheCeiling` | src/auth/agent.rs:225-270 | So it is in every run whose clock and length stay below the ceiling together. |
| `AgentHeaders.StringIsRebuilt` | src/auth/agent.rs:240-270 | The signature header is over the string made of the request and of the time and nonce headers as they stand; the agent is named. |
| `AgentHeaders.ActionIsRebuilt` | src/auth/agent.rs:163-211 | For an action the headers give the time and nonce signed, the signature over the digest, and the account acted for exactly when it is not the signer's own. |
| `AgentAuth.AgentSigner.NextNonce` | src/auth/agent.rs:225-236 | The counter and the nonce are both max(last + 1, floor), above the last nonce below the ceiling. |
| `AgentAuth.AgentSigner.ActionHeaders` | src/auth/agent.rs:163-211 | A nonce is drawn exactly when an action is to be signed, even if signing then fails. |
| `AgentAuth.AgentSigner.AuthHeaders` | src/auth/agent.rs:262-270 | One nonce is drawn whatever comes of the request, and the headers are those for that nonce. |
| `Markets.RoundedIsBest` | src/markets.rs:88-114 | A rounded value is a multiple of the increment: the largest magnitude not beyond the value (Down), the smallest not short of it (Up), or the closest with ties away from zero (Nearest). |
| `Markets.RoundToIncrementIff` | src/markets.rs:88-114 | Rounding gives that multiple on the value's side of zero, which is unique, or the value itself where there is no grid or no room; and nothing else. |
| `Markets.RoundedKeepsSide` | src/markets.rs:88-114 | Rounding never crosses zero. |
| `Markets.RoundingIsIdempotent` | src/markets.rs:88-114 | A rounded value rounds to itself, overflow or not. |
| `Markets.RoundingIsMonotone` | src/markets.rs:88-114 | Rounding keeps order, values that overflow and pass through included. |
| `Markets.ValidIffTradable` | src/markets.rs:152-189 | An order passes exactly when price and size are positive, on their grids and within range; each error is given exactly when its check is the first that fails. |
| `Markets.NormalizedIsReady` | src/markets.rs:195-204 | A normalised order is tradable, and normalising it again changes nothing. |
| `Markets.NormalizedIff` | src/markets.rs:195-204 | In every mode, what comes out is the price and size rounded in that mode when they keep every rule, and otherwise the first rule they break. |
| `Markets.DownNeverEnlarges` | src/markets.rs:195-204 | Rounded down, a positive size or price never grows. |
| `Markets.TooSmallIsHopeless` | src/markets.rs:152-204 | When rounding down leaves a size too small, no size on the grid up to the one asked for meets the minimum. |

## Left out

- Sockets, TLS, HTTP, the tokio runtime and wall clocks: they appear as steps, replies and times chosen by the environment.
- Keccak-256, SHA-256, HMAC and secp256k1: parameters; that a signature verifies is not stated.
- JSON and the serde models of `src/types.rs`: bodies and frames start from parsed values, and a body that does not parse is one value.
- `src/stream.rs`: the queue and back-off of the other two sockets with less state.
- `src/ws.rs`: the one notice of a socket without an endpoint, the fields of a rejection, and the upgrade request; its reasons are arbitrary strings.
- The consumer side of `MessageStream`, and the bound of 16 on queued commands: commands come in whatever order they were queued.
- `src/client.rs` request building around the write turn: the turn, the draw, the send and the release are steps of `NonceProtocol`; URLs, bodies and the session scheme are not.
- Action-signer nonces when the credential has no queue are unordered in the code, and nothing is claimed for them.
- `connect_url` and `with_token` of the typed client: a failed mint is an outcome, the URL is not built (its token coding is in `Coding`).
- `src/config.rs`, `src/error.rs`, `check_page_size`, `page_query` and the endpoint wrappers of `src/rest.rs`: each claim is one branch.
- What a URL parser does to a path beyond removing dot segments, and that the client signs the path it was given and not the parsed one.
- f64 rounding and nanosecond truncation of durations, and the 28 digits of `Decimal`: exact reals instead.
- Coding.PercentDecode: stops at the decoded bytes and does not replace invalid UTF-8 by U+FFFD, because every query the client sends decodes to valid text.
- GapFree.GapFreeResume: counts the events the client processes, not those the consumer takes, because a full queue drops messages and reports them as lag.
- Rejoin.RejoinIsGapFreeIff: leaves out connections on which the stream is due to be told `out_of_sync` anyway, because nothing is claimed past that frame.
- RateLimiting.RateBound: speaks of reservations between two re-tunes, because capacity and refill are the bucket's own and a re-tune replaces them.
- NonceProtocol.NonceProtocolIsSafe: stops once a write has drawn the counter's ceiling, because a saturated counter repeats.
