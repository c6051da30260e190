# Message-routing handler of the slackbot-omcs bot, modelled in Dafny

The bot listens for chat events and has two handlers.

- The "message" handler (`handle_message_events`) first runs an **ignore filter**. It drops messages from bots, messages of subtype `bot_message`, events without a `text` key, messages written by the bot's own user, and messages that mention the bot.
- It then applies a **channel gate**. Only the source channel `C084RT6DWUB`, or an event of type `app_mention`, goes on.
- A routed message goes through a fixed **routing sequence**:
  1. A top-level message first gets a "starting a thread" notice. Its timestamp then becomes the thread id.
  2. The handler looks up the thread's permalink and forwards a copy to `C0854LP1ZMX` with link unfurling on.
  3. It posts an acknowledgement with two buttons in the thread.
- Failures get two layers of apology. The routing apology goes to the thread. If that apology fails, or the identity lookup fails, an "unexpected error" apology is tried. A failure of that last apology is swallowed.
- The "app_mention" handler (`event_test`) greets the user who mentioned the bot, and apologises if it cannot.

## How the model works

- The platform is a scripted transport. Every external call appends one `Attempt(call, ok)` to a log. These calls are `auth_test`, `chat_postMessage`, `chat_getPermalink` and `say`. Call number `k` fails exactly when the script `outcomes` has `false` at `k`. Calls past the end of the script succeed.
- The transport returns the permalink for `(channel, ts)` through the parameter `permalinkOf`. The bot's own user id is the parameter `selfId`.
- Each handler is a method that returns the log, so "which calls, in which order, with which arguments" becomes a checkable property. The routing block keeps the source's local `thread_ts` variable and its rebinding. Its `try`/`except` becomes explicit `raised`/`escaped` flags.
- Python dictionary access is modelled exactly:
  - `event.get(k)` reads an `Option`.
  - `event[k]` on an absent key raises, which the model turns into the nearest handler's branch.
  - `if not thread_ts` is truthiness: the key is present and the string is non-empty.
- `HandleMessageEvents` has no "escaped" result: every exception inside it is caught, and a failed last apology is simply recorded in the log.
- Python's substring test `p in s` is `Substrings.Contains`: a left-to-right search proved equal to "some position holds `p`".

Files:
- `wrappers.dfy`: `Option`.
- `substrings.dfy`: substring search.
- `slack.dfy`: the event, the calls, the scripted transport.
- `router.dfy`: the message handler and its rules.
- `mention.dfy`: the mention handler.

The routing block is specified by `MessageRouter.RoutingRules`, a conjunction of named rules over the block's calls:
- `RoutingCallsOnly`: the block makes no other calls.
- `ThreadOwnership`: every call that names a thread names the resolved thread. That is the event's `thread_ts` when it is truthy, else its `ts`.
- `NoticeRule`: exactly one notice, first, exactly for a top-level event.
- `ForwardRule`: the lookup and forward arguments, and that the forward comes right after a successful lookup.
- `EachCallOnce`: at most one lookup, one forward and one acknowledgement.
- `AckRule`: the acknowledgement only after a successful lookup and forward, and its two buttons.
- `ApologyRule`: the apology comes last, answers a failure or a missing key, and follows every failed call.
- `Finishes`: how the block ends, and when an exception leaves it.

`RouteMessage` is built from three pieces: `StartThread`, `ForwardAndAck` and `RoutingApology`. Each has an exact contract. The lemma `RoutingPiecesObeyRules` proves that any run assembled from these pieces obeys every rule.

## Behaviour of the code worth noting

- The bot's id is not cached. `auth_test` is called on every event that passes the first three filter tests: once before the user test and once more before the mention test (test.py:58-59). Each call can fail and send control to the outermost handler. The model counts both as calls.
- test.py registers no handler for button clicks and sends no direct messages to mentioned users (see "Left out").
- The routing apology answers a failure of any step in the routing block: the notice, the lookup, the forward or the acknowledgement (test.py:67-128).
- The two apology layers pick their thread differently.
  - The routing apology uses the local `thread_ts` if it is truthy, else `event['ts']`. A missing `ts` key raises again (test.py:127).
  - The outer apology uses `event.get('thread_ts', event.get('ts'))` (test.py:135). That is the `thread_ts` value whenever the key is present, even when it is empty.
  - The model keeps both as `ResolvedThread` and `FallbackThread`.
- The mention handler catches nothing around its apologies (test.py:41, 44). A failed apology leaves the handler; the model reports this as `escaped`.

## Model

| member | source | states |
|---|---|---|
| `Substrings.Contains` | test.py:59 | the substring test is true exactly when the pattern occurs at some position of the text |
| `Substrings.ContainsSplice` | test.py:59 | a string placed anywhere inside another is found by the substring test |
| `MessageRouter.MentionOfSelfIgnored` | test.py:54-61 | a message whose text contains `<@selfId>` anywhere is ignored, whatever its channel |
| `MessageRouter.Screen` | test.py:54-61 | the filter is evaluated left to right with short-circuit, and the log is given exactly for each case. Bot id, `bot_message` subtype or missing text ignore the event without any call. Otherwise `auth_test` is called; if it fails, the verdict is `AuthFailed` after that one call. If the user is the bot, the event is ignored after that one call. Otherwise a second `auth_test` follows, and its failure yields `AuthFailed`. After two successful lookups the verdict is `Ignore` exactly when `Ignored(e, selfId)` holds |
| `MessageRouter.StartThread` | test.py:68-77 | a notice anchored at `ts` is posted to the event's channel exactly when `thread_ts` is not truthy and `channel` and `ts` are present. If nothing raised, the thread id becomes the resolved thread. If something raised, it stays the event's `thread_ts` |
| `MessageRouter.ForwardAndAck` | test.py:79-121 | with the channel, user and text keys present, the calls are the permalink lookup for (channel, thread), then the forward to `C0854LP1ZMX` with unfurling and the permalink in its text, then the two-button acknowledgement at the thread. Calls stop at the first failure. Without those keys no call is made. The block raises unless the acknowledgement succeeded |
| `MessageRouter.RoutingApology` | test.py:123-128 | the routing apology goes to the local thread id if truthy, else to `ts`. If there is no `ts`, no call is made and the exception escapes. Otherwise it escapes exactly when the apology fails |
| `MessageRouter.RouteMessage` | test.py:67-128 | the block's calls obey every routing rule: only routing calls, at most one lookup, one forward and one acknowledgement, thread ownership, one notice first for a top-level event, forward arguments after a successful lookup, acknowledgement only after a successful lookup and forward with buttons `contact_shift_manager` and `contact_ticket_owner`, the apology last after any failure, and escape exactly when the apology failed or had no `ts` |
| `MessageRouter.RouteAndRecover` | test.py:67-138 | the routing block either finishes by itself under the routing rules, or lets an exception out and is followed by the unexpected-error apology at `thread_ts`, else `ts`. Any failed call leaves an apology last, and the unexpected-error apology can only be last |
| `MessageRouter.RoutingPiecesObeyRules` | test.py:67-128 | any run built from the notice step, the forward steps and the apology step obeys all routing rules |
| `MessageRouter.ForwardTextCarries` | test.py:82 | the forwarded text contains the source channel reference, the author mention, the original text and the permalink |
| `MessageRouter.FailureEndsInApology` | test.py:123-128 | if any call of the routing block fails, the block's last call is its apology |
| `MessageRouter.HandleMessageEvents` | test.py:50-138 | the log matches the script. A bot, `bot_message` or textless event makes no call. If the first identity lookup fails, the log is exactly that lookup and the unexpected-error apology at `thread_ts`, else `ts`. A message by the bot itself makes exactly one successful lookup. If the second lookup fails, the log is the two lookups and that apology. An ignored event after two successful lookups makes only those lookups. An unrouted event makes only the two lookups. A routed event makes the two lookups, then calls obeying the routing rules, possibly followed by the unexpected-error apology. Any failed call leaves an apology as the last call, and that apology only ever comes last |
| `MentionHandler.GreetingMentionsUser` | test.py:38 | the greeting `Hi there, <@user>!` mentions the user back |
| `MentionHandler.HandleMention` | test.py:34-44 | with a `user` key the handler replies with the greeting. If the reply fails it sends the "something went wrong" apology. Without the key it sends only the "error processing your mention" apology. The handler lets an exception out exactly when that apology fails |

## Left out

- Slack SDK objects (`App`, `SocketModeHandler`, the web client) and the socket transport. Their behaviour lives in a library outside this repository. Each call is an abstract attempt with a scripted success or failure.
- Loading the environment and `.env` file, checking and logging the tokens, and process start and shutdown (test.py:7-31, 140-149). This is process I/O and configuration.
- All logging calls (test.py:37, 40, 43, 65, 85, 124, 131, 138). They have no effect on routing.
- Event dispatch and concurrency between events. The handlers keep no shared mutable state, and dispatch belongs to the platform library. Whether an `app_mention` event ever reaches the message handler's gate is therefore not modelled.
- Exact wording of the notice, acknowledgement and apology texts, and the acknowledgement's section block. Calls are identified by kind. The buttons keep their captions and action ids.
- Direct-message fan-out to mentioned users, mention extraction, and handling of `contact_shift_manager` / `contact_ticket_owner` clicks. test.py registers no code for them.
- `MessageRouter.Screen`: assumes both `auth_test` calls report the same user id, `selfId`. A reply without `user_id` counts as a failed call.
- `MessageRouter.ForwardAndAck`: a permalink reply without a `permalink` key counts as a failed lookup. The link returned is `permalinkOf(channel, ts)`.
- `MentionHandler.HandleMention`: a transport failure counts as a non-`KeyError` exception. A `KeyError` raised from inside `say` is not modelled.
- Event values are strings or absent. A key present with a non-string or null value is not modelled.
