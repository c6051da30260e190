/**
 * The chat platform as the handlers see it: the incoming event, the
 * outbound calls they make, and a scripted transport that answers each
 * call with success or failure.
 */
module Slack {
  import opened Wrappers

  /** An incoming event; every key may be absent from the payload. */
  datatype Event = Event(
    botId: Option<string>,
    subtype: Option<string>,
    text: Option<string>,
    user: Option<string>,
    channel: Option<string>,
    ts: Option<string>,
    threadTs: Option<string>,
    eventType: Option<string>)

  /** Python truthiness of an optional string: present and non-empty. */
  predicate Truthy(v: Option<string>)
  {
    v.Some? && v.value != ""
  }

  /** A user mention as it is written inside message text. */
  function MentionToken(userId: string): (token: string)
  {
    "<@" + userId + ">"
  }

  /** A channel reference as it is written inside message text. */
  function ChannelToken(channelId: string): (token: string)
  {
    "<#" + channelId + ">"
  }

  datatype Button = Button(caption: string, actionId: string)

  datatype ApologyKind =
    | RoutingFailed        // "there was an error routing your message"
    | UnexpectedError      // "an unexpected error occurred while processing your message"
    | MentionFieldMissing  // "I encountered an error processing your mention"
    | MentionFailed        // "something went wrong while processing your mention"

  /** One call into the platform, with the arguments the handlers pass. */
  datatype Call =
    | AuthTest
      // chat_postMessage of the "starting a thread" notice, anchored at message `ts`
    | PostThreadNotice(channel: string, ts: string)
    | GetPermalink(channel: string, messageTs: string)
      // chat_postMessage of the forwarded copy
    | Forward(channel: string, text: string, unfurlLinks: bool)
      // say() of the acknowledgement with its button block
    | AckPrompt(buttons: seq<Button>, threadTs: Option<string>)
    | Apology(kind: ApologyKind, threadTs: Option<string>)
    | MentionReply(text: string)

  /** A call that was made, and whether the platform accepted it. */
  datatype Attempt = Attempt(call: Call, ok: bool)

  /**
   * The transport's script: the call with index `k` (counted from the first
   * call a handler makes) succeeds unless the script says otherwise; calls
   * past its end succeed.
   */
  predicate Succeeds(outcomes: seq<bool>, k: nat)
  {
    k >= |outcomes| || outcomes[k]
  }

  /** `log` records calls `made`, `made + 1`, ... with the script's answers. */
  predicate Answered(outcomes: seq<bool>, made: nat, log: seq<Attempt>)
  {
    forall i | 0 <= i < |log| :: log[i].ok == Succeeds(outcomes, made + i)
  }

  /** Nothing but identity lookups: nothing was posted anywhere. */
  predicate NoOutbound(log: seq<Attempt>)
  {
    forall i | 0 <= i < |log| :: log[i].call == AuthTest
  }

  /**
   * Makes one call after the `made + |log|` calls before it and records it;
   * the transport's answer is the script's.
   */
  method Perform(log: seq<Attempt>, call: Call, outcomes: seq<bool>, made: nat)
    returns (log': seq<Attempt>, ok: bool)
    ensures ok == Succeeds(outcomes, made + |log|)
    ensures log' == log + [Attempt(call, ok)]
  {
    ok := made + |log| >= |outcomes| || outcomes[made + |log|];
    log' := log + [Attempt(call, ok)];
  }

  lemma AnsweredConcat(outcomes: seq<bool>, made: nat, a: seq<Attempt>, b: seq<Attempt>)
    requires Answered(outcomes, made, a) && Answered(outcomes, made + |a|, b)
    ensures Answered(outcomes, made, a + b)
  {
  }
}
