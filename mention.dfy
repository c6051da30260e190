/** The handler for "app_mention" events: greet the user who mentioned the bot. */
module MentionHandler {
  import opened Wrappers
  import opened Substrings
  import opened Slack

  /** The reply to a mention by `user`. */
  function Greeting(user: string): (reply: string)
  {
    "Hi there, " + MentionToken(user) + "!"
  }

  /** The greeting mentions back the user who wrote it. */
  lemma GreetingMentionsUser(user: string)
    ensures Contains(Greeting(user), MentionToken(user))
  {
    ContainsSplice("Hi there, ", MentionToken(user), "!");
  }

  /**
   * Replies to a mention. A missing `user` key gets the "error processing
   * your mention" apology, a failed reply the "something went wrong" one;
   * `escaped` tells whether the apology itself failed, which the handler
   * does not catch.
   */
  method HandleMention(e: Event, outcomes: seq<bool>) returns (log: seq<Attempt>, escaped: bool)
    ensures Answered(outcomes, 0, log)
    ensures e.user.Some? ==> 1 <= |log| <= 2 && log[0].call == MentionReply(Greeting(e.user.value))
    ensures e.user.Some? && log[0].ok ==> |log| == 1 && !escaped
    ensures e.user.Some? && !log[0].ok ==>
              |log| == 2 && log[1].call == Apology(MentionFailed, None) && escaped == !log[1].ok
    ensures e.user.None? ==>
              |log| == 1 && log[0].call == Apology(MentionFieldMissing, None) && escaped == !log[0].ok
  {
    var ok;
    escaped := false;
    if e.user.None? {
      log, ok := Perform([], Apology(MentionFieldMissing, None), outcomes, 0);
      escaped := !ok;
      return;
    }
    log, ok := Perform([], MentionReply(Greeting(e.user.value)), outcomes, 0);
    if !ok {
      log, ok := Perform(log, Apology(MentionFailed, None), outcomes, 0);
      escaped := !ok;
    }
  }
}
