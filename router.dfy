/**
 * The handler for "message" events: the ignore filter, the channel gate,
 * and the routing sequence (thread notice, permalink lookup, forward,
 * acknowledgement) with its two layers of apology.
 */
module MessageRouter {
  import opened Wrappers
  import opened Substrings
  import opened Slack

  const SOURCE_CHANNEL := "C084RT6DWUB"
  const DESTINATION_CHANNEL := "C0854LP1ZMX"
  const BOT_MESSAGE := "bot_message"
  const APP_MENTION := "app_mention"
  const SHIFT_MANAGER_ACTION := "contact_shift_manager"
  const TICKET_OWNER_ACTION := "contact_ticket_owner"
  const ACK_BUTTONS := [
    Button("Contact Shift Manager", SHIFT_MANAGER_ACTION),
    Button("Contact Ticket Owner", TICKET_OWNER_ACTION)]

  // ---------------------------------------------------------------------
  // The ignore filter and the channel gate

  /** The first three tests of the filter, decided without asking who the bot is. */
  predicate IgnoredLocally(e: Event)
  {
    Truthy(e.botId) || e.subtype == Some(BOT_MESSAGE) || e.text.None?
  }

  /** The whole filter, for a bot whose user id is `selfId`. */
  predicate Ignored(e: Event, selfId: string)
  {
    IgnoredLocally(e) || e.user == Some(selfId) || Contains(e.text.value, MentionToken(selfId))
  }

  /** The channel gate: only the source channel, or a mention event, is routed. */
  predicate Routed(e: Event)
  {
    e.channel == Some(SOURCE_CHANNEL) || e.eventType == Some(APP_MENTION)
  }

  /** A message that mentions the bot anywhere in its text is ignored, whatever its channel. */
  lemma MentionOfSelfIgnored(e: Event, selfId: string, before: string, after: string)
    requires e.text == Some(before + MentionToken(selfId) + after)
    ensures Ignored(e, selfId)
  {
    ContainsSplice(before, MentionToken(selfId), after);
  }

  // ---------------------------------------------------------------------
  // What the routing sequence must do

  /** The event is top-level and the keys the notice needs are there. */
  predicate StartsThread(e: Event)
  {
    !Truthy(e.threadTs) && e.channel.Some? && e.ts.Some?
  }

  /** The thread the routing block works in: the event's own thread, else the event itself. */
  function ResolvedThread(e: Event): (t: Option<string>)
  {
    if Truthy(e.threadTs) then e.threadTs else e.ts
  }

  /** Where the outermost apology goes: the `thread_ts` key if present, else `ts`. */
  function FallbackThread(e: Event): (t: Option<string>)
  {
    if e.threadTs.Some? then e.threadTs else e.ts
  }

  /** A key the forward reads with a plain lookup is absent. */
  predicate MissingField(e: Event)
  {
    e.channel.None? || e.user.None? || e.text.None?
  }

  /** The text of the copy posted to the destination channel. */
  function ForwardText(channel: string, author: string, text: string, permalink: string): (t: string)
  {
    "Message forwarded from " + ChannelToken(channel) + " by " + MentionToken(author) + ":\n"
      + text + "\n\n<" + permalink + "|View thread>"
  }

  /** The forwarded copy names the source channel and the author and carries the text and the permalink. */
  lemma ForwardTextCarries(channel: string, author: string, text: string, permalink: string)
    ensures var t := ForwardText(channel, author, text, permalink);
      Contains(t, ChannelToken(channel)) && Contains(t, MentionToken(author))
      && Contains(t, text) && Contains(t, permalink)
  {
    EachPartFound("Message forwarded from ", ChannelToken(channel), " by ", MentionToken(author), ":\n",
                  text, "\n\n<", permalink, "|View thread>");
  }

  /** Each of the four pieces between five fixed strings is found in their concatenation. */
  lemma EachPartFound(p1: string, x1: string, p2: string, x2: string, p3: string,
                      x3: string, p4: string, x4: string, p5: string)
    ensures var t := p1 + x1 + p2 + x2 + p3 + x3 + p4 + x4 + p5;
      Contains(t, x1) && Contains(t, x2) && Contains(t, x3) && Contains(t, x4)
  {
    var t := p1 + x1 + p2 + x2 + p3 + x3 + p4 + x4 + p5;
    assert t == p1 + x1 + (p2 + x2 + p3 + x3 + p4 + x4 + p5);
    ContainsSplice(p1, x1, p2 + x2 + p3 + x3 + p4 + x4 + p5);
    assert t == p1 + x1 + p2 + x2 + (p3 + x3 + p4 + x4 + p5);
    ContainsSplice(p1 + x1 + p2, x2, p3 + x3 + p4 + x4 + p5);
    assert t == p1 + x1 + p2 + x2 + p3 + x3 + (p4 + x4 + p5);
    ContainsSplice(p1 + x1 + p2 + x2 + p3, x3, p4 + x4 + p5);
    ContainsSplice(p1 + x1 + p2 + x2 + p3 + x3 + p4, x4, p5);
  }

  /** A call that names a thread names `t`. */
  predicate AnchoredAt(c: Call, t: Option<string>)
  {
    match c
    case PostThreadNotice(_, ts) => Some(ts) == t
    case GetPermalink(_, ts) => Some(ts) == t
    case AckPrompt(_, threadTs) => threadTs == t
    case Apology(_, threadTs) => threadTs == t
    case _ => true
  }

  /** Every thread-anchored step of the routing block uses the resolved thread. */
  predicate ThreadOwnership(e: Event, steps: seq<Attempt>)
  {
    forall i | 0 <= i < |steps| :: AnchoredAt(steps[i].call, ResolvedThread(e))
  }

  /** A notice is posted exactly when the event starts a thread, and then it comes first. */
  predicate NoticeRule(e: Event, steps: seq<Attempt>)
  {
    (StartsThread(e) <==> |steps| > 0 && steps[0].call.PostThreadNotice?)
    && (StartsThread(e) ==> steps[0].call == PostThreadNotice(e.channel.value, e.ts.value))
    && (forall i | 0 < i < |steps| :: !steps[i].call.PostThreadNotice?)
  }

  /**
   * The permalink is asked for the event's channel and resolved thread, and
   * the forward, which comes right after a successful lookup, carries it to
   * the destination channel with link unfurling on.
   */
  predicate ForwardRule(e: Event, permalinkOf: (string, string) -> string, steps: seq<Attempt>)
  {
    forall i | 0 <= i < |steps| :: ForwardRuleAt(e, permalinkOf, steps, i)
  }

  predicate ForwardRuleAt(e: Event, permalinkOf: (string, string) -> string, steps: seq<Attempt>, i: nat)
    requires i < |steps|
  {
    (steps[i].call.GetPermalink? || steps[i].call.Forward?) ==>
      !MissingField(e) && ResolvedThread(e).Some?
      && (steps[i].call.GetPermalink? ==>
            steps[i].call == GetPermalink(e.channel.value, ResolvedThread(e).value))
      && (steps[i].call.Forward? ==>
            0 < i
            && steps[i - 1] == Attempt(GetPermalink(e.channel.value, ResolvedThread(e).value), true)
            && steps[i].call == Forward(DESTINATION_CHANNEL,
                 ForwardText(e.channel.value, e.user.value, e.text.value,
                             permalinkOf(e.channel.value, ResolvedThread(e).value)),
                 true))
  }

  /** The acknowledgement follows a successful lookup and forward, and offers the two buttons. */
  predicate AckRule(steps: seq<Attempt>)
  {
    forall i | 0 <= i < |steps| :: AckRuleAt(steps, i)
  }

  predicate AckRuleAt(steps: seq<Attempt>, i: nat)
    requires i < |steps|
  {
    steps[i].call.AckPrompt? ==>
      1 < i
      && steps[i - 2].call.GetPermalink? && steps[i - 2].ok
      && steps[i - 1].call.Forward? && steps[i - 1].ok
      && |steps[i].call.buttons| == 2
      && steps[i].call.buttons[0].actionId == SHIFT_MANAGER_ACTION
      && steps[i].call.buttons[1].actionId == TICKET_OWNER_ACTION
  }

  /**
   * The routing apology is the last step and answers a failed call or a
   * missing key; a failed call other than the apology is followed by it.
   */
  predicate ApologyRule(e: Event, steps: seq<Attempt>)
  {
    forall i | 0 <= i < |steps| :: ApologyRuleAt(e, steps, i)
  }

  predicate ApologyRuleAt(e: Event, steps: seq<Attempt>, i: nat)
    requires i < |steps|
  {
    (steps[i].call.Apology? ==>
       i == |steps| - 1 && steps[i].call.kind == RoutingFailed
       && ((exists j | 0 <= j < i :: !steps[j].ok) || MissingField(e)))
    && (!steps[i].ok && !steps[i].call.Apology? ==>
          i + 2 == |steps| && steps[i + 1].call.Apology?)
  }

  /**
   * The block ends with a successful acknowledgement or with the apology;
   * it lets an exception out exactly when the apology failed or had no
   * message to anchor to.
   */
  predicate Finishes(e: Event, steps: seq<Attempt>, escaped: bool)
  {
    (steps == [] <==> ResolvedThread(e).None?)
    && (|steps| > 0 ==>
          steps[|steps| - 1].call.Apology?
          || (steps[|steps| - 1].call.AckPrompt? && steps[|steps| - 1].ok))
    && (MissingField(e) && ResolvedThread(e).Some? ==> steps[|steps| - 1].call.Apology?)
    && (escaped <==> steps == [] || (steps[|steps| - 1].call.Apology? && !steps[|steps| - 1].ok))
  }

  /** The block makes no call but the notice, lookup, forward, acknowledgement and its own apology. */
  predicate RoutingCallsOnly(steps: seq<Attempt>)
  {
    forall i | 0 <= i < |steps| ::
      steps[i].call.PostThreadNotice? || steps[i].call.GetPermalink? || steps[i].call.Forward?
      || steps[i].call.AckPrompt? || (steps[i].call.Apology? && steps[i].call.kind == RoutingFailed)
  }

  /** The lookup, the forward and the acknowledgement are each made at most once. */
  predicate EachCallOnce(steps: seq<Attempt>)
  {
    forall i, j | 0 <= i < j < |steps| ::
      !(steps[i].call.GetPermalink? && steps[j].call.GetPermalink?)
      && !(steps[i].call.Forward? && steps[j].call.Forward?)
      && !(steps[i].call.AckPrompt? && steps[j].call.AckPrompt?)
  }

  /** Everything the routing block promises about the calls it makes. */
  predicate RoutingRules(e: Event, permalinkOf: (string, string) -> string, steps: seq<Attempt>, escaped: bool)
  {
    RoutingCallsOnly(steps) && EachCallOnce(steps) && ThreadOwnership(e, steps) && NoticeRule(e, steps) && ForwardRule(e, permalinkOf, steps)
    && AckRule(steps) && ApologyRule(e, steps) && Finishes(e, steps, escaped)
  }

  /** A call of the routing block that fails leaves the apology as the block's last call. */
  lemma FailureEndsInApology(e: Event, permalinkOf: (string, string) -> string,
                             steps: seq<Attempt>, escaped: bool, i: nat)
    requires RoutingRules(e, permalinkOf, steps, escaped)
    requires i < |steps| && !steps[i].ok
    ensures steps[|steps| - 1].call.Apology?
  {
    assert ApologyRuleAt(e, steps, i);
  }

  // ---------------------------------------------------------------------
  // The handler

  datatype Verdict = Ignore | Proceed | AuthFailed

  /**
   * The ignore filter as the handler evaluates it: left to right, stopping
   * at the first true test, asking the platform for the bot's id before
   * each of the last two tests.
   */
  method Screen(e: Event, selfId: string, outcomes: seq<bool>)
    returns (log: seq<Attempt>, verdict: Verdict)
    ensures Answered(outcomes, 0, log) && NoOutbound(log)
    ensures IgnoredLocally(e) ==> log == [] && verdict == Ignore
    ensures !IgnoredLocally(e) && !Succeeds(outcomes, 0) ==>
              log == [Attempt(AuthTest, false)] && verdict == AuthFailed
    ensures !IgnoredLocally(e) && Succeeds(outcomes, 0) && e.user == Some(selfId) ==>
              log == [Attempt(AuthTest, true)] && verdict == Ignore
    ensures !IgnoredLocally(e) && Succeeds(outcomes, 0) && e.user != Some(selfId) && !Succeeds(outcomes, 1) ==>
              log == [Attempt(AuthTest, true), Attempt(AuthTest, false)] && verdict == AuthFailed
    ensures !IgnoredLocally(e) && Succeeds(outcomes, 0) && e.user != Some(selfId) && Succeeds(outcomes, 1) ==>
              log == [Attempt(AuthTest, true), Attempt(AuthTest, true)] && verdict != AuthFailed
    ensures verdict != AuthFailed ==> (verdict == Ignore <==> Ignored(e, selfId))
  {
    log, verdict := [], Ignore;
    if IgnoredLocally(e) {
      return;
    }
    var ok;
    log, ok := Perform(log, AuthTest, outcomes, 0);
    if !ok {
      verdict := AuthFailed;
    } else if e.user == Some(selfId) {
      verdict := Ignore;
    } else {
      log, ok := Perform(log, AuthTest, outcomes, 0);
      if !ok {
        verdict := AuthFailed;
      } else {
        verdict := if Contains(e.text.value, MentionToken(selfId)) then Ignore else Proceed;
      }
    }
  }

  // ---------------------------------------------------------------------
  // The routing block, piece by piece

  /** The notice step: one notice when the event starts a thread, none otherwise. */
  predicate NoticeStep(e: Event, n: seq<Attempt>)
  {
    if StartsThread(e) then |n| == 1 && n[0].call == PostThreadNotice(e.channel.value, e.ts.value)
    else n == []
  }

  /** The thread is settled: it already existed, or the notice went through. */
  predicate NoticeDone(e: Event, n: seq<Attempt>)
  {
    Truthy(e.threadTs) || (|n| == 1 && n[0].ok)
  }

  /**
   * The lookup, forward and acknowledgement in thread `ts`: none when a key
   * the forward reads is absent, otherwise the calls up to and including
   * the first that fails.
   */
  predicate ForwardSteps(e: Event, ts: string, permalinkOf: (string, string) -> string, f: seq<Attempt>)
  {
    if MissingField(e) then f == []
    else
      1 <= |f| <= 3
      && f[0].call == GetPermalink(e.channel.value, ts)
      && (|f| > 1 ==> f[0].ok && f[1].call == Forward(DESTINATION_CHANNEL,
            ForwardText(e.channel.value, e.user.value, e.text.value, permalinkOf(e.channel.value, ts)), true))
      && (|f| > 2 ==> f[1].ok && f[2].call == AckPrompt(ACK_BUTTONS, Some(ts)))
      && (|f| < 3 ==> !f[|f| - 1].ok)
  }

  /** The block ran to its end: the acknowledgement was accepted. */
  predicate Acknowledged(f: seq<Attempt>)
  {
    |f| == 3 && f[2].ok
  }

  /** How the pieces of one run of the routing block fit together. */
  predicate RoutingPieces(e: Event, permalinkOf: (string, string) -> string,
                          n: seq<Attempt>, f: seq<Attempt>, a: seq<Attempt>, escaped: bool)
  {
    NoticeStep(e, n)
    && (NoticeDone(e, n) ==> ResolvedThread(e).Some? && ForwardSteps(e, ResolvedThread(e).value, permalinkOf, f))
    && (!NoticeDone(e, n) ==> f == [])
    && (!Acknowledged(f) && ResolvedThread(e).Some? ==>
          |a| == 1 && a[0].call == Apology(RoutingFailed, ResolvedThread(e)))
    && (Acknowledged(f) || ResolvedThread(e).None? ==> a == [])
    && (escaped <==> !Acknowledged(f) && (ResolvedThread(e).None? || !a[0].ok))
  }

  /**
   * Resolves the thread (lines 69-77): posts the notice for a top-level
   * event and then adopts the event's own timestamp.
   */
  method StartThread(e: Event, outcomes: seq<bool>, made: nat)
    returns (steps: seq<Attempt>, threadTs: Option<string>, raised: bool)
    ensures Answered(outcomes, made, steps)
    ensures NoticeStep(e, steps)
    ensures raised <==> !NoticeDone(e, steps)
    ensures !raised ==> threadTs == ResolvedThread(e) && threadTs.Some?
    ensures raised ==> threadTs == e.threadTs
  {
    steps, threadTs, raised := [], e.threadTs, false;
    if !Truthy(threadTs) {
      if e.channel.None? || e.ts.None? {
        raised := true;
      } else {
        var ok;
        steps, ok := Perform(steps, PostThreadNotice(e.channel.value, e.ts.value), outcomes, made);
        if ok {
          threadTs := e.ts;
        } else {
          raised := true;
        }
      }
    }
  }

  /** Looks up the permalink, forwards, and acknowledges in thread `threadTs` (lines 80-121). */
  method ForwardAndAck(e: Event, threadTs: string, permalinkOf: (string, string) -> string,
                       outcomes: seq<bool>, made: nat)
    returns (steps: seq<Attempt>, raised: bool)
    ensures Answered(outcomes, made, steps)
    ensures ForwardSteps(e, threadTs, permalinkOf, steps)
    ensures raised <==> !Acknowledged(steps)
  {
    steps, raised := [], true;
    if MissingField(e) {
      return;
    }
    var channel := e.channel.value;
    var ok;
    steps, ok := Perform(steps, GetPermalink(channel, threadTs), outcomes, made);
    if !ok {
      return;
    }
    var text := ForwardText(channel, e.user.value, e.text.value, permalinkOf(channel, threadTs));
    steps, ok := Perform(steps, Forward(DESTINATION_CHANNEL, text, true), outcomes, made);
    if !ok {
      return;
    }
    steps, ok := Perform(steps, AckPrompt(ACK_BUTTONS, Some(threadTs)), outcomes, made);
    raised := !ok;
  }

  /**
   * The routing block's handler (lines 123-128): apologises at the local
   * thread id if it is truthy, else at `ts`, whose absence lets the
   * exception out.
   */
  method RoutingApology(e: Event, threadTs: Option<string>, outcomes: seq<bool>, made: nat)
    returns (steps: seq<Attempt>, escaped: bool)
    ensures Answered(outcomes, made, steps)
    ensures var target := if Truthy(threadTs) then threadTs else e.ts;
      (target.None? ==> steps == [] && escaped)
      && (target.Some? ==> |steps| == 1 && steps[0].call == Apology(RoutingFailed, target)
                           && escaped == !steps[0].ok)
  {
    var target := if Truthy(threadTs) then threadTs else e.ts;
    if target.None? {
      steps, escaped := [], true;
    } else {
      var ok;
      steps, ok := Perform([], Apology(RoutingFailed, target), outcomes, made);
      escaped := !ok;
    }
  }

  /**
   * The routing block with its handler: `made` calls precede it. Returns
   * the calls it makes and whether an exception leaves it.
   */
  method RouteMessage(e: Event, permalinkOf: (string, string) -> string, outcomes: seq<bool>, made: nat)
    returns (steps: seq<Attempt>, escaped: bool)
    ensures Answered(outcomes, made, steps)
    ensures RoutingRules(e, permalinkOf, steps, escaped)
  {
    var n, threadTs, raised := StartThread(e, outcomes, made);
    var f: seq<Attempt> := [];
    if !raised {
      f, raised := ForwardAndAck(e, threadTs.value, permalinkOf, outcomes, made + |n|);
    }
    var a: seq<Attempt> := [];
    escaped := false;
    if raised {
      a, escaped := RoutingApology(e, threadTs, outcomes, made + |n| + |f|);
    }
    assert RoutingPieces(e, permalinkOf, n, f, a, escaped);
    RoutingPiecesObeyRules(e, permalinkOf, n, f, a, escaped);
    steps := n + f + a;
    AnsweredConcat(outcomes, made, n, f);
    AnsweredConcat(outcomes, made, n + f, a);
  }

  /** Any run assembled from the three pieces obeys every routing rule; the rules are proved in groups. */
  lemma RoutingPiecesObeyRules(e: Event, permalinkOf: (string, string) -> string,
                               n: seq<Attempt>, f: seq<Attempt>, a: seq<Attempt>, escaped: bool)
    requires RoutingPieces(e, permalinkOf, n, f, a, escaped)
    ensures RoutingRules(e, permalinkOf, n + f + a, escaped)
  {
    var s := n + f + a;
    assert RoutingCallsOnly(s) && ThreadOwnership(e, s) by {
      PiecesCallsAndThreads(e, permalinkOf, n, f, a, escaped);
    }
    assert EachCallOnce(s) by {
      PiecesOnce(e, permalinkOf, n, f, a, escaped);
    }
    assert NoticeRule(e, s) && ForwardRule(e, permalinkOf, s) && AckRule(s) by {
      PiecesOrder(e, permalinkOf, n, f, a, escaped);
    }
    assert ApologyRule(e, s) && Finishes(e, s, escaped) by {
      PiecesApology(e, permalinkOf, n, f, a, escaped);
    }
  }

  lemma PiecesCallsAndThreads(e: Event, permalinkOf: (string, string) -> string,
                              n: seq<Attempt>, f: seq<Attempt>, a: seq<Attempt>, escaped: bool)
    requires RoutingPieces(e, permalinkOf, n, f, a, escaped)
    ensures RoutingCallsOnly(n + f + a) && ThreadOwnership(e, n + f + a)
  {
  }

  lemma PiecesOnce(e: Event, permalinkOf: (string, string) -> string,
                   n: seq<Attempt>, f: seq<Attempt>, a: seq<Attempt>, escaped: bool)
    requires RoutingPieces(e, permalinkOf, n, f, a, escaped)
    ensures EachCallOnce(n + f + a)
  {
    var s := n + f + a;
    forall i, j | 0 <= i < j < |s|
      ensures !(s[i].call.GetPermalink? && s[j].call.GetPermalink?)
              && !(s[i].call.Forward? && s[j].call.Forward?)
              && !(s[i].call.AckPrompt? && s[j].call.AckPrompt?)
    {
      IndexOfThree(n, f, a, i);
      IndexOfThree(n, f, a, j);
    }
  }

  lemma PiecesOrder(e: Event, permalinkOf: (string, string) -> string,
                    n: seq<Attempt>, f: seq<Attempt>, a: seq<Attempt>, escaped: bool)
    requires RoutingPieces(e, permalinkOf, n, f, a, escaped)
    ensures NoticeRule(e, n + f + a) && ForwardRule(e, permalinkOf, n + f + a) && AckRule(n + f + a)
  {
  }

  lemma PiecesApology(e: Event, permalinkOf: (string, string) -> string,
                      n: seq<Attempt>, f: seq<Attempt>, a: seq<Attempt>, escaped: bool)
    requires RoutingPieces(e, permalinkOf, n, f, a, escaped)
    ensures ApologyRule(e, n + f + a) && Finishes(e, n + f + a, escaped)
  {
    var s := n + f + a;
    forall i | 0 <= i < |s| ensures ApologyRuleAt(e, s, i) {
      IndexOfThree(n, f, a, i);
      if i + 1 < |s| {
        IndexOfThree(n, f, a, i + 1);
      }
      if s[i].call.Apology? && !MissingField(e) {
        ApologyAnswersFailure(e, permalinkOf, n, f, a, escaped);
        var j :| 0 <= j < |n + f| && !(n + f)[j].ok;
        IndexOfThree(n, f, a, j);
      }
    }
    if |s| > 0 {
      IndexOfThree(n, f, a, |s| - 1);
    }
  }

  lemma IndexOfThree(n: seq<Attempt>, f: seq<Attempt>, a: seq<Attempt>, i: int)
    requires 0 <= i < |n| + |f| + |a|
    ensures (n + f + a)[i] == if i < |n| then n[i] else if i < |n| + |f| then f[i - |n|] else a[i - |n| - |f|]
  {
  }

  /** The routing apology, when there is one, answers a failed call or a missing key. */
  lemma ApologyAnswersFailure(e: Event, permalinkOf: (string, string) -> string,
                              n: seq<Attempt>, f: seq<Attempt>, a: seq<Attempt>, escaped: bool)
    requires RoutingPieces(e, permalinkOf, n, f, a, escaped)
    requires a != []
    ensures (exists j | 0 <= j < |n + f| :: !(n + f)[j].ok) || MissingField(e)
  {
    var s := n + f;
    if !NoticeDone(e, n) {
      if StartsThread(e) {
        assert !s[0].ok;
      }
    } else if !MissingField(e) {
      assert !s[|n| + |f| - 1].ok;
    }
  }

  /**
   * The calls made for a routed event: the routing block with no exception
   * leaving it, or the routing block followed by the outermost apology.
   */
  predicate Recovered(e: Event, permalinkOf: (string, string) -> string, steps: seq<Attempt>)
  {
    RoutingRules(e, permalinkOf, steps, false)
    || (|steps| > 0 && RoutingRules(e, permalinkOf, steps[..|steps| - 1], true)
        && steps[|steps| - 1].call == Apology(UnexpectedError, FallbackThread(e)))
  }

  /**
   * A routed event after the filter (lines 67-138): the routing block, then
   * the outermost apology if an exception left it. `made` calls precede it.
   */
  method RouteAndRecover(e: Event, permalinkOf: (string, string) -> string, outcomes: seq<bool>, made: nat)
    returns (steps: seq<Attempt>)
    ensures Answered(outcomes, made, steps)
    ensures |steps| > 0
    ensures Recovered(e, permalinkOf, steps)
    ensures (exists i | 0 <= i < |steps| :: !steps[i].ok) ==> steps[|steps| - 1].call.Apology?
    ensures forall i | 0 <= i < |steps| && steps[i].call.Apology? && steps[i].call.kind == UnexpectedError ::
              i == |steps| - 1
  {
    var escaped;
    steps, escaped := RouteMessage(e, permalinkOf, outcomes, made);
    if i :| 0 <= i < |steps| && !steps[i].ok {
      FailureEndsInApology(e, permalinkOf, steps, escaped, i);
    }
    if escaped {
      var routed := steps;
      var ok;
      steps, ok := Perform(steps, Apology(UnexpectedError, FallbackThread(e)), outcomes, made);
      assert steps[..|steps| - 1] == routed;
    }
  }

  /** The whole "message" handler for a bot whose user id is `selfId`. */
  method HandleMessageEvents(e: Event, selfId: string, permalinkOf: (string, string) -> string, outcomes: seq<bool>)
    returns (log: seq<Attempt>)
    ensures Answered(outcomes, 0, log)
    ensures IgnoredLocally(e) ==> log == []
    ensures !IgnoredLocally(e) && !Succeeds(outcomes, 0) ==>
              log == [Attempt(AuthTest, false),
                      Attempt(Apology(UnexpectedError, FallbackThread(e)), Succeeds(outcomes, 1))]
    ensures !IgnoredLocally(e) && Succeeds(outcomes, 0) && e.user == Some(selfId) ==>
              log == [Attempt(AuthTest, true)]
    ensures !IgnoredLocally(e) && Succeeds(outcomes, 0) && e.user != Some(selfId) && !Succeeds(outcomes, 1) ==>
              log == [Attempt(AuthTest, true), Attempt(AuthTest, false),
                      Attempt(Apology(UnexpectedError, FallbackThread(e)), Succeeds(outcomes, 2))]
    ensures Ignored(e, selfId) && !IgnoredLocally(e) && Succeeds(outcomes, 0) && e.user != Some(selfId)
            && Succeeds(outcomes, 1) ==>
              log == [Attempt(AuthTest, true), Attempt(AuthTest, true)]
    ensures Ignored(e, selfId) && Succeeds(outcomes, 0) && Succeeds(outcomes, 1) ==> NoOutbound(log)
    ensures !Ignored(e, selfId) && !Routed(e) && Succeeds(outcomes, 0) && Succeeds(outcomes, 1) ==>
              log == [Attempt(AuthTest, true), Attempt(AuthTest, true)]
    ensures !Ignored(e, selfId) && Routed(e) && Succeeds(outcomes, 0) && Succeeds(outcomes, 1) ==>
              |log| > 2 && log[..2] == [Attempt(AuthTest, true), Attempt(AuthTest, true)]
              && Recovered(e, permalinkOf, log[2..])
    ensures (exists i | 0 <= i < |log| :: !log[i].ok) ==> log[|log| - 1].call.Apology?
    ensures (exists i | 0 <= i < |log| :: log[i] == Attempt(AuthTest, false)) ==>
              log[|log| - 1].call == Apology(UnexpectedError, FallbackThread(e))
    ensures forall i | 0 <= i < |log| && log[i].call.Apology? && log[i].call.kind == UnexpectedError ::
              i == |log| - 1 && log[i].call.threadTs == FallbackThread(e)
  {
    var verdict;
    log, verdict := Screen(e, selfId, outcomes);
    if verdict == AuthFailed {
      var ok;
      log, ok := Perform(log, Apology(UnexpectedError, FallbackThread(e)), outcomes, 0);
    } else if verdict == Proceed && Routed(e) {
      var screened := log;
      var steps := RouteAndRecover(e, permalinkOf, outcomes, |log|);
      log := log + steps;
      AnsweredConcat(outcomes, 0, screened, steps);
      assert log[2..] == steps;
      if i :| 0 <= i < |log| && !log[i].ok {
        assert !steps[i - 2].ok;
      }
    }
  }
}
