/**
 * `TicketVerificationAction` in src/index.js, with the `GitHubCommenter` it
 * uses and the top-level `run()`: the decision flow of one run, observed as
 * the ordered log of what the run tells the host platform and the tracker.
 *
 * The pure functions below give the log a run produces; the class performs
 * the same run step by step, appending to its `effects`, and each method is
 * proved to append exactly what the functions say. The lemmas state the
 * run's outcomes over the functions.
 */
module Action {
  import opened Wrappers
  import opened Text
  import opened TicketMatcher
  import opened TicketApi
  import opened Configuration

  /** One observable step of a run. `core.debug` output is not recorded. */
  datatype Effect =
    | Info(text: string)          // core.info
    | Error(text: string)         // core.error
    | SetFailed(message: string)  // core.setFailed: the run is marked failed
    | Lookup(request: Request)    // the GET sent to the tracker
    | Comment(body: string)       // octokit.rest.issues.createComment on the pull request, attempted
    | Crash(message: string)      // an exception nothing catches ends the process

  /** What became of the attempt to create the comment. */
  datatype CommentOutcome = Posted | CommentFailed(message: string)

  const NoTicketReason: string := "No ticket link found in the pull request description."
  const SuccessText: string := "✅ Ticket verification successful!"

  function VerifyingText(info: TicketRef): string {
    "Verifying ticket - Project ID: " + info.projectId + ", Ticket ID: " + info.ticketId
  }

  function FailedText(reason: string): string {
    "❌ Ticket verification failed: " + reason
  }

  function CommentErrorText(message: string): string {
    "Failed to add comment: " + message
  }

  /** `${result.status}`: the number, or `undefined` when the result has no status. */
  function StatusText(status: Option<nat>): string {
    match status
    case Some(s) => DecimalString(s)
    case None => "undefined"
  }

  /** `${projectId}, Ticket ID: ${ticketId}` preceded by ` for Project ID: `: the end of every failure reason. */
  function TicketSuffix(info: TicketRef): string {
    " for Project ID: " + info.projectId + ", Ticket ID: " + info.ticketId
  }

  /**
   * The reason `verifyTicket` reports for a result that is not valid. A
   * non-empty `error` gives the transport message; otherwise the status is
   * shown, followed by `result.statusText`, a property the result never has,
   * which therefore prints as `undefined`.
   */
  function FailureReason(info: TicketRef, result: VerifyResult): string {
    var errorMessage :=
      if result.error.Some? && result.error.value != "" then "Error verifying ticket: " + result.error.value
      else "Invalid ticket: Status " + StatusText(result.status) + " undefined";
    errorMessage + TicketSuffix(info)
  }

  /** `addComment(message)`: the comment, and a logged error when creating it failed; the failure goes no further. */
  function CommentEffects(message: string, outcome: CommentOutcome): seq<Effect> {
    match outcome
    case Posted => [Comment(message)]
    case CommentFailed(m) => [Comment(message), Error(CommentErrorText(m))]
  }

  /** `handleMissingTicket(reason)` */
  function MissingTicketEffects(config: Config, reason: string, commented: CommentOutcome): seq<Effect> {
    [Error(FailedText(reason)), SetFailed(reason)] + CommentEffects(config.message, commented)
  }

  /** `verifyTicket(ticketInfo)`, the tracker's answer being `outcome`. */
  function VerifyTicketEffects(config: Config, info: TicketRef, outcome: LookupOutcome, commented: CommentOutcome): seq<Effect> {
    var request := LookupRequest(config.apiUrl, config.apiKey, info.projectId, info.ticketId);
    var result := Classify(outcome);
    [Info(VerifyingText(info)), Lookup(request)] +
    if result.isValid then [Info(SuccessText)]
    else MissingTicketEffects(config, FailureReason(info, result), commented)
  }

  /** `run()` of the action once the description has been searched, `ticket` being what was found. */
  function Decide(config: Config, ticket: Option<TicketRef>, outcome: LookupOutcome, commented: CommentOutcome): seq<Effect> {
    match ticket
    case None => MissingTicketEffects(config, NoTicketReason, commented)
    case Some(info) => VerifyTicketEffects(config, info, outcome, commented)
  }

  /** `run()` of the action, for a pull request whose description is `prBody` (`None` when it has none). */
  function RunEffects(config: Config, prBody: Option<string>, outcome: LookupOutcome, commented: CommentOutcome): seq<Effect> {
    Decide(config, ExtractTicketInfo(config.baseUrl, prBody), outcome, commented)
  }

  /**
   * The top-level `run()`: constructing the action (and its `Config`) happens
   * outside the `try` of the action's own `run`, so a configuration error is
   * an exception nothing catches.
   */
  function ActionEffects(env: Env, messageInput: string, prBody: Option<string>,
                         outcome: LookupOutcome, commented: CommentOutcome): seq<Effect> {
    match LoadConfig(env, messageInput)
    case Err(e) => [Crash(e)]
    case Ok(config) => RunEffects(config, prBody, outcome, commented)
  }

  // ---------------------------------------------------------------------------
  // Views of a log
  // ---------------------------------------------------------------------------

  /** The messages the run was marked failed with, in order. */
  function FailureMessages(log: seq<Effect>): seq<string>
    decreases |log|
  {
    if log == [] then []
    else (if log[0].SetFailed? then [log[0].message] else []) + FailureMessages(log[1..])
  }

  /** The bodies of the comments attempted, in order (whether or not creating them succeeded). */
  function CommentBodies(log: seq<Effect>): seq<string>
    decreases |log|
  {
    if log == [] then []
    else (if log[0].Comment? then [log[0].body] else []) + CommentBodies(log[1..])
  }

  /** The requests sent to the tracker, in order. */
  function Lookups(log: seq<Effect>): seq<Request>
    decreases |log|
  {
    if log == [] then []
    else (if log[0].Lookup? then [log[0].request] else []) + Lookups(log[1..])
  }

  /** The three views of a log taken in two parts are the views of the parts, one after the other. */
  lemma {:induction false} ViewsDistribute(a: seq<Effect>, b: seq<Effect>)
    ensures FailureMessages(a + b) == FailureMessages(a) + FailureMessages(b)
    ensures CommentBodies(a + b) == CommentBodies(a) + CommentBodies(b)
    ensures Lookups(a + b) == Lookups(a) + Lookups(b)
    decreases |a|
  {
    if a != [] {
      ViewsDistribute(a[1..], b);
      assert (a + b)[0] == a[0];
      assert (a + b)[1..] == a[1..] + b;
    } else {
      assert a + b == b;
    }
  }

  /** The views of a one-step log. */
  lemma ViewsSingle(e: Effect)
    ensures FailureMessages([e]) == if e.SetFailed? then [e.message] else []
    ensures CommentBodies([e]) == if e.Comment? then [e.body] else []
    ensures Lookups([e]) == if e.Lookup? then [e.request] else []
  {
    assert [e][1..] == [];
  }

  /** The views of a two-step log. */
  lemma ViewsPair(e: Effect, f: Effect)
    ensures FailureMessages([e, f]) == FailureMessages([e]) + FailureMessages([f])
    ensures CommentBodies([e, f]) == CommentBodies([e]) + CommentBodies([f])
    ensures Lookups([e, f]) == Lookups([e]) + Lookups([f])
  {
    ViewsDistribute([e], [f]);
    assert [e] + [f] == [e, f];
  }

  /** `addComment` attempts exactly one comment, the one asked for, and marks nothing failed. */
  lemma CommentEffectsViews(message: string, outcome: CommentOutcome)
    ensures CommentBodies(CommentEffects(message, outcome)) == [message]
    ensures FailureMessages(CommentEffects(message, outcome)) == []
    ensures Lookups(CommentEffects(message, outcome)) == []
  {
    ViewsSingle(Comment(message));
    if outcome.CommentFailed? {
      ViewsSingle(Error(CommentErrorText(outcome.message)));
      ViewsPair(Comment(message), Error(CommentErrorText(outcome.message)));
    }
  }

  // ---------------------------------------------------------------------------
  // The run's outcomes
  // ---------------------------------------------------------------------------

  /**
   * `handleMissingTicket(reason)` marks the run failed with `reason`, then
   * posts the configured message (not the reason) as the one comment.
   */
  lemma MissingTicketShape(config: Config, reason: string, commented: CommentOutcome)
    ensures var log := MissingTicketEffects(config, reason, commented);
      && log[1] == SetFailed(reason) && log[2] == Comment(config.message)
      && FailureMessages(log) == [reason] && CommentBodies(log) == [config.message] && Lookups(log) == []
  {
    var head := [Error(FailedText(reason)), SetFailed(reason)];
    assert MissingTicketEffects(config, reason, commented) == head + CommentEffects(config.message, commented);
    ViewsPair(Error(FailedText(reason)), SetFailed(reason));
    ViewsSingle(Error(FailedText(reason)));
    ViewsSingle(SetFailed(reason));
    CommentEffectsViews(config.message, commented);
    ViewsDistribute(head, CommentEffects(config.message, commented));
  }

  /** No ticket link found: failed with the fixed reason, one comment, and the tracker is not asked. */
  lemma NoLinkFails(config: Config, outcome: LookupOutcome, commented: CommentOutcome)
    ensures var log := Decide(config, None, outcome, commented);
      && log[1] == SetFailed(NoTicketReason) && log[2] == Comment(config.message)
      && FailureMessages(log) == [NoTicketReason] && CommentBodies(log) == [config.message] && Lookups(log) == []
  {
    MissingTicketShape(config, NoTicketReason, commented);
  }

  /**
   * A ticket link the tracker confirms: exactly one lookup, for that ticket,
   * and the run is neither failed nor commented on.
   */
  lemma ValidTicketPasses(config: Config, info: TicketRef, outcome: LookupOutcome, commented: CommentOutcome)
    requires Classify(outcome).isValid
    ensures var log := Decide(config, Some(info), outcome, commented);
      && FailureMessages(log) == [] && CommentBodies(log) == []
      && Lookups(log) == [LookupRequest(config.apiUrl, config.apiKey, info.projectId, info.ticketId)]
      && log[|log| - 1] == Info(SuccessText)
  {
    var request := LookupRequest(config.apiUrl, config.apiKey, info.projectId, info.ticketId);
    var head := [Info(VerifyingText(info)), Lookup(request)];
    assert Decide(config, Some(info), outcome, commented) == head + [Info(SuccessText)];
    ViewsPair(Info(VerifyingText(info)), Lookup(request));
    ViewsSingle(Info(SuccessText));
    ViewsDistribute(head, [Info(SuccessText)]);
  }

  /**
   * A ticket link the tracker rejects or cannot be reached for: exactly one
   * lookup, the run failed with the reason for that result, then one comment
   * with the configured message.
   */
  lemma InvalidTicketFails(config: Config, info: TicketRef, outcome: LookupOutcome, commented: CommentOutcome)
    requires !Classify(outcome).isValid
    ensures var reason := FailureReason(info, Classify(outcome));
      var log := Decide(config, Some(info), outcome, commented);
      && log[3] == SetFailed(reason) && log[4] == Comment(config.message)
      && FailureMessages(log) == [reason] && CommentBodies(log) == [config.message]
      && Lookups(log) == [LookupRequest(config.apiUrl, config.apiKey, info.projectId, info.ticketId)]
  {
    var request := LookupRequest(config.apiUrl, config.apiKey, info.projectId, info.ticketId);
    LookupThenMissing(config, Info(VerifyingText(info)), request, FailureReason(info, Classify(outcome)), commented);
  }

  /** A lookup followed by `handleMissingTicket(reason)`. */
  lemma LookupThenMissing(config: Config, first: Effect, request: Request, reason: string, commented: CommentOutcome)
    requires first.Info?
    ensures var log := [first, Lookup(request)] + MissingTicketEffects(config, reason, commented);
      && log[3] == SetFailed(reason) && log[4] == Comment(config.message)
      && FailureMessages(log) == [reason] && CommentBodies(log) == [config.message] && Lookups(log) == [request]
  {
    MissingTicketShape(config, reason, commented);
    ViewsPair(first, Lookup(request));
    ViewsSingle(first);
    ViewsSingle(Lookup(request));
    ViewsDistribute([first, Lookup(request)], MissingTicketEffects(config, reason, commented));
  }

  /** The tracker answered with a 2xx status. */
  predicate IsOkOutcome(outcome: LookupOutcome) {
    outcome.Responded? && IsOk(outcome.status)
  }

  /** Once the description has been searched: failed, and commented on, exactly when no ticket the tracker accepts was found. */
  lemma DecideFailsUnlessValid(config: Config, ticket: Option<TicketRef>, outcome: LookupOutcome, commented: CommentOutcome)
    ensures var log := Decide(config, ticket, outcome, commented);
      var passes := ticket.Some? && IsOkOutcome(outcome);
      && (|FailureMessages(log)| == 1 <==> !passes)
      && (FailureMessages(log) == [] <==> passes)
      && (CommentBodies(log) == [] <==> passes)
  {
    match ticket
    case None => NoLinkFails(config, outcome, commented);
    case Some(info) =>
      if Classify(outcome).isValid {
        ValidTicketPasses(config, info, outcome, commented);
      } else {
        InvalidTicketFails(config, info, outcome, commented);
      }
  }

  /**
   * The run is marked failed (with one message) and commented on exactly
   * when the description holds no ticket link the tracker accepts.
   */
  lemma RunFailsUnlessValid(config: Config, prBody: Option<string>, outcome: LookupOutcome, commented: CommentOutcome)
    ensures var log := RunEffects(config, prBody, outcome, commented);
      var passes := ExtractTicketInfo(config.baseUrl, prBody).Some? && IsOkOutcome(outcome);
      && (|FailureMessages(log)| == 1 <==> !passes)
      && (FailureMessages(log) == [] <==> passes)
      && (CommentBodies(log) == [] <==> passes)
  {
    DecideFailsUnlessValid(config, ExtractTicketInfo(config.baseUrl, prBody), outcome, commented);
  }

  /**
   * A description with a ticket link leads to exactly one lookup, and the URL
   * it requests names that ticket: reading the ids back out of it gives the
   * digit runs found in the description.
   */
  lemma RunLooksUpFoundTicket(config: Config, prBody: Option<string>, outcome: LookupOutcome, commented: CommentOutcome)
    requires ExtractTicketInfo(config.baseUrl, prBody).Some?
    ensures var info := ExtractTicketInfo(config.baseUrl, prBody).value;
      var lookups := Lookups(RunEffects(config, prBody, outcome, commented));
      && |lookups| == 1
      && ParseLookupUrl(config.apiUrl, lookups[0].url) == Some((info.projectId, info.ticketId))
  {
    var info := ExtractTicketInfo(config.baseUrl, prBody).value;
    var i := ExtractLeftmost(config.baseUrl, prBody);
    LookupUrlRoundTrip(config.apiUrl, info.projectId, info.ticketId);
    if Classify(outcome).isValid {
      ValidTicketPasses(config, info, outcome, commented);
    } else {
      InvalidTicketFails(config, info, outcome, commented);
    }
  }

  /**
   * A comment that cannot be created adds one logged error at the end and
   * changes nothing else: not the failure, not its message.
   */
  lemma CommentFailureIsHarmless(config: Config, ticket: Option<TicketRef>, outcome: LookupOutcome, m: string)
    ensures var ok := Decide(config, ticket, outcome, Posted);
      var failed := Decide(config, ticket, outcome, CommentFailed(m));
      && failed == ok + (if CommentBodies(ok) == [] then [] else [Error(CommentErrorText(m))])
      && FailureMessages(failed) == FailureMessages(ok) && CommentBodies(failed) == CommentBodies(ok)
  {
    var ok := Decide(config, ticket, outcome, Posted);
    var failed := Decide(config, ticket, outcome, CommentFailed(m));
    var error := Error(CommentErrorText(m));
    ViewsSingle(error);
    match ticket
    case None =>
      MissingTicketCommentFails(config, NoTicketReason, m);
      MissingTicketShape(config, NoTicketReason, Posted);
      ViewsDistribute(ok, [error]);
    case Some(info) =>
      if Classify(outcome).isValid {
        ValidTicketPasses(config, info, outcome, Posted);
      } else {
        InvalidTicketCommentFails(config, info, outcome, m);
        ViewsDistribute(ok, [error]);
      }
  }

  lemma InvalidTicketCommentFails(config: Config, info: TicketRef, outcome: LookupOutcome, m: string)
    requires !Classify(outcome).isValid
    ensures Decide(config, Some(info), outcome, CommentFailed(m))
         == Decide(config, Some(info), outcome, Posted) + [Error(CommentErrorText(m))]
    ensures CommentBodies(Decide(config, Some(info), outcome, Posted)) == [config.message]
  {
    var request := LookupRequest(config.apiUrl, config.apiKey, info.projectId, info.ticketId);
    var reason := FailureReason(info, Classify(outcome));
    var head := [Info(VerifyingText(info)), Lookup(request)];
    MissingTicketCommentFails(config, reason, m);
    assert Decide(config, Some(info), outcome, CommentFailed(m))
        == head + (MissingTicketEffects(config, reason, Posted) + [Error(CommentErrorText(m))]);
    LookupThenMissing(config, Info(VerifyingText(info)), request, reason, Posted);
  }

  lemma MissingTicketCommentFails(config: Config, reason: string, m: string)
    ensures MissingTicketEffects(config, reason, CommentFailed(m))
         == MissingTicketEffects(config, reason, Posted) + [Error(CommentErrorText(m))]
  {
  }

  /**
   * A failed lookup that carries a message is reported with that message; one
   * whose message is empty falls through to the status text, and with no
   * status either, it reads "Status undefined undefined".
   */
  lemma ThrowReason(info: TicketRef, message: string)
    ensures message != "" ==>
      FailureReason(info, Classify(Threw(message))) == "Error verifying ticket: " + message + TicketSuffix(info)
    ensures message == "" ==>
      FailureReason(info, Classify(Threw(message))) == "Invalid ticket: Status undefined undefined" + TicketSuffix(info)
  {
  }

  /** A status the tracker rejected can be read back out of the reason. */
  lemma StatusReason(info: TicketRef, status: nat)
    requires !IsOk(status)
    ensures ReasonStatus(FailureReason(info, Classify(Responded(status)))) == Some(status)
  {
    StatusRoundTrip(status, " undefined" + TicketSuffix(info));
    assert FailureReason(info, Classify(Responded(status)))
        == StatusPrefix + DecimalString(status) + (" undefined" + TicketSuffix(info));
  }

  /** A lookup failure is never reported with the reason for a missing link, so the two can be told apart. */
  lemma FailureReasonsDiffer(info: TicketRef, result: VerifyResult)
    ensures FailureReason(info, result) != NoTicketReason
  {
    var reason := FailureReason(info, result);
    if result.error.Some? && result.error.value != "" {
      var tail := result.error.value + TicketSuffix(info);
      assert reason == "Error verifying ticket: " + tail;
      assert reason[13] == 'n';
    } else {
      var tail := StatusText(result.status) + " undefined" + TicketSuffix(info);
      assert reason == StatusPrefix + tail;
      assert reason[13] == 't';
    }
    assert NoTicketReason[13] == 'k';
  }

  /** Every failure reason ends by naming the project and the ticket. */
  lemma FailureReasonNamesTicket(info: TicketRef, result: VerifyResult)
    ensures var reason := FailureReason(info, result);
      |reason| >= |TicketSuffix(info)| && reason[|reason| - |TicketSuffix(info)|..] == TicketSuffix(info)
  {
  }

  const StatusPrefix: string := "Invalid ticket: Status "

  /** Reads the status back out of an "Invalid ticket" reason, if it shows a number. */
  function ReasonStatus(reason: string): Option<nat> {
    if |reason| < |StatusPrefix| || reason[..|StatusPrefix|] != StatusPrefix then None
    else
      var digits := DigitRun(reason, |StatusPrefix|);
      if digits == 0 then None
      else Some(DecimalValue(reason[|StatusPrefix|..|StatusPrefix| + digits]))
  }

  /** The rendered status is read back whole, whatever follows it, as long as that does not start with a digit. */
  lemma StatusRoundTrip(status: nat, rest: string)
    requires rest == [] || !IsDigit(rest[0])
    ensures ReasonStatus(StatusPrefix + DecimalString(status) + rest) == Some(status)
  {
    var s := DecimalString(status);
    var reason := StatusPrefix + s + rest;
    assert reason[..|StatusPrefix|] == StatusPrefix;
    assert forall k :: |StatusPrefix| <= k < |StatusPrefix| + |s| ==> reason[k] == s[k - |StatusPrefix|];
    if rest != [] {
      assert reason[|StatusPrefix| + |s|] == rest[0];
    }
    DigitRunExact(reason, |StatusPrefix|, |s|);
    assert reason[|StatusPrefix|..|StatusPrefix| + |s|] == s;
    DecimalRoundTrip(status);
  }

  /** A missing BASE_URL or GITHUB_TOKEN ends the process before anything else: no lookup, no comment, no failure mark. */
  lemma ConfigErrorCrashes(env: Env, messageInput: string, prBody: Option<string>, outcome: LookupOutcome, commented: CommentOutcome)
    requires !Truthy(env.baseUrl) || !Truthy(env.token)
    ensures var log := ActionEffects(env, messageInput, prBody, outcome, commented);
      && log == [Crash(if !Truthy(env.baseUrl) then BaseUrlRequired else TokenRequired)]
      && FailureMessages(log) == [] && CommentBodies(log) == [] && Lookups(log) == []
  {
  }

  /** With a valid configuration the action runs with it, and any comment posted carries the configured message. */
  lemma ConfiguredRun(env: Env, messageInput: string, prBody: Option<string>, outcome: LookupOutcome, commented: CommentOutcome)
    requires Truthy(env.baseUrl) && Truthy(env.token)
    ensures var config := LoadConfig(env, messageInput).value;
      var log := ActionEffects(env, messageInput, prBody, outcome, commented);
      && log == RunEffects(config, prBody, outcome, commented)
      && forall body :: body in CommentBodies(log) ==> body == CommentMessage(messageInput, env)
  {
    var config := LoadConfig(env, messageInput).value;
    CommentsCarryMessage(config, ExtractTicketInfo(config.baseUrl, prBody), outcome, commented);
  }

  /** Whatever happens, the only comment a run can attempt is the configured message. */
  lemma CommentsCarryMessage(config: Config, ticket: Option<TicketRef>, outcome: LookupOutcome, commented: CommentOutcome)
    ensures CommentBodies(Decide(config, ticket, outcome, commented)) in {[], [config.message]}
  {
    match ticket
    case None => NoLinkFails(config, outcome, commented);
    case Some(info) =>
      if Classify(outcome).isValid {
        ValidTicketPasses(config, info, outcome, commented);
      } else {
        InvalidTicketFails(config, info, outcome, commented);
      }
  }

  // ---------------------------------------------------------------------------
  // The action as the source runs it
  // ---------------------------------------------------------------------------

  /**
   * The action object: its configuration, fixed at construction, and the log
   * of everything it has done so far. `GitHubCommenter.addComment` is its
   * `AddComment`; `TicketAPI.verifyTicket` is its `LookupTicket`.
   */
  class TicketVerificationAction {
    const config: Config
    var effects: seq<Effect>

    constructor (config: Config)
      ensures this.config == config && effects == []
    {
      this.config := config;
      effects := [];
    }

    method AddComment(message: string, commented: CommentOutcome)
      modifies this
      ensures effects == old(effects) + CommentEffects(message, commented)
    {
      effects := effects + [Comment(message)];
      match commented {
        case Posted =>
        case CommentFailed(m) =>
          effects := effects + [Error(CommentErrorText(m))];
      }
    }

    method LookupTicket(info: TicketRef, outcome: LookupOutcome) returns (result: VerifyResult)
      modifies this
      ensures result == Classify(outcome)
      ensures effects == old(effects) + [Lookup(LookupRequest(config.apiUrl, config.apiKey, info.projectId, info.ticketId))]
    {
      effects := effects + [Lookup(LookupRequest(config.apiUrl, config.apiKey, info.projectId, info.ticketId))];
      result := Classify(outcome);
    }

    method HandleMissingTicket(reason: string, commented: CommentOutcome)
      modifies this
      ensures effects == old(effects) + MissingTicketEffects(config, reason, commented)
    {
      effects := effects + [Error(FailedText(reason))];
      effects := effects + [SetFailed(reason)];
      AddComment(config.message, commented);
    }

    method VerifyTicket(info: TicketRef, outcome: LookupOutcome, commented: CommentOutcome)
      modifies this
      ensures effects == old(effects) + VerifyTicketEffects(config, info, outcome, commented)
    {
      effects := effects + [Info(VerifyingText(info))];
      var result := LookupTicket(info, outcome);
      if result.isValid {
        effects := effects + [Info(SuccessText)];
      } else {
        HandleMissingTicket(FailureReason(info, result), commented);
      }
    }

    method Run(prBody: Option<string>, outcome: LookupOutcome, commented: CommentOutcome)
      modifies this
      ensures effects == old(effects) + RunEffects(config, prBody, outcome, commented)
    {
      var ticketInfo := ExtractTicketInfo(config.baseUrl, prBody);
      if ticketInfo.None? {
        HandleMissingTicket(NoTicketReason, commented);
        return;
      }
      VerifyTicket(ticketInfo.value, outcome, commented);
    }
  }

  /** The whole action, from its inputs to the log of what it did. */
  method RunAction(env: Env, messageInput: string, prBody: Option<string>,
                   outcome: LookupOutcome, commented: CommentOutcome) returns (log: seq<Effect>)
    ensures log == ActionEffects(env, messageInput, prBody, outcome, commented)
  {
    var config := LoadConfig(env, messageInput);
    if config.Err? {
      return [Crash(config.error)];
    }
    var action := new TicketVerificationAction(config.value);
    action.Run(prBody, outcome, commented);
    log := action.effects;
  }
}
