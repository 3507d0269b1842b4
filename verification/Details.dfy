/** What the detail of a final decision says: the incident behind its reason, as text. */
module Details {
  import opened Wrappers
  import opened Decimals
  import opened Domain
  import opened Trace
  import opened Orchestrator
  import opened TraceGrammar

  /** The offending literals, each with its class, separated by commas. */
  function Offenders(violations: seq<Violation>): string
    requires violations != []
  {
    var last := violations[|violations| - 1];
    var text := last.literal + " (" + ClassName(last.literalClass) + ")";
    if |violations| == 1 then text else Offenders(violations[..|violations| - 1]) + ", " + text
  }

  /** Words separated by commas. */
  function Listed(words: seq<string>): string
    requires words != []
  {
    if |words| == 1 then words[0] else Listed(words[..|words| - 1]) + ", " + words[|words| - 1]
  }

  lemma {:induction false} JoinLast(words: seq<string>, last: string, sep: string)
    requires words != []
    ensures JoinWith(words + [last], sep) == JoinWith(words, sep) + sep + last
  {
    assert (words + [last])[1..] == words[1..] + [last];
    if |words| == 1 {
      assert words[1..] + [last] == [last];
    } else {
      JoinLast(words[1..], last, sep);
      Regrouped(words[0], sep, JoinWith(words[1..], sep), last);
    }
  }

  lemma Regrouped(first: string, sep: string, middle: string, last: string)
    ensures first + sep + (middle + sep + last) == (first + sep + middle) + sep + last
  {
  }

  lemma {:induction false} JoinIsListed(words: seq<string>)
    requires words != []
    ensures JoinWith(words, ", ") == Listed(words)
  {
    if |words| > 1 {
      var front, last := words[..|words| - 1], words[|words| - 1];
      assert words == front + [last];
      JoinIsListed(front);
      JoinLast(front, last, ", ");
    }
  }

  function Texts(violations: seq<Violation>): (r: seq<string>)
    ensures |r| == |violations|
    ensures forall i :: 0 <= i < |r| ==>
              r[i] == violations[i].literal + " (" + ClassName(violations[i].literalClass) + ")"
  {
    seq(|violations|, i requires 0 <= i < |violations| =>
      violations[i].literal + " (" + ClassName(violations[i].literalClass) + ")")
  }

  lemma {:induction false} TextsListed(violations: seq<Violation>)
    requires violations != []
    ensures Listed(Texts(violations)) == Offenders(violations)
  {
    if |violations| > 1 {
      var front := violations[..|violations| - 1];
      TextsListed(front);
      assert Texts(violations)[..|violations| - 1] == Texts(front);
    }
  }

  lemma ViolationDetailSays(violations: seq<Violation>)
    requires violations != []
    ensures ViolationDetail(violations) == "reply withheld -- unsourced literals: " + Offenders(violations)
  {
    JoinIsListed(Texts(violations));
    TextsListed(violations);
  }

  /** The last two steps of an accepted trace, and where they find the automaton. */
  lemma BeforeLast(events: seq<Event>, max: int) returns (p: Phase, q: Phase)
    requires Accepts(events, max) && |events| >= 2
    ensures q == Next(p, events[|events| - 2], max) && Next(q, events[|events| - 1], max) == Closed
  {
    var n := |events|;
    p := Walk(Fresh, events[..n - 2], max);
    q := Next(p, events[n - 2], max);
    assert events == events[..n - 2] + [events[n - 2], events[n - 1]];
    WalkConcat(Fresh, events[..n - 2], [events[n - 2], events[n - 1]], max);
    Walk2(p, events[n - 2], events[n - 1], max);
  }

  /** After a failed call: the failing tool, if it has a name, and its message. An untyped
      exception is shown as it shows itself. */
  predicate FailureTold(failed: Event, last: Event)
    requires failed.ToolReturned? && failed.error.Some?
  {
    last.FinalDecision? && last.detail.Some? &&
    (last.reason != Some(TOOL_ERROR) ==>
      last.detail.value ==
        if failed.name == "" then failed.error.value.message else failed.name + ": " + failed.error.value.message)
  }

  lemma FailureExplained(p: Phase, q: Phase, failed: Event, last: Event, max: int)
    requires failed.ToolReturned? && !failed.ok && q == Next(p, failed, max) && Next(q, last, max) == Closed
    ensures failed.error.Some? && FailureTold(failed, last)
  {
    FailureBreaks(p, q, failed, max);
    assert ExplainsFailure(last, failed.name, failed.error.value);
  }

  lemma FailureBreaks(p: Phase, q: Phase, failed: Event, max: int)
    requires failed.ToolReturned? && !failed.ok && q == Next(p, failed, max)
    ensures q == Stuck || (failed.error.Some? && q.Broken? && q.tool == failed.name && q.error == failed.error.value)
  {
  }

  /** After a check: the offending literals, or nothing. */
  predicate CheckTold(check: Event, last: Event)
    requires check.GroundingChecked?
  {
    last.FinalDecision? &&
    last.detail == if check.violations == [] then None
                   else Some("reply withheld -- unsourced literals: " + Offenders(check.violations))
  }

  lemma CheckExplained(p: Phase, q: Phase, check: Event, last: Event, max: int)
    requires check.GroundingChecked? && q == Next(p, check, max) && Next(q, last, max) == Closed
    ensures CheckTold(check, last)
  {
    CheckJudges(p, q, check, max);
    JudgedCloses(q, last, max);
    if check.violations != [] { ViolationDetailSays(check.violations); }
  }

  lemma CheckJudges(p: Phase, q: Phase, check: Event, max: int)
    requires check.GroundingChecked? && q == Next(p, check, max)
    ensures q == Stuck || (q.Judged? && q.violations == check.violations)
  {
  }

  lemma JudgedCloses(q: Phase, last: Event, max: int)
    requires q == Stuck || q.Judged?
    requires Next(q, last, max) == Closed
    ensures q.Judged?
    ensures last == if q.violations == [] then FinalDecision(Replied, None, None)
                    else FinalDecision(HandedOff, Some(UNGROUNDED_REPLY), Some(ViolationDetail(q.violations)))
  {
  }

  /** After a handoff of the model's own: the reason it gave. */
  predicate GiveUpTold(last: Event) {
    last.FinalDecision? && last.reason.Some? &&
    last.detail == Some("the model ended the run itself, giving " + ReasonName(last.reason.value))
  }

  lemma GiveUpExplained(p: Phase, q: Phase, decision: Event, last: Event, max: int)
    requires decision.LLMDecision? && decision.decision == GiveUp && q == Next(p, decision, max)
    requires Next(q, last, max) == Closed
    ensures GiveUpTold(last)
  {
    GiveUpPhase(p, q, decision, max);
  }

  lemma GiveUpPhase(p: Phase, q: Phase, decision: Event, max: int)
    requires decision.LLMDecision? && decision.decision == GiveUp && q == Next(p, decision, max)
    ensures q == Stuck || q.GivenUp?
  {
  }

  /** After an unknown intent: what was ambiguous, if anything was. */
  predicate UnknownTold(keywords: seq<string>, last: Event) {
    last.FinalDecision? &&
    last.detail ==
      Some(if keywords == [] then "intent classified unknown: nothing in the ticket matched a supported category"
           else "intent classified unknown: an ambiguous match on " + Listed(keywords))
  }

  lemma UnknownExplained(p: Phase, q: Phase, classified: Event, last: Event, max: int)
    requires classified.IntentClassified? && classified.intent == UnknownIntent && q == Next(p, classified, max)
    requires Next(q, last, max) == Closed
    ensures UnknownTold(classified.keywords, last)
  {
    UnknownRefuses(p, q, classified, max);
    RefusedCloses(q, last, max);
    UnsupportedSays(classified.keywords);
  }

  lemma UnknownRefuses(p: Phase, q: Phase, classified: Event, max: int)
    requires classified.IntentClassified? && classified.intent == UnknownIntent && q == Next(p, classified, max)
    ensures q == Stuck || q == Refused(classified.keywords)
  {
  }

  lemma RefusedCloses(q: Phase, last: Event, max: int)
    requires (q == Stuck || q.Refused?) && Next(q, last, max) == Closed
    ensures q.Refused? && last.FinalDecision? && last.detail == Some(UnsupportedDetail(q.keywords))
  {
  }

  lemma UnsupportedSays(keywords: seq<string>)
    ensures UnsupportedDetail(keywords) ==
            if keywords == [] then "intent classified unknown: nothing in the ticket matched a supported category"
            else "intent classified unknown: an ambiguous match on " + Listed(keywords)
  {
    if keywords != [] { JoinIsListed(keywords); }
  }

  /** At the cap: how many iterations it allowed. */
  predicate CapTold(last: Event, max: int) {
    last.FinalDecision? &&
    last.detail == Some("the loop reached MAX_ITERATIONS (" + (if max < 0 then "-" + Digits(-max) else Digits(max)) +
                          ") without terminating")
  }

  lemma CapExplained(p: Phase, q: Phase, before: Event, last: Event, max: int)
    requires before.IntentClassified? || (before.ToolReturned? && before.ok)
    requires q == Next(p, before, max) && Next(q, last, max) == Closed
    ensures last.FinalDecision? && (last.reason == Some(ITERATION_CAP_EXCEEDED) ==> CapTold(last, max))
  {
    assert q.Ready? || q.Refused?;
  }

  /** Every trace explains itself: the detail of its final decision follows from the step before
      it, and says which tool failed and how, which literals are unsourced, what the model gave
      up with, which keywords were ambiguous, or how many iterations the cap allowed. */
  lemma DetailsExplain(events: seq<Event>, max: int)
    requires Accepts(events, max) && |events| >= 2
    ensures var before, last := events[|events| - 2], events[|events| - 1];
            (before.ToolReturned? && !before.ok ==> before.error.Some? && FailureTold(before, last)) &&
            (before.GroundingChecked? ==> CheckTold(before, last)) &&
            (before.LLMDecision? && before.decision == GiveUp ==> GiveUpTold(last)) &&
            (before.IntentClassified? && before.intent == UnknownIntent ==> UnknownTold(before.keywords, last)) &&
            (before.IntentClassified? || (before.ToolReturned? && before.ok) ==>
              last.FinalDecision? && (last.reason == Some(ITERATION_CAP_EXCEEDED) ==> CapTold(last, max)))
  {
    var p, q := BeforeLast(events, max);
    var before, last := events[|events| - 2], events[|events| - 1];
    match before
    case ToolReturned(_, ok, _, _) =>
      if ok { CapExplained(p, q, before, last, max); } else { FailureExplained(p, q, before, last, max); }
    case GroundingChecked(_, _, _) => CheckExplained(p, q, before, last, max);
    case LLMDecision(_, decision, _) =>
      if decision == GiveUp { GiveUpExplained(p, q, before, last, max); }
    case IntentClassified(intent, _) =>
      if intent == UnknownIntent { UnknownExplained(p, q, before, last, max); }
      CapExplained(p, q, before, last, max);
    case _ =>
  }
}
