/**
 The templates' fixed prose holds no literal a reader of the facts would miss: no
 identifier, no number but the declared "3", and no status word but the template's own.
 This survives masking, which can cut any stretch out of the prose.
 */
module ProseFacts {
  import opened Text
  import opened Regex
  import opened Scanners
  import opened Joints
  import opened Wrappers
  import opened Decimals
  import opened Grounding
  import opened Pieces
  import opened Templates

  /** `c` is no digit and no underscore, and not the letter `letter` in either case. */
  predicate Avoids(line: string, letter: char) {
    forall k :: 0 <= k < |line| ==> !IsDigit(line[k]) && line[k] != '_' && Lower(line[k]) != letter
  }

  ghost predicate SilentLine(line: string, statuses: set<string>, numbers: set<real>) {
    EndsLoose(line) && '_' !in line &&
    (forall w :: Inside(w, line) && NumeralShape(w) ==> AsDecimal(w).Some? && AsDecimal(w).value in numbers) &&
    (forall w :: Inside(w, line) && IsStatus(w) ==> LowerAll(w) in statuses)
  }

  ghost predicate SilentLines(lines: seq<string>, statuses: set<string>, numbers: set<real>) {
    forall k :: 0 <= k < |lines| ==> SilentLine(lines[k], statuses, numbers)
  }

  /** What is inside a line has only the line's letters. */
  lemma LetterAbsent(line: string, w: string, letter: char)
    requires Avoids(line, letter) && Inside(w, line)
    ensures letter !in LowerAll(w) && !NumeralShape(w)
  {
    forall k | 0 <= k < |w| ensures LowerAll(w)[k] != letter && !IsDigit(w[k]) {
      InsideLetters(w, line, k);
    }
  }

  predicate Spelled(v: string) {
    match |v|
    case 4 => v == "paid" && v[0] == 'p' && v[1] == 'a' && v[3] == 'd'
    case 6 => v == "failed" && v[0] == 'f' && v[1] == 'a' && v[3] == 'l' && v[5] == 'd'
    case 7 => v == "pending" && v[0] == 'p' && v[2] == 'n' && v[3] == 'd'
    case 9 => v == "completed" && v[0] == 'c' && v[3] == 'p' && v[8] == 'd'
    case 11 => v == "interrupted" && v[1] == 'n' && v[6] == 'u' && v[7] == 'p' && v[10] == 'd'
    case _ => false
  }

  /** The letters that tell the status words apart, word by length. */
  lemma StatusSpelling(w: string)
    requires IsStatus(w)
    ensures Spelled(LowerAll(w))
  {
    var v := LowerAll(w);
    StatusVocabulary(w);
    if v == "paid" {
    } else if v == "failed" {
    } else if v == "pending" {
    } else if v == "completed" {
    } else {
      assert v == "interrupted";
    }
  }

  /** A line without a `d` is silent: every status word has one. */
  lemma NoD(line: string, statuses: set<string>, numbers: set<real>)
    requires EndsLoose(line) && Avoids(line, 'd')
    ensures SilentLine(line, statuses, numbers)
  {
    forall w | Inside(w, line) ensures !NumeralShape(w) && !IsStatus(w) {
      LetterAbsent(line, w, 'd');
      if IsStatus(w) { StatusSpelling(w); }
    }
  }

  /** A line without a `p` can only hold `failed`, which has an `f` and an `l`. */
  lemma NoP(line: string, letter: char, statuses: set<string>, numbers: set<real>)
    requires EndsLoose(line) && Avoids(line, 'p') && Avoids(line, letter) && (letter == 'f' || letter == 'l')
    ensures SilentLine(line, statuses, numbers)
  {
    forall w | Inside(w, line) ensures !NumeralShape(w) && !IsStatus(w) {
      LetterAbsent(line, w, 'p');
      LetterAbsent(line, w, letter);
      if IsStatus(w) { StatusSpelling(w); }
    }
  }

  // Lines that say one status word and no other.

  lemma SaysPaid(line: string, statuses: set<string>, numbers: set<real>)
    requires EndsLoose(line) && "paid" in statuses && Avoids(line, 'n') && Avoids(line, 'l') && Avoids(line, 'c')
    ensures SilentLine(line, statuses, numbers)
  {
    forall w | Inside(w, line) ensures !NumeralShape(w) && (IsStatus(w) ==> LowerAll(w) == "paid") {
      LetterAbsent(line, w, 'n');
      LetterAbsent(line, w, 'l');
      LetterAbsent(line, w, 'c');
      if IsStatus(w) { StatusSpelling(w); }
    }
  }

  lemma SaysFailed(line: string, statuses: set<string>, numbers: set<real>)
    requires EndsLoose(line) && "failed" in statuses && Avoids(line, 'p')
    ensures SilentLine(line, statuses, numbers)
  {
    forall w | Inside(w, line) ensures !NumeralShape(w) && (IsStatus(w) ==> LowerAll(w) == "failed") {
      LetterAbsent(line, w, 'p');
      if IsStatus(w) { StatusSpelling(w); }
    }
  }

  lemma SaysPending(line: string, statuses: set<string>, numbers: set<real>)
    requires EndsLoose(line) && "pending" in statuses && Avoids(line, 'a') && Avoids(line, 'c') && Avoids(line, 'u')
    ensures SilentLine(line, statuses, numbers)
  {
    forall w | Inside(w, line) ensures !NumeralShape(w) && (IsStatus(w) ==> LowerAll(w) == "pending") {
      LetterAbsent(line, w, 'a');
      LetterAbsent(line, w, 'c');
      LetterAbsent(line, w, 'u');
      if IsStatus(w) { StatusSpelling(w); }
    }
  }

  lemma SaysCompleted(line: string, statuses: set<string>, numbers: set<real>)
    requires EndsLoose(line) && "completed" in statuses && Avoids(line, 'a') && Avoids(line, 'n')
    ensures SilentLine(line, statuses, numbers)
  {
    forall w | Inside(w, line) ensures !NumeralShape(w) && (IsStatus(w) ==> LowerAll(w) == "completed") {
      LetterAbsent(line, w, 'a');
      LetterAbsent(line, w, 'n');
      if IsStatus(w) { StatusSpelling(w); }
    }
  }

  lemma InsideThree(w: string)
    requires Inside(w, "3 ")
    ensures w == "" || w == " " || w == "3" || w == "3 "
  {
    var line := "3 ";
    var p: nat :| OccursAt(w, line, p);
    assert w == line[p..p + |w|];
    assert |w| == 1 ==> w == [w[0]] && w[0] == line[p];
    assert |w| == 2 ==> p == 0;
  }

  /** The one number in the prose. */
  lemma ThreeLine(statuses: set<string>, numbers: set<real>)
    requires 3.0 in numbers
    ensures SilentLine("3 ", statuses, numbers)
  {
    ThreeValue();
    assert RunLen(DigitClass, "3 ") == 1 by {
      RunLenOf(DigitClass, "3", " ");
      assert "3" + " " == "3 ";
    }
    forall w | Inside(w, "3 ") ensures NumeralShape(w) ==> w == "3" {
      InsideThree(w);
    }
    forall w | Inside(w, "3 ") ensures !IsStatus(w) {
      InsideThree(w);
      if IsStatus(w) { StatusSpelling(w); }
    }
  }

  lemma ThreeValue()
    ensures AsDecimal("3") == Some(3.0)
  {
    DigitsRoundTrip(3);
    assert Digits(3) == "3";
    assert "3"[1..] == "";
    assert RunLen(DigitClass, "3") == 1;
    assert "3" + "" == "3";
  }

  // ---------------------------------------------------------------------------------
  // Line by line
  // ---------------------------------------------------------------------------------

  lemma SharedLines(statuses: set<string>, numbers: set<real>)
    ensures SilentLine("Hi ", statuses, numbers)
    ensures SilentLine(",\n\nThanks for getting ", statuses, numbers)
    ensures SilentLine(" for ", statuses, numbers)
    ensures SilentLine(" ", statuses, numbers)
    ensures SilentLine("Best regards,\n", statuses, numbers)
    ensures SilentLine("Support\n", statuses, numbers)
  {
    NoD("Hi ", statuses, numbers);
    NoD(",\n\nThanks for getting ", statuses, numbers);
    NoD(" for ", statuses, numbers);
    NoD(" ", statuses, numbers);
    NoP("Best regards,\n", 'f', statuses, numbers);
    NoD("Support\n", statuses, numbers);
  }

  lemma AllPaidThanks(statuses: set<string>, numbers: set<real>)
    ensures SilentLine("in touch. I've checked ", statuses, numbers)
  {
    NoP("in touch. I've checked ", 'f', statuses, numbers);
  }

  lemma AllPaidAccount(statuses: set<string>, numbers: set<real>)
    ensures SilentLine("your account and every ", statuses, numbers)
  {
    NoP("your account and every ", 'f', statuses, numbers);
  }

  lemma AllPaidStatus(statuses: set<string>, numbers: set<real>)
    requires "paid" in statuses
    ensures SilentLine("invoice on it is ", statuses, numbers)
    ensures SilentLine("paid, ", statuses, numbers)
    ensures SilentLine("with nothing ", statuses, numbers)
    ensures SilentLine("outstanding.\n\n", statuses, numbers)
  {
    NoD("invoice on it is ", statuses, numbers);
    SaysPaid("paid, ", statuses, numbers);
    NoD("with nothing ", statuses, numbers);
    NoP("outstanding.\n\n", 'f', statuses, numbers);
  }

  lemma AllPaidIfWrong(statuses: set<string>, numbers: set<real>)
    ensures SilentLine("If something still ", statuses, numbers)
    ensures SilentLine("looks wrong, reply to ", statuses, numbers)
  {
    NoD("If something still ", statuses, numbers);
    NoD("looks wrong, reply to ", statuses, numbers);
  }

  lemma AllPaidAnotherLook(statuses: set<string>, numbers: set<real>)
    ensures SilentLine("this message and ", statuses, numbers)
    ensures SilentLine("we'll take another ", statuses, numbers)
  {
    NoP("this message and ", 'f', statuses, numbers);
    NoD("we'll take another ", statuses, numbers);
  }

  lemma AllPaidRegards(statuses: set<string>, numbers: set<real>)
    ensures SilentLine("look.\n\nBest regards,\n", statuses, numbers)
  {
    NoP("look.\n\nBest regards,\n", 'f', statuses, numbers);
  }

  lemma AllPaidText(statuses: set<string>, numbers: set<real>)
    requires "paid" in statuses
    ensures SilentLines(ALL_PAID_TEXT, statuses, numbers)
  {
    SharedLines(statuses, numbers);
    AllPaidThanks(statuses, numbers);
    AllPaidAccount(statuses, numbers);
    AllPaidStatus(statuses, numbers);
    AllPaidIfWrong(statuses, numbers);
    AllPaidAnotherLook(statuses, numbers);
    AllPaidRegards(statuses, numbers);
  }

  lemma InvoiceOpening(statuses: set<string>, numbers: set<real>)
    ensures SilentLines(INVOICE_OPENING, statuses, numbers)
  {
    SharedLines(statuses, numbers);
    NoD("in touch. Invoice ", statuses, numbers);
  }

  lemma FailedStatus(statuses: set<string>, numbers: set<real>)
    requires "failed" in statuses
    ensures SilentLine(" has a ", statuses, numbers)
    ensures SilentLine("failed ", statuses, numbers)
    ensures SilentLine("payment, so that ", statuses, numbers)
    ensures SilentLine("amount is still ", statuses, numbers)
    ensures SilentLine("outstanding.\n\n", statuses, numbers)
  {
    NoD(" has a ", statuses, numbers);
    SaysFailed("failed ", statuses, numbers);
    NoD("payment, so that ", statuses, numbers);
    NoD("amount is still ", statuses, numbers);
    NoP("outstanding.\n\n", 'f', statuses, numbers);
  }

  lemma FailedRetry(statuses: set<string>, numbers: set<real>)
    ensures SilentLine("You can retry it from ", statuses, numbers)
    ensures SilentLine("the billing section ", statuses, numbers)
  {
    NoD("You can retry it from ", statuses, numbers);
    NoD("the billing section ", statuses, numbers);
  }

  lemma FailedAgain(statuses: set<string>, numbers: set<real>)
    ensures SilentLine("of the app. If it ", statuses, numbers)
    ensures SilentLine("keeps failing, reply ", statuses, numbers)
  {
    NoD("of the app. If it ", statuses, numbers);
    NoD("keeps failing, reply ", statuses, numbers);
  }

  lemma FailedHelp(statuses: set<string>, numbers: set<real>)
    ensures SilentLine("here and we'll ", statuses, numbers)
    ensures SilentLine("help ", statuses, numbers)
    ensures SilentLine("sort it out.\n\n", statuses, numbers)
  {
    NoP("here and we'll ", 'f', statuses, numbers);
    NoD("help ", statuses, numbers);
    NoD("sort it out.\n\n", statuses, numbers);
  }

  lemma FailedText(statuses: set<string>, numbers: set<real>)
    requires "failed" in statuses
    ensures SilentLines(FAILED_TEXT, statuses, numbers)
  {
    SharedLines(statuses, numbers);
    FailedStatus(statuses, numbers);
    FailedRetry(statuses, numbers);
    FailedAgain(statuses, numbers);
    FailedHelp(statuses, numbers);
  }

  lemma PendingStatus(statuses: set<string>, numbers: set<real>)
    requires "pending" in statuses
    ensures SilentLine(" is still ", statuses, numbers)
    ensures SilentLine("pending ", statuses, numbers)
    ensures SilentLine("and has not been ", statuses, numbers)
  {
    NoD(" is still ", statuses, numbers);
    SaysPending("pending ", statuses, numbers);
    NoP("and has not been ", 'f', statuses, numbers);
  }

  lemma PendingInvoices(statuses: set<string>, numbers: set<real>)
    requires "pending" in statuses
    ensures SilentLine("collected yet.\n\n", statuses, numbers)
    ensures SilentLine("Pending ", statuses, numbers)
    ensures SilentLine("invoices are ", statuses, numbers)
  {
    NoP("collected yet.\n\n", 'f', statuses, numbers);
    SaysPending("Pending ", statuses, numbers);
    NoD("invoices are ", statuses, numbers);
  }

  lemma PendingWithinThree(statuses: set<string>, numbers: set<real>)
    requires 3.0 in numbers
    ensures SilentLine("normally settled ", statuses, numbers)
    ensures SilentLine("automatically ", statuses, numbers)
    ensures SilentLine("within ", statuses, numbers)
    ensures SilentLine("3 ", statuses, numbers)
  {
    NoP("normally settled ", 'f', statuses, numbers);
    NoD("automatically ", statuses, numbers);
    NoD("within ", statuses, numbers);
    ThreeLine(statuses, numbers);
  }

  lemma PendingAfterwards(statuses: set<string>, numbers: set<real>)
    ensures SilentLine("business days. ", statuses, numbers)
    ensures SilentLine("If it is still ", statuses, numbers)
    ensures SilentLine("after that, reply ", statuses, numbers)
  {
    NoP("business days. ", 'f', statuses, numbers);
    NoD("If it is still ", statuses, numbers);
    NoD("after that, reply ", statuses, numbers);
  }

  lemma PendingLook(statuses: set<string>, numbers: set<real>)
    ensures SilentLine("here and we'll take ", statuses, numbers)
    ensures SilentLine("a look.\n\n", statuses, numbers)
  {
    NoP("here and we'll take ", 'f', statuses, numbers);
    NoD("a look.\n\n", statuses, numbers);
  }

  lemma PendingText(statuses: set<string>, numbers: set<real>)
    requires "pending" in statuses && 3.0 in numbers
    ensures SilentLines(PENDING_TEXT, statuses, numbers)
  {
    SharedLines(statuses, numbers);
    PendingStatus(statuses, numbers);
    PendingInvoices(statuses, numbers);
    PendingWithinThree(statuses, numbers);
    PendingAfterwards(statuses, numbers);
    PendingLook(statuses, numbers);
  }

  lemma SessionOpening(statuses: set<string>, numbers: set<real>)
    ensures SilentLines(SESSION_OPENING, statuses, numbers)
  {
    SharedLines(statuses, numbers);
    NoD("in touch. Your most ", statuses, numbers);
    NoD("recent charging ", statuses, numbers);
    NoD("session at ", statuses, numbers);
  }

  lemma CompletedText(statuses: set<string>, numbers: set<real>)
    requires "completed" in statuses
    ensures SilentLines(COMPLETED_TEXT, statuses, numbers)
  {
    SharedLines(statuses, numbers);
    SaysCompleted("completed ", statuses, numbers);
    NoD("normally: it ", statuses, numbers);
    NoP("delivered ", 'f', statuses, numbers);
  }

  lemma ChargedAt(statuses: set<string>, numbers: set<real>)
    ensures SilentLines(CHARGED_AT, statuses, numbers)
  {
    NoD(" kWh, ", statuses, numbers);
    NoP("charged at ", 'f', statuses, numbers);
  }

  lemma CompletedIfDifferent(statuses: set<string>, numbers: set<real>)
    ensures SilentLine(".\n\n", statuses, numbers)
    ensures SilentLine("If your app shows ", statuses, numbers)
    ensures SilentLine("something ", statuses, numbers)
    ensures SilentLine("different, ", statuses, numbers)
    ensures SilentLine("reply here with the ", statuses, numbers)
  {
    NoD(".\n\n", statuses, numbers);
    NoD("If your app shows ", statuses, numbers);
    NoD("something ", statuses, numbers);
    NoP("different, ", 'l', statuses, numbers);
    NoD("reply here with the ", statuses, numbers);
  }

  lemma CompletedDetails(statuses: set<string>, numbers: set<real>)
    ensures SilentLine("details and ", statuses, numbers)
    ensures SilentLine("we'll investigate.\n\n", statuses, numbers)
  {
    NoP("details and ", 'f', statuses, numbers);
    NoD("we'll investigate.\n\n", statuses, numbers);
  }

  lemma CompletedClose(statuses: set<string>, numbers: set<real>)
    ensures SilentLines(COMPLETED_CLOSE, statuses, numbers)
  {
    SharedLines(statuses, numbers);
    CompletedIfDifferent(statuses, numbers);
    CompletedDetails(statuses, numbers);
  }

  lemma EndedEarly(statuses: set<string>, numbers: set<real>)
    ensures SilentLines(ENDED_EARLY, statuses, numbers)
  {
    NoP(" ended early with a ", 'f', statuses, numbers);
    NoD("status of ", statuses, numbers);
  }

  lemma AfterDelivering(statuses: set<string>, numbers: set<real>)
    ensures SilentLines(AFTER_DELIVERING, statuses, numbers)
  {
    NoD(", after ", statuses, numbers);
    NoP("delivering ", 'f', statuses, numbers);
  }

  lemma YouWereCharged(statuses: set<string>, numbers: set<real>)
    ensures SilentLines(YOU_WERE_CHARGED, statuses, numbers)
  {
    NoD(" kWh.\n\n", statuses, numbers);
    NoP("You were charged ", 'f', statuses, numbers);
  }

  lemma InterruptedEnergy(statuses: set<string>, numbers: set<real>)
    ensures SilentLine(" for the energy ", statuses, numbers)
    ensures SilentLine("actually delivered. ", statuses, numbers)
    ensures SilentLine("If that ", statuses, numbers)
  {
    NoD(" for the energy ", statuses, numbers);
    NoP("actually delivered. ", 'f', statuses, numbers);
    NoD("If that ", statuses, numbers);
  }

  lemma InterruptedIfWrong(statuses: set<string>, numbers: set<real>)
    ensures SilentLine("does ", statuses, numbers)
    ensures SilentLine("not look right, ", statuses, numbers)
    ensures SilentLine("reply here ", statuses, numbers)
    ensures SilentLine("and we'll ", statuses, numbers)
    ensures SilentLine("review the session ", statuses, numbers)
  {
    NoP("does ", 'f', statuses, numbers);
    NoD("not look right, ", statuses, numbers);
    NoD("reply here ", statuses, numbers);
    NoP("and we'll ", 'f', statuses, numbers);
    NoD("review the session ", statuses, numbers);
  }

  lemma InterruptedCorrection(statuses: set<string>, numbers: set<real>)
    ensures SilentLine("and correct any ", statuses, numbers)
    ensures SilentLine("overcharge.\n\n", statuses, numbers)
  {
    NoP("and correct any ", 'f', statuses, numbers);
    NoD("overcharge.\n\n", statuses, numbers);
  }

  lemma InterruptedClose(statuses: set<string>, numbers: set<real>)
    ensures SilentLines(INTERRUPTED_CLOSE, statuses, numbers)
  {
    SharedLines(statuses, numbers);
    InterruptedEnergy(statuses, numbers);
    InterruptedIfWrong(statuses, numbers);
    InterruptedCorrection(statuses, numbers);
  }
}
