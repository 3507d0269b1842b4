/** The keyword classifier: two whole-word scans of the lowered ticket text, and a vote. */
module Keywords {
  import opened Text
  import opened Regex
  import opened Scanners
  import opened Joints
  import opened Domain

  const BILLING_KEYWORDS := [
    "invoice", "bill", "billing", "payment", "paid", "charge", "charged",
    "refund", "receipt", "cost", "price", "euro"]

  const CHARGING_KEYWORDS := [
    "charging", "charger", "station", "session", "kwh", "plug", "connector",
    "stopped", "interrupted"]

  /** `set(pattern.findall(text))`. */
  function Hits(keywords: seq<string>, text: string): set<string>
    requires keywords != []
  {
    set w | w in FindAll(WholeWord(keywords, false), text)
  }

  /** The category with more distinct hits wins, with its hits as evidence; a tie is unknown. */
  function Vote(billing: seq<string>, charging: seq<string>): Classification {
    if |billing| > |charging| then Classification(BillingQuestion, billing)
    else if |charging| > |billing| then Classification(ChargingSessionProblem, charging)
    else Classification(UnknownIntent, [])
  }

  function Classify(subject: string, body: string): Classification {
    var text := LowerAll(subject + "\n" + body);
    Vote(SortWords(false, Hits(BILLING_KEYWORDS, text)), SortWords(false, Hits(CHARGING_KEYWORDS, text)))
  }

  // ---------------------------------------------------------------------------------
  // What the classifier computes
  // ---------------------------------------------------------------------------------

  predicate IsPlain(w: string) { w != "" && forall c | c in w :: IsWord(c) }

  lemma BillingIsPlain()
    ensures WordsOnly(BILLING_KEYWORDS)
  {
    assert IsPlain("invoice") && IsPlain("bill") && IsPlain("billing") && IsPlain("payment") && IsPlain("paid");
    assert IsPlain("charge") && IsPlain("charged") && IsPlain("refund") && IsPlain("receipt");
    assert IsPlain("cost") && IsPlain("price") && IsPlain("euro");
    assert forall w :: w in BILLING_KEYWORDS ==> IsPlain(w);
  }

  lemma ChargingIsPlain()
    ensures WordsOnly(CHARGING_KEYWORDS)
  {
    assert IsPlain("charging") && IsPlain("charger") && IsPlain("station") && IsPlain("session") && IsPlain("kwh");
    assert IsPlain("plug") && IsPlain("connector") && IsPlain("stopped") && IsPlain("interrupted");
    assert forall w :: w in CHARGING_KEYWORDS ==> IsPlain(w);
  }

  /** The keywords among some words. */
  function Matching(keywords: seq<string>, words: set<string>): set<string> {
    set w | w in words && w in keywords
  }

  /** The words of a text, lowered. */
  function Vocabulary(text: string): set<string> {
    set w | w in Words(LowerAll(text))
  }

  /** The scan finds the words of the text that are keywords, and no keyword that is only part
      of a longer word. */
  lemma HitsAreWords(keywords: seq<string>, text: string)
    requires keywords != [] && WordsOnly(keywords)
    ensures Hits(keywords, text) == set w | w in Words(text) && w in keywords
  {
    var wanted := (w: string) => IsOneOf(keywords, false, w);
    WholeWordMatchesWords(keywords, false);
    WholeScan(WholeWord(keywords, false), wanted, text);
    forall w ensures w in Keep(Words(text), wanted) <==> w in Words(text) && w in keywords {
      KeepIn(Words(text), wanted, w);
    }
  }

  lemma {:induction false} KeepIn(words: seq<string>, wanted: string -> bool, w: string)
    ensures w in Keep(words, wanted) <==> w in words && wanted(w)
  {
    if words == [] {
    } else {
      KeepIn(words[1..], wanted, w);
      assert w in words <==> w == words[0] || w in words[1..];
    }
  }

  lemma {:induction false} SortLength(longestFirst: bool, words: set<string>)
    ensures |SortWords(longestFirst, words)| == |words|
  {
    if words != {} {
      var sorted := SortWords(longestFirst, words);
      SortLength(longestFirst, words - {sorted[0]});
    }
  }

  lemma WordsAcross(s: string, gap: string, b: string)
    requires |gap| == 1 && !IsWord(gap[0])
    ensures Words(s + gap + b) == Words(s) + Words(b)
  {
    WordsJoint(s + gap, b);
    WordsJoint(s, gap);
    assert gap[1..] == "";
    assert Words(gap) == [];
  }

  lemma LoweredTicket(subject: string, gap: string, body: string)
    requires LowerAll(gap) == gap
    ensures LowerAll(subject + gap + body) == LowerAll(subject) + gap + LowerAll(body)
  {
    LowerAllConcat(subject + gap, body);
    LowerAllConcat(subject, gap);
  }

  /** No word runs across the line break between the subject and the body. */
  lemma TicketWords(subject: string, body: string)
    ensures Words(LowerAll(subject + "\n" + body)) == Words(LowerAll(subject)) + Words(LowerAll(body))
  {
    assert LowerAll("\n") == "\n";
    LoweredTicket(subject, "\n", body);
    WordsAcross(LowerAll(subject), "\n", LowerAll(body));
  }

  /** The same vote over the vocabulary of the ticket, with no scan in it. */
  function Judge(words: set<string>): Classification {
    Vote(SortWords(false, Matching(BILLING_KEYWORDS, words)),
         SortWords(false, Matching(CHARGING_KEYWORDS, words)))
  }

  lemma TicketHits(keywords: seq<string>, subject: string, body: string)
    requires keywords != [] && WordsOnly(keywords)
    ensures Hits(keywords, LowerAll(subject + "\n" + body)) ==
            Matching(keywords, Vocabulary(subject) + Vocabulary(body))
  {
    TicketWords(subject, body);
    HitsAreWords(keywords, LowerAll(subject + "\n" + body));
  }

  /** The classifier sees the set of words of the subject and the body, and nothing else:
      repeating, permuting or moving words between the two changes nothing. */
  lemma ClassifyJudgesWords(subject: string, body: string)
    ensures Classify(subject, body) == Judge(Vocabulary(subject) + Vocabulary(body))
  {
    BillingIsPlain();
    ChargingIsPlain();
    TicketHits(BILLING_KEYWORDS, subject, body);
    TicketHits(CHARGING_KEYWORDS, subject, body);
  }

  /** The number of distinct keywords of a category in a ticket. */
  function Score(keywords: seq<string>, subject: string, body: string): nat {
    |Matching(keywords, Vocabulary(subject) + Vocabulary(body))|
  }

  /** `evidence` lists, in strictly ascending order, the keywords of a category that occur as
      whole words of the subject or the body. */
  ghost predicate IsEvidence(evidence: seq<string>, keywords: seq<string>, subject: string, body: string) {
    Ordered(false, evidence) &&
    forall w :: w in evidence <==> w in keywords && (w in Vocabulary(subject) || w in Vocabulary(body))
  }

  /** The intent follows the score of distinct keywords; the evidence is the winner's hits,
      and a tie has none. */
  lemma ClassifyExact(subject: string, body: string)
    ensures var c := Classify(subject, body);
            var billing, charging := Score(BILLING_KEYWORDS, subject, body), Score(CHARGING_KEYWORDS, subject, body);
            (c.intent == BillingQuestion <==> billing > charging) &&
            (c.intent == ChargingSessionProblem <==> charging > billing) &&
            (c.intent == BillingQuestion ==> IsEvidence(c.keywords, BILLING_KEYWORDS, subject, body)) &&
            (c.intent == ChargingSessionProblem ==> IsEvidence(c.keywords, CHARGING_KEYWORDS, subject, body)) &&
            (c.intent == UnknownIntent ==> c.keywords == [])
  {
    ClassifyJudgesWords(subject, body);
    var words := Vocabulary(subject) + Vocabulary(body);
    SortLength(false, Matching(BILLING_KEYWORDS, words));
    SortLength(false, Matching(CHARGING_KEYWORDS, words));
  }

  /** The evidence is determined by the words: there is no second list that would do. */
  lemma EvidenceUnique(a: seq<string>, b: seq<string>, keywords: seq<string>, subject: string, body: string)
    requires IsEvidence(a, keywords, subject, body) && IsEvidence(b, keywords, subject, body)
    ensures a == b
  {
    OrderedUnique(false, a, b);
  }

  // ---------------------------------------------------------------------------------
  // Tickets of one word
  // ---------------------------------------------------------------------------------

  predicate IsLowered(w: string) { w != "" && LowerAll(w) == w && forall c | c in w :: IsWord(c) }

  lemma VocabularyOfOne(w: string)
    requires IsLowered(w)
    ensures Vocabulary(w) == {w} && Vocabulary("") == {}
  {
    RunOfAll(WordClass, w);
    assert w[..|w|] == w && w[|w|..] == "";
    assert Words(w) == [w] + Words("");
    assert Words("") == [] && LowerAll("") == "";
  }

  lemma SortedOne(w: string)
    ensures SortWords(false, {w}) == [w] && SortWords(false, {}) == []
  {
    OrderedUnique(false, SortWords(false, {w}), [w]);
  }

  lemma JudgedAlone(w: string)
    ensures Judge({w}) ==
            if w in BILLING_KEYWORDS && w !in CHARGING_KEYWORDS then Classification(BillingQuestion, [w])
            else if w in CHARGING_KEYWORDS && w !in BILLING_KEYWORDS then Classification(ChargingSessionProblem, [w])
            else Classification(UnknownIntent, [])
  {
    SortedOne(w);
    assert Matching(BILLING_KEYWORDS, {w}) == if w in BILLING_KEYWORDS then {w} else {};
    assert Matching(CHARGING_KEYWORDS, {w}) == if w in CHARGING_KEYWORDS then {w} else {};
  }

  predicate IsBillingWord(w: string) {
    w in {"invoice", "bill", "billing", "payment", "paid", "charge", "charged", "refund", "receipt", "cost", "price",
          "euro"}
  }

  predicate IsChargingWord(w: string) {
    w in {"charging", "charger", "station", "session", "kwh", "plug", "connector", "stopped", "interrupted"}
  }

  lemma KeywordsListed(w: string)
    ensures w in BILLING_KEYWORDS <==> IsBillingWord(w)
    ensures w in CHARGING_KEYWORDS <==> IsChargingWord(w)
  {
  }

  /** Length, first and last character tell the words of the two categories apart. */
  predicate Marked(w: string, n: nat, first: char, last: char) {
    |w| == n && n > 0 && w[0] == first && w[n - 1] == last
  }

  lemma ChargingMarks(w: string)
    requires IsChargingWord(w)
    ensures Marked(w, 8, 'c', 'g') || Marked(w, 7, 'c', 'r') || Marked(w, 7, 's', 'n') || Marked(w, 3, 'k', 'h') ||
            Marked(w, 4, 'p', 'g') || Marked(w, 9, 'c', 'r') || Marked(w, 7, 's', 'd') || Marked(w, 11, 'i', 'd')
  {
  }

  lemma BillingMarks(w: string)
    requires IsBillingWord(w)
    ensures Marked(w, 7, 'i', 'e') || Marked(w, 4, 'b', 'l') || Marked(w, 7, 'b', 'g') || Marked(w, 7, 'p', 't') ||
            Marked(w, 4, 'p', 'd') || Marked(w, 6, 'c', 'e') || Marked(w, 7, 'c', 'd') || Marked(w, 6, 'r', 'd') ||
            Marked(w, 7, 'r', 't') || Marked(w, 4, 'c', 't') || Marked(w, 5, 'p', 'e') || Marked(w, 4, 'e', 'o')
  {
  }

  /** No word counts for both categories. */
  lemma CategoriesDisjoint(w: string)
    ensures !(IsBillingWord(w) && IsChargingWord(w))
  {
    if IsBillingWord(w) && IsChargingWord(w) {
      BillingMarks(w);
      ChargingMarks(w);
    }
  }

  /** A ticket of a single word, of any word at all: the twelve words of one category, the nine of
      the other, and everything else. */
  lemma OneWordTicket(w: string)
    requires IsLowered(w)
    ensures Classify(w, "") ==
            if IsBillingWord(w) then Classification(BillingQuestion, [w])
            else if IsChargingWord(w) then Classification(ChargingSessionProblem, [w])
            else Classification(UnknownIntent, [])
  {
    ClassifyJudgesWords(w, "");
    VocabularyOfOne(w);
    assert Vocabulary(w) + Vocabulary("") == {w};
    JudgedAlone(w);
    KeywordsListed(w);
    CategoriesDisjoint(w);
  }
}
