/** The state logic of the questionnaire page, frontend/src/pages/Questions.js.

    The component's `useState` hooks become the fields of a `Page` object
    whose methods are the event handlers; the network calls (loading
    questions.json, posting the answers) are abstracted to their outcomes,
    `Date.now()` and the locale timestamp are parameters, and jsPDF drawing
    is abstracted to a list of texts placed at coordinates. JavaScript
    objects used as dictionaries keep their keys in insertion order, which
    `Summary.pillars` and `Groups.pillars` record. */
module Questions {
  import opened Values

  datatype Question = Question(pillar: string, question: string, options: seq<string>)

  /** The `answers` state: question text to the chosen option. */
  type Answers = map<string, string>

  // ---------------------------------------------------------------------
  // handleAnswerChange

  /** The functional update passed to `setAnswers`: the question gets the new
      value and every other answer stays. The pillar takes no part. */
  function AnswerChange(answers: Answers, pillar: string, question: string, value: string): (updated: Answers)
    ensures updated.Keys == answers.Keys + {question}
    ensures updated[question] == value
    ensures forall q :: q in answers && q != question ==> updated[q] == answers[q]
  {
    answers[question := value]
  }

  // ---------------------------------------------------------------------
  // contactId

  /** `email.replace(/[^a-zA-Z0-9]/g, "")` */
  function StripNonAlphanumeric(s: string): (r: string)
    ensures |r| <= |s|
    ensures forall i :: 0 <= i < |r| ==> IsAlphanumeric(r[i])
  {
    if s == [] then []
    else StripNonAlphanumeric(s[..|s| - 1]) + (if IsAlphanumeric(s[|s| - 1]) then [s[|s| - 1]] else [])
  }

  /** The identifier posted with the answers: the stripped email followed by
      the decimal text of `Date.now()`. */
  function ContactId(email: string, now: nat): string {
    StripNonAlphanumeric(email) + Decimal(now)
  }

  /** The derivation is not injective: the digits of an email's tail and of
      the timestamp run together, so two submissions can share a contact id
      (and so a report key). */
  lemma ContactIdCollides()
    ensures ContactId("a1", 23) == ContactId("a", 123) == "a123"
  {
    DecimalOfSamples();
    StripOfSamples();
  }

  lemma DecimalOfSamples()
    ensures Decimal(23) == "23" && Decimal(123) == "123"
  {
    assert Decimal(2) == "2";
    assert Decimal(12) == Decimal(1) + "2";
  }

  lemma StripOfSamples()
    ensures StripNonAlphanumeric("a") == "a" && StripNonAlphanumeric("a1") == "a1"
  {
    assert "a"[..0] == [];
    assert "a1"[..1] == "a";
  }

  /** Stripping works character by character and keeps the order: the
      stripped concatenation is the concatenation of the stripped parts. */
  lemma {:induction false} StripDistributes(a: string, b: string)
    ensures StripNonAlphanumeric(a + b) == StripNonAlphanumeric(a) + StripNonAlphanumeric(b)
    decreases |b|
  {
    if b != [] {
      var b' := b[..|b| - 1];
      assert (a + b)[..|a + b| - 1] == a + b';
      assert (a + b)[|a + b| - 1] == b[|b| - 1];
      StripDistributes(a, b');
    } else {
      assert a + b == a;
    }
  }

  /** A text that is already alphanumeric is left as it is, and so stripping
      twice is stripping once. */
  lemma {:induction false} StripKeepsAlphanumeric(s: string)
    requires forall i :: 0 <= i < |s| ==> IsAlphanumeric(s[i])
    ensures StripNonAlphanumeric(s) == s
    decreases |s|
  {
    if s != [] {
      StripKeepsAlphanumeric(s[..|s| - 1]);
    }
  }

  /** A text without ASCII letters or digits is stripped to nothing: every
      other character is dropped. */
  lemma {:induction false} StripDropsOthers(s: string)
    requires forall i :: 0 <= i < |s| ==> !IsAlphanumeric(s[i])
    ensures StripNonAlphanumeric(s) == []
    decreases |s|
  {
    if s != [] {
      StripDropsOthers(s[..|s| - 1]);
    }
  }

  lemma StripIdempotent(s: string)
    ensures StripNonAlphanumeric(StripNonAlphanumeric(s)) == StripNonAlphanumeric(s)
  {
    StripKeepsAlphanumeric(StripNonAlphanumeric(s));
  }

  /** A contact id consists of ASCII letters and digits only, is never empty
      (so the backend never rejects it as missing), and ends in the
      timestamp. */
  lemma ContactIdShape(email: string, now: nat)
    ensures ContactId(email, now) != []
    ensures forall i :: 0 <= i < |ContactId(email, now)| ==> IsAlphanumeric(ContactId(email, now)[i])
    ensures StripNonAlphanumeric(ContactId(email, now)) == ContactId(email, now)
  {
    var id := ContactId(email, now);
    var prefix := StripNonAlphanumeric(email);
    var digits := Decimal(now);
    forall i | 0 <= i < |id| ensures IsAlphanumeric(id[i]) {
      if i >= |prefix| {
        assert id[i] == digits[i - |prefix|];
      }
    }
    StripKeepsAlphanumeric(id);
  }

  // ---------------------------------------------------------------------
  // generateSummary

  /** The counters of one pillar. Answers other than the three known ones
      are counted under their own key, which `undefined++` sets to NaN; only
      the set of such keys is recorded. */
  datatype Tally = Tally(yes: nat, no: nat, partially: nat, unknown: set<string>)

  const EmptyTally: Tally := Tally(0, 0, 0, {})

  /** `summaryData`: the pillars in the order they were added, and their
      counters. */
  datatype Summary = Summary(pillars: seq<string>, tallies: map<string, Tally>)

  predicate NoDuplicates(s: seq<string>) {
    forall i, j :: 0 <= i < j < |s| ==> s[i] != s[j]
  }

  predicate IsKnownAnswer(a: string) {
    a == "Yes" || a == "No" || a == "Partially"
  }

  /** `summaryData[q.pillar][ans]++` */
  function Bump(t: Tally, answer: string): Tally {
    if answer == "Yes" then t.(yes := t.yes + 1)
    else if answer == "No" then t.(no := t.no + 1)
    else if answer == "Partially" then t.(partially := t.partially + 1)
    else t.(unknown := t.unknown + {answer})
  }

  /** A question counts only when its answer is truthy. */
  predicate IsAnswered(answers: Answers, q: Question) {
    q.question in answers && answers[q.question] != ""
  }

  /** The pillars of answered questions, each once, in order of first
      appearance. */
  function AnsweredPillars(qs: seq<Question>, answers: Answers): seq<string> {
    if qs == [] then []
    else
      var before := AnsweredPillars(qs[..|qs| - 1], answers);
      var q := qs[|qs| - 1];
      if IsAnswered(answers, q) && q.pillar !in before then before + [q.pillar] else before
  }

  /** How many questions of `pillar` are answered with exactly `value`. */
  function CountAnswer(qs: seq<Question>, answers: Answers, pillar: string, value: string): nat {
    if qs == [] then 0
    else
      var q := qs[|qs| - 1];
      CountAnswer(qs[..|qs| - 1], answers, pillar, value)
        + (if q.pillar == pillar && IsAnswered(answers, q) && answers[q.question] == value then 1 else 0)
  }

  /** How many questions of `pillar` are answered at all. */
  function AnsweredCount(qs: seq<Question>, answers: Answers, pillar: string): nat {
    if qs == [] then 0
    else
      var q := qs[|qs| - 1];
      AnsweredCount(qs[..|qs| - 1], answers, pillar) + (if q.pillar == pillar && IsAnswered(answers, q) then 1 else 0)
  }

  /** The answers outside Yes, No and Partially given in `pillar`. */
  function UnknownAnswers(qs: seq<Question>, answers: Answers, pillar: string): set<string> {
    if qs == [] then {}
    else
      var q := qs[|qs| - 1];
      UnknownAnswers(qs[..|qs| - 1], answers, pillar)
        + (if q.pillar == pillar && IsAnswered(answers, q) && !IsKnownAnswer(answers[q.question])
           then {answers[q.question]} else {})
  }

  function ExpectedTally(qs: seq<Question>, answers: Answers, pillar: string): Tally {
    Tally(
      CountAnswer(qs, answers, pillar, "Yes"),
      CountAnswer(qs, answers, pillar, "No"),
      CountAnswer(qs, answers, pillar, "Partially"),
      UnknownAnswers(qs, answers, pillar))
  }

  /** `s` is the summary of `qs` under `answers`: an entry for each pillar
      with an answered question, in order of first appearance, holding the
      counts of each answer in that pillar. */
  ghost predicate Summarises(s: Summary, qs: seq<Question>, answers: Answers) {
    && s.pillars == AnsweredPillars(qs, answers)
    && (forall p :: p in s.tallies <==> p in s.pillars)
    && (forall p :: p in s.tallies ==> s.tallies[p] == ExpectedTally(qs, answers, p))
  }

  /** A pillar without an answered question has nothing counted. */
  lemma {:induction false} UnlistedPillarIsEmpty(qs: seq<Question>, answers: Answers, pillar: string)
    requires pillar !in AnsweredPillars(qs, answers)
    ensures ExpectedTally(qs, answers, pillar) == EmptyTally
    decreases |qs|
  {
    if qs != [] {
      UnlistedPillarIsEmpty(qs[..|qs| - 1], answers, pillar);
    }
  }

  /** Counting one more question bumps its pillar's tally by its answer and
      leaves every other tally alone. */
  lemma TallyStep(qs: seq<Question>, answers: Answers, q: Question, pillar: string)
    ensures ExpectedTally(qs + [q], answers, pillar) ==
      if q.pillar == pillar && IsAnswered(answers, q)
      then Bump(ExpectedTally(qs, answers, pillar), answers[q.question])
      else ExpectedTally(qs, answers, pillar)
  {
    assert (qs + [q])[..|qs|] == qs;
  }

  /** The loop of `generateSummary`. */
  method TallyAnswers(questions: seq<Question>, answers: Answers) returns (s: Summary)
    ensures Summarises(s, questions, answers)
  {
    var pillars: seq<string> := [];
    var tallies: map<string, Tally> := map[];
    for i := 0 to |questions|
      invariant pillars == AnsweredPillars(questions[..i], answers)
      invariant forall p :: p in tallies <==> p in pillars
      invariant forall p :: p in tallies ==> tallies[p] == ExpectedTally(questions[..i], answers, p)
    {
      var q := questions[i];
      assert questions[..i + 1] == questions[..i] + [q];
      forall p | p in tallies || p == q.pillar
        ensures ExpectedTally(questions[..i + 1], answers, p) ==
          if q.pillar == p && IsAnswered(answers, q)
          then Bump(ExpectedTally(questions[..i], answers, p), answers[q.question])
          else ExpectedTally(questions[..i], answers, p)
      {
        TallyStep(questions[..i], answers, q, p);
      }
      if q.question in answers && answers[q.question] != "" {
        var answer := answers[q.question];
        if q.pillar !in tallies {
          UnlistedPillarIsEmpty(questions[..i], answers, q.pillar);
          pillars := pillars + [q.pillar];
          tallies := tallies[q.pillar := EmptyTally];
        }
        tallies := tallies[q.pillar := Bump(tallies[q.pillar], answer)];
      }
    }
    assert questions[..|questions|] == questions;
    s := Summary(pillars, tallies);
  }

  /** The summary lists exactly the pillars with an answered question, each
      once. */
  lemma {:induction false} AnsweredPillarsMembers(qs: seq<Question>, answers: Answers, pillar: string)
    ensures pillar in AnsweredPillars(qs, answers) <==>
      exists i :: 0 <= i < |qs| && qs[i].pillar == pillar && IsAnswered(answers, qs[i])
    decreases |qs|
  {
    if qs != [] {
      var init := qs[..|qs| - 1];
      AnsweredPillarsMembers(init, answers, pillar);
      if exists i :: 0 <= i < |init| && init[i].pillar == pillar && IsAnswered(answers, init[i]) {
        var i :| 0 <= i < |init| && init[i].pillar == pillar && IsAnswered(answers, init[i]);
        assert qs[i] == init[i];
      }
      if exists i :: 0 <= i < |qs| && qs[i].pillar == pillar && IsAnswered(answers, qs[i]) {
        var i :| 0 <= i < |qs| && qs[i].pillar == pillar && IsAnswered(answers, qs[i]);
        if i < |init| {
          assert init[i] == qs[i];
        }
      }
    }
  }

  lemma {:induction false} AnsweredPillarsDistinct(qs: seq<Question>, answers: Answers)
    ensures NoDuplicates(AnsweredPillars(qs, answers))
    decreases |qs|
  {
    if qs != [] {
      var before := AnsweredPillars(qs[..|qs| - 1], answers);
      var ps := AnsweredPillars(qs, answers);
      AnsweredPillarsDistinct(qs[..|qs| - 1], answers);
      if ps != before {
        var last := ps[|ps| - 1];
        assert ps == before + [last] && last !in before;
        forall i, j | 0 <= i < j < |ps| ensures ps[i] != ps[j] {
          assert ps[i] == before[i] && before[i] in before;
          if j < |before| {
            assert ps[j] == before[j];
          } else {
            assert ps[j] == last;
          }
        }
      }
    }
  }

  /** When every answer is Yes, No or Partially, a pillar's three counts add
      up to the number of its answered questions, and nothing is NaN. */
  lemma {:induction false} TalliesAddUp(qs: seq<Question>, answers: Answers, pillar: string)
    requires forall k :: k in answers && answers[k] != "" ==> IsKnownAnswer(answers[k])
    ensures var t := ExpectedTally(qs, answers, pillar);
      t.yes + t.no + t.partially == AnsweredCount(qs, answers, pillar) && t.unknown == {}
    decreases |qs|
  {
    if qs != [] {
      TalliesAddUp(qs[..|qs| - 1], answers, pillar);
    }
  }

  // ---------------------------------------------------------------------
  // grouped

  /** `grouped`: the pillars in order of first appearance, each with its
      questions. */
  datatype Groups = Groups(pillars: seq<string>, members: map<string, seq<Question>>)

  /** The reduce over `questions`. */
  function Grouped(qs: seq<Question>): (g: Groups)
    ensures forall p :: p in g.members <==> p in g.pillars
  {
    if qs == [] then Groups([], map[])
    else
      var g := Grouped(qs[..|qs| - 1]);
      var q := qs[|qs| - 1];
      if q.pillar in g.members then Groups(g.pillars, g.members[q.pillar := g.members[q.pillar] + [q]])
      else Groups(g.pillars + [q.pillar], g.members[q.pillar := [q]])
  }

  /** The questions of one pillar, in their original order. */
  function InPillar(qs: seq<Question>, pillar: string): seq<Question> {
    if qs == [] then []
    else (if qs[0].pillar == pillar then [qs[0]] else []) + InPillar(qs[1..], pillar)
  }

  lemma {:induction false} InPillarAppend(qs: seq<Question>, q: Question, pillar: string)
    ensures InPillar(qs + [q], pillar) == InPillar(qs, pillar) + (if q.pillar == pillar then [q] else [])
    decreases |qs|
  {
    if qs == [] {
      assert ([] + [q])[1..] == [];
    } else {
      assert (qs + [q])[1..] == qs[1..] + [q];
      InPillarAppend(qs[1..], q, pillar);
    }
  }

  /** One pillar's list is exactly that pillar's questions in their original
      order, and a pillar has a list exactly when it has a question. */
  lemma {:induction false} GroupedAt(qs: seq<Question>, pillar: string)
    ensures var g := Grouped(qs);
      && (pillar in g.members ==> g.members[pillar] == InPillar(qs, pillar) && g.members[pillar] != [])
      && (pillar !in g.members ==> InPillar(qs, pillar) == [])
    decreases |qs|
  {
    if qs != [] {
      var init := qs[..|qs| - 1];
      var q := qs[|qs| - 1];
      GroupedAt(init, pillar);
      assert init + [q] == qs;
      InPillarAppend(init, q, pillar);
    }
  }

  lemma {:induction false} GroupedPillarsDistinct(qs: seq<Question>)
    ensures NoDuplicates(Grouped(qs).pillars)
    decreases |qs|
  {
    if qs != [] {
      var before := Grouped(qs[..|qs| - 1]).pillars;
      var ps := Grouped(qs).pillars;
      GroupedPillarsDistinct(qs[..|qs| - 1]);
      if ps != before {
        var last := ps[|ps| - 1];
        assert ps == before + [last] && last !in before;
        forall i, j | 0 <= i < j < |ps| ensures ps[i] != ps[j] {
          assert ps[i] == before[i] && before[i] in before;
          if j < |before| {
            assert ps[j] == before[j];
          } else {
            assert ps[j] == last;
          }
        }
      }
    }
  }

  /** `grouped` partitions the questions by pillar: each pillar's list is
      exactly that pillar's questions, in their original order, so every
      question is placed once and in its own pillar; a pillar is listed
      exactly when it has a question, and only once. */
  lemma GroupedIsPartition(qs: seq<Question>)
    ensures var g := Grouped(qs);
      && (forall p :: p in g.members ==> g.members[p] == InPillar(qs, p) && g.members[p] != [])
      && (forall p :: p !in g.members ==> InPillar(qs, p) == [])
      && NoDuplicates(g.pillars)
  {
    forall p ensures var g := Grouped(qs);
      && (p in g.members ==> g.members[p] == InPillar(qs, p) && g.members[p] != [])
      && (p !in g.members ==> InPillar(qs, p) == [])
    {
      GroupedAt(qs, p);
    }
    GroupedPillarsDistinct(qs);
  }

  // ---------------------------------------------------------------------
  // downloadPDF

  /** A text drawn at a position of the PDF page. */
  datatype Placed = Placed(text: string, x: int, y: int)

  /** The texts `downloadPDF` draws and the file name it saves under. Each
      pillar takes four lines: its name, then Yes, Partially and No, with the
      `y` accumulator advanced by 8, 6, 6 and 10. */
  method SummaryLayout(email: string, timestamp: string, summary: Summary)
    returns (placed: seq<Placed>, fileName: string)
    requires forall p :: p in summary.pillars ==> p in summary.tallies
    ensures |placed| == 3 + 4 * |summary.pillars|
    ensures placed[0] == Placed("AWS Well-Architected Assessment Summary", 14, 20)
    ensures placed[1] == Placed("Email: " + email, 14, 30)
    ensures placed[2] == Placed("Date: " + timestamp, 14, 38)
    ensures forall i :: 0 <= i < |summary.pillars| ==>
      var t := summary.tallies[summary.pillars[i]];
      && placed[3 + 4 * i] == Placed(summary.pillars[i], 14, 50 + 30 * i)
      && placed[4 + 4 * i] == Placed("Yes: " + Decimal(t.yes), 20, 58 + 30 * i)
      && placed[5 + 4 * i] == Placed("Partially: " + Decimal(t.partially), 20, 64 + 30 * i)
      && placed[6 + 4 * i] == Placed("No: " + Decimal(t.no), 20, 70 + 30 * i)
    ensures fileName == "AWS-Assessment-" + email + ".pdf"
  {
    placed := [
      Placed("AWS Well-Architected Assessment Summary", 14, 20),
      Placed("Email: " + email, 14, 30),
      Placed("Date: " + timestamp, 14, 38)];
    var y := 50;
    for i := 0 to |summary.pillars|
      invariant y == 50 + 30 * i
      invariant |placed| == 3 + 4 * i
      invariant placed[0] == Placed("AWS Well-Architected Assessment Summary", 14, 20)
      invariant placed[1] == Placed("Email: " + email, 14, 30)
      invariant placed[2] == Placed("Date: " + timestamp, 14, 38)
      invariant forall k :: 0 <= k < i ==>
        var t := summary.tallies[summary.pillars[k]];
        && placed[3 + 4 * k] == Placed(summary.pillars[k], 14, 50 + 30 * k)
        && placed[4 + 4 * k] == Placed("Yes: " + Decimal(t.yes), 20, 58 + 30 * k)
        && placed[5 + 4 * k] == Placed("Partially: " + Decimal(t.partially), 20, 64 + 30 * k)
        && placed[6 + 4 * k] == Placed("No: " + Decimal(t.no), 20, 70 + 30 * k)
    {
      var pillar := summary.pillars[i];
      var results := summary.tallies[pillar];
      placed := placed + [Placed(pillar, 14, y)];
      y := y + 8;
      placed := placed + [Placed("Yes: " + Decimal(results.yes), 20, y)];
      y := y + 6;
      placed := placed + [Placed("Partially: " + Decimal(results.partially), 20, y)];
      y := y + 6;
      placed := placed + [Placed("No: " + Decimal(results.no), 20, y)];
      y := y + 10;
    }
    fileName := "AWS-Assessment-" + email + ".pdf";
  }

  // ---------------------------------------------------------------------
  // The component state and its handlers

  /** What outcome the POST of the answers has. */
  datatype Reply = Response(ok: bool) | NetworkFailure

  /** The JSON body posted by `handleSubmit`. */
  datatype Submission = Submission(contactId: string, accessKeyId: string, secretAccessKey: string, answers: Answers)

  const MissingEmail: string := "Missing email. Please restart the assessment."
  const NetworkError: string := "Network error. Please try again later."
  const LoadFailure: string := "Failed to load questions"

  class Page {
    var questions: seq<Question>
    var answers: Answers
    var loading: bool
    var success: bool
    var error: Option<string>
    var summary: Option<Summary>

    /** The initial state of the hooks. */
    constructor ()
      ensures questions == [] && answers == map[] && !loading && !success
      ensures error == None && summary == None
    {
      questions := [];
      answers := map[];
      loading := false;
      success := false;
      error := None;
      summary := None;
    }

    /** The effect that loads questions.json: its questions, or an error. */
    method LoadQuestions(fetched: Option<seq<Question>>)
      modifies this
      ensures fetched.Some? ==> questions == fetched.value && error == old(error)
      ensures fetched.None? ==> questions == old(questions) && error == Some(LoadFailure)
      ensures answers == old(answers) && loading == old(loading)
      ensures success == old(success) && summary == old(summary)
    {
      if fetched.Some? {
        questions := fetched.value;
      } else {
        error := Some(LoadFailure);
      }
    }

    /** `handleAnswerChange` */
    method HandleAnswerChange(pillar: string, question: string, value: string)
      modifies this
      ensures answers == AnswerChange(old(answers), pillar, question, value)
      ensures questions == old(questions) && loading == old(loading) && success == old(success)
      ensures error == old(error) && summary == old(summary)
    {
      answers := AnswerChange(answers, pillar, question, value);
    }

    /** `generateSummary` */
    method GenerateSummary()
      modifies this
      ensures summary.Some? && Summarises(summary.value, questions, answers)
      ensures questions == old(questions) && answers == old(answers) && loading == old(loading)
      ensures success == old(success) && error == old(error)
    {
      var s := TallyAnswers(questions, answers);
      summary := Some(s);
    }

    /** `handleSubmit`: without an email only the error is set and nothing is
        sent; otherwise the answers are posted under a fresh contact id, and
        when the request settles `loading` is cleared, `success` records an
        ok response (which also builds the summary) and any other outcome
        sets the network error. */
    method HandleSubmit(email: string, now: nat, reply: Reply) returns (sent: Option<Submission>)
      modifies this
      ensures email == "" ==>
        && sent == None
        && error == Some(MissingEmail)
        && loading == old(loading) && success == old(success) && summary == old(summary)
      ensures email != "" ==>
        && sent == Some(Submission(ContactId(email, now), "", "", old(answers)))
        && !loading
        && (success <==> reply.Response? && reply.ok)
        && (success ==> error == None && summary.Some? && Summarises(summary.value, questions, answers))
        && (!success ==> error == Some(NetworkError) && summary == old(summary))
      ensures questions == old(questions) && answers == old(answers)
    {
      if email == "" {
        error := Some(MissingEmail);
        return None;
      }
      var contactId := StripNonAlphanumeric(email) + Decimal(now);
      loading := true;
      error := None;
      success := false;
      sent := Some(Submission(contactId, "", "", answers));
      if reply.Response? && reply.ok {
        success := true;
        GenerateSummary();
      } else {
        error := Some(NetworkError);
      }
      loading := false;
    }

    /** `resetAssessment`: clears the answers, flags and summary; the loaded
        questions stay. */
    method ResetAssessment()
      modifies this
      ensures answers == map[] && !success && error == None && summary == None
      ensures questions == old(questions) && loading == old(loading)
    {
      answers := map[];
      success := false;
      error := None;
      summary := None;
    }
  }
}
