/** The wizard's state machine: which screen shows, which visible question
    is current, the answers so far, and the progress checkpoints it saves.
    Saving a checkpoint is modelled as appending a record to `log`; the
    session id, the timestamp and the storage behind it are not modelled. */
module CalculatorState {
  import opened Types
  import opened Questions
  import opened Checkpoints

  datatype Screen = Landing | QuestionsScreen | Results

  const INCOME_LAST_SECTION := "secOtherIncome"
  const PRS_LAST_SECTION := "secInsurance"

  // -------------------------------------------------------------------------
  // The visible questions
  // -------------------------------------------------------------------------

  /** The questions of `qs` whose visibility rule holds, in their order. */
  function Filter(qs: seq<Question>, a: Answers): (vs: seq<Question>)
    ensures |vs| <= |qs|
  {
    if qs == [] then []
    else (if Shown(qs[0], a) then [qs[0]] else []) + Filter(qs[1..], a)
  }

  /** A question is visible exactly when it is in the table and its rule
      holds. */
  lemma {:induction false} FilterMembership(qs: seq<Question>, a: Answers, q: Question)
    ensures q in Filter(qs, a) <==> q in qs && Shown(q, a)
  {
    if qs != [] {
      FilterMembership(qs[1..], a, q);
      assert qs == [qs[0]] + qs[1..];
    }
  }

  /** Filtering keeps the order: the visible part of a concatenation is the
      visible part of each piece, concatenated. */
  lemma {:induction false} FilterAppend(xs: seq<Question>, ys: seq<Question>, a: Answers)
    ensures Filter(xs + ys, a) == Filter(xs, a) + Filter(ys, a)
  {
    if xs == [] {
      assert xs + ys == ys;
    } else {
      var head := if Shown(xs[0], a) then [xs[0]] else [];
      FilterAppend(xs[1..], ys, a);
      assert (xs + ys)[0] == xs[0] && (xs + ys)[1..] == xs[1..] + ys;
      assert Filter(xs + ys, a) == head + Filter(xs[1..] + ys, a);
      assert Filter(xs, a) == head + Filter(xs[1..], a);
    }
  }

  /** Whatever the answers, at least one question is visible and the last
      visible question is the e-mail address. */
  lemma VisibleEndsWithEmail(a: Answers)
    ensures |Filter(QUESTIONS, a)| >= 1
    ensures Filter(QUESTIONS, a)[|Filter(QUESTIONS, a)| - 1].id == "email"
  {
    var n := |QUESTIONS|;
    QuestionTable();
    EmailAskedLast(a);
    assert QUESTIONS == QUESTIONS[..n - 1] + [QUESTIONS[n - 1]];
    FilterAppend(QUESTIONS[..n - 1], [QUESTIONS[n - 1]], a);
    assert Filter([QUESTIONS[n - 1]], a) == [QUESTIONS[n - 1]];
  }

  /** `current?.section === section` and the next visible question, if
      any, lies in another section: the wizard is leaving `section`. */
  predicate LeavesSection(vis: seq<Question>, qi: nat, section: string)
  {
    qi < |vis| && vis[qi].section == section &&
    (qi + 1 >= |vis| || vis[qi + 1].section != section)
  }

  /** `answers.email && answers.email.includes('@')`. */
  predicate EmailGiven(a: Answers)
  {
    "email" in a && '@' in a["email"]
  }

  /** The checkpoints that leaving the question at `qi` fires, in the order
      the source fires them. */
  function LeavingNames(vis: seq<Question>, qi: nat): (ns: seq<string>)
    ensures "income_completed" in ns <==> LeavesSection(vis, qi, INCOME_LAST_SECTION)
    ensures "prs_completed" in ns <==> LeavesSection(vis, qi, PRS_LAST_SECTION)
    ensures "fully_completed" in ns <==> qi + 1 >= |vis|
  {
    (if LeavesSection(vis, qi, INCOME_LAST_SECTION) then ["income_completed"] else [])
    + (if LeavesSection(vis, qi, PRS_LAST_SECTION) then ["prs_completed"] else [])
    + (if qi + 1 >= |vis| then ["fully_completed"] else [])
  }

  // -------------------------------------------------------------------------
  // The hook's state
  // -------------------------------------------------------------------------

  class Calculator {
    var screen: Screen
    var qi: nat
    var answers: Answers
    /** The checkpoints fired since the last restart (`firedCheckpoints`). */
    var fired: set<string>
    /** Every checkpoint saved, oldest first. */
    var log: seq<Checkpoint>
    /** Where the current session starts in `log`. */
    ghost var mark: nat

    /** The fired set is the set of checkpoints saved since the last
        restart, and none of them was saved twice. */
    ghost predicate Logged()
      reads this
    {
      mark <= |log| && fired == Names(log[mark..]) && Once(log[mark..])
    }

    /** The state every method keeps: checkpoints are logged once per
        session, the results screen has fired `fully_completed`, and an
        e-mail address with '@' has fired `email_captured`. */
    ghost predicate Valid()
      reads this
    {
      Logged() &&
      (screen == Results ==> "fully_completed" in fired) &&
      (EmailGiven(answers) ==> "email_captured" in fired)
    }

    /** The questions the current answers make visible. */
    function Visible(): (vs: seq<Question>)
      reads this
      ensures forall q :: q in vs <==> q in QUESTIONS && Shown(q, answers)
    {
      forall q ensures q in Filter(QUESTIONS, answers) <==> q in QUESTIONS && Shown(q, answers) {
        FilterMembership(QUESTIONS, answers, q);
      }
      Filter(QUESTIONS, answers)
    }

    /** `visible[qi]`, which is `undefined` once `qi` runs past the end. */
    function Current(): (q: Option<Question>)
      reads this
      ensures q.Some? <==> qi < |Visible()|
      ensures q.Some? ==> q.value in QUESTIONS && Shown(q.value, answers)
    {
      if qi < |Visible()| then Some(Visible()[qi]) else None
    }

    /** `total`: how many questions are visible; never 0, since the e-mail
        question always is. */
    function Total(): (n: nat)
      reads this
      ensures n >= 1
    {
      VisibleEndsWithEmail(answers);
      |Visible()|
    }

    constructor ()
      ensures Valid()
      ensures screen == QuestionsScreen && qi == 0 && answers == map[]
      ensures fired == {} && log == []
    {
      screen := QuestionsScreen;
      qi := 0;
      answers := map[];
      fired := {};
      log := [];
      mark := 0;
    }

    /** Saves `name` with the current answers unless it already fired in
        this session. */
    method FireCheckpoint(name: string)
      requires Logged()
      modifies this
      ensures Logged()
      ensures screen == old(screen) && qi == old(qi) && answers == old(answers) && mark == old(mark)
      ensures fired == old(fired) + {name}
      ensures log == old(log) + Announce(old(fired), [name], answers)
    {
      assert [name][1..] == [];
      if name in fired {
        assert Announce(fired, [name], answers) == [];
        return;
      }
      var c := Checkpoint(name, answers);
      assert Announce(fired, [name], answers) == [c];
      var session := log[mark..];
      forall i | 0 <= i < |session|
        ensures session[i].name != name
      {
        NamesHas(session, i);
      }
      assert (log + [c])[mark..] == session + [c];
      NamesAppend(session, c);
      log := log + [c];
      fired := fired + {name};
    }

    /** `setAnswer`, followed by the e-mail effect that the new answers
        trigger. */
    method SetAnswer(id: string, value: string)
      requires Valid()
      modifies this
      ensures Valid()
      ensures answers == old(answers)[id := value]
      ensures screen == old(screen) && qi == old(qi) && mark == old(mark)
      ensures fired == old(fired) + (if EmailGiven(answers) then {"email_captured"} else {})
      ensures log == old(log) + Announce(old(fired), if EmailGiven(answers) then ["email_captured"] else [], answers)
    {
      answers := answers[id := value];
      if EmailGiven(answers) {
        FireCheckpoint("email_captured");
      }
    }

    /** Fires `name` when `cond` holds. */
    method FireWhen(cond: bool, name: string)
      requires Logged()
      modifies this
      ensures Logged()
      ensures screen == old(screen) && qi == old(qi) && answers == old(answers) && mark == old(mark)
      ensures fired == old(fired) + Elems(if cond then [name] else [])
      ensures log == old(log) + Announce(old(fired), if cond then [name] else [], answers)
    {
      if cond {
        FireCheckpoint(name);
        assert Elems([name]) == {name} + Elems([]);
      }
    }

    /** `goNext`: fires `income_completed` or `prs_completed` when the
        current question is the last visible one of its section, then moves
        to the next visible question or, from the last one, to the results
        screen, whose effect fires `fully_completed`. */
    method GoNext()
      requires Valid()
      modifies this
      ensures Valid()
      ensures answers == old(answers) && mark == old(mark)
      ensures old(qi) + 1 < |old(Visible())| ==> screen == old(screen) && qi == old(qi) + 1
      ensures old(qi) + 1 >= |old(Visible())| ==> screen == Results && qi == old(qi)
      ensures fired == old(fired) + Elems(LeavingNames(old(Visible()), old(qi)))
      ensures log == old(log) + Announce(old(fired), LeavingNames(old(Visible()), old(qi)), answers)
    {
      Leave(Visible());
    }

    /** The step of `goNext` over the visible list `vis`. */
    method Leave(vis: seq<Question>)
      requires Valid()
      modifies this
      ensures Valid()
      ensures answers == old(answers) && mark == old(mark)
      ensures old(qi) + 1 < |vis| ==> screen == old(screen) && qi == old(qi) + 1
      ensures old(qi) + 1 >= |vis| ==> screen == Results && qi == old(qi)
      ensures fired == old(fired) + Elems(LeavingNames(vis, old(qi)))
      ensures log == old(log) + Announce(old(fired), LeavingNames(vis, old(qi)), answers)
    {
      var income := LeavesSection(vis, qi, INCOME_LAST_SECTION);
      var prs := LeavesSection(vis, qi, PRS_LAST_SECTION);
      var done := qi + 1 >= |vis|;
      ghost var names := LeavingNames(vis, qi);
      ghost var first := if income then ["income_completed"] else [];
      ghost var second := if prs then ["prs_completed"] else [];
      ghost var third := if done then ["fully_completed"] else [];
      assert names == first + second + third;
      ghost var fired0, log0 := fired, log;
      FireWhen(income, "income_completed");
      ghost var fired1, log1 := fired, log;
      FireWhen(prs, "prs_completed");
      ghost var fired2, log2 := fired, log;
      if done {
        screen := Results;
      } else {
        qi := qi + 1;
      }
      FireWhen(done, "fully_completed");
      FireTwice(fired0, log0, fired1, log1, fired2, log2, first, second, answers);
      FireTwice(fired0, log0, fired2, log2, fired, log, first + second, third, answers);
    }

    /** `goBack`: one question back, never before the first. */
    method GoBack()
      requires Valid()
      modifies this`qi
      ensures Valid()
      ensures qi == if old(qi) > 0 then old(qi) - 1 else old(qi)
    {
      if qi > 0 {
        qi := qi - 1;
      }
    }

    /** `restart`: back to the landing screen with no answers and a fresh
        set of fired checkpoints; what was saved stays saved. */
    method Restart()
      requires Valid()
      modifies this
      ensures Valid()
      ensures screen == Landing && qi == 0 && answers == map[]
      ensures fired == {} && log == old(log) && mark == |log|
    {
      screen := Landing;
      qi := 0;
      answers := map[];
      fired := {};
      mark := |log|;
      assert log[mark..] == [];
    }

    /** `start`: from the landing screen to the questions. */
    method Start()
      requires Valid()
      modifies this`screen
      ensures Valid()
      ensures screen == QuestionsScreen
    {
      screen := QuestionsScreen;
    }
  }

  /** Within one session every checkpoint is saved at most once, whatever
      the sequence of calls: the saved records since the last restart carry
      distinct names, exactly the fired set. */
  lemma SavedOncePerSession(c: Calculator)
    requires c.Valid()
    ensures forall i, j :: c.mark <= i < j < |c.log| ==> c.log[i].name != c.log[j].name
    ensures forall n :: n in c.fired <==> exists k :: c.mark <= k < |c.log| && c.log[k].name == n
  {
    forall i, j | c.mark <= i < j < |c.log|
      ensures c.log[i].name != c.log[j].name
    {
      assert c.log[c.mark..][i - c.mark] == c.log[i];
      assert c.log[c.mark..][j - c.mark] == c.log[j];
    }
    forall n
      ensures n in c.fired <==> exists k :: c.mark <= k < |c.log| && c.log[k].name == n
    {
      var s := c.log[c.mark..];
      if n in c.fired {
        NamesAt(s, n);
        var k :| 0 <= k < |s| && s[k].name == n;
        assert c.log[c.mark + k].name == n;
      }
      if exists k :: c.mark <= k < |c.log| && c.log[k].name == n {
        var k :| c.mark <= k < |c.log| && c.log[k].name == n;
        assert s[k - c.mark].name == n;
        NamesHas(s, k - c.mark);
      }
    }
  }
}
