/** Session coverage: what has been asked about, and which competency comes next. */
module Coverage {
  import opened Wrappers

  /** The coverage dictionary: for each key, what has been asked under it. */
  type Lists = map<string, seq<string>>

  /** What one question records; an empty string stands for a value that is missing. */
  datatype Asked = Asked(category: string, competency: string, jdSkill: string, project: string, sourceRef: string)

  const KEYS := ["categories", "competencies", "jd_skills", "projects", "asked_refs"]

  function ListOf(lists: Lists, key: string): seq<string> {
    if key in lists then lists[key] else []
  }

  function Added(items: seq<string>, value: string): seq<string> {
    if value != [] && value !in items then items + [value] else items
  }

  function Appended(lists: Lists, key: string, value: string): Lists {
    lists[key := Added(ListOf(lists, key), value)]
  }

  function AppendedIf(lists: Lists, key: string, value: string): Lists {
    if value != [] then Appended(lists, key, value) else lists
  }

  function Marked(lists: Lists, asked: Asked): Lists {
    var one := AppendedIf(lists, KEYS[0], asked.category);
    var two := AppendedIf(one, KEYS[1], asked.competency);
    var three := AppendedIf(two, KEYS[2], asked.jdSkill);
    var four := AppendedIf(three, KEYS[3], asked.project);
    AppendedIf(four, KEYS[4], asked.sourceRef)
  }

  const NEW_COVERAGE: Lists := map[KEYS[0] := [], KEYS[1] := [], KEYS[2] := [], KEYS[3] := [], KEYS[4] := []]

  /** The skills found both in the resume and in the job description, one after the other. */
  function MarkedSkills(lists: Lists, skills: seq<string>): Lists
    decreases |skills|
  {
    if skills == [] then lists
    else AppendedIf(MarkedSkills(lists, skills[..|skills| - 1]), KEYS[2], skills[|skills| - 1])
  }

  /** `setdefault` with an empty list. */
  function WithList(lists: Lists, key: string): Lists {
    if key in lists then lists else lists[key := []]
  }

  /** What one persisted question makes of the session's coverage: itself, then the
      matched skills. Coverage that is missing or empty starts anew. */
  function MarkedQuestion(lists: Lists, asked: Asked, matched: seq<string>): Lists {
    var started := if lists == map[] then NEW_COVERAGE else lists;
    MarkedSkills(WithList(Marked(started, asked), KEYS[2]), matched)
  }

  class CoverageState {
    var lists: Lists

    constructor ()
      ensures lists == NEW_COVERAGE
    {
      lists := NEW_COVERAGE;
    }

    /** The state as a session keeps it. */
    constructor Of(lists: Lists)
      ensures this.lists == if lists == map[] then NEW_COVERAGE else lists
    {
      this.lists := if lists == map[] then NEW_COVERAGE else lists;
    }

    method AppendUnique(key: string, value: string)
      modifies this
      ensures lists == Appended(old(lists), key, value)
    {
      var items := if key in lists then lists[key] else [];
      if value != [] && value !in items {
        items := items + [value];
      }
      lists := lists[key := items];
    }

    method MarkAsked(asked: Asked)
      modifies this
      ensures lists == Marked(old(lists), asked)
    {
      if asked.category != [] {
        AppendUnique(KEYS[0], asked.category);
      }
      if asked.competency != [] {
        AppendUnique(KEYS[1], asked.competency);
      }
      if asked.jdSkill != [] {
        AppendUnique(KEYS[2], asked.jdSkill);
      }
      if asked.project != [] {
        AppendUnique(KEYS[3], asked.project);
      }
      if asked.sourceRef != [] {
        AppendUnique(KEYS[4], asked.sourceRef);
      }
    }

    /** `_mark_coverage` on the session's coverage. */
    method MarkQuestion(asked: Asked, matched: seq<string>)
      modifies this
      ensures lists == MarkedSkills(WithList(Marked(old(lists), asked), KEYS[2]), matched)
    {
      MarkAsked(asked);
      if KEYS[2] !in lists {
        lists := lists[KEYS[2] := []];
      }
      ghost var marked := lists;
      for i := 0 to |matched|
        invariant lists == MarkedSkills(marked, matched[..i])
      {
        assert matched[..i + 1][..i] == matched[..i];
        if matched[i] != [] {
          AppendUnique(KEYS[2], matched[i]);
        }
      }
      assert matched[..|matched|] == matched;
    }
  }

  // -- lists only grow, without duplicates ----------------------------------------

  predicate Distinct(items: seq<string>) {
    forall i, j :: 0 <= i < j < |items| ==> items[i] != items[j]
  }

  ghost predicate AllDistinct(lists: Lists) {
    forall key :: key in lists ==> Distinct(lists[key])
  }

  ghost predicate Grows(before: Lists, after: Lists) {
    forall key :: key in before ==> key in after && before[key] <= after[key]
  }

  lemma AppendKeeps(lists: Lists, key: string, value: string)
    requires AllDistinct(lists)
    ensures AllDistinct(AppendedIf(lists, key, value)) && Grows(lists, AppendedIf(lists, key, value))
    ensures value != [] ==> value in ListOf(AppendedIf(lists, key, value), key)
  {
    var items := ListOf(lists, key);
    if value != [] && value !in items {
      assert (items + [value])[|items|] == value;
    }
  }

  lemma GrowsChain(a: Lists, b: Lists, c: Lists)
    requires Grows(a, b) && Grows(b, c)
    ensures Grows(a, c)
  {
  }

  lemma MarkKeeps(lists: Lists, asked: Asked)
    requires AllDistinct(lists)
    ensures AllDistinct(Marked(lists, asked)) && Grows(lists, Marked(lists, asked))
  {
    var one := AppendedIf(lists, KEYS[0], asked.category);
    var two := AppendedIf(one, KEYS[1], asked.competency);
    var three := AppendedIf(two, KEYS[2], asked.jdSkill);
    var four := AppendedIf(three, KEYS[3], asked.project);
    AppendKeeps(lists, KEYS[0], asked.category);
    AppendKeeps(one, KEYS[1], asked.competency);
    GrowsChain(lists, one, two);
    AppendKeeps(two, KEYS[2], asked.jdSkill);
    GrowsChain(lists, two, three);
    AppendKeeps(three, KEYS[3], asked.project);
    GrowsChain(lists, three, four);
    AppendKeeps(four, KEYS[4], asked.sourceRef);
    GrowsChain(lists, four, Marked(lists, asked));
  }

  lemma {:induction false} SkillsKeep(lists: Lists, skills: seq<string>)
    requires AllDistinct(lists)
    ensures var after := MarkedSkills(lists, skills);
            && AllDistinct(after) && Grows(lists, after)
            && forall skill :: skill in skills && skill != [] ==> skill in ListOf(after, KEYS[2])
    decreases |skills|
  {
    if skills != [] {
      var init, last := skills[..|skills| - 1], skills[|skills| - 1];
      var before := MarkedSkills(lists, init);
      SkillsKeep(lists, init);
      AppendKeeps(before, KEYS[2], last);
      GrowsChain(lists, before, MarkedSkills(lists, skills));
      forall skill | skill in skills && skill != []
        ensures skill in ListOf(MarkedSkills(lists, skills), KEYS[2])
      {
        if skill != last { assert skill in init; }
      }
    }
  }

  /** A persisted question only adds to the lists, without duplicates, and every matched
      skill is in the list of skills. */
  lemma MarkQuestionKeeps(lists: Lists, asked: Asked, matched: seq<string>)
    requires AllDistinct(lists)
    ensures var after := MarkedQuestion(lists, asked, matched);
            && AllDistinct(after) && Grows(lists, after)
            && forall skill :: skill in matched && skill != [] ==> skill in ListOf(after, KEYS[2])
  {
    var started := if lists == map[] then NEW_COVERAGE else lists;
    var one := Marked(started, asked);
    var two := WithList(one, KEYS[2]);
    MarkKeeps(started, asked);
    SkillsKeep(two, matched);
    GrowsChain(lists, started, one);
    GrowsChain(lists, one, two);
    GrowsChain(lists, two, MarkedSkills(two, matched));
  }

  // -- rotation -------------------------------------------------------------------

  function Uncovered(competencies: seq<string>, asked: seq<string>): (pool: seq<string>)
    ensures forall c :: c in pool <==> c in competencies && c !in asked
  {
    if competencies == [] then []
    else (if competencies[0] in asked then [] else [competencies[0]]) + Uncovered(competencies[1..], asked)
  }

  /** `random` stands for the generator: an arbitrary number at or above zero. */
  function FocusCompetency(asked: seq<string>, competencies: seq<string>, random: nat, topic: Option<string>): Option<string> {
    if competencies == [] then None
    else if topic.Some? && topic.value != [] && topic.value in competencies then topic
    else
      var uncovered := Uncovered(competencies, asked);
      var pool := if uncovered != [] then uncovered else competencies;
      Some(pool[random % |pool|])
  }

  /** How many of the competencies have not been asked about. */
  function Missing(competencies: seq<string>, asked: seq<string>): nat {
    |(set c | c in competencies) - (set c | c in asked)|
  }

  /** One question: the generator's number, and what else the question records. */
  datatype Round = Round(random: nat, asked: Asked, matched: seq<string>)

  function AskedCompetencies(lists: Lists): seq<string> {
    ListOf(lists, KEYS[1])
  }

  /** The coverage after one question per round, each question targeting the focus that
      was selected for it. */
  function CoverageAfter(competencies: seq<string>, lists: Lists, rounds: seq<Round>): Lists
    decreases |rounds|
  {
    if rounds == [] then lists
    else
      var before, round := CoverageAfter(competencies, lists, rounds[..|rounds| - 1]), rounds[|rounds| - 1];
      match FocusCompetency(AskedCompetencies(before), competencies, round.random, None)
      case None => before
      case Some(focus) => MarkedQuestion(before, round.asked.(competency := focus), round.matched)
  }

  lemma KeysDiffer()
    ensures forall i, j :: 0 <= i < j < 5 ==> KEYS[i] != KEYS[j]
  {
    assert |KEYS[0]| == 10 && |KEYS[1]| == 12 && |KEYS[2]| == 9 && |KEYS[3]| == 8 && |KEYS[4]| == 10;
    assert KEYS[0][0] == 'c' && KEYS[4][0] == 'a';
  }

  lemma {:induction false} SkillsLeaveCompetencies(lists: Lists, skills: seq<string>)
    ensures AskedCompetencies(MarkedSkills(lists, skills)) == AskedCompetencies(lists)
    decreases |skills|
  {
    KeysDiffer();
    if skills != [] {
      SkillsLeaveCompetencies(lists, skills[..|skills| - 1]);
    }
  }

  /** A question adds its competency and no other. */
  lemma MarkedCompetencies(lists: Lists, asked: Asked, matched: seq<string>)
    ensures AskedCompetencies(MarkedQuestion(lists, asked, matched)) == Added(AskedCompetencies(lists), asked.competency)
  {
    KeysDiffer();
    var started := if lists == map[] then NEW_COVERAGE else lists;
    SkillsLeaveCompetencies(WithList(Marked(started, asked), KEYS[2]), matched);
  }

  lemma {:induction false} SkillsAdded(lists: Lists, skills: seq<string>, key: string)
    ensures var after := MarkedSkills(lists, skills);
            && (key != "jd_skills" ==> ListOf(after, key) == ListOf(lists, key))
            && forall v :: v in ListOf(after, "jd_skills")
                 <==> v in ListOf(lists, "jd_skills") || (v != [] && v in skills)
    decreases |skills|
  {
    if skills != [] {
      SkillsAdded(lists, skills[..|skills| - 1], key);
      assert skills == skills[..|skills| - 1] + [skills[|skills| - 1]];
    }
  }

  lemma AppendedAt(lists: Lists, key: string, value: string, other: string)
    ensures ListOf(AppendedIf(lists, key, value), other)
         == if other == key then Added(ListOf(lists, key), value) else ListOf(lists, other)
  {
  }

  /** Each value of a question is added to its own list. */
  lemma MarkedAt(lists: Lists, asked: Asked, i: nat)
    requires i < 5
    ensures ListOf(Marked(lists, asked), KEYS[i])
         == Added(ListOf(lists, KEYS[i]),
                  [asked.category, asked.competency, asked.jdSkill, asked.project, asked.sourceRef][i])
  {
    KeysDiffer();
    var one := AppendedIf(lists, KEYS[0], asked.category);
    var two := AppendedIf(one, KEYS[1], asked.competency);
    var three := AppendedIf(two, KEYS[2], asked.jdSkill);
    var four := AppendedIf(three, KEYS[3], asked.project);
    AppendedAt(lists, KEYS[0], asked.category, KEYS[i]);
    AppendedAt(one, KEYS[1], asked.competency, KEYS[i]);
    AppendedAt(two, KEYS[2], asked.jdSkill, KEYS[i]);
    AppendedAt(three, KEYS[3], asked.project, KEYS[i]);
    AppendedAt(four, KEYS[4], asked.sourceRef, KEYS[i]);
  }

  lemma StartedAt(lists: Lists, key: string)
    ensures ListOf(if lists == map[] then NEW_COVERAGE else lists, key) == ListOf(lists, key)
  {
  }

  lemma QuestionAt(lists: Lists, asked: Asked, matched: seq<string>, i: nat)
    requires i < 5
    ensures var value := [asked.category, asked.competency, asked.jdSkill, asked.project, asked.sourceRef][i];
            var after := ListOf(MarkedQuestion(lists, asked, matched), KEYS[i]);
            && (i != 2 ==> after == Added(ListOf(lists, KEYS[i]), value))
            && (i == 2 ==>
                  forall v :: v in after <==> v in Added(ListOf(lists, KEYS[i]), value) || (v != [] && v in matched))
  {
    KeysDiffer();
    var started := if lists == map[] then NEW_COVERAGE else lists;
    StartedAt(lists, KEYS[i]);
    MarkedAt(started, asked, i);
    SkillsAdded(WithList(Marked(started, asked), KEYS[2]), matched, KEYS[i]);
  }

  /** What a question records lands in the lists of the categories, the competencies, the
      skills, the projects and the references; the matched skills join the skills. */
  lemma MarkedValues(lists: Lists, asked: Asked, matched: seq<string>)
    ensures var after := MarkedQuestion(lists, asked, matched);
            && ListOf(after, "categories") == Added(ListOf(lists, "categories"), asked.category)
            && ListOf(after, "competencies") == Added(ListOf(lists, "competencies"), asked.competency)
            && ListOf(after, "projects") == Added(ListOf(lists, "projects"), asked.project)
            && ListOf(after, "asked_refs") == Added(ListOf(lists, "asked_refs"), asked.sourceRef)
            && forall v :: v in ListOf(after, "jd_skills")
                 <==> v in ListOf(lists, "jd_skills") || (v != [] && (v == asked.jdSkill || v in matched))
  {
    QuestionAt(lists, asked, matched, 0);
    QuestionAt(lists, asked, matched, 1);
    QuestionAt(lists, asked, matched, 2);
    QuestionAt(lists, asked, matched, 3);
    QuestionAt(lists, asked, matched, 4);
  }

  /** What the generator chooses from. */
  function Pool(asked: seq<string>, competencies: seq<string>): seq<string> {
    var uncovered := Uncovered(competencies, asked);
    if uncovered != [] then uncovered else competencies
  }

  lemma InPool(asked: seq<string>, competencies: seq<string>, c: string)
    ensures c in Pool(asked, competencies)
            <==> c in competencies && (c !in asked || forall d :: d in competencies ==> d in asked)
  {
    var uncovered := Uncovered(competencies, asked);
    assert uncovered != [] ==> uncovered[0] in uncovered;
  }

  lemma FromPool(asked: seq<string>, competencies: seq<string>, random: nat)
    requires competencies != []
    ensures var pool := Pool(asked, competencies);
            pool != [] && FocusCompetency(asked, competencies, random, None) == Some(pool[random % |pool|])
            && pool[random % |pool|] in pool
  {
  }

  lemma SmallRemainder(i: nat, n: nat)
    requires i < n
    ensures i % n == i
  {
  }

  /** Everything in the pool can be chosen. */
  lemma Choosable(asked: seq<string>, competencies: seq<string>, i: nat)
    requires competencies != [] && i < |Pool(asked, competencies)|
    ensures FocusCompetency(asked, competencies, i, None) == Some(Pool(asked, competencies)[i])
  {
    FromPool(asked, competencies, i);
    SmallRemainder(i, |Pool(asked, competencies)|);
  }

  lemma FocusFromPool(asked: seq<string>, competencies: seq<string>, c: string)
    requires competencies != []
    ensures (exists random :: FocusCompetency(asked, competencies, random, None) == Some(c))
            <==> c in Pool(asked, competencies)
  {
    var pool := Pool(asked, competencies);
    if c in pool {
      var i :| 0 <= i < |pool| && pool[i] == c;
      Choosable(asked, competencies, i);
    } else {
      forall random: nat
        ensures FocusCompetency(asked, competencies, random, None) != Some(c)
      {
        FromPool(asked, competencies, random);
      }
    }
  }

  predicate Usable(topic: Option<string>, competencies: seq<string>) {
    topic.Some? && topic.value != [] && topic.value in competencies
  }

  /** The focus of the next question, for every number the generator may return: the topic
      asked for, if it is one of the competencies; otherwise any that has not been asked
      about, and any at all once none is left. */
  lemma FocusExactly(asked: seq<string>, competencies: seq<string>, topic: Option<string>, c: string)
    ensures (exists random :: FocusCompetency(asked, competencies, random, topic) == Some(c))
            <==> && c in competencies
                 && if topic.Some? && topic.value != [] && topic.value in competencies then c == topic.value
                    else c !in asked || forall d :: d in competencies ==> d in asked
  {
    if competencies != [] && Usable(topic, competencies) {
      assert FocusCompetency(asked, competencies, 0, topic) == topic;
    } else if competencies != [] {
      FocusFromPool(asked, competencies, c);
      InPool(asked, competencies, c);
      assert forall random ::
        FocusCompetency(asked, competencies, random, topic) == FocusCompetency(asked, competencies, random, None);
    }
  }

  /** Each question covers one more competency until none is missing. */
  lemma FocusCovers(competencies: seq<string>, asked: seq<string>, random: nat)
    requires competencies != [] && [] !in competencies
    ensures var focus := FocusCompetency(asked, competencies, random, None);
            && focus.Some? && focus.value in competencies
            && Missing(competencies, Added(asked, focus.value))
               == if Missing(competencies, asked) == 0 then 0 else Missing(competencies, asked) - 1
  {
    var all, had := set c | c in competencies, set c | c in asked;
    var uncovered := Uncovered(competencies, asked);
    var focus := FocusCompetency(asked, competencies, random, None).value;
    var has := set c | c in Added(asked, focus);
    if uncovered != [] {
      assert focus in uncovered;
      assert focus in all - had;
      assert has == had + {focus};
      assert all - has == (all - had) - {focus};
    } else {
      assert focus == competencies[random % |competencies|];
      forall c | c in all
        ensures c in had
      {
        assert c in competencies && c !in uncovered;
      }
      assert all - had == {} && all - has == {};
    }
  }

  /** Rotation: whatever the generator returns and whatever else the questions record,
      after k questions k more competencies are covered. */
  lemma {:induction false} RotationCovers(competencies: seq<string>, lists: Lists, rounds: seq<Round>)
    requires competencies != [] && [] !in competencies
    ensures var left, n := Missing(competencies, AskedCompetencies(lists)), |rounds|;
            Missing(competencies, AskedCompetencies(CoverageAfter(competencies, lists, rounds))) == if n >= left then 0 else left - n
    decreases |rounds|
  {
    if rounds != [] {
      var earlier, round := rounds[..|rounds| - 1], rounds[|rounds| - 1];
      var before := CoverageAfter(competencies, lists, earlier);
      RotationCovers(competencies, lists, earlier);
      FocusCovers(competencies, AskedCompetencies(before), round.random);
      var focus := FocusCompetency(AskedCompetencies(before), competencies, round.random, None).value;
      MarkedCompetencies(before, round.asked.(competency := focus), round.matched);
    }
  }

  lemma MissingNone(competencies: seq<string>, asked: seq<string>)
    ensures Missing(competencies, asked) == 0 <==> forall c :: c in competencies ==> c in asked
    ensures Missing(competencies, []) == |set c | c in competencies|
  {
    var all, had := set c | c in competencies, set c | c in asked;
    assert all - had == {} <==> forall c :: c in competencies ==> c in asked by {
      if all - had == {} {
        forall c | c in competencies
          ensures c in asked
        {
          assert c in all;
          assert c !in all - had;
        }
      }
    }
    var nothing: seq<string> := [];
    assert (set c | c in nothing) == {};
    assert all - {} == all;
  }

  /** From a session's first question on, all competencies are asked about exactly when
      there have been as many questions as there are distinct ones. */
  lemma AllAskedExactlyWhen(competencies: seq<string>, rounds: seq<Round>)
    requires competencies != [] && [] !in competencies
    ensures (forall c :: c in competencies ==> c in AskedCompetencies(CoverageAfter(competencies, map[], rounds)))
            <==> |rounds| >= |set c | c in competencies|
  {
    RotationCovers(competencies, map[], rounds);
    MissingNone(competencies, AskedCompetencies(CoverageAfter(competencies, map[], rounds)));
  }
}
