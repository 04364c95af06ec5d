/**
 * The top-level controller (`GEDMathApp`): which topic and lesson are
 * selected, which lessons are complete, and the progress derived from them.
 */
module Navigation {
  import opened Wrappers
  import opened Content

  /** The first topic with that id, if any (a linear search of the table). */
  function FindTopic(ts: seq<Topic>, id: string): (r: Option<Topic>)
    ensures r.Some? ==> r.value in ts && r.value.id == id
    ensures r.None? <==> forall t :: t in ts ==> t.id != id
    ensures r.Some? ==> exists i :: 0 <= i < |ts| && ts[i] == r.value && forall j :: 0 <= j < i ==> ts[j].id != id
  {
    if ts == [] then None
    else if ts[0].id == id then Some(ts[0])
    else
      var r := FindTopic(ts[1..], id);
      assert r.Some? ==> exists i :: 0 <= i < |ts| && ts[i] == r.value && forall j :: 0 <= j < i ==> ts[j].id != id by {
        if r.Some? {
          var i :| 0 <= i < |ts[1..]| && ts[1..][i] == r.value && forall j :: 0 <= j < i ==> ts[1..][j].id != id;
          assert forall j :: 0 <= j < i + 1 ==> ts[j].id != id by {
            forall j | 0 <= j < i + 1 ensures ts[j].id != id {
              if j > 0 { assert ts[j] == ts[1..][j - 1]; }
            }
          }
        }
      }
      r
  }

  /** The lessons listed for a topic id; an unknown id lists nothing. */
  function TopicLessons(ts: seq<Topic>, id: string): (ls: seq<Lesson>)
    ensures forall l :: l in ls ==> l in AllLessons(ts)
    ensures FindTopic(ts, id).None? ==> ls == []
  {
    match FindTopic(ts, id)
    case Some(t) => t.lessons
    case None => []
  }

  /** With distinct topic ids, a topic's own id lists exactly that topic's lessons. */
  lemma TopicListsOwnLessons(ts: seq<Topic>, t: Topic)
    requires DistinctTopicIds(ts) && t in ts
    ensures TopicLessons(ts, t.id) == t.lessons
  {
    var r := FindTopic(ts, t.id);
    var k :| 0 <= k < |ts| && ts[k] == t;
    var i :| 0 <= i < |ts| && ts[i] == r.value && forall j :: 0 <= j < i ==> ts[j].id != t.id;
    if i != k { assert false; }
  }

  /** Selecting a catalogue topic lists that topic's own three lessons. */
  lemma CatalogueTopicLessons(t: Topic)
    requires t in Topics
    ensures TopicLessons(Topics, t.id) == t.lessons
  {
    CatalogueIdsDistinct();
    TopicListsOwnLessons(Topics, t);
  }

  /** What the main area shows. */
  datatype Screen =
    | TopicGrid                                   // "Choose a Topic"
    | LessonList(topicId: string)                 // the lessons of the selected topic
    | LessonScreen(lesson: Lesson, widget: Widget, showMarkButton: bool)

  /** The view rule: a lesson screen iff a lesson is selected, else the lesson list iff a topic is. */
  function ScreenOf(topic: Option<string>, lesson: Option<Lesson>, done: set<string>): (s: Screen)
    ensures s.LessonScreen? <==> lesson.Some?
    ensures s.LessonList? <==> lesson.None? && topic.Some?
    ensures s.TopicGrid? <==> lesson.None? && topic.None?
    ensures s.LessonList? ==> s.topicId == topic.value
    ensures s.LessonScreen? ==> s.lesson == lesson.value && s.widget == LessonContent(lesson.value.content)
    ensures s.LessonScreen? ==> (s.showMarkButton <==> lesson.value.id !in done)
  {
    match lesson
    case Some(l) => LessonScreen(l, LessonContent(l.content), l.id !in done)
    case None => if topic.Some? then LessonList(topic.value) else TopicGrid
  }

  /** The completion set after `markComplete`: grows by the selected lesson's id, if any. */
  function WithCompleted(done: set<string>, lesson: Option<Lesson>): (r: set<string>)
    ensures done <= r
    ensures lesson.None? ==> r == done
    ensures forall id :: id in r - done ==> lesson.Some? && id == lesson.value.id
    ensures lesson.Some? ==> lesson.value.id in r
  {
    if lesson.Some? then done + {lesson.value.id} else done
  }

  /** Marking the same lesson twice changes nothing the second time. */
  lemma WithCompletedIdempotent(done: set<string>, lesson: Option<Lesson>)
    ensures WithCompleted(WithCompleted(done, lesson), lesson) == WithCompleted(done, lesson)
    ensures |WithCompleted(done, lesson)| <= |done| + 1
  {
  }

  /** How many of these lessons are complete: the count on a topic card. */
  function CountCompleted(ls: seq<Lesson>, done: set<string>): (n: nat)
    ensures n <= |ls|
    ensures n == |ls| <==> forall l :: l in ls ==> l.id in done
    ensures n == 0 <==> forall l :: l in ls ==> l.id !in done
  {
    if ls == [] then 0
    else
      var rest := CountCompleted(ls[1..], done);
      assert forall l :: l in ls <==> l == ls[0] || l in ls[1..];
      (if ls[0].id in done then 1 else 0) + rest
  }

  /** The per-topic count shown on each topic card. */
  function CompletedInTopic(t: Topic, done: set<string>): nat
  {
    CountCompleted(t.lessons, done)
  }

  lemma {:induction false} CountCompletedAppend(a: seq<Lesson>, b: seq<Lesson>, done: set<string>)
    ensures CountCompleted(a + b, done) == CountCompleted(a, done) + CountCompleted(b, done)
  {
    if a == [] {
      assert a + b == b;
    } else {
      assert (a + b)[0] == a[0];
      assert (a + b)[1..] == a[1..] + b;
      CountCompletedAppend(a[1..], b, done);
    }
  }

  /** With distinct ids, the count is the number of the list's ids that are complete. */
  lemma {:induction false} CountCompletedIsIntersection(ls: seq<Lesson>, done: set<string>)
    requires DistinctIds(ls)
    ensures CountCompleted(ls, done) == |done * LessonIds(ls)|
  {
    if ls != [] {
      DistinctIdsTail(ls);
      CountCompletedIsIntersection(ls[1..], done);
      var x, rest := ls[0].id, LessonIds(ls[1..]);
      assert CountCompleted(ls, done) == (if x in done then 1 else 0) + CountCompleted(ls[1..], done);
      if x in done {
        assert done * LessonIds(ls) == {x} + done * rest;
        assert x !in done * rest;
        assert |{x} + done * rest| == 1 + |done * rest|;
      } else {
        assert done * LessonIds(ls) == done * rest;
      }
    }
  }

  /** The topic cards' counts, summed over a list of topics. */
  function SumCompletedInTopics(ts: seq<Topic>, done: set<string>): nat
  {
    if ts == [] then 0 else CompletedInTopic(ts[0], done) + SumCompletedInTopics(ts[1..], done)
  }

  lemma {:induction false} SumIsFlattenedCount(ts: seq<Topic>, done: set<string>)
    ensures SumCompletedInTopics(ts, done) == CountCompleted(AllLessons(ts), done)
  {
    if ts != [] {
      SumIsFlattenedCount(ts[1..], done);
      CountCompletedAppend(ts[0].lessons, AllLessons(ts[1..]), done);
    }
  }

  /** Every id the catalogue knows. */
  function CatalogueIds(): set<string>
  {
    LessonIds(AllLessons(Topics))
  }

  /** Over any topic list with distinct lesson ids, the card counts add up to the completed ids. */
  lemma CardCountsAddUp(ts: seq<Topic>, done: set<string>)
    requires DistinctIds(AllLessons(ts))
    requires done <= LessonIds(AllLessons(ts))
    ensures SumCompletedInTopics(ts, done) == |done|
  {
    SumIsFlattenedCount(ts, done);
    CountCompletedIsIntersection(AllLessons(ts), done);
    assert done * LessonIds(AllLessons(ts)) == done;
  }

  /**
   * The four topic cards' "completed" counts add up to the header's count
   * `completedLessons.size`, whenever only catalogue lessons are complete.
   */
  lemma TopicCountsAddUp(done: set<string>)
    requires done <= CatalogueIds()
    ensures SumCompletedInTopics(Topics, done) == |done|
  {
    CatalogueIdsDistinct();
    CardCountsAddUp(Topics, done);
  }

  /** The progress ring's percentage: completed lessons over all lessons, times 100. */
  function ProgressPercent(done: set<string>): real
  {
    |done| as real / TotalLessons(Topics) as real * 100.0
  }

  /** A subset is no larger than its superset, and of equal size only when equal. */
  lemma SubsetCardinality(a: set<string>, b: set<string>)
    requires a <= b
    ensures |a| <= |b|
    ensures |a| == |b| ==> a == b
  {
    assert b == a + (b - a);
    assert |b| == |a| + |b - a|;
    if |a| == |b| {
      assert b - a == {};
    }
  }

  lemma CatalogueIdCount()
    ensures |CatalogueIds()| == 12
  {
    CatalogueShape();
  }

  /** At most the twelve catalogue lessons can be complete, and twelve means all of them. */
  lemma CompletedAtMostTwelve(done: set<string>)
    requires done <= CatalogueIds()
    ensures |done| <= 12
    ensures |done| == 12 <==> done == CatalogueIds()
  {
    CatalogueIdCount();
    SubsetCardinality(done, CatalogueIds());
  }

  /** Progress lies in [0, 100] and is 100 exactly when every catalogue lesson is complete. */
  lemma ProgressBounds(done: set<string>)
    requires done <= CatalogueIds()
    ensures 0.0 <= ProgressPercent(done) <= 100.0
    ensures ProgressPercent(done) == 100.0 <==> done == CatalogueIds()
  {
    CatalogueShape();
    CompletedAtMostTwelve(done);
    var n := |done| as real;
    assert ProgressPercent(done) == n / 12.0 * 100.0;
  }

  /** Any two of the twelve lessons complete gives exactly 2/12 of the ring. */
  lemma ProgressTwoOfTwelve(done: set<string>)
    requires |done| == 2
    ensures ProgressPercent(done) == 2.0 / 12.0 * 100.0
  {
    CatalogueShape();
  }

  class GedMathApp {
    /** The `topics` table the app was built with. */
    const catalogue: seq<Topic>
    var selectedTopic: Option<string>
    var selectedLesson: Option<Lesson>
    var completedLessons: set<string>

    /** Every state the UI can reach: a selected lesson belongs to the selected topic. */
    ghost predicate Valid()
      reads this
    {
      && (selectedTopic.Some? ==> FindTopic(catalogue, selectedTopic.value).Some?)
      && (selectedLesson.Some? ==> selectedTopic.Some? && selectedLesson.value in TopicLessons(catalogue, selectedTopic.value))
      && completedLessons <= LessonIds(AllLessons(catalogue))
    }

    function CurrentScreen(): Screen
      reads this
    {
      ScreenOf(selectedTopic, selectedLesson, completedLessons)
    }

    constructor ()
      ensures Valid()
      ensures catalogue == Topics
      ensures selectedTopic == None && selectedLesson == None && completedLessons == {}
      ensures CurrentScreen() == TopicGrid
    {
      catalogue := Topics;
      selectedTopic := None;
      selectedLesson := None;
      completedLessons := {};
    }

    /** The header logo: back to the topic grid from anywhere. */
    method ClickLogo()
      requires Valid()
      modifies this
      ensures Valid()
      ensures selectedTopic == None && selectedLesson == None
      ensures completedLessons == old(completedLessons)
      ensures CurrentScreen() == TopicGrid
    {
      selectedTopic := None;
      selectedLesson := None;
    }

    /** A topic card, shown only on the topic grid. */
    method ClickTopic(topic: Topic)
      requires Valid()
      requires CurrentScreen() == TopicGrid && topic in catalogue
      modifies this
      ensures Valid()
      ensures selectedTopic == Some(topic.id)
      ensures selectedLesson == old(selectedLesson) && completedLessons == old(completedLessons)
      ensures CurrentScreen() == LessonList(topic.id)
    {
      selectedTopic := Some(topic.id);
    }

    /** "Back to Topics", shown only on a lesson list. */
    method BackToTopics()
      requires Valid()
      requires CurrentScreen().LessonList?
      modifies this
      ensures Valid()
      ensures selectedTopic == None
      ensures selectedLesson == old(selectedLesson) && completedLessons == old(completedLessons)
      ensures CurrentScreen() == TopicGrid
    {
      selectedTopic := None;
    }

    /** A lesson row, offered from the selected topic's own list. */
    method ClickLesson(lesson: Lesson)
      requires Valid()
      requires CurrentScreen().LessonList? && lesson in TopicLessons(catalogue, selectedTopic.value)
      modifies this
      ensures Valid()
      ensures selectedLesson == Some(lesson)
      ensures selectedTopic == old(selectedTopic) && completedLessons == old(completedLessons)
      ensures CurrentScreen().LessonScreen? && CurrentScreen().lesson == lesson
    {
      selectedLesson := Some(lesson);
    }

    /** "Back to <topic>", shown only on a lesson screen: keeps the topic. */
    method BackFromLesson()
      requires Valid()
      requires CurrentScreen().LessonScreen?
      modifies this
      ensures Valid()
      ensures selectedLesson == None
      ensures selectedTopic == old(selectedTopic) && completedLessons == old(completedLessons)
      ensures CurrentScreen() == LessonList(selectedTopic.value)
    {
      selectedLesson := None;
    }

    /** `markComplete`: adds the selected lesson's id; with no lesson selected it does nothing. */
    method MarkComplete()
      requires Valid()
      modifies this
      ensures Valid()
      ensures completedLessons == WithCompleted(old(completedLessons), old(selectedLesson))
      ensures selectedTopic == old(selectedTopic) && selectedLesson == old(selectedLesson)
    {
      if selectedLesson.Some? {
        completedLessons := completedLessons + {selectedLesson.value.id};
      }
    }
  }

  /** Topic, lesson, back: the user lands on the topic's list, not the grid; marking twice counts once. */
  method SampleSession()
  {
    var app := new GedMathApp();
    var numbers := Topics[0];
    app.ClickTopic(numbers);
    assert TopicLessons(Topics, numbers.id) == numbers.lessons;
    app.ClickLesson(numbers.lessons[0]);
    app.MarkComplete();
    assert |app.completedLessons| == 1;
    app.MarkComplete();
    assert |app.completedLessons| == 1;
    app.BackFromLesson();
    assert app.CurrentScreen() == LessonList("numbers");
  }
}
