/**
 * The fixed lesson catalogue (`topics`) and the content registry
 * (`getLessonContent`) that picks the widget a lesson renders.
 */
module Content {

  datatype Lesson = Lesson(id: string, title: string, content: string)

  /** A topic; its icon and colour are presentation only and are not kept. */
  datatype Topic = Topic(id: string, title: string, lessons: seq<Lesson>)

  const NumbersTopic: Topic := Topic("numbers", "Number Operations", [
    Lesson("fractions", "Understanding Fractions", "fractions"),
    Lesson("decimals", "Decimals & Percentages", "decimals"),
    Lesson("integers", "Working with Integers", "integers")])

  const AlgebraTopic: Topic := Topic("algebra", "Algebra Fundamentals", [
    Lesson("solving", "Solving Equations", "equations"),
    Lesson("linear", "Linear Equations", "linear"),
    Lesson("inequalities", "Inequalities", "inequalities")])

  const GeometryTopic: Topic := Topic("geometry", "Geometry", [
    Lesson("shapes", "Shapes & Properties", "shapes"),
    Lesson("area", "Area & Perimeter", "area"),
    Lesson("pythagorean", "Pythagorean Theorem", "pythagorean")])

  const DataTopic: Topic := Topic("data", "Data & Statistics", [
    Lesson("mean", "Mean, Median, Mode", "statistics"),
    Lesson("probability", "Basic Probability", "probability"),
    Lesson("graphs", "Reading Graphs", "graphs")])

  /** The static catalogue: four topics of three lessons each. */
  const Topics: seq<Topic> := [NumbersTopic, AlgebraTopic, GeometryTopic, DataTopic]

  /** The sum of the topics' lesson counts (a fold over the topics). */
  function TotalLessons(ts: seq<Topic>): nat
  {
    if ts == [] then 0 else |ts[0].lessons| + TotalLessons(ts[1..])
  }

  /** Every lesson of every topic, in catalogue order. */
  function AllLessons(ts: seq<Topic>): (r: seq<Lesson>)
    ensures forall t, l :: t in ts && l in t.lessons ==> l in r
    ensures forall l :: l in r ==> exists t :: t in ts && l in t.lessons
  {
    if ts == [] then [] else ts[0].lessons + AllLessons(ts[1..])
  }

  /** The ids of a list of lessons. */
  function LessonIds(ls: seq<Lesson>): (ids: set<string>)
    ensures forall l :: l in ls ==> l.id in ids
  {
    if ls == [] then {} else {ls[0].id} + LessonIds(ls[1..])
  }

  predicate DistinctIds(ls: seq<Lesson>)
  {
    forall i, j :: 0 <= i < j < |ls| ==> ls[i].id != ls[j].id
  }

  predicate DistinctTopicIds(ts: seq<Topic>)
  {
    forall i, j :: 0 <= i < j < |ts| ==> ts[i].id != ts[j].id
  }

  lemma {:induction false} TotalIsFlattenedLength(ts: seq<Topic>)
    ensures TotalLessons(ts) == |AllLessons(ts)|
  {
    if ts != [] {
      TotalIsFlattenedLength(ts[1..]);
    }
  }

  /** Every id in `LessonIds(ls)` is the id of some lesson of `ls`. */
  lemma {:induction false} IdsComeFromLessons(ls: seq<Lesson>, id: string)
    ensures id in LessonIds(ls) ==> exists k :: 0 <= k < |ls| && ls[k].id == id
  {
    if ls != [] && id in LessonIds(ls) && ls[0].id != id {
      IdsComeFromLessons(ls[1..], id);
      var k :| 0 <= k < |ls[1..]| && ls[1..][k].id == id;
      assert ls[k + 1] == ls[1..][k];
    }
  }

  /** Splitting the first lesson off a list with distinct ids. */
  lemma DistinctIdsTail(ls: seq<Lesson>)
    requires DistinctIds(ls) && ls != []
    ensures DistinctIds(ls[1..])
    ensures LessonIds(ls) == {ls[0].id} + LessonIds(ls[1..])
    ensures ls[0].id !in LessonIds(ls[1..])
  {
    var tail := ls[1..];
    forall i, j | 0 <= i < j < |tail| ensures tail[i].id != tail[j].id {
      assert tail[i] == ls[i + 1] && tail[j] == ls[j + 1];
    }
    IdsComeFromLessons(tail, ls[0].id);
  }

  /** A list of lessons with pairwise distinct ids has as many ids as lessons. */
  lemma {:induction false} DistinctIdsCount(ls: seq<Lesson>)
    requires DistinctIds(ls)
    ensures |LessonIds(ls)| == |ls|
  {
    if ls != [] {
      DistinctIdsTail(ls);
      DistinctIdsCount(ls[1..]);
    }
  }

  /** The catalogue flattened: the twelve lessons in the order the topics list them. */
  lemma CatalogueFlattened()
    ensures AllLessons(Topics) == NumbersTopic.lessons + AlgebraTopic.lessons + GeometryTopic.lessons + DataTopic.lessons
  {
    var ts := Topics;
    assert AllLessons(ts[3..]) == DataTopic.lessons + AllLessons(ts[4..]);
    assert AllLessons(ts[2..]) == GeometryTopic.lessons + AllLessons(ts[3..]);
    assert AllLessons(ts[1..]) == AlgebraTopic.lessons + AllLessons(ts[2..]);
  }

  /** No lesson of `a` shares its id with a lesson of `b`. */
  predicate Apart(a: seq<Lesson>, b: seq<Lesson>)
  {
    forall i, j :: 0 <= i < |a| && 0 <= j < |b| ==> a[i].id != b[j].id
  }

  /** Two lists with distinct ids and no id in common concatenate to a list with distinct ids. */
  lemma DistinctConcat(a: seq<Lesson>, b: seq<Lesson>)
    requires DistinctIds(a) && DistinctIds(b) && Apart(a, b)
    ensures DistinctIds(a + b)
  {
    var ab := a + b;
    forall i, j | 0 <= i < j < |ab| ensures ab[i].id != ab[j].id {
      if j < |a| {
        assert ab[i] == a[i] && ab[j] == a[j];
      } else if i < |a| {
        assert ab[i] == a[i] && ab[j] == b[j - |a|];
      } else {
        assert ab[i] == b[i - |a|] && ab[j] == b[j - |a|];
      }
    }
  }

  /** Being apart from two lists is being apart from their concatenation. */
  lemma ApartConcat(a: seq<Lesson>, b: seq<Lesson>, c: seq<Lesson>)
    requires Apart(a, b) && Apart(a, c)
    ensures Apart(a, b + c)
  {
    forall i, j | 0 <= i < |a| && 0 <= j < |b + c| ensures a[i].id != (b + c)[j].id {
      if j < |b| {
        assert (b + c)[j] == b[j];
      } else {
        assert (b + c)[j] == c[j - |b|];
      }
    }
  }

  lemma NumbersApart()
    ensures DistinctIds(NumbersTopic.lessons)
    ensures Apart(NumbersTopic.lessons, AlgebraTopic.lessons)
  {
  }

  lemma NumbersApartLater()
    ensures Apart(NumbersTopic.lessons, GeometryTopic.lessons)
    ensures Apart(NumbersTopic.lessons, DataTopic.lessons)
  {
  }

  lemma AlgebraApart()
    ensures DistinctIds(AlgebraTopic.lessons)
    ensures Apart(AlgebraTopic.lessons, GeometryTopic.lessons)
    ensures Apart(AlgebraTopic.lessons, DataTopic.lessons)
  {
  }

  lemma GeometryDataApart()
    ensures DistinctIds(GeometryTopic.lessons) && DistinctIds(DataTopic.lessons)
    ensures Apart(GeometryTopic.lessons, DataTopic.lessons)
  {
  }

  /** Topic ids are distinct, and so are the ids of all twelve lessons. */
  lemma CatalogueIdsDistinct()
    ensures DistinctTopicIds(Topics)
    ensures DistinctIds(AllLessons(Topics))
  {
    var n, a, g, d := NumbersTopic.lessons, AlgebraTopic.lessons, GeometryTopic.lessons, DataTopic.lessons;
    NumbersApart();
    NumbersApartLater();
    AlgebraApart();
    GeometryDataApart();
    DistinctConcat(g, d);
    ApartConcat(a, g, d);
    DistinctConcat(a, g + d);
    ApartConcat(n, g, d);
    ApartConcat(n, a, g + d);
    DistinctConcat(n, a + (g + d));
    CatalogueFlattened();
    assert n + a + g + d == n + (a + (g + d));
  }

  /** The catalogue's shape: 4 topics of 3 lessons, 12 lessons, 12 distinct lesson ids. */
  lemma CatalogueShape()
    ensures |Topics| == 4
    ensures forall t :: t in Topics ==> |t.lessons| == 3
    ensures TotalLessons(Topics) == 12
    ensures |LessonIds(AllLessons(Topics))| == 12
  {
    TotalIsFlattenedLength(Topics);
    CatalogueFlattened();
    var all := AllLessons(Topics);
    assert |all| == |NumbersTopic.lessons| + |AlgebraTopic.lessons| + |GeometryTopic.lessons| + |DataTopic.lessons|;
    CatalogueIdsDistinct();
    DistinctIdsCount(all);
  }

  /** The widget a lesson's content key resolves to. */
  datatype Widget =
    | FractionsWidget
    | EquationsWidget
    | LinearWidget
    | PythagoreanWidget
    | StatisticsWidget
    | ComingSoon  // the "This lesson is coming soon!" placeholder

  /** The content keys that have a widget of their own. */
  const RegisteredKeys: set<string> := {"fractions", "equations", "linear", "pythagorean", "statistics"}

  /** The key under which a real widget is registered. */
  function ContentKey(w: Widget): (key: string)
    requires !w.ComingSoon?
    ensures key in RegisteredKeys
  {
    match w
    case FractionsWidget => "fractions"
    case EquationsWidget => "equations"
    case LinearWidget => "linear"
    case PythagoreanWidget => "pythagorean"
    case StatisticsWidget => "statistics"
  }

  /**
   * `getLessonContent`: total; an unknown key yields the placeholder, and a
   * key that yields a real widget is the one that widget is registered under.
   */
  function LessonContent(key: string): (w: Widget)
    ensures w.ComingSoon? <==> key !in RegisteredKeys
    ensures !w.ComingSoon? ==> ContentKey(w) == key
  {
    if key == "fractions" then FractionsWidget
    else if key == "equations" then EquationsWidget
    else if key == "linear" then LinearWidget
    else if key == "pythagorean" then PythagoreanWidget
    else if key == "statistics" then StatisticsWidget
    else ComingSoon
  }

  /** Every real widget is reachable from its own key. */
  lemma ContentKeyRoundTrip(w: Widget)
    requires !w.ComingSoon?
    ensures LessonContent(ContentKey(w)) == w
  {
  }

  /** The widget each lesson of a list renders, in list order. */
  function WidgetsOf(ls: seq<Lesson>): (ws: seq<Widget>)
    ensures |ws| == |ls|
    ensures forall i :: 0 <= i < |ls| ==> ws[i] == LessonContent(ls[i].content)
  {
    seq(|ls|, i requires 0 <= i < |ls| => LessonContent(ls[i].content))
  }

  /**
   * Five catalogue lessons have a widget ("fractions", "solving", "linear",
   * "pythagorean", "mean"); the other seven show the placeholder.
   */
  lemma CatalogueWidgets()
    ensures WidgetsOf(Topics[0].lessons) == [FractionsWidget, ComingSoon, ComingSoon]
    ensures WidgetsOf(Topics[1].lessons) == [EquationsWidget, LinearWidget, ComingSoon]
    ensures WidgetsOf(Topics[2].lessons) == [ComingSoon, ComingSoon, PythagoreanWidget]
    ensures WidgetsOf(Topics[3].lessons) == [StatisticsWidget, ComingSoon, ComingSoon]
  {
  }
}
