/**
 * The catalog's content model: the state held by the data context
 * (src/context/DataContext.js), with JavaScript values made explicit.
 *
 * resources[grade][subject] is a bundle of textbooks by medium, papers by
 * term and by chapter, and notes; videos[grade][subject] is a list of
 * videos; settings holds the activity log. Fields the source reads
 * defensively (`if (resources.textbooks)`, `Array.isArray(...)`) are
 * optional here, so that missing or malformed data can be represented.
 */
module Catalog {
  import opened Wrappers
  import opened Dicts

  /** A scalar field of a stored record. */
  datatype Value = Str(s: string) | Num(n: int)

  /** JavaScript truthiness of a present scalar. */
  predicate Truthy(v: Value) {
    match v
    case Str(s) => s != ""
    case Num(n) => n != 0
  }

  /** `!x` for a value that may be `undefined`. */
  predicate Falsy(o: Option<Value>) {
    o.None? || !Truthy(o.value)
  }

  /** `x || d` for a value that may be `undefined`, with a string default. */
  function OrDefault(o: Option<Value>, d: string): (v: Value)
    ensures Falsy(o) ==> v == Str(d)
    ensures !Falsy(o) ==> v == o.value
  {
    if Falsy(o) then Str(d) else o.value
  }

  /** A stored file, paper, note or video: a flat object of scalars. */
  type Record = Dict<Value>

  /** The `language` field of a record. */
  function LanguageOf(r: Record): Option<Value> {
    Get(r, "language")
  }

  /** An entry of `papers.terms` or `papers.chapters`: an array of papers or some other value. */
  datatype Entry = Arr(items: seq<Record>) | NotArray

  datatype Papers = Papers(terms: Option<Dict<Entry>>, chapters: Option<Dict<Entry>>)

  /** `resources[grade][subject]`: each part may be missing. */
  datatype Bundle = Bundle(textbooks: Option<Dict<Record>>, papers: Option<Papers>, notes: Option<Dict<Record>>)

  datatype Grade = Grade(name: string, display: string, active: bool)

  datatype Subject = Subject(name: string, icon: string, grades: seq<string>)

  datatype Activity = Activity(message: string, timestamp: string, id: int)

  /** `settings`: the activity log (possibly missing) and the other keys. */
  datatype Settings = Settings(activities: Option<seq<Activity>>, fields: Dict<Value>)

  datatype State = State(
    grades: Dict<Grade>,
    subjects: Dict<Subject>,
    resources: Dict<Dict<Bundle>>,
    videos: Dict<Dict<seq<Record>>>,
    settings: Settings,
    loading: bool,
    error: Option<string>)

  /** The reducer's initial state, before any data is loaded. */
  const InitialState := State([], [], [], [], Settings(None, []), false, None)

  /** A parsed data payload, as loaded, seeded or imported: any top-level key may be missing. */
  datatype Snapshot = Snapshot(
    grades: Option<Dict<Grade>>,
    subjects: Option<Dict<Subject>>,
    resources: Option<Dict<Dict<Bundle>>>,
    videos: Option<Dict<Dict<seq<Record>>>>,
    settings: Option<Settings>,
    error: Option<Option<string>>)

  const Secondary := ["grade6", "grade7", "grade8", "grade9", "grade10", "grade11"]

  const DefaultGrades: Dict<Grade> := [
    ("grade6", Grade("Grade 6", "Grade 6", true)),
    ("grade7", Grade("Grade 7", "Grade 7", true)),
    ("grade8", Grade("Grade 8", "Grade 8", true)),
    ("grade9", Grade("Grade 9", "Grade 9", true)),
    ("grade10", Grade("Grade 10", "Grade 10", true)),
    ("grade11", Grade("Grade 11", "Grade 11", true)),
    ("al", Grade("Advanced Level", "A/L", true))]

  /** The seeded subjects, in their seeded order. */
  const SubjectList: seq<(string, Subject)> := [
    ("mathematics", Subject("Mathematics", "bi-calculator", Secondary)),
    ("science", Subject("Science", "bi-flask", Secondary)),
    ("sinhala", Subject("Sinhala", "bi-book", Secondary)),
    ("english", Subject("English", "bi-globe", Secondary)),
    ("tamil", Subject("Tamil", "bi-book-half", Secondary)),
    ("social-studies", Subject("Social Studies", "bi-geo-alt", Secondary)),
    ("combined-maths", Subject("Combined Mathematics", "bi-calculator-fill", ["al"])),
    ("physics", Subject("Physics", "bi-atom", ["al"])),
    ("chemistry", Subject("Chemistry", "bi-droplet", ["al"])),
    ("biology", Subject("Biology", "bi-tree", ["al"]))]

  /** No two seeded subjects share an id: their first two letters already differ. */
  lemma SubjectIdsDistinct()
    ensures DistinctKeys(SubjectList)
  {
    var d := SubjectList;
    var p := ["ma", "sc", "si", "en", "ta", "so", "co", "ph", "ch", "bi"];
    assert forall i :: 0 <= i < |d| ==> d[i].0[..2] == p[i];
    forall i, j | 0 <= i < j < |d| ensures d[i].0 != d[j].0 {
      assert p[i] != p[j];
    }
  }

  /** The seeded subjects as an object. */
  function DefaultSubjects(): (d: Dict<Subject>)
    ensures d == SubjectList
  {
    SubjectIdsDistinct();
    SubjectList
  }

  /** `getDefaultData()`: the seeded catalog, stamped with the time `now`. */
  function DefaultData(now: string): (d: Snapshot)
    ensures d.grades.Some? && |d.grades.value| == 7
    ensures d.subjects.Some? && |d.subjects.value| == 10
    ensures d.resources == Some([]) && d.videos == Some([])
    ensures d.settings.Some? && d.settings.value.activities == Some([])
    ensures d.error.None?
  {
    Snapshot(
      Some(DefaultGrades),
      Some(DefaultSubjects()),
      Some([]),
      Some([]),
      Some(Settings(Some([]), [
    ("siteName", Str("Teaching Torch")),
    ("adminPassword", Str("admin123")),
    ("lastUpdated", Str(now))])),
      None)
  }
}
