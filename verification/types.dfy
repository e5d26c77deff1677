/** The task record and its enumerations, as declared in src/types/index.ts. */
module Types {
  import opened Wrappers
  import opened Dates

  datatype Priority = Low | Medium | High

  /** The closed set of categories; the language parser only ever produces the first seven and `Other`. */
  datatype Category =
    | Work | Personal | Shopping | Health | Finance | Education | Social
    | Entertainment | Gaming | Music | Other

  /** The string value of a category, as stored and as matched by the search box. */
  function CategoryName(c: Category): string {
    match c
    case Work => "work"
    case Personal => "personal"
    case Shopping => "shopping"
    case Health => "health"
    case Finance => "finance"
    case Education => "education"
    case Social => "social"
    case Entertainment => "entertainment"
    case Gaming => "gaming"
    case Music => "music"
    case Other => "other"
  }

  /**
   * A stored task. The ISO-8601 time stamps of the source are kept as
   * `DateTime` values; an absent `description` is `None`.
   */
  datatype Task = Task(
    id: string,
    title: string,
    description: Option<string>,
    completed: bool,
    dueDate: DateTime,
    priority: Priority,
    category: Category,
    createdAt: DateTime,
    updatedAt: DateTime)

  /** A `Partial<Task>` as handed to `addTask`: every field may be missing. */
  datatype TaskDraft = TaskDraft(
    title: Option<string>,
    description: Option<string>,
    completed: Option<bool>,
    dueDate: Option<DateTime>,
    priority: Option<Priority>,
    category: Option<Category>)

  /** Some task in the list carries the given id. */
  predicate HasId(tasks: seq<Task>, id: string) {
    exists i :: 0 <= i < |tasks| && tasks[i].id == id
  }
}
