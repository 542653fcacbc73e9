/** The record types and enumerations of the complaint store. */
module ComplaintTypes {
  import opened Wrappers

  /** A complaint's priority; the datatype admits no other value. */
  datatype Priority = Low | Medium | High

  /** A complaint's status; the datatype admits no other value. */
  datatype Status = Pending | InProgress | Resolved

  /** The text the user interface and the store use for a priority. */
  function PriorityName(p: Priority): (name: string) {
    match p
    case Low => "Low"
    case Medium => "Medium"
    case High => "High"
  }

  /** The text the user interface and the store use for a status. */
  function StatusName(s: Status): (name: string) {
    match s
    case Pending => "Pending"
    case InProgress => "In Progress"
    case Resolved => "Resolved"
  }

  /** A persisted complaint. `category` is free text in the record type; only the form
      restricts it to CATEGORIES. `user_email` is the one optional field. */
  datatype Complaint = Complaint(
    id: string,
    title: string,
    description: string,
    category: string,
    priority: Priority,
    status: Status,
    user_email: Option<string>,
    date_submitted: string,
    updated_at: string)

  /** A complaint as the form sends it: no id, status or timestamps. */
  datatype NewComplaint = NewComplaint(
    title: string,
    description: string,
    category: string,
    priority: Priority,
    user_email: Option<string>)

  const CATEGORIES: seq<string> := ["Product", "Service", "Support", "Billing", "Technical"]
  const PRIORITIES: seq<Priority> := [Low, Medium, High]
  const STATUSES: seq<Status> := [Pending, InProgress, Resolved]

  /** The selection value that switches a status or priority filter off. */
  const ALL: string := "all"

  predicate Distinct<T(==)>(s: seq<T>) {
    forall i, j :: 0 <= i < j < |s| ==> s[i] != s[j]
  }

  /** CATEGORIES holds five distinct values, in the order the form offers them. */
  lemma CategoriesDistinct()
    ensures |CATEGORIES| == 5 && Distinct(CATEGORIES)
  {
  }

  /** PRIORITIES lists every priority exactly once, from lowest to highest. */
  lemma PrioritiesEnumerate()
    ensures Distinct(PRIORITIES)
    ensures forall p: Priority :: p in PRIORITIES
    ensures PRIORITIES == [Low, Medium, High]
  {
    forall p: Priority ensures p in PRIORITIES {
      match p
      case Low => assert PRIORITIES[0] == p;
      case Medium => assert PRIORITIES[1] == p;
      case High => assert PRIORITIES[2] == p;
    }
  }

  /** STATUSES lists every status exactly once, in workflow order. */
  lemma StatusesEnumerate()
    ensures Distinct(STATUSES)
    ensures forall s: Status :: s in STATUSES
    ensures STATUSES == [Pending, InProgress, Resolved]
  {
    forall s: Status ensures s in STATUSES {
      match s
      case Pending => assert STATUSES[0] == s;
      case InProgress => assert STATUSES[1] == s;
      case Resolved => assert STATUSES[2] == s;
    }
  }

  /** Distinct priorities and statuses have distinct names, and no name is the "all"
      sentinel, so a filter selection denotes at most one value. */
  lemma NamesAreDistinct()
    ensures forall p, q: Priority :: PriorityName(p) == PriorityName(q) ==> p == q
    ensures forall s, t: Status :: StatusName(s) == StatusName(t) ==> s == t
    ensures forall p: Priority :: PriorityName(p) != ALL
    ensures forall s: Status :: StatusName(s) != ALL
  {
  }
}
