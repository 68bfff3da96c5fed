/**
 * The task record the board works on. The client's `Task`, `Status` and
 * `Priority` types follow the schema enums of the server; `priority` and
 * `points` may be absent from a stored task, and the board reads an absent
 * value through a default.
 */
module Tasks {
  import opened Wrappers

  datatype Status = Todo | InProgress | Done

  datatype Priority = Low | Medium | High

  /** The columns of the board, left to right. */
  const Statuses: seq<Status> := [Todo, InProgress, Done]

  datatype Task = Task(
    id: string,
    title: string,
    status: Status,
    priority: Option<Priority>,
    points: Option<int>)

  /** The string the code compares a priority against. */
  function PriorityName(p: Priority): string {
    match p
    case Low => "low"
    case Medium => "medium"
    case High => "high"
  }

  /** `task.points || 0`: an absent point count reads as 0, a present one as itself. */
  function EffectivePoints(t: Task): (r: int)
    ensures t.points.None? ==> r == 0
    ensures t.points.Some? ==> r == t.points.value
  {
    t.points.GetOr(0)
  }

  /** `task.priority || 'medium'`: an absent priority reads as medium, a present one as itself. */
  function EffectivePriority(t: Task): (r: Priority)
    ensures t.priority.None? ==> r == Medium
    ensures t.priority.Some? ==> r == t.priority.value
  {
    t.priority.GetOr(Medium)
  }

  /** The fields an edit may touch; `id` is never one of them. */
  datatype Field = TitleField | StatusField | PriorityField | PointsField

  predicate SameField(a: Task, b: Task, f: Field) {
    match f
    case TitleField => a.title == b.title
    case StatusField => a.status == b.status
    case PriorityField => a.priority == b.priority
    case PointsField => a.points == b.points
  }

  /** `b` is `a` with at most the field `f` changed: the same id and every other field equal. */
  predicate ChangesOnly(a: Task, b: Task, f: Field) {
    a.id == b.id && forall g :: g != f ==> SameField(a, b, g)
  }
}

/** The pieces of JavaScript's `Array.prototype.filter` and `find` the board uses. */
module ArrayOps {
  import opened Wrappers

  /** `s.filter(p)`: the elements that pass `p`, in their order in `s`. */
  function Filter<T(!new)>(p: T -> bool, s: seq<T>): (r: seq<T>)
    ensures |r| <= |s|
    ensures forall i :: 0 <= i < |r| ==> p(r[i])
    ensures forall x :: multiset(r)[x] == if p(x) then multiset(s)[x] else 0
  {
    if s == [] then []
    else
      var rest := Filter(p, s[1..]);
      assert s == [s[0]] + s[1..];
      if p(s[0]) then [s[0]] + rest else rest
  }

  /** Filtering distributes over concatenation, so the kept elements stay in their order. */
  lemma {:induction false} FilterAppend<T(!new)>(p: T -> bool, a: seq<T>, b: seq<T>)
    ensures Filter(p, a + b) == Filter(p, a) + Filter(p, b)
  {
    if a == [] {
      assert a + b == b;
    } else {
      assert (a + b)[1..] == a[1..] + b;
      FilterAppend(p, a[1..], b);
    }
  }

  /** A filter that every element passes keeps the whole sequence. */
  lemma {:induction false} FilterAll<T(!new)>(p: T -> bool, s: seq<T>)
    requires forall i :: 0 <= i < |s| ==> p(s[i])
    ensures Filter(p, s) == s
  {
    if s != [] {
      FilterAll(p, s[1..]);
    }
  }

  /** The index of the first element that passes `p`, if any. */
  function FindIndex<T>(p: T -> bool, s: seq<T>): (r: Option<nat>)
    ensures r.None? <==> forall i :: 0 <= i < |s| ==> !p(s[i])
    ensures r.Some? ==> r.value < |s| && p(s[r.value])
    ensures r.Some? ==> forall j :: 0 <= j < r.value ==> !p(s[j])
  {
    if s == [] then None
    else if p(s[0]) then Some(0)
    else
      match FindIndex(p, s[1..])
      case None => None
      case Some(k) => Some(k + 1)
  }

  /** `s.find(p)`: the first element that passes `p`, or nothing when none does. */
  function Find<T>(p: T -> bool, s: seq<T>): (r: Option<T>)
    ensures r.None? <==> forall i :: 0 <= i < |s| ==> !p(s[i])
    ensures r.Some? ==> exists i :: 0 <= i < |s| && s[i] == r.value && p(s[i]) && forall j :: 0 <= j < i ==> !p(s[j])
  {
    match FindIndex(p, s)
    case None => None
    case Some(i) => Some(s[i])
  }
}
