/**
 * The Express server's task collection: the schema every stored task obeys,
 * the defaults a create fills in, and the outcomes of the list, create,
 * update and delete routes over a store from id to task. Whether a string is
 * a well-formed database id is a predicate the store is given.
 */
module Server {
  import opened Wrappers

  /** The schema's allowed statuses and priorities, and its point range. */
  const StatusEnum: set<string> := {"todo", "in-progress", "done"}
  const PriorityEnum: set<string> := {"low", "medium", "high"}
  const MinPoints: int := 0
  const MaxPoints: int := 20

  /** A stored task, without its id. */
  datatype Record = Record(title: string, status: string, priority: string, points: int)

  /**
   * `TaskSchema`: a title present, status and priority from their enums,
   * points within [0, 20]. Sending back every field of a record that obeys
   * the schema creates that same record: no default overrides a valid value,
   * and the default for points is the 0 it replaces.
   */
  function Conforms(r: Record): (ok: bool)
    ensures ok ==>
      CreateDraft(Body(Some(r.title), Some(r.status), Some(r.priority), Some(r.points))) == r
  {
    && r.title != ""
    && r.status in StatusEnum
    && r.priority in PriorityEnum
    && MinPoints <= r.points <= MaxPoints
  }

  /** A request body: each field may be absent. */
  datatype Body = Body(title: Option<string>, status: Option<string>, priority: Option<string>, points: Option<int>)

  /** JavaScript truthiness of a string field: present and not empty. */
  predicate TruthyText(v: Option<string>) {
    v.Some? && v.value != ""
  }

  /** JavaScript truthiness of a number field: present and not zero. */
  predicate TruthyNumber(v: Option<int>) {
    v.Some? && v.value != 0
  }

  /**
   * The record a create builds: each truthy field is kept as sent, each falsy
   * one becomes its default (title "Untitled Task", status todo, priority
   * medium, points 0).
   */
  function CreateDraft(body: Body): (r: Record)
    ensures r.title == if TruthyText(body.title) then body.title.value else "Untitled Task"
    ensures r.status == if TruthyText(body.status) then body.status.value else "todo"
    ensures r.priority == if TruthyText(body.priority) then body.priority.value else "medium"
    ensures r.points == if TruthyNumber(body.points) then body.points.value else 0
  {
    Record(
      if TruthyText(body.title) then body.title.value else "Untitled Task",
      if TruthyText(body.status) then body.status.value else "todo",
      if TruthyText(body.priority) then body.priority.value else "medium",
      if TruthyNumber(body.points) then body.points.value else 0)
  }

  /**
   * A create is accepted exactly when every field it sends is within the
   * schema; a missing or falsy field never makes it fail.
   */
  lemma CreateConformsIff(body: Body)
    ensures Conforms(CreateDraft(body)) <==>
      && (TruthyText(body.status) ==> body.status.value in StatusEnum)
      && (TruthyText(body.priority) ==> body.priority.value in PriorityEnum)
      && (TruthyNumber(body.points) ==> MinPoints <= body.points.value <= MaxPoints)
  {
  }

  /** The server's replies, one per outcome of a route. */
  datatype Reply =
    | Listed(tasks: map<string, Record>)
    | Created(id: string, task: Record)
    | Updated(id: string, task: Record)
    | Deleted
    | InvalidId
    | NotFound
    | ValidationError

  /** The HTTP status of a reply. */
  function Code(reply: Reply): int {
    match reply
    case Listed(_) => 200
    case Created(_, _) => 201
    case Updated(_, _) => 200
    case Deleted => 200
    case InvalidId => 400
    case NotFound => 404
    case ValidationError => 400
  }

  /** The task collection behind the routes. */
  class TaskStore {
    /** `mongoose.Types.ObjectId.isValid`. */
    const isValidId: string -> bool
    var records: map<string, Record>

    /** Every stored task sits under a well-formed id and obeys the schema. */
    ghost predicate Valid()
      reads this
    {
      forall id :: id in records ==> isValidId(id) && Conforms(records[id])
    }

    /**
     * The routes run over whatever the persisted collection already holds;
     * every document in it was stored through the schema.
     */
    constructor (isValidId: string -> bool, init: map<string, Record>)
      requires forall id :: id in init ==> isValidId(id) && Conforms(init[id])
      ensures Valid() && records == init && this.isValidId == isValidId
    {
      this.isValidId := isValidId;
      records := init;
    }

    /** GET /tasks: the whole collection, every entry within the schema. */
    method List() returns (reply: Reply)
      requires Valid()
      ensures reply == Listed(records) && Code(reply) == 200
      ensures forall id :: id in reply.tasks ==> Conforms(reply.tasks[id])
    {
      reply := Listed(records);
    }

    /**
     * POST /tasks under the fresh id the database assigns: the filled-in
     * record is stored and returned with 201 when it obeys the schema;
     * otherwise 400 and nothing is stored.
     */
    method Create(body: Body, newId: string) returns (reply: Reply)
      requires Valid()
      requires isValidId(newId) && newId !in records
      modifies this
      ensures Valid()
      ensures Conforms(CreateDraft(body)) ==>
        reply == Created(newId, CreateDraft(body)) && records == old(records)[newId := CreateDraft(body)]
      ensures !Conforms(CreateDraft(body)) ==> reply == ValidationError && records == old(records)
      ensures Code(reply) == if Conforms(CreateDraft(body)) then 201 else 400
    {
      var draft := CreateDraft(body);
      if Conforms(draft) {
        records := records[newId := draft];
        reply := Created(newId, draft);
      } else {
        reply := ValidationError;
      }
    }

    /**
     * PUT /tasks/:id: 400 for a malformed id, 404 for an absent one, 400 for
     * a payload outside the schema; otherwise that one record takes the
     * payload's title, status, priority and points and is returned.
     */
    method Update(id: string, payload: Record) returns (reply: Reply)
      requires Valid()
      modifies this
      ensures Valid()
      ensures !isValidId(id) ==> reply == InvalidId && records == old(records)
      ensures isValidId(id) && id !in old(records) ==> reply == NotFound && records == old(records)
      ensures isValidId(id) && id in old(records) && !Conforms(payload) ==>
        reply == ValidationError && records == old(records)
      ensures isValidId(id) && id in old(records) && Conforms(payload) ==>
        reply == Updated(id, payload) && records == old(records)[id := payload]
    {
      if !isValidId(id) {
        return InvalidId;
      }
      if id !in records {
        return NotFound;
      }
      if !Conforms(payload) {
        return ValidationError;
      }
      records := records[id := payload];
      reply := Updated(id, payload);
    }

    /**
     * DELETE /tasks/:id: 400 for a malformed id, 404 for an absent one;
     * otherwise exactly that record is removed.
     */
    method Delete(id: string) returns (reply: Reply)
      requires Valid()
      modifies this
      ensures Valid()
      ensures !isValidId(id) ==> reply == InvalidId && records == old(records)
      ensures isValidId(id) && id !in old(records) ==> reply == NotFound && records == old(records)
      ensures isValidId(id) && id in old(records) ==> reply == Deleted && records == old(records) - {id}
    {
      if !isValidId(id) {
        return InvalidId;
      }
      if id !in records {
        return NotFound;
      }
      records := records - {id};
      reply := Deleted;
    }
  }
}
