/**
 * One card of the board: the edits it issues to the board's update callback
 * (points steps, priority choice, title text), how it shows the priority and
 * the id, and its two interface flags.
 */
module TaskCard {
  import opened Wrappers
  import opened Tasks
  import JsString

  /** The highest point count the + button steps to. */
  const MaxPoints: int := 20

  datatype Direction = Up | Down

  /**
   * `updatePoints(direction)`: the update the card issues, if any. Up issues
   * points + 1 only below 20, down issues points - 1 only above 0; the copy
   * differs from the task in its points alone.
   */
  function PointsStep(task: Task, direction: Direction): (call: Option<Task>)
    ensures call.Some? <==>
      (direction == Up && EffectivePoints(task) < MaxPoints) || (direction == Down && EffectivePoints(task) > 0)
    ensures call.Some? ==> ChangesOnly(task, call.value, PointsField)
    ensures call.Some? ==>
      call.value.points == Some(EffectivePoints(task) + (if direction == Up then 1 else -1))
  {
    var points := EffectivePoints(task);
    if direction == Up && points < MaxPoints then Some(task.(points := Some(points + 1)))
    else if direction == Down && points > 0 then Some(task.(points := Some(points - 1)))
    else None
  }

  /** The - button is disabled at 0 points. */
  predicate DownDisabled(task: Task) {
    EffectivePoints(task) == 0
  }

  /** The + button is disabled at 20 points. */
  predicate UpDisabled(task: Task) {
    EffectivePoints(task) == MaxPoints
  }

  /** Within [0, 20] a button issues an update exactly when it is enabled. */
  lemma ButtonsDisabledAtBounds(task: Task)
    requires 0 <= EffectivePoints(task) <= MaxPoints
    ensures PointsStep(task, Up).Some? <==> !UpDisabled(task)
    ensures PointsStep(task, Down).Some? <==> !DownDisabled(task)
  {
  }

  /**
   * The task after a run of clicks on the point buttons, each issued update
   * being applied before the next click.
   */
  function ApplySteps(task: Task, directions: seq<Direction>): Task
    decreases |directions|
  {
    if directions == [] then task
    else ApplySteps(PointsStep(task, directions[0]).GetOr(task), directions[1..])
  }

  /** Any run of clicks keeps points in [0, 20] and leaves every other field as it was. */
  lemma {:induction false} StepsStayInRange(task: Task, directions: seq<Direction>)
    requires 0 <= EffectivePoints(task) <= MaxPoints
    ensures 0 <= EffectivePoints(ApplySteps(task, directions)) <= MaxPoints
    ensures ChangesOnly(task, ApplySteps(task, directions), PointsField)
    decreases |directions|
  {
    if directions != [] {
      var next := PointsStep(task, directions[0]).GetOr(task);
      StepsStayInRange(next, directions[1..]);
      var last := ApplySteps(next, directions[1..]);
      forall g | g != PointsField ensures SameField(task, last, g) {
        assert SameField(task, next, g) && SameField(next, last, g);
      }
    }
  }

  /** `changePriority(newPriority)`: the copy differs from the task in its priority alone. */
  function WithPriority(task: Task, newPriority: Priority): (call: Task)
    ensures ChangesOnly(task, call, PriorityField)
    ensures call.priority == Some(newPriority)
    ensures EffectivePriority(call) == newPriority
  {
    task.(priority := Some(newPriority))
  }

  /** The title input's change handler: the copy differs from the task in its title alone. */
  function WithTitle(task: Task, value: string): (call: Task)
    ensures ChangesOnly(task, call, TitleField)
    ensures call.title == value
  {
    task.(title := value)
  }

  datatype Icon = LowPriorityIcon | MediumPriorityIcon | HighPriorityIcon

  /** The colour scheme of the priority button. */
  datatype Colour = Red | Yellow | Blue | Gray

  /** The priority string the card shows: the task's priority, or medium when it has none. */
  function CardPriority(task: Task): (r: string)
    ensures task.priority.Some? ==> r == PriorityName(task.priority.value)
    ensures task.priority.None? ==> r == "medium"
  {
    PriorityName(EffectivePriority(task))
  }

  /**
   * `getPriorityIcon`, on the priority string: a known priority gets its own
   * icon, any other string Medium's.
   */
  function PriorityIcon(priority: string): (icon: Icon)
    ensures forall p :: priority == PriorityName(p) ==> icon == IconOf(p)
    ensures (forall p :: priority != PriorityName(p)) ==> icon == IconOf(Medium)
  {
    assert PriorityName(High) == "high" && PriorityName(Medium) == "medium" && PriorityName(Low) == "low";
    if priority == "high" then HighPriorityIcon
    else if priority == "medium" then MediumPriorityIcon
    else if priority == "low" then LowPriorityIcon
    else MediumPriorityIcon
  }

  /**
   * `getPriorityColor`, on the priority string: a known priority gets its own
   * colour, any other string gray, which no known priority has.
   */
  function PriorityColour(priority: string): (colour: Colour)
    ensures forall p :: priority == PriorityName(p) ==> colour == ColourOf(p)
    ensures (forall p :: priority != PriorityName(p)) ==> colour == Gray
    ensures colour == Gray <==> forall p :: priority != PriorityName(p)
  {
    assert PriorityName(High) == "high" && PriorityName(Medium) == "medium" && PriorityName(Low) == "low";
    if priority == "high" then Red
    else if priority == "medium" then Yellow
    else if priority == "low" then Blue
    else Gray
  }

  /**
   * `getPriorityText`, on the priority string: a known priority gets its own
   * label, any other string Medium's.
   */
  function PriorityText(priority: string): (text: string)
    ensures forall p :: priority == PriorityName(p) ==> text == Label(p)
    ensures (forall p :: priority != PriorityName(p)) ==> text == Label(Medium)
  {
    assert PriorityName(High) == "high" && PriorityName(Medium) == "medium" && PriorityName(Low) == "low";
    if priority == "high" then "High"
    else if priority == "medium" then "Medium"
    else if priority == "low" then "Low"
    else "Medium"
  }

  /** What each priority is meant to look like. */
  function Label(p: Priority): string {
    match p
    case Low => "Low"
    case Medium => "Medium"
    case High => "High"
  }

  function IconOf(p: Priority): Icon {
    match p
    case Low => LowPriorityIcon
    case Medium => MediumPriorityIcon
    case High => HighPriorityIcon
  }

  function ColourOf(p: Priority): Colour {
    match p
    case Low => Blue
    case Medium => Yellow
    case High => Red
  }

  /** A card shows its task's priority, medium when it has none, and never the gray fallback. */
  lemma CardPriorityDisplay(task: Task)
    ensures PriorityText(CardPriority(task)) == Label(EffectivePriority(task))
    ensures PriorityIcon(CardPriority(task)) == IconOf(EffectivePriority(task))
    ensures PriorityColour(CardPriority(task)) != Gray
    ensures task.priority.None? ==> PriorityText(CardPriority(task)) == "Medium"
  {
  }

  /**
   * `task.id.split('-').pop()`: the displayed id never holds a `-`; it is the
   * whole id when the id has none, and otherwise the end of the id right
   * after its last `-`.
   */
  function DisplayId(id: string): (shown: string)
    ensures '-' !in shown
    ensures |shown| <= |id| && shown == id[|id| - |shown|..]
    ensures '-' !in id ==> shown == id
    ensures '-' in id ==> |shown| < |id| && id[|id| - |shown| - 1] == '-'
  {
    JsString.LastPiece(id, '-');
    JsString.Last(JsString.Split(id, '-'))
  }

  /** The card's own interface state. */
  class CardState {
    var isEditingTitle: bool
    var showPriorityMenu: bool

    constructor ()
      ensures !isEditingTitle && !showPriorityMenu
    {
      isEditingTitle := false;
      showPriorityMenu := false;
    }

    /** Clicking the title opens it for editing. */
    method ClickTitle()
      requires !isEditingTitle
      modifies this`isEditingTitle
      ensures isEditingTitle
    {
      isEditingTitle := true;
    }

    /** Typing in the title issues a copy of the task with the new title; the input stays open. */
    method EditTitle(task: Task, value: string) returns (call: Task)
      requires isEditingTitle
      ensures ChangesOnly(task, call, TitleField) && call.title == value
    {
      call := WithTitle(task, value);
    }

    /** Leaving the title input ends editing. */
    method BlurTitle()
      requires isEditingTitle
      modifies this`isEditingTitle
      ensures !isEditingTitle
    {
      isEditingTitle := false;
    }

    /** Enter ends editing; any other key leaves it on. */
    method TitleKeyPress(key: string)
      requires isEditingTitle
      modifies this`isEditingTitle
      ensures isEditingTitle <==> key != "Enter"
    {
      if key == "Enter" {
        isEditingTitle := false;
      }
    }

    /** The priority button opens a closed menu and closes an open one. */
    method TogglePriorityMenu()
      modifies this`showPriorityMenu
      ensures showPriorityMenu == !old(showPriorityMenu)
    {
      showPriorityMenu := !showPriorityMenu;
    }

    /** Picking a priority issues the update and closes the menu. */
    method ChangePriority(task: Task, newPriority: Priority) returns (call: Task)
      requires showPriorityMenu
      modifies this`showPriorityMenu
      ensures call == WithPriority(task, newPriority)
      ensures !showPriorityMenu && isEditingTitle == old(isEditingTitle)
    {
      call := WithPriority(task, newPriority);
      showPriorityMenu := false;
    }

    /** A click outside an open menu closes it. */
    method ClickOutside()
      requires showPriorityMenu
      modifies this`showPriorityMenu
      ensures !showPriorityMenu
    {
      showPriorityMenu := false;
    }
  }
}
