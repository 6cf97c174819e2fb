/**
 * One task row of the list: a status badge coloured by status, the completed
 * styling, a toggle button that is disabled once the task is Completed, and
 * the delete button. The buttons hand the task's id (and status) to the
 * handlers of the list view.
 */
module TaskCard {
  import opened Wrappers
  import opened TaskModel
  import Badge

  /** `badgecolor`: the four statuses have their colours, anything else is gray. */
  function BadgeColor(status: string): (c: string)
    ensures status == PENDING ==> c == "blue"
    ensures status == RUNNING ==> c == "yellow"
    ensures status == COMPLETED ==> c == "green"
    ensures status == FAILED ==> c == "red"
    ensures !IsTaskStatus(status) ==> c == "gray"
  {
    match status
    case "Pending" => "blue"
    case "Running" => "yellow"
    case "Completed" => "green"
    case "Failed" => "red"
    case _ => "gray"
  }

  /** The four statuses get four distinct colours, none of them gray. */
  lemma StatusColorsDistinct(s: string, t: string)
    requires IsTaskStatus(s) && IsTaskStatus(t)
    ensures BadgeColor(s) != "gray"
    ensures s != t ==> BadgeColor(s) != BadgeColor(t)
  {
  }

  /**
   * Badge composed with `badgecolor`: every status selects a class of the
   * table, and exactly the four statuses select a non-gray one.
   */
  lemma StatusBadgeClass(status: string)
    ensures Badge.SelectedColorClass(BadgeColor(status)) in Badge.ColorClasses.Values
    ensures Badge.SelectedColorClass(BadgeColor(status)) != Badge.GRAY_CLASS <==> IsTaskStatus(status)
  {
    Badge.GrayOnlyForGrayOrUnknown(BadgeColor(status));
  }

  /** `isCompleted`: the task's status is exactly "Completed", one of the four schema values. */
  function IsCompleted(t: Task): (b: bool)
    ensures b <==> t.status == COMPLETED
    ensures b ==> IsTaskStatus(t.status)
  {
    t.status == COMPLETED
  }

  datatype Button = Button(caption: string, disabled: bool)

  /** The toggle button: disabled, and labelled "Completed", exactly when the task is completed. */
  function ToggleButton(t: Task): (b: Button)
    ensures b.disabled <==> t.status == COMPLETED
    ensures b.caption == (if t.status == COMPLETED then "Completed" else "Mark Complete")
  {
    Button(if IsCompleted(t) then "Completed" else "Mark Complete", IsCompleted(t))
  }

  datatype Click = ToggleClick | DeleteClick

  /** The calls the card makes into the list view's handlers. */
  datatype Callback = OnToggleComplete(id: string, status: string) | OnDelete(id: string)

  /**
   * A click on one of the card's buttons: delete hands over the task's id,
   * toggle its id and current status; a disabled button fires nothing.
   */
  function HandleClick(t: Task, click: Click): (cb: Option<Callback>)
    ensures click.DeleteClick? ==> cb == Some(OnDelete(t.id))
    ensures click.ToggleClick? && IsCompleted(t) ==> cb.None?
    ensures click.ToggleClick? && !IsCompleted(t) ==> cb == Some(OnToggleComplete(t.id, t.status))
  {
    match click
    case DeleteClick => Some(OnDelete(t.id))
    case ToggleClick => if ToggleButton(t).disabled then None else Some(OnToggleComplete(t.id, t.status))
  }

  /** The rendered card: title and description as stored, the badge, the toggle button. */
  datatype Card = Card(title: string, description: string, struckThrough: bool, badge: Badge.Span, toggle: Button)

  function Render(t: Task): (c: Card)
    ensures c.title == t.title && c.description == t.description
    ensures c.struckThrough <==> IsCompleted(t)
    ensures c.badge.text == t.status
    ensures c.badge.className == Badge.SelectedColorClass(BadgeColor(t.status))
    ensures c.toggle.disabled <==> IsCompleted(t)
  {
    Card(t.title, t.description, IsCompleted(t), Badge.Render(t.status, BadgeColor(t.status)), ToggleButton(t))
  }
}
