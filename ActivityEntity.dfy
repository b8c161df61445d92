/**
 * The Activity record the controller writes: every field nullable, changed
 * in place through its setters.
 */
module ActivityEntity {
  import opened Wrappers
  import opened Php
  import opened Repositories

  /**
   * A `\DateTime`: one built from a request value (`new \DateTime($v)`), or
   * the current time (`new \DateTime()`), given as an instant.
   */
  datatype DateTime = Parsed(text: Value) | At(instant: int)

  /** The values of an Activity's fields at one moment. */
  datatype ActivityState = ActivityState(
    subject: Option<Value>,
    note: Option<Value>,
    dueDate: Option<DateTime>,
    startDate: Option<DateTime>,
    activityStatus: Option<Entity>,
    activityPriority: Option<Entity>,
    activityType: Option<Entity>,
    assignedContact: Option<Entity>,
    account: Option<Entity>,
    contact: Option<Entity>,
    created: Option<DateTime>,
    creator: Option<User>,
    changed: Option<DateTime>,
    changer: Option<User>)

  /** The state of a freshly constructed Activity: every field null. */
  const Blank := ActivityState(None, None, None, None, None, None, None,
                               None, None, None, None, None, None, None)

  class Activity {
    var subject: Option<Value>
    var note: Option<Value>
    var dueDate: Option<DateTime>
    var startDate: Option<DateTime>
    var activityStatus: Option<Entity>
    var activityPriority: Option<Entity>
    var activityType: Option<Entity>
    var assignedContact: Option<Entity>
    var account: Option<Entity>
    var contact: Option<Entity>
    var created: Option<DateTime>
    var creator: Option<User>
    var changed: Option<DateTime>
    var changer: Option<User>

    /** `new ActivityEntity()`. */
    constructor ()
      ensures State() == Blank
    {
      subject, note, dueDate, startDate := None, None, None, None;
      activityStatus, activityPriority, activityType := None, None, None;
      assignedContact, account, contact := None, None, None;
      created, creator, changed, changer := None, None, None, None;
    }

    /** The current values of all fields. */
    function State(): ActivityState
      reads this
    {
      ActivityState(subject, note, dueDate, startDate, activityStatus, activityPriority,
                    activityType, assignedContact, account, contact, created, creator,
                    changed, changer)
    }
  }
}
