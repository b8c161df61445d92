/**
 * The activity write pipeline of ActivityController as functions on
 * ActivityState: `processRequiredData`, `processActivityData` and the
 * creator stamping of `postAction`.  Each function gives the state the
 * Activity is left in and how processing ended; the controller's methods
 * are proved to leave their Activity in exactly this state.
 */
module ActivitySpec {
  import opened Wrappers
  import opened Php
  import opened Repositories
  import opened ActivityEntity

  /**
   * The request parameters the controller reads, each standing for the name
   * it is read under: `subject`, `dueDate`, `assignedContact`, `note`,
   * `activityStatus`, `activityPriority`, `activityType`, `startDate`,
   * `account`, `contact`, and for the list `type` and `flat`.
   */
  datatype Param =
    | Subject | DueDate | AssignedContact | Note | ActivityStatus | ActivityPriority
    | ActivityType | StartDate | Account | Contact | Type | Flat

  /** A request: the value of each parameter it carries. */
  type Request = map<Param, Value>

  /** How processing ended: normally, with EntityNotFoundException, or with another RestException. */
  datatype Outcome = Ok | NotFound(entityName: string, id: Value) | Rest(message: string)

  const MissingRequiredMessage := "There is no name or dueDate or assignedContact for the activity given"
  const NoOwnerMessage := "No account or contact set!"

  /** The HTTP status a request ends with: 404 for not-found, 400 for any other RestException. */
  function StatusCode(o: Outcome): (code: int)
    ensures code == 200 <==> o.Ok?
    ensures code == 404 <==> o.NotFound?
    ensures code == 400 <==> o.Rest?
  {
    match o
    case Ok => 200
    case NotFound(_, _) => 404
    case Rest(_) => 400
  }

  /** The state an Activity is left in, and how processing ended. */
  datatype Step = Step(state: ActivityState, outcome: Outcome)

  /** Everything the lookups read: the entity manager, the account entity's name, the contact repository. */
  datatype Store = Store(em: EntityManager<Entity>, accountEntityName: string, contacts: ContactRepository)

  /** Every entity the controller looks up through the entity manager has a repository. */
  predicate Registered(store: Store) {
    && ActivityStatusEntityName in store.em
    && ActivityPriorityEntityName in store.em
    && ActivityTypeEntityName in store.em
    && store.accountEntityName in store.em
  }

  /** subject, dueDate or assignedContact is loosely null (absent, null, false, 0, "" or []). */
  predicate MissingRequired(request: Request) {
    || LooselyNull(Get(request, Subject))
    || LooselyNull(Get(request, DueDate))
    || LooselyNull(Get(request, AssignedContact))
  }

  function AssignedContactId(request: Request): Value {
    Index(Get(request, AssignedContact), "id")
  }

  /** `processRequiredData`. */
  function RequiredData(s: ActivityState, request: Request, contacts: ContactRepository,
                        now: int, user: User): (r: Step)
    ensures r.outcome.Rest? <==> MissingRequired(request)
    ensures r.outcome.Rest? ==> r == Step(s, Rest(MissingRequiredMessage))
    ensures r.outcome.NotFound? ==>
              r.outcome == NotFound(contacts.className, AssignedContactId(request))
    ensures r.state.created == s.created && r.state.creator == s.creator
  {
    var subject := Get(request, Subject);
    var dueDate := Get(request, DueDate);
    var assignedContactData := Get(request, AssignedContact);
    if LooselyNull(subject) || LooselyNull(dueDate) || LooselyNull(assignedContactData) then
      Step(s, Rest(MissingRequiredMessage))
    else
      var s1 := s.(subject := Some(subject), dueDate := Some(Parsed(dueDate)));
      var id := Index(assignedContactData, "id");
      if IsNull(id) then
        Step(s1.(changed := Some(At(now)), changer := Some(user)), Ok)
      else
        match RetrieveContactById(contacts, id)
        case Missing(name, missingId) => Step(s1, NotFound(name, missingId))
        case Found(c) =>
          Step(s1.(assignedContact := Some(c), changed := Some(At(now)), changer := Some(user)), Ok)
  }

  /** `processActivityData`: the required data, then note, status, priority, type and startDate, then the owner. */
  function ActivityData(s: ActivityState, request: Request, store: Store, now: int, user: User): (r: Step)
    requires Registered(store)
    ensures r.state.created == s.created && r.state.creator == s.creator
    ensures r.outcome.Ok? ==> (r.state.account.Some? <==> r.state.contact.None?)
    ensures r.outcome.Rest? ==> r.outcome.message in {MissingRequiredMessage, NoOwnerMessage}
  {
    var required := RequiredData(s, request, store.contacts, now, user);
    if !required.outcome.Ok? then required
    else
      var details := Details(required.state, request, store);
      if !details.outcome.Ok? then details
      else Owner(details.state, request, store)
  }

  /** The three optional references `processActivityData` resolves, in the order it resolves them. */
  datatype Reference = StatusReference | PriorityReference | TypeReference {
    /** The request parameter holding the reference. */
    function Parameter(): Param {
      match this
      case StatusReference => ActivityStatus
      case PriorityReference => ActivityPriority
      case TypeReference => ActivityType
    }

    /** The entity the reference names. */
    function EntityName(): string {
      match this
      case StatusReference => ActivityStatusEntityName
      case PriorityReference => ActivityPriorityEntityName
      case TypeReference => ActivityTypeEntityName
    }
  }

  /** The setter of the Activity field that holds the reference. */
  function WithReference(s: ActivityState, ref: Reference, e: Entity): ActivityState {
    match ref
    case StatusReference => s.(activityStatus := Some(e))
    case PriorityReference => s.(activityPriority := Some(e))
    case TypeReference => s.(activityType := Some(e))
  }

  /** One optional reference: an absent (null) parameter changes nothing, a present one must name a row. */
  function ResolveReference(s: ActivityState, ref: Reference, request: Request, store: Store): (r: Step)
    requires Registered(store)
    ensures var param := Get(request, ref.Parameter());
            var found := Find(store.em[ref.EntityName()], Index(param, "id"));
            && (r.outcome.Ok? <==> IsNull(param) || found.Some?)
            && (IsNull(param) ==> r.state == s)
            && (r.outcome.Ok? && !IsNull(param) ==> r.state == WithReference(s, ref, found.value))
    ensures r.outcome.Ok? || r.outcome == NotFound(ref.EntityName(), Index(Get(request, ref.Parameter()), "id"))
    ensures !r.outcome.Ok? ==> r.state == s
    ensures r.state == s.(activityStatus := r.state.activityStatus,
                          activityPriority := r.state.activityPriority,
                          activityType := r.state.activityType)
  {
    var param := Get(request, ref.Parameter());
    if IsNull(param) then Step(s, Ok)
    else
      match GetEntityById(store.em, ref.EntityName(), Index(param, "id"))
      case Missing(n, id) => Step(s, NotFound(n, id))
      case Found(e) => Step(WithReference(s, ref, e), Ok)
  }

  /** The optional fields of `processActivityData`: note, status, priority, type and startDate. */
  function Details(s: ActivityState, request: Request, store: Store): (r: Step)
    requires Registered(store)
    ensures r.outcome.Ok? || r.outcome.NotFound?
    ensures r.state == s.(note := r.state.note, startDate := r.state.startDate,
                          activityStatus := r.state.activityStatus,
                          activityPriority := r.state.activityPriority,
                          activityType := r.state.activityType)
  {
    var note := Get(request, Note);
    var s1 := if IsNull(note) then s else s.(note := Some(note));
    var status := ResolveReference(s1, StatusReference, request, store);
    if !status.outcome.Ok? then status
    else
    var priority := ResolveReference(status.state, PriorityReference, request, store);
    if !priority.outcome.Ok? then priority
    else
    var activityType := ResolveReference(priority.state, TypeReference, request, store);
    if !activityType.outcome.Ok? then activityType
    else
    var startDate := Get(request, StartDate);
    var s4 := activityType.state;
    Step(if IsNull(startDate) then s4 else s4.(startDate := Some(Parsed(startDate))), Ok)
  }

  /** The owner step of `processActivityData`: account if given, else contact, else an error. */
  function Owner(s: ActivityState, request: Request, store: Store): (r: Step)
    requires Registered(store)
    ensures r.state == s.(account := r.state.account, contact := r.state.contact)
    ensures r.outcome.Ok? ==> (r.state.account.Some? <==> r.state.contact.None?)
  {
    var account := Get(request, Account);
    var contact := Get(request, Contact);
    if !IsNull(account) then
      match GetEntityById(store.em, store.accountEntityName, Index(account, "id"))
      case Missing(n, id) => Step(s, NotFound(n, id))
      case Found(a) => Step(s.(account := Some(a), contact := None), Ok)
    else if IsNull(contact) then
      Step(s, Rest(NoOwnerMessage))
    else
      match RetrieveContactById(store.contacts, Index(contact, "id"))
      case Missing(n, id) => Step(s, NotFound(n, id))
      case Found(c) => Step(s.(contact := Some(c), account := None), Ok)
  }

  /** `postAction`: process a new Activity, then stamp creator and created once processing succeeded. */
  function Create(request: Request, store: Store, now: int, user: User): (r: Step)
    requires Registered(store)
    ensures r.outcome.Ok? ==> r.state.creator == Some(user) && r.state.created == Some(At(now))
    ensures !r.outcome.Ok? ==> r.state.creator == None && r.state.created == None
    ensures var processed := ActivityData(Blank, request, store, now, user);
            && r.outcome == processed.outcome
            && r.state == processed.state.(creator := r.state.creator, created := r.state.created)
  {
    var processed := ActivityData(Blank, request, store, now, user);
    if processed.outcome.Ok? then
      Step(processed.state.(creator := Some(user), created := Some(At(now))), Ok)
    else
      processed
  }
}
